# A verified model of the movies app's session gate, credential store and pager

The application is a small Next.js movie list. Three pieces of it carry logic,
and this project models each one in Dafny and proves properties about it.

- **Session gate** (`src/middleware.ts`). This is a pure decision with two inputs: the `token` cookie and the request URL. The result is `Next` or `Redirect(url)`. The cloned URL is a record, and the redirect is a record update of its `pathname`.
- **Credential store** (`src/app/api/auth/sign-up/route.ts`, `src/app/api/auth/sign-in/route.ts`). The user collection is a `map` from email to (id, bcrypt hash). It is a field of the class `UserCollection`. Sign-up is a method that changes the map. Sign-in is a pure function over the map, and the class has a read-only method that returns its result. The replies carry the HTTP status and message each handler returns. The zod validator, `bcrypt.hash`, `bcrypt.compare` and `jwt.sign` are function-valued fields of a `Libs` record. The randomness and the clock they use become explicit parameters: bcrypt's salt and the time jwt stamps into the token.
- **Dashboard and pager** (`src/components/Dashboard.tsx`, `src/components/Pagination2.tsx`). The page count is `ceil(totalData / 8)`. The component's four state hooks are fields of the class `DashBoard`, and the fetch is a method on it. The view choice and the pager (Prev, numbered buttons, Next) are pure functions. The main result is that, from a page in `1..totalPages`, every enabled click requests a page in `1..totalPages`.

Files: `wrappers.dfy` (Option), `middleware.dfy`, `auth.dfy` (shared types), `signin.dfy`, `signup.dfy`, `pagination.dfy`, `dashboard.dfy`.

Notes on the model:
- `Dashboard.tsx` imports `./Pagination`, which is not part of this model. `src/components/Pagination2.tsx` is taken as the pager it renders.
- The ObjectId that Mongoose creates when `new User(...)` builds the document, before `save()`, is modelled as a counter in `UserCollection`. `Valid()` says that every stored id is below the counter and that no two users share an id. `SignUp` relies on it to promise that a new token's id belongs to no user stored before. `SignInTokenNamesOneUser` and `SignUpIdIsFresh` use it to show that a token names exactly one user.
- `totalData` comes from the server's JSON, so it is an `int`. `(n + 7) / 8` with floor division equals `Math.ceil(n / 8)` for every integer `n`.
- `Array.from({ length: n })` gives no elements when `n` is negative, so the numbered buttons number `max(totalPages, 0)`.
- `CompareAcceptsOwnHash` says that bcrypt accepts a password against a hash made from that password. This is library behaviour, not something this code promises. It is a hypothesis of the round-trip lemma and the client method only, and is never assumed globally.

## Model

| member | source | states |
|---|---|---|
| `Middleware.Gate` | src/middleware.ts:4-20 | Redirects exactly when there is no token and the path is in the protected set, or there is a token and the path is `/sign-in` or `/sign-up`. A redirect goes to `/sign-in` without a token and to `/movies` with one. It changes only the pathname. |
| `Middleware.NoTokenProtectedRedirectsToSignIn` | src/middleware.ts:7-12 | Without a token, `/`, `/add` and the literal `/edit/*` redirect to `/sign-in`. |
| `Middleware.NoTokenElsewherePasses` | src/middleware.ts:8-19 | Without a token, every path outside the protected set passes. |
| `Middleware.NoTokenUnprotectedExamples` | src/middleware.ts:7-9 | Without a token, `/edit/42`, `/sign-in` and `/movies` pass, because membership is exact. |
| `Middleware.EmptyTokenIsNoToken` | src/middleware.ts:5-8 | An empty cookie value decides exactly as a missing cookie does. |
| `Middleware.TokenOnAuthPageRedirectsToMovies` | src/middleware.ts:13-16 | With a token, `/sign-in` and `/sign-up` redirect to `/movies`. |
| `Middleware.TokenElsewherePasses` | src/middleware.ts:13-19 | With a token, every other path passes, the protected ones included. |
| `Middleware.NoRedirectLoop` | src/middleware.ts:7-19 | Requesting a redirect's target with the same cookie is let through. |
| `Middleware.EditPageUnprotected` | src/middleware.ts:7-9 | As written, `/edit/42` without a token passes. The intended gate redirects it to `/sign-in`. |
| `Middleware.GateIntended` | src/middleware.ts:7-19 | The same decision table, with the edit entry read as every `/edit/<id>` path. |
| `Middleware.IntendedGuardsEditPages` | src/middleware.ts:7-11 | With the intended gate, every `/edit/<id>` without a token redirects to `/sign-in`. |
| `Middleware.IntendedNoRedirectLoop` | src/middleware.ts:7-19 | The intended gate never redirects a redirect's target. |
| `Middleware.IntendedAgreesOffEditPages` | src/middleware.ts:7-19 | Off the edit pages, the intended gate and the written gate decide alike. |
| `SignInRoute.Authenticate` | src/app/api/auth/sign-in/route.ts:45-70 | The status is 200, 401 or 404. It is 200 exactly when validation, lookup and compare all pass, and then the token is signed for the matched user's id. Invalid input gives 404 "Invalid inputs". An unknown email gives 404 "User not found". A failed compare on a known email gives 401. Only a 200 carries a token. |
| `SignInRoute.UnknownEmailIgnoresCompare` | src/app/api/auth/sign-in/route.ts:51-58 | For an unknown email the reply does not depend on `compare`, so compare is never reached. |
| `SignInRoute.InvalidInputIgnoresUsers` | src/app/api/auth/sign-in/route.ts:45-54 | Validation runs before the lookup: for invalid input, the collection's contents do not matter. |
| `SignInRoute.WrongPasswordIsUnauthorized` | src/app/api/auth/sign-in/route.ts:57-60 | A wrong password for a known email gives 401 "Password incorrect" with no token. |
| `SignInRoute.ReplyDependsOnlyOnMatchedUser` | src/app/api/auth/sign-in/route.ts:51-70 | The reply depends only on the entry for the given email, never on other users. |
| `SignUpRoute.SignUpReply` | src/app/api/auth/sign-up/route.ts:46-72 | Invalid input gives 400, even for a registered email. A registered email gives 409. Otherwise it gives 200 with a token signed for the new id, and that id is the only claim. Only a 200 carries a token. |
| `SignUpRoute.SignUpStore` | src/app/api/auth/sign-up/route.ts:52-62 | Both refusals leave the collection unchanged. A success adds exactly one key, the email. Its record holds the new id and `hash(password, 10, salt)`. Every other entry is unchanged. |
| `SignUpRoute.UserCollection.SignUp` | src/app/api/auth/sign-up/route.ts:46-72 | Keeps `Valid()`. The reply is `SignUpReply`, the new collection is `SignUpStore`, and the id counter advances only on success. On success, the id in the token belongs to no user stored before. |
| `SignUpRoute.UserCollection.SignIn` | src/app/api/auth/sign-in/route.ts:38-70 | Returns `Authenticate` over the current collection. It has no modifies clause, so sign-in changes nothing. |
| `SignUpRoute.SignUpPreservesWellFormed` | src/app/api/auth/sign-up/route.ts:52-62 | Sign-up keeps ids unique and below the id counter. |
| `SignUpRoute.SignInTokenNamesOneUser` | src/app/api/auth/sign-in/route.ts:51-70 | In a well-formed collection, a successful sign-in carries the matched user's id, and no other email's record holds that id. |
| `SignUpRoute.SignUpIdIsFresh` | src/app/api/auth/sign-up/route.ts:58-72 | After a successful sign-up in a well-formed collection, no user but the new one holds the new id. |
| `SignUpRoute.SecondSignUpConflicts` | src/app/api/auth/sign-up/route.ts:52-55 | After a successful sign-up, a valid second sign-up with the same email gives 409 and leaves the collection unchanged. |
| `SignUpRoute.SignUpThenSignIn` | src/app/api/auth/sign-up/route.ts:58-72 | Assumes bcrypt accepts a password against its own hash. Then the credentials just registered sign in with 200, with a token for the new user's id. |
| `SignUpRoute.RegisterTwice` | src/app/api/auth/sign-up/route.ts:52-72 | On a fresh collection, the first sign-up succeeds with a token for the first id, and the second gives 409. |
| `SignUpRoute.RegisterThenLogIn` | src/app/api/auth/sign-up/route.ts:58-72 | On a fresh collection, under the bcrypt hypothesis, sign-up and then sign-in both give 200 with tokens for the same user. |
| `Pagination.Render` | src/components/Pagination2.tsx:16-49 | Prev is disabled exactly on page 1 and requests `currentPage - 1`. Next is disabled exactly when `currentPage == totalPages` and requests `currentPage + 1`. There are `max(totalPages, 0)` numbered buttons; button i is numbered i + 1, requests page i + 1, and is highlighted exactly when it is the current page. |
| `Pagination.Press` | src/components/Pagination2.tsx:21-46 | A click requests a page exactly when its button is enabled and present. |
| `Pagination.NumbersIncrease` | src/components/Pagination2.tsx:27-36 | The button numbers strictly increase from left to right. |
| `Pagination.AtMostOneHighlighted` | src/components/Pagination2.tsx:30 | Two highlighted buttons are the same button. |
| `Pagination.CurrentPageHighlighted` | src/components/Pagination2.tsx:27-30 | On a page in range, the current page's button is present and highlighted. |
| `Pagination.PressKeepsPageInRange` | src/components/Pagination2.tsx:21-46 | From a page in `1..totalPages`, every enabled Prev, Next or numbered click requests a page in `1..totalPages`. |
| `Pagination.PageClickRequestsItsPage` | src/components/Pagination2.tsx:34 | Clicking numbered button i requests page i + 1. |
| `Pagination.NextEnabledWithoutPages` | src/components/Pagination2.tsx:41-46 | Next is disabled only on equality. With zero pages, page 1 still offers Next, and it requests page 2. |
| `Dashboard.TotalPages` | src/components/Dashboard.tsx:11 | The result is the least n with `8 * n >= totalData`. |
| `Dashboard.TotalPagesIsLeast` | src/components/Dashboard.tsx:11 | No smaller page count holds all movies. |
| `Dashboard.TotalPagesExamples` | src/components/Dashboard.tsx:11 | 0, 8 and 17 movies need 0, 1 and 3 pages. |
| `Dashboard.SelectView` | src/components/Dashboard.tsx:43-71 | Loading shows exactly while loading. Otherwise an empty list shows the empty dashboard. Otherwise the grid shows with the pager for `currentPage` and `TotalPages(totalData)`. |
| `Dashboard.DashBoard.constructor` | src/components/Dashboard.tsx:9-13 | The initial state is page 1, a total of 0, no movies, and loading. |
| `Dashboard.DashBoard.BeginFetch` | src/components/Dashboard.tsx:17-19 | Sets loading and requests the current page. |
| `Dashboard.DashBoard.EndFetch` | src/components/Dashboard.tsx:23-31 | A body with `success` replaces the movies and the total. A failed body or a thrown error leaves both unchanged. Loading ends in every case. |
| `Dashboard.DashBoard.FetchMovies` | src/components/Dashboard.tsx:16-32 | Fetches the current page, updates as EndFetch does, and leaves the page unchanged. |
| `Dashboard.DashBoard.HandlePageChange` | src/components/Dashboard.tsx:15-34 | Sets the page. The fetch reruns only when the page changed; otherwise the movies, the total and loading are unchanged. |
| `Dashboard.DashBoard.ClickPager` | src/components/Dashboard.tsx:15-70 | A disabled or absent button changes nothing. An enabled one moves to the page it requests. If that is the current page, nothing else changes. Otherwise that page is fetched: loading ends, and an accepted body replaces the movies and the total while any other result leaves them unchanged. A page in `1..totalPages` stays in range. |
| `Dashboard.Mount` | src/components/Dashboard.tsx:9-34 | Mounting starts from the initial state and fetches page 1 once. |

## Left out

- The `catch` branches that reply 500 (sign-up route lines 73-76, sign-in route lines 71-74). They depend on failures of the database or the libraries, and the model has no such failures. A sign-up 500 does not mean the collection is unchanged. `jwt.sign` (sign-up route lines 65-70) runs after `newUser.save()` (line 62). If it throws, for example because `JWT_SECRET` is unset, the user is already stored, and a retry gets 409.
- `connectMogoDB`, `req.json()` and the MongoDB driver. The collection is a map, so at most one user per email holds by construction. The model does not cover a collection without a unique index on email.
- The zod schema, which lives in `@/models/user` and is not part of this model. `Libs.validate` stands for its verdict. A request body that lacks `email` or `password` is left to that verdict; the model's inputs are always strings.
- bcrypt's algorithm, JWT encoding (RFC 7519) and the secret held in `process.env.JWT_SECRET`. These are the abstract `hash`, `compare` and `sign` fields and `jwtSecret`. "Never the plaintext" is stated as "the stored value is `hash(password, 10, salt)`". Whether that value can equal the password is bcrypt's business.
- The `data: [error]` payload and the `success` flag of the JSON replies. The model keeps the status, the message and the token.
- Async sequencing and React re-render timing. Each handler and each fetch is one sequential step. Loading during a fetch is the state between `BeginFetch` and `EndFetch`.
- The server's movie listing (`/api/movies`, with its page slicing and `totalData`). It is not part of this model. `server` is a parameter that gives the fetch result for each page.
- Markup, styling, `MovieCard`, the loading spinner and the form components.
- Dashboard.DashBoard.ClickPager: keeps the page in range only relative to the page count before the click. The fetch the click triggers can replace `totalData`, and then the page may fall outside the new count.

## Findings

| source | as written | input that shows it | evidently intended | confidence | as-written member | corrected member |
|---|---|---|---|---|---|---|
| src/middleware.ts:7-9 | The protected set holds the literal string `/edit/*` and is tested with exact `Set.has`. | No token and pathname `/edit/42`: the request passes. | Every `/edit/<id>` page redirects to `/sign-in` without a token. | high (not executed) | `Middleware.EditPageUnprotected` | `Middleware.IntendedGuardsEditPages` |
