/**
 * The POST handler of src/app/api/auth/sign-up/route.ts: validate the
 * input, refuse an email that is already registered, hash the password,
 * insert the new user into the collection, and issue a token for it.
 */
module SignUpRoute {
  import opened Wrappers
  import opened Auth
  import SignInRoute

  /** The reply of the handler; `id` is the id the insert would give the new user. */
  function SignUpReply(libs: Libs, users: Users, id: UserId, email: Email, password: Password, now: int): (r: Response)
    ensures r.status == 200 || r.status == 400 || r.status == 409
    // validation comes first: invalid input is a 400 even for a registered email
    ensures !libs.validate(email, password) ==> r == Response(400, "Invalid inputs", None)
    ensures libs.validate(email, password) && email in users ==> r == Response(409, "User already exists", None)
    ensures r.status == 200 <==> libs.validate(email, password) && email !in users
    // on success the token carries the new user's id as its only claim
    ensures r.token.Some? <==> r.status == 200
    ensures r.status == 200 ==> r.token == Some(IssueToken(libs, id, now))
  {
    if !libs.validate(email, password) then
      Response(400, "Invalid inputs", None)
    else if email in users then
      Response(409, "User already exists", None)
    else
      Response(200, "User created successfully", Some(IssueToken(libs, id, now)))
  }

  /** The collection after the handler ran. */
  function SignUpStore(libs: Libs, users: Users, id: UserId, email: Email, password: Password, salt: Salt): (s: Users)
    // both refusals leave the collection as it was
    ensures !libs.validate(email, password) || email in users ==> s == users
    // a success adds exactly one user, for that email, holding the hash and never the password itself
    ensures libs.validate(email, password) && email !in users ==>
              && s.Keys == users.Keys + {email}
              && s[email] == UserRecord(id, libs.hash(password, SaltRounds, salt))
              && forall e :: e in users ==> s[e] == users[e]
  {
    if !libs.validate(email, password) || email in users then users
    else users[email := UserRecord(id, libs.hash(password, SaltRounds, salt))]
  }

  /** The user collection the two handlers share; the id generator is a counter. */
  class UserCollection {
    var users: Users
    var nextId: UserId

    ghost predicate Valid()
      reads this
    {
      WellFormed(users, nextId)
    }

    constructor ()
      ensures Valid() && users == map[] && nextId == 0
    {
      users := map[];
      nextId := 0;
    }

    /** Sign-up: `salt` is the randomness bcrypt draws, `now` the time jwt stamps. */
    method SignUp(libs: Libs, email: Email, password: Password, salt: Salt, now: int) returns (r: Response)
      requires Valid()
      modifies this
      ensures Valid()
      ensures r == SignUpReply(libs, old(users), old(nextId), email, password, now)
      ensures users == SignUpStore(libs, old(users), old(nextId), email, password, salt)
      ensures nextId == if r.status == 200 then old(nextId) + 1 else old(nextId)
      // the id in a new token belongs to no user stored before
      ensures r.status == 200 ==> forall e :: e in old(users) ==> old(users)[e].id != old(nextId)
    {
      if !libs.validate(email, password) {
        return Response(400, "Invalid inputs", None);
      }
      if email in users {
        return Response(409, "User already exists", None);
      }
      var hashed := libs.hash(password, SaltRounds, salt);
      var id := nextId;
      users := users[email := UserRecord(id, hashed)];
      nextId := nextId + 1;
      r := Response(200, "User created successfully", Some(IssueToken(libs, id, now)));
    }

    /** Sign-in reads the collection and changes nothing: this method has no modifies clause. */
    method SignIn(libs: Libs, email: Email, password: Password, now: int) returns (r: Response)
      ensures r == SignInRoute.Authenticate(libs, users, email, password, now)
    {
      r := SignInRoute.Authenticate(libs, users, email, password, now);
    }
  }

  /** Sign-up keeps the store well formed: ids stay unique and below the generator. */
  lemma SignUpPreservesWellFormed(libs: Libs, users: Users, id: UserId, email: Email, password: Password, salt: Salt, now: int)
    requires WellFormed(users, id)
    ensures WellFormed(SignUpStore(libs, users, id, email, password, salt),
                       if SignUpReply(libs, users, id, email, password, now).status == 200 then id + 1 else id)
  {
  }

  /**
   * In a well-formed collection a sign-in token names exactly one user: no
   * other email's record holds the id it carries.
   */
  lemma SignInTokenNamesOneUser(libs: Libs, users: Users, nextId: UserId,
                                email: Email, password: Password, now: int, other: Email)
    requires WellFormed(users, nextId)
    requires SignInRoute.Authenticate(libs, users, email, password, now).status == 200
    requires other in users && other != email
    ensures users[other].id != users[email].id
  {
  }

  /**
   * After a successful sign-up in a well-formed collection, the new user's
   * id is held by no other user, so the sign-up token names only it.
   */
  lemma SignUpIdIsFresh(libs: Libs, users: Users, id: UserId, email: Email, password: Password,
                        salt: Salt, now: int, other: Email)
    requires WellFormed(users, id)
    requires SignUpReply(libs, users, id, email, password, now).status == 200
    requires other in SignUpStore(libs, users, id, email, password, salt) && other != email
    ensures SignUpStore(libs, users, id, email, password, salt)[other].id != id
  {
  }

  /** After a successful sign-up, the same email is refused with 409 and nothing changes. */
  lemma SecondSignUpConflicts(libs: Libs, users: Users, id: UserId, email: Email, password: Password,
                              salt: Salt, now: int, password2: Password, salt2: Salt, now2: int)
    requires SignUpReply(libs, users, id, email, password, now).status == 200
    requires libs.validate(email, password2)
    ensures var after := SignUpStore(libs, users, id, email, password, salt);
            && SignUpReply(libs, after, id + 1, email, password2, now2) == Response(409, "User already exists", None)
            && SignUpStore(libs, after, id + 1, email, password2, salt2) == after
  {
  }

  /**
   * Sign-up then sign-in: if bcrypt accepts a password against its own hash,
   * the registered credentials log in and the token is for the new user.
   */
  lemma SignUpThenSignIn(libs: Libs, users: Users, id: UserId, email: Email, password: Password,
                         salt: Salt, now: int, later: int)
    requires CompareAcceptsOwnHash(libs)
    requires SignUpReply(libs, users, id, email, password, now).status == 200
    ensures SignInRoute.Authenticate(libs, SignUpStore(libs, users, id, email, password, salt), email, password, later)
         == Response(200, "sign-in", Some(IssueToken(libs, id, later)))
  {
    assert libs.compare(password, libs.hash(password, SaltRounds, salt));
  }

  /** A sign-up followed by a second sign-up with the same email, on a fresh collection. */
  method RegisterTwice(libs: Libs, email: Email, password: Password, salt: Salt, now: int)
    returns (first: Response, second: Response)
    requires libs.validate(email, password)
    ensures first == Response(200, "User created successfully", Some(IssueToken(libs, 0, now)))
    ensures second == Response(409, "User already exists", None)
  {
    var store := new UserCollection();
    first := store.SignUp(libs, email, password, salt, now);
    second := store.SignUp(libs, email, password, salt, now);
  }

  /** A sign-up followed by a sign-in with the same credentials, on a fresh collection. */
  method RegisterThenLogIn(libs: Libs, email: Email, password: Password, salt: Salt, now: int, later: int)
    returns (signedUp: Response, signedIn: Response)
    requires libs.validate(email, password)
    requires CompareAcceptsOwnHash(libs)
    ensures signedUp.status == 200 && signedUp.token == Some(IssueToken(libs, 0, now))
    ensures signedIn.status == 200 && signedIn.token == Some(IssueToken(libs, 0, later))
  {
    var store := new UserCollection();
    signedUp := store.SignUp(libs, email, password, salt, now);
    signedIn := store.SignIn(libs, email, password, later);
    SignUpThenSignIn(libs, map[], 0, email, password, salt, now, later);
  }
}
