/**
 * The POST handler of src/app/api/auth/sign-in/route.ts: validate the
 * input, look the user up by email, compare the password with the stored
 * hash, and issue a token. It only reads the user collection.
 */
module SignInRoute {
  import opened Wrappers
  import opened Auth

  /** The reply of the handler when the collection holds `users` and the clock reads `now`. */
  function Authenticate(libs: Libs, users: Users, email: Email, password: Password, now: int): (r: Response)
    ensures r.status == 200 || r.status == 401 || r.status == 404
    // success exactly when all three checks pass, and then the token is for the matched user
    ensures r.status == 200 <==>
              libs.validate(email, password) && email in users && libs.compare(password, users[email].password)
    ensures r.token.Some? <==> r.status == 200
    ensures r.status == 200 ==> r.token == Some(IssueToken(libs, users[email].id, now))
    // the three failures, in the order the checks run
    ensures !libs.validate(email, password) ==> r == Response(404, "Invalid inputs", None)
    ensures libs.validate(email, password) && email !in users ==> r == Response(404, "User not found", None)
    ensures r.status == 401 <==>
              libs.validate(email, password) && email in users && !libs.compare(password, users[email].password)
  {
    if !libs.validate(email, password) then
      Response(404, "Invalid inputs", None)
    else if email !in users then
      Response(404, "User not found", None)
    else
      var user := users[email];
      if !libs.compare(password, user.password) then
        Response(401, "Password incorrect", None)
      else
        Response(200, "sign-in", Some(IssueToken(libs, user.id, now)))
  }

  /**
   * The password comparison is never reached for an unknown email: the reply
   * does not depend on what compare would say.
   */
  lemma UnknownEmailIgnoresCompare(libs: Libs, other: (Password, Hash) -> bool, users: Users,
                                   email: Email, password: Password, now: int)
    requires email !in users
    ensures Authenticate(libs, users, email, password, now)
         == Authenticate(libs.(compare := other), users, email, password, now)
  {
  }

  /** Invalid input is reported before the lookup, whatever the collection holds. */
  lemma InvalidInputIgnoresUsers(libs: Libs, users: Users, others: Users,
                                 email: Email, password: Password, now: int)
    requires !libs.validate(email, password)
    ensures Authenticate(libs, users, email, password, now) == Authenticate(libs, others, email, password, now)
  {
  }

  /**
   * A wrong password for a known email is always a 401 and never carries a
   * token, in particular no token for another user.
   */
  lemma WrongPasswordIsUnauthorized(libs: Libs, users: Users, email: Email, password: Password, now: int)
    requires libs.validate(email, password) && email in users
    requires !libs.compare(password, users[email].password)
    ensures Authenticate(libs, users, email, password, now) == Response(401, "Password incorrect", None)
  {
  }

  /** Only the matched user's entry matters: other users do not change the reply. */
  lemma ReplyDependsOnlyOnMatchedUser(libs: Libs, users: Users, others: Users,
                                      email: Email, password: Password, now: int)
    requires (email in users) == (email in others)
    requires email in users ==> users[email] == others[email]
    ensures Authenticate(libs, users, email, password, now) == Authenticate(libs, others, email, password, now)
  {
  }
}
