/**
 * Types shared by the sign-up and sign-in route handlers: the user
 * collection, the foreign libraries they call, and the HTTP reply.
 */
module Auth {
  import opened Wrappers

  type Email = string
  type Password = string
  type Hash = string
  type Salt = string
  type Token = string

  /** The user's document id (a MongoDB ObjectId, created when the document is built, before it is saved). */
  type UserId = nat

  /** The JWT payload `{ user: id }`: the user id is the only claim. */
  datatype Claims = Claims(user: UserId)

  /** A stored user: its id and the bcrypt hash of its password. */
  datatype UserRecord = UserRecord(id: UserId, password: Hash)

  /** The user collection, looked up by email with `findOne({ email })`. */
  type Users = map<Email, UserRecord>

  /** The bcrypt cost factor both handlers rely on. */
  const SaltRounds := 10

  /**
   * The foreign code the handlers call, left abstract:
   * validate is `userSchemaZod.pick({email, password}).safeParse(...).success`,
   * hash is `bcrypt.hash(password, rounds)` with the salt it draws made explicit,
   * compare is `bcrypt.compare`, and sign is `jwt.sign(payload, secret)` at the
   * issue time it stamps into the token.
   */
  datatype Libs = Libs(
    validate: (Email, Password) -> bool,
    hash: (Password, nat, Salt) -> Hash,
    compare: (Password, Hash) -> bool,
    sign: (Claims, string, int) -> Token,
    jwtSecret: string)

  /** The JSON reply: its HTTP status, its message and, on success, the token. */
  datatype Response = Response(status: nat, message: string, token: Option<Token>)

  /** The token both handlers issue for a user at a given time. */
  function IssueToken(libs: Libs, id: UserId, now: int): Token
  {
    libs.sign(Claims(id), libs.jwtSecret, now)
  }

  /**
   * Library behaviour this code does not itself promise: bcrypt accepts a
   * password against a hash made from it. Only the round-trip lemmas assume it.
   */
  ghost predicate CompareAcceptsOwnHash(libs: Libs)
  {
    forall p, s :: libs.compare(p, libs.hash(p, SaltRounds, s))
  }

  /** Every stored id is below the id generator's next value, and no two users share an id. */
  ghost predicate WellFormed(users: Users, nextId: UserId)
  {
    && (forall e :: e in users ==> users[e].id < nextId)
    && (forall e1, e2 :: e1 in users && e2 in users && e1 != e2 ==> users[e1].id != users[e2].id)
  }
}
