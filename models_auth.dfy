/**
 * The records of src/models/auth.ts and their unique indexes: users (unique `email`),
 * OAuth accounts (unique `(provider, providerAccountId)`), sessions (unique `sessionToken`),
 * verification tokens (unique `token` and unique `(identifier, token)`) and password resets
 * (unique `token`).
 */
module ModelsAuth {
  import opened Wrappers
  import opened JsValues
  import Tables

  datatype User = User(
    id: Id,
    name: Option<string>,
    email: string,
    password: Option<string>,      // optional: OAuth users have none
    image: Option<string>,
    emailVerified: Option<Time>,
    createdAt: Time,
    updatedAt: Time)

  predicate UserSchemaOk(u: User) {
    u.email != ""
  }

  datatype OAuthAccount = OAuthAccount(
    id: Id,
    userId: Id,
    kind: string,
    provider: string,
    providerAccountId: string,
    createdAt: Time,
    updatedAt: Time)

  datatype Session = Session(
    id: Id,
    sessionToken: string,
    userId: Id,
    expires: Time,
    createdAt: Time,
    updatedAt: Time)

  datatype VerificationToken = VerificationToken(
    id: Id,
    identifier: string,
    token: string,
    expires: Time)

  datatype PasswordReset = PasswordReset(
    id: Id,
    token: string,
    userId: Id,
    expires: Time,
    createdAt: Time,
    updatedAt: Time)

  function UserEmail(u: User): string { u.email }
  function ProviderKey(a: OAuthAccount): (string, string) { (a.provider, a.providerAccountId) }
  function SessionKey(s: Session): string { s.sessionToken }
  function VerificationKey(v: VerificationToken): string { v.token }
  function VerificationPairKey(v: VerificationToken): (string, string) { (v.identifier, v.token) }
  function ResetToken(r: PasswordReset): string { r.token }

  /** The unique indexes of the auth collections. */
  ghost predicate UsersIndexed(users: seq<User>) { Tables.UniqueBy(users, UserEmail) }
  ghost predicate OAuthIndexed(accounts: seq<OAuthAccount>) { Tables.UniqueBy(accounts, ProviderKey) }
  ghost predicate SessionsIndexed(sessions: seq<Session>) { Tables.UniqueBy(sessions, SessionKey) }
  ghost predicate VerificationIndexed(tokens: seq<VerificationToken>) {
    Tables.UniqueBy(tokens, VerificationKey) && Tables.UniqueBy(tokens, VerificationPairKey)
  }
  ghost predicate ResetsIndexed(resets: seq<PasswordReset>) { Tables.UniqueBy(resets, ResetToken) }

  /** A session insert that keeps `sessionToken` unique: the duplicate-key error when the token is taken. */
  function InsertSession(sessions: seq<Session>, s: Session): (r: Option<seq<Session>>)
    ensures SessionsIndexed(sessions) && r.Some? ==> SessionsIndexed(r.value)
    ensures r.Some? ==> r.value == sessions + [s]
    ensures r.None? <==> exists i :: 0 <= i < |sessions| && sessions[i].sessionToken == s.sessionToken
  {
    Tables.InsertUnique(sessions, SessionKey, s)
  }

  /** An OAuth link insert that keeps `(provider, providerAccountId)` unique. */
  function InsertOAuthAccount(accounts: seq<OAuthAccount>, a: OAuthAccount): (r: Option<seq<OAuthAccount>>)
    ensures OAuthIndexed(accounts) && r.Some? ==> OAuthIndexed(r.value)
    ensures r.Some? ==> r.value == accounts + [a]
    ensures r.None? <==> exists i :: 0 <= i < |accounts| && accounts[i].provider == a.provider
                                      && accounts[i].providerAccountId == a.providerAccountId
  {
    Tables.InsertUnique(accounts, ProviderKey, a)
  }
}
