/**
  Session resolution in the Rust backend's authentication middleware.
  A request's cookies are a map from cookie name to value; the database is a
  snapshot of the tables; the current instant is a parameter. A failing
  database query is an explicit `QueryFault`: the source turns it into "no
  user", exactly like a missing row.
*/
module SessionAuth {
  import opened Wrappers
  import opened Query
  import opened Schema

  type CookieJar = map<string, string>

  /** The cookie the identity provider sets; its value is `{token}.{signature}`. */
  const SESSION_COOKIE: string := "better-auth.session_token"
  const UNAUTHORIZED: int := 401

  /** The user fields handed to handlers. */
  datatype AuthUser = AuthUser(
    id: UserId,
    name: string,
    email: string,
    emailVerified: bool,
    image: Option<string>)

  /** What the middleware attaches to the request. */
  datatype AuthExtension = AuthExtension(user: AuthUser)

  /** Which of the two lookups, if any, fails with a database error. */
  datatype QueryFault = NoFault | SessionQueryFails | UserQueryFails

  function Profile(u: User): AuthUser {
    AuthUser(u.id, u.name, u.email, u.emailVerified, u.image)
  }

  /** The first piece of `value` split on '.': the token without its signature.
      Nothing is checked about the signature; it is only cut off. */
  function TokenPart(value: string): (token: string)
    ensures token <= value
    ensures '.' !in token
    ensures |token| == |value| || value[|token|] == '.'
  {
    if value == [] || value[0] == '.' then []
    else [value[0]] + TokenPart(value[1..])
  }

  function ExtractSessionToken(cookies: CookieJar): (r: Option<string>)
    ensures r.None? <==> SESSION_COOKIE !in cookies
    ensures r.Some? ==> r.value == TokenPart(cookies[SESSION_COOKIE])
  {
    if SESSION_COOKIE in cookies then Some(TokenPart(cookies[SESSION_COOKIE])) else None
  }

  /** The session lookup by token. */
  function FindSessionByToken(sessions: seq<Session>, token: string): (r: Option<Session>)
    ensures r.None? <==> forall s :: s in sessions ==> s.token != token
    ensures r.Some? ==> r.value in sessions && r.value.token == token
  {
    SelectOne(sessions, (s: Session) => s.token == token)
  }

  /** The user lookup by primary key. */
  function FindUserById(users: seq<User>, id: UserId): (r: Option<User>)
    ensures r.None? <==> !HasUser(users, id)
    ensures r.Some? ==> r.value in users && r.value.id == id
  {
    SelectOne(users, (u: User) => u.id == id)
  }

  /** The user a request's cookies authenticate, if any. */
  function GetUserFromSession(db: Tables, cookies: CookieJar, now: Timestamp, fault: QueryFault): (r: Option<AuthUser>)
    ensures ExtractSessionToken(cookies).None? ==> r.None?
    ensures r.Some? ==> fault.NoFault?
    ensures r.Some? ==>
      exists s, u :: s in db.sessions && u in db.users &&
        ExtractSessionToken(cookies) == Some(s.token) && now <= s.expiresAt &&
        u.id == s.userId && u.deletedAt.None? && r.value == Profile(u)
  {
    match ExtractSessionToken(cookies)
    case None => None
    case Some(token) =>
      if fault.SessionQueryFails? then None
      else match FindSessionByToken(db.sessions, token)
        case None => None
        case Some(session) =>
          if session.expiresAt < now then None
          else if fault.UserQueryFails? then None
          else match FindUserById(db.users, session.userId)
            case None => None
            case Some(user) =>
              if user.deletedAt.Some? then None
              else Some(Profile(user))
  }

  /** The decision of the required-authentication middleware: reject with 401,
      or run the rest of the chain with the user attached. */
  datatype MiddlewareOutcome = Reject(status: int) | RunNext(extension: AuthExtension)

  function AuthMiddleware(db: Tables, cookies: CookieJar, now: Timestamp, fault: QueryFault): (r: MiddlewareOutcome)
    ensures r.Reject? <==> GetUserFromSession(db, cookies, now, fault).None?
    ensures r.Reject? ==> r.status == UNAUTHORIZED
    ensures r.RunNext? ==> GetUserFromSession(db, cookies, now, fault) == Some(r.extension.user)
  {
    match GetUserFromSession(db, cookies, now, fault)
    case None => Reject(UNAUTHORIZED)
    case Some(user) => RunNext(AuthExtension(user))
  }

  /** The result of a request extractor: a value, or a rejection status. */
  datatype Extraction<T> = Extracted(value: T) | Rejected(status: int)

  /** The optional-authentication extractor. */
  datatype OptionalAuthUser = OptionalAuthUser(user: Option<AuthUser>) {

    static function FromRequestParts(db: Tables, cookies: CookieJar, now: Timestamp, fault: QueryFault): (r: Extraction<OptionalAuthUser>)
      ensures r.Extracted?
      ensures r.value.user == GetUserFromSession(db, cookies, now, fault)
    {
      Extracted(OptionalAuthUser(GetUserFromSession(db, cookies, now, fault)))
    }
  }

  /** The token of a cookie value `{token}.{signature}` is recovered whatever
      the signature is. */
  lemma {:induction false} TokenPartDropsSignature(token: string, signature: string)
    requires '.' !in token
    ensures TokenPart(token + "." + signature) == token
  {
    if token != [] {
      assert (token + "." + signature)[1..] == token[1..] + "." + signature;
      TokenPartDropsSignature(token[1..], signature);
    }
  }

  /** Under the unique token index, the lookup finds exactly the session
      holding the token. */
  lemma FindSessionByTokenExact(db: Tables, s: Session)
    requires Valid(db)
    requires s in db.sessions
    ensures FindSessionByToken(db.sessions, s.token) == Some(s)
  {
  }

  /** A cookie carrying the token of a session that has not expired, owned by
      a user who has not withdrawn, resolves to exactly that user. Together
      with the postcondition of `GetUserFromSession` this characterises
      resolution in both directions. */
  lemma LiveSessionResolves(db: Tables, cookies: CookieJar, now: Timestamp, s: Session, u: User)
    requires Valid(db)
    requires s in db.sessions && u in db.users && u.id == s.userId
    requires ExtractSessionToken(cookies) == Some(s.token)
    requires now <= s.expiresAt && u.deletedAt.None?
    ensures GetUserFromSession(db, cookies, now, NoFault) == Some(Profile(u))
    ensures AuthMiddleware(db, cookies, now, NoFault) == RunNext(AuthExtension(Profile(u)))
  {
  }

  /** The expiry check is strict: a session expiring exactly now still
      resolves, one that expired before now never does. */
  lemma ExpiredSessionRejected(db: Tables, cookies: CookieJar, now: Timestamp, fault: QueryFault, s: Session)
    requires Valid(db)
    requires s in db.sessions
    requires ExtractSessionToken(cookies) == Some(s.token)
    requires s.expiresAt < now
    ensures GetUserFromSession(db, cookies, now, fault).None?
    ensures AuthMiddleware(db, cookies, now, fault) == Reject(UNAUTHORIZED)
  {
  }

  /** Once every row with a given id is stamped as withdrawn, no cookie and no
      database state of the sessions table resolves to that id. */
  lemma WithdrawnUserNeverResolves(db: Tables, cookies: CookieJar, now: Timestamp, fault: QueryFault, id: UserId)
    requires forall u :: u in db.users && u.id == id ==> u.deletedAt.Some?
    ensures GetUserFromSession(db, cookies, now, fault).None? ||
            GetUserFromSession(db, cookies, now, fault).value.id != id
  {
  }
}
