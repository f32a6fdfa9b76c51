/**
  The relational schema shared by the identity provider, the withdrawal
  endpoint and the Rust backend: one row datatype per table and the
  constraints the database enforces on every statement (primary keys, unique
  columns, foreign keys into `users`). Timestamps are instants as integers;
  nullable columns are `Option`s.
*/
module Schema {
  import opened Wrappers
  import opened Query

  type Timestamp = int
  type UserId = string

  datatype User = User(
    id: UserId,
    name: string,
    email: string,
    emailVerified: bool,
    image: Option<string>,
    createdAt: Timestamp,
    updatedAt: Timestamp,
    deletedAt: Option<Timestamp>)

  datatype Session = Session(
    id: string,
    userId: UserId,
    token: string,
    expiresAt: Timestamp,
    ipAddress: Option<string>,
    userAgent: Option<string>,
    createdAt: Timestamp,
    updatedAt: Timestamp)

  datatype Account = Account(
    id: string,
    userId: UserId,
    accountId: string,
    providerId: string,
    accessToken: Option<string>,
    refreshToken: Option<string>,
    accessTokenExpiresAt: Option<Timestamp>,
    refreshTokenExpiresAt: Option<Timestamp>,
    scope: Option<string>,
    idToken: Option<string>,
    password: Option<string>,
    createdAt: Timestamp,
    updatedAt: Timestamp)

  datatype Verification = Verification(
    id: string,
    identifier: string,
    value: string,
    expiresAt: Timestamp,
    createdAt: Timestamp,
    updatedAt: Timestamp)

  datatype Post = Post(
    id: int,
    userId: UserId,
    title: string,
    content: string,
    published: bool,
    createdAt: Timestamp,
    updatedAt: Timestamp)

  /** One snapshot of the database. */
  datatype Tables = Tables(
    users: seq<User>,
    sessions: seq<Session>,
    accounts: seq<Account>,
    verifications: seq<Verification>,
    posts: seq<Post>)

  // The keys each constraint is declared on.
  function UserPk(u: User): UserId { u.id }
  function UserEmail(u: User): string { u.email }
  function SessionPk(s: Session): string { s.id }
  function SessionToken(s: Session): string { s.token }
  function SessionOwner(s: Session): UserId { s.userId }
  function AccountPk(a: Account): string { a.id }
  function AccountProviderKey(a: Account): (string, string) { (a.providerId, a.accountId) }
  function AccountOwner(a: Account): UserId { a.userId }
  function VerificationPk(v: Verification): string { v.id }
  function PostPk(p: Post): int { p.id }
  function PostOwner(p: Post): UserId { p.userId }

  /** Some row of `users` has primary key `id`. */
  ghost predicate HasUser(users: seq<User>, id: UserId) {
    exists u :: u in users && u.id == id
  }

  /** Every constraint the schema declares holds of the snapshot. */
  ghost predicate Valid(t: Tables) {
    && Unique(t.users, UserPk)
    && Unique(t.users, UserEmail)
    && Unique(t.sessions, SessionPk)
    && Unique(t.sessions, SessionToken)
    && Unique(t.accounts, AccountPk)
    && Unique(t.accounts, AccountProviderKey)
    && Unique(t.verifications, VerificationPk)
    && Unique(t.posts, PostPk)
    && References(t.sessions, SessionOwner, t.users, UserPk)
    && References(t.accounts, AccountOwner, t.users, UserPk)
    && References(t.posts, PostOwner, t.users, UserPk)
  }

  /** A user row as the column defaults make it when only the required
      columns are given: unverified, no avatar, not withdrawn. */
  function NewUser(id: UserId, name: string, email: string, now: Timestamp): User {
    User(id, name, email, false, None, now, now, None)
  }

  /** Inserting a user whose id and email are both unused keeps every
      constraint, and the new row starts unverified and not withdrawn. */
  lemma InsertUserKeepsValid(t: Tables, id: UserId, name: string, email: string, now: Timestamp)
    requires Valid(t)
    requires !HasUser(t.users, id)
    requires forall u :: u in t.users ==> u.email != email
    ensures var t' := t.(users := t.users + [NewUser(id, name, email, now)]);
      && Valid(t')
      && HasUser(t'.users, id)
      && forall u :: u in t'.users && u.id == id ==> !u.emailVerified && u.deletedAt.None?
  {
  }
}
