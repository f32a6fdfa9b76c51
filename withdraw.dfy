/**
  The account-withdrawal endpoint `POST /api/user/withdraw`: a soft delete
  that anonymises the user row and stamps `deletedAt`, then deletes the
  user's sessions, then the user's accounts. The three statements run one
  after the other with no transaction: when one fails, the ones before it
  stay applied and the response is the generic 500.

  The identity provider's `getSession` is an oracle: its answer (`current`)
  is a parameter, and so is the step, if any, that throws (`fault`). The
  database itself also refuses the UPDATE when it would break the unique
  email index.
*/
module Withdraw {
  import opened Wrappers
  import opened Query
  import opened Schema
  import SessionAuth

  const ANONYMISED_NAME: string := "退会済みユーザー"
  const UNAUTHORIZED_ERROR: string := "認証が必要です"
  const FAILURE_ERROR: string := "退会処理に失敗しました"

  /** The JSON responses: `{ success: true }` with 200, or `{ error }` with a status. */
  datatype Response = Success | Error(status: int, error: string)

  const Unauthorized: Response := Error(401, UNAUTHORIZED_ERROR)
  const Failed: Response := Error(500, FAILURE_ERROR)

  /** The awaited calls inside the handler's `try`, each of which may throw. */
  datatype Step = ReadSession | UpdateUser | DeleteSessions | DeleteAccounts

  /** A response together with the database state it leaves behind. */
  datatype Transition = Transition(response: Response, after: Tables)

  /** `deleted_${userId}@deleted.local` */
  function AnonymisedEmail(userId: UserId): string {
    "deleted_" + userId + "@deleted.local"
  }

  // The three statements of the handler.

  function AnonymiseUser(users: seq<User>, userId: UserId, now: Timestamp): seq<User> {
    UpdateWhere(users, (u: User) => u.id == userId,
      (u: User) => u.(email := AnonymisedEmail(userId), name := ANONYMISED_NAME, image := None,
                      deletedAt := Some(now), updatedAt := now))
  }

  function DeleteSessionsOf(sessions: seq<Session>, userId: UserId): seq<Session> {
    DeleteWhere(sessions, (s: Session) => s.userId == userId)
  }

  function DeleteAccountsOf(accounts: seq<Account>, userId: UserId): seq<Account> {
    DeleteWhere(accounts, (a: Account) => a.userId == userId)
  }

  /** The database accepts the UPDATE only if the unique email index still holds after it. */
  predicate UpdateAccepted(users: seq<User>, userId: UserId, now: Timestamp) {
    Unique(AnonymiseUser(users, userId, now), UserEmail)
  }

  /** The whole effect of a withdrawal that runs to the end. */
  function Withdrawn(t: Tables, userId: UserId, now: Timestamp): Tables {
    t.(users := AnonymiseUser(t.users, userId, now),
       sessions := DeleteSessionsOf(t.sessions, userId),
       accounts := DeleteAccountsOf(t.accounts, userId))
  }

  /** What one request does, step by step. */
  function Withdrawal(t: Tables, current: Option<UserId>, now: Timestamp, fault: Option<Step>): Transition {
    if fault == Some(ReadSession) then Transition(Failed, t)
    else match current
      case None => Transition(Unauthorized, t)
      case Some(userId) =>
        if fault == Some(UpdateUser) || !UpdateAccepted(t.users, userId, now) then Transition(Failed, t)
        else
          var t1 := t.(users := AnonymiseUser(t.users, userId, now));
          if fault == Some(DeleteSessions) then Transition(Failed, t1)
          else
            var t2 := t1.(sessions := DeleteSessionsOf(t.sessions, userId));
            if fault == Some(DeleteAccounts) then Transition(Failed, t2)
            else Transition(Success, Withdrawn(t, userId, now))
  }

  /** The tables the handler writes to. */
  class Database {
    var users: seq<User>
    var sessions: seq<Session>
    var accounts: seq<Account>
    var verifications: seq<Verification>
    var posts: seq<Post>

    function Snapshot(): Tables
      reads this
    {
      Tables(users, sessions, accounts, verifications, posts)
    }

    ghost predicate Valid()
      reads this
    {
      Schema.Valid(Snapshot())
    }

    constructor (t: Tables)
      requires Schema.Valid(t)
      ensures Valid() && Snapshot() == t
    {
      users, sessions, accounts, verifications, posts := t.users, t.sessions, t.accounts, t.verifications, t.posts;
    }

    /** The UPDATE that anonymises the user's row and stamps it as withdrawn. */
    method RunUpdateUser(userId: UserId, now: Timestamp, throws: bool) returns (ok: bool)
      requires Valid()
      modifies this`users
      ensures Valid()
      ensures ok == (!throws && UpdateAccepted(old(users), userId, now))
      ensures users == if ok then AnonymiseUser(old(users), userId, now) else old(users)
    {
      if throws {
        return false;
      }
      var updated := AnonymiseUser(users, userId, now);
      ok := Unique(updated, UserEmail);
      if ok {
        AnonymiseUserKeepsValid(Snapshot(), userId, now);
        users := updated;
      }
    }

    /** The DELETE of every session the user owns. */
    method RunDeleteSessions(userId: UserId, throws: bool) returns (ok: bool)
      requires Valid()
      modifies this`sessions
      ensures Valid()
      ensures ok == !throws
      ensures sessions == if ok then DeleteSessionsOf(old(sessions), userId) else old(sessions)
    {
      ok := !throws;
      if ok {
        DeleteSessionsOfKeepsValid(Snapshot(), userId);
        sessions := DeleteSessionsOf(sessions, userId);
      }
    }

    /** The DELETE of every account linked to the user. */
    method RunDeleteAccounts(userId: UserId, throws: bool) returns (ok: bool)
      requires Valid()
      modifies this`accounts
      ensures Valid()
      ensures ok == !throws
      ensures accounts == if ok then DeleteAccountsOf(old(accounts), userId) else old(accounts)
    {
      ok := !throws;
      if ok {
        DeleteAccountsOfKeepsValid(Snapshot(), userId);
        accounts := DeleteAccountsOf(accounts, userId);
      }
    }

    /** The `POST` handler. */
    method Withdraw(current: Option<UserId>, now: Timestamp, fault: Option<Step>) returns (response: Response)
      requires Valid()
      modifies this
      ensures Valid()
      ensures Transition(response, Snapshot()) == Withdrawal(old(Snapshot()), current, now, fault)
    {
      ghost var before := Snapshot();
      WithdrawalKeepsValid(before, current, now, fault);
      if fault == Some(ReadSession) {
        return Failed;
      }
      if current.None? {
        return Unauthorized;
      }
      var userId := current.value;
      var ok := RunUpdateUser(userId, now, fault == Some(UpdateUser));
      if !ok {
        return Failed;
      }
      ok := RunDeleteSessions(userId, fault == Some(DeleteSessions));
      if !ok {
        return Failed;
      }
      ok := RunDeleteAccounts(userId, fault == Some(DeleteAccounts));
      if !ok {
        return Failed;
      }
      response := Success;
    }
  }

  /** Without a current session the answer is 401 and no table changes. */
  lemma UnauthorizedChangesNothing(t: Tables, current: Option<UserId>, now: Timestamp, fault: Option<Step>)
    ensures Withdrawal(t, current, now, fault).response == Unauthorized <==> current.None? && fault != Some(ReadSession)
    ensures current.None? ==> Withdrawal(t, current, now, fault).after == t
  {
  }

  /** A `getSession` that throws answers 500 before any statement runs. */
  lemma ThrowingSessionReadFails(t: Tables, current: Option<UserId>, now: Timestamp)
    ensures Withdrawal(t, current, now, Some(ReadSession)) == Transition(Failed, t)
  {
  }

  /** When the database refuses the anonymising UPDATE (the unique email index
      would break), the request answers 500 and no table changes. */
  lemma RefusedUpdateFails(t: Tables, userId: UserId, now: Timestamp, fault: Option<Step>)
    requires fault != Some(ReadSession) && !UpdateAccepted(t.users, userId, now)
    ensures Withdrawal(t, Some(userId), now, fault) == Transition(Failed, t)
  {
  }

  /** A request that fails answers 500 and keeps exactly the statements that
      ran before the failure. */
  lemma FailureKeepsEarlierSteps(t: Tables, userId: UserId, now: Timestamp, fault: Option<Step>)
    requires fault.Some? && fault != Some(ReadSession)
    ensures var r := Withdrawal(t, Some(userId), now, fault);
      && r.response == Failed
      && r.after.verifications == t.verifications && r.after.posts == t.posts
      && (fault == Some(UpdateUser) ==> r.after == t)
      && (fault == Some(DeleteSessions) && UpdateAccepted(t.users, userId, now) ==>
            r.after == t.(users := AnonymiseUser(t.users, userId, now)))
      && (fault == Some(DeleteAccounts) && UpdateAccepted(t.users, userId, now) ==>
            r.after == Withdrawn(t, userId, now).(accounts := t.accounts))
  {
    match fault.value
    case UpdateUser =>
    case DeleteSessions =>
    case DeleteAccounts =>
  }

  /** After a successful withdrawal the user's row is anonymised and stamped,
      and no session and no account of that user is left. */
  lemma SuccessAnonymisesAndRevokes(t: Tables, userId: UserId, now: Timestamp, fault: Option<Step>)
    requires Withdrawal(t, Some(userId), now, fault).response == Success
    ensures var after := Withdrawal(t, Some(userId), now, fault).after;
      && (forall u :: u in after.users && u.id == userId ==>
            && u.email == "deleted_" + userId + "@deleted.local"
            && u.name == ANONYMISED_NAME && u.image.None?
            && u.deletedAt == Some(now) && u.updatedAt == now)
      && (forall s :: s in after.sessions ==> s.userId != userId)
      && (forall a :: a in after.accounts ==> a.userId != userId)
  {
  }

  /** Every statement is filtered by the user id: other users' rows keep their
      place and their contents, other users' sessions and accounts are all
      kept, and the tables the handler does not write are untouched. */
  lemma WithdrawalTouchesOnlyThatUser(t: Tables, userId: UserId, now: Timestamp, fault: Option<Step>)
    ensures var after := Withdrawal(t, Some(userId), now, fault).after;
      && |after.users| == |t.users|
      && (forall i :: 0 <= i < |t.users| && t.users[i].id != userId ==> after.users[i] == t.users[i])
      && (forall i :: 0 <= i < |t.users| ==>
            (after.users[i].id == t.users[i].id &&
             after.users[i].emailVerified == t.users[i].emailVerified &&
             after.users[i].createdAt == t.users[i].createdAt))
      && (forall s :: s in t.sessions && s.userId != userId ==> s in after.sessions)
      && (forall s :: s in after.sessions ==> s in t.sessions)
      && (forall a :: a in t.accounts && a.userId != userId ==> a in after.accounts)
      && (forall a :: a in after.accounts ==> a in t.accounts)
      && after.verifications == t.verifications && after.posts == t.posts
  {
  }

  /** The anonymised row can take its synthetic address unless another user
      already holds it. */
  lemma {:induction false} UpdateAcceptedIff(t: Tables, userId: UserId, now: Timestamp)
    requires Valid(t)
    ensures UpdateAccepted(t.users, userId, now) <==>
      !(HasUser(t.users, userId) &&
        exists v :: v in t.users && v.id != userId && v.email == AnonymisedEmail(userId))
  {
    var us := AnonymiseUser(t.users, userId, now);
    var anon := AnonymisedEmail(userId);
    if HasUser(t.users, userId) && exists v :: v in t.users && v.id != userId && v.email == anon {
      var u :| u in t.users && u.id == userId;
      var v :| v in t.users && v.id != userId && v.email == anon;
      var i :| 0 <= i < |t.users| && t.users[i] == u;
      var j :| 0 <= j < |t.users| && t.users[j] == v;
      assert us[i].email == anon && us[j].email == anon && i != j;
      if i < j {
        assert UserEmail(us[i]) == UserEmail(us[j]);
      } else {
        assert UserEmail(us[j]) == UserEmail(us[i]);
      }
    } else {
      forall i, j | 0 <= i < j < |us| ensures UserEmail(us[i]) != UserEmail(us[j]) {
        var a, b := t.users[i], t.users[j];
        assert UserPk(a) != UserPk(b) && UserEmail(a) != UserEmail(b);
        if a.id == userId {
          assert b.id != userId && b in t.users && HasUser(t.users, userId);
        } else if b.id == userId {
          assert a.id != userId && a in t.users && HasUser(t.users, userId);
        }
      }
    }
  }

  lemma AnonymiseUserKeepsIds(users: seq<User>, userId: UserId, now: Timestamp)
    ensures var us := AnonymiseUser(users, userId, now);
      && (Unique(users, UserPk) ==> Unique(us, UserPk))
      && (forall id :: HasUser(us, id) <==> HasUser(users, id))
  {
    var us := AnonymiseUser(users, userId, now);
    assert forall i :: 0 <= i < |users| ==> UserPk(us[i]) == UserPk(users[i]);
    forall id ensures HasUser(us, id) <==> HasUser(users, id) {
      if HasUser(us, id) {
        var u :| u in us && u.id == id;
        var i :| 0 <= i < |us| && us[i] == u;
        assert users[i] in users;
      }
      if HasUser(users, id) {
        var u :| u in users && u.id == id;
        var i :| 0 <= i < |users| && users[i] == u;
        assert us[i] in us;
      }
    }
  }

  lemma ReferencesToSameIds<T(!new)>(rows: seq<T>, fk: T -> UserId, users: seq<User>, users': seq<User>)
    requires References(rows, fk, users, UserPk)
    requires forall id :: HasUser(users', id) <==> HasUser(users, id)
    ensures References(rows, fk, users', UserPk)
  {
    forall x | x in rows ensures exists y :: y in users' && UserPk(y) == fk(x) {
      var y :| y in users && UserPk(y) == fk(x);
      assert HasUser(users, fk(x));
    }
  }

  /** The anonymising UPDATE, once the database accepts it, keeps every constraint. */
  lemma AnonymiseUserKeepsValid(t: Tables, userId: UserId, now: Timestamp)
    requires Valid(t) && UpdateAccepted(t.users, userId, now)
    ensures Valid(t.(users := AnonymiseUser(t.users, userId, now)))
  {
    var us := AnonymiseUser(t.users, userId, now);
    AnonymiseUserKeepsIds(t.users, userId, now);
    ReferencesToSameIds(t.sessions, SessionOwner, t.users, us);
    ReferencesToSameIds(t.accounts, AccountOwner, t.users, us);
    ReferencesToSameIds(t.posts, PostOwner, t.users, us);
  }

  /** Deleting a user's sessions keeps every constraint. */
  lemma DeleteSessionsOfKeepsValid(t: Tables, userId: UserId)
    requires Valid(t)
    ensures Valid(t.(sessions := DeleteSessionsOf(t.sessions, userId)))
  {
    var p := (s: Session) => s.userId == userId;
    DeleteWhereKeepsUnique(t.sessions, p, SessionPk);
    DeleteWhereKeepsUnique(t.sessions, p, SessionToken);
    DeleteWhereKeepsReferences(t.sessions, p, SessionOwner, t.users, UserPk);
  }

  /** Deleting a user's accounts keeps every constraint. */
  lemma DeleteAccountsOfKeepsValid(t: Tables, userId: UserId)
    requires Valid(t)
    ensures Valid(t.(accounts := DeleteAccountsOf(t.accounts, userId)))
  {
    var p := (a: Account) => a.userId == userId;
    DeleteWhereKeepsUnique(t.accounts, p, AccountPk);
    DeleteWhereKeepsUnique(t.accounts, p, AccountProviderKey);
    DeleteWhereKeepsReferences(t.accounts, p, AccountOwner, t.users, UserPk);
  }

  /** Every request, whatever it answers and wherever it fails, leaves every
      constraint of the schema in force. */
  lemma WithdrawalKeepsValid(t: Tables, current: Option<UserId>, now: Timestamp, fault: Option<Step>)
    requires Valid(t)
    ensures Valid(Withdrawal(t, current, now, fault).after)
  {
    if current.Some? && fault != Some(ReadSession) && fault != Some(UpdateUser) && UpdateAccepted(t.users, current.value, now) {
      var userId := current.value;
      var t1 := t.(users := AnonymiseUser(t.users, userId, now));
      AnonymiseUserKeepsValid(t, userId, now);
      var t2 := t1.(sessions := DeleteSessionsOf(t1.sessions, userId));
      DeleteSessionsOfKeepsValid(t1, userId);
      DeleteAccountsOfKeepsValid(t2, userId);
      assert Withdrawn(t, userId, now) == t2.(accounts := DeleteAccountsOf(t2.accounts, userId));
    }
  }

  /** Running the three statements again anonymises to the same row and
      deletes nothing more; only `deletedAt` and `updatedAt` take the new instant. */
  lemma WithdrawnIdempotent(t: Tables, userId: UserId, first: Timestamp, second: Timestamp)
    ensures Withdrawn(Withdrawn(t, userId, first), userId, second) == Withdrawn(t, userId, second)
  {
    var once := AnonymiseUser(t.users, userId, first);
    assert AnonymiseUser(once, userId, second) == AnonymiseUser(t.users, userId, second);
    DeleteWhereIdempotent(t.sessions, (s: Session) => s.userId == userId);
    DeleteWhereIdempotent(t.accounts, (a: Account) => a.userId == userId);
  }

  /** Whether the database accepts the UPDATE does not depend on the instant
      stamped, since only the email column is indexed. */
  lemma UpdateAcceptedAtAnyInstant(users: seq<User>, userId: UserId, first: Timestamp, second: Timestamp)
    requires UpdateAccepted(users, userId, first)
    ensures UpdateAccepted(users, userId, second)
  {
    var a, b := AnonymiseUser(users, userId, first), AnonymiseUser(users, userId, second);
    forall i, j | 0 <= i < j < |b| ensures UserEmail(b[i]) != UserEmail(b[j]) {
      assert UserEmail(a[i]) != UserEmail(a[j]);
      assert UserEmail(a[i]) == UserEmail(b[i]) && UserEmail(a[j]) == UserEmail(b[j]);
    }
  }

  /** A second withdrawal of the same user succeeds and ends where a single
      withdrawal at the later instant would have. */
  lemma SecondWithdrawalSucceeds(t: Tables, userId: UserId, first: Timestamp, second: Timestamp)
    requires Withdrawal(t, Some(userId), first, None).response == Success
    ensures var again := Withdrawal(Withdrawal(t, Some(userId), first, None).after, Some(userId), second, None);
      again == Transition(Success, Withdrawn(t, userId, second))
  {
    var once := Withdrawn(t, userId, first);
    WithdrawnIdempotent(t, userId, first, second);
    assert AnonymiseUser(once.users, userId, second) == AnonymiseUser(t.users, userId, second);
    UpdateAcceptedAtAnyInstant(t.users, userId, first, second);
    assert UpdateAccepted(once.users, userId, second);
  }

  /** Withdrawal frees the user's original address: no row holds it afterwards,
      so a new user can register with it under a new id. */
  lemma ReRegistrationAfterWithdrawal(t: Tables, userId: UserId, now: Timestamp, fault: Option<Step>,
                                      original: User, newId: UserId, name: string, created: Timestamp)
    requires Valid(t)
    requires Withdrawal(t, Some(userId), now, fault).response == Success
    requires original in t.users && original.id == userId
    requires original.email != AnonymisedEmail(userId)
    requires !HasUser(t.users, newId)
    ensures var after := Withdrawal(t, Some(userId), now, fault).after;
      && (forall u :: u in after.users ==> u.email != original.email)
      && newId != userId
      && Valid(after.(users := after.users + [NewUser(newId, name, original.email, now)]))
  {
    var after := Withdrawal(t, Some(userId), now, fault).after;
    WithdrawalKeepsValid(t, Some(userId), now, fault);
    AnonymiseUserKeepsIds(t.users, userId, now);
    forall u | u in after.users ensures u.email != original.email {
      var i :| 0 <= i < |after.users| && after.users[i] == u;
      if t.users[i].id != userId {
        assert u == t.users[i] && u in t.users;
        SameKeySameRow(t.users, UserEmail, u, original);
      }
    }
    InsertUserKeepsValid(after, newId, name, original.email, now);
  }

  /** Cross-component: once the UPDATE of a withdrawal has committed — even if
      a later delete failed — the backend never again resolves any cookie to
      that user. */
  lemma WithdrawnUserCannotAuthenticate(t: Tables, userId: UserId, now: Timestamp, fault: Option<Step>,
                                        cookies: SessionAuth.CookieJar, later: Timestamp, queryFault: SessionAuth.QueryFault)
    requires Withdrawal(t, Some(userId), now, fault).response == Success ||
             (fault in {Some(DeleteSessions), Some(DeleteAccounts)} && UpdateAccepted(t.users, userId, now))
    ensures var r := SessionAuth.GetUserFromSession(Withdrawal(t, Some(userId), now, fault).after, cookies, later, queryFault);
      r.None? || r.value.id != userId
    ensures SessionAuth.AuthMiddleware(Withdrawal(t, Some(userId), now, fault).after, cookies, later, queryFault).RunNext? ==>
      SessionAuth.AuthMiddleware(Withdrawal(t, Some(userId), now, fault).after, cookies, later, queryFault).extension.user.id != userId
  {
  }

  /** Cross-component: after a successful withdrawal, a cookie that carried
      the token of one of the user's sessions resolves to nobody. */
  lemma WithdrawnSessionsAreGone(t: Tables, userId: UserId, now: Timestamp, fault: Option<Step>, s: Session,
                                 cookies: SessionAuth.CookieJar, later: Timestamp, queryFault: SessionAuth.QueryFault)
    requires Valid(t)
    requires Withdrawal(t, Some(userId), now, fault).response == Success
    requires s in t.sessions && s.userId == userId
    requires SessionAuth.ExtractSessionToken(cookies) == Some(s.token)
    ensures SessionAuth.GetUserFromSession(Withdrawal(t, Some(userId), now, fault).after, cookies, later, queryFault).None?
  {
  }
}
