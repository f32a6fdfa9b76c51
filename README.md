# Session resolution, account withdrawal and reset-password validation of better-auth-sample

This project models the first-party logic of a demo application that puts a
Next.js frontend and a Rust/Axum backend on top of the Better-Auth identity
provider and a Postgres schema:

- **`Schema`** (`schema.dfy`): the rows of `users`, `sessions`, `accounts`,
  `verifications` and `posts`, and the constraints the database enforces on
  every statement: primary keys, unique email, unique session token, unique
  `(providerId, accountId)`, and every `userId` naming an existing user.
  A table is a sequence of rows in scan order; `Query` (`query.dfy`) gives
  the three statement shapes the code issues (select the first matching row,
  update where, delete where) once for every table, with the facts that a
  delete keeps unique keys and foreign keys and that a unique key picks out
  at most one row.
- **`SessionAuth`** (`session_auth.dfy`): the backend middleware. The
  `better-auth.session_token` cookie value `{token}.{signature}` is cut at
  the first `.` (the signature is discarded, never checked); the session is
  looked up by token, rejected when `expiresAt < now` (a session expiring
  exactly at `now` is still accepted), its user looked up and rejected when
  `deletedAt` is set. `AuthMiddleware` turns "no user" into 401;
  `OptionalAuthUser.FromRequestParts` never rejects.
- **`Withdraw`** (`withdraw.dfy`): `POST /api/user/withdraw` as a `Database`
  class whose `Withdraw` method runs the three statements in place: anonymise
  the user row (email `deleted_<id>@deleted.local`, the placeholder name
  `退会済みユーザー`, no image, `deletedAt` and `updatedAt` stamped), delete the
  user's sessions, delete the user's accounts. It is proved against the pure
  `Withdrawal` transition, about which the lemmas state the outcomes, the
  frame, idempotence, preservation of every schema constraint, the freeing of
  the original email for re-registration, and — with `SessionAuth` — that a
  withdrawn user is never resolved again from any cookie, even when the
  session delete failed after the anonymising UPDATE committed.
- **`ResetPassword`** (`reset_password.dfy`): the ordered validator of the
  reset-password form (mismatch, then fewer than 8 characters, then a missing
  token), proved to report the first failing check; the `Form` class whose
  `HandleSubmit` sets `error`, `isLoading` and `success` as the component
  does; and the render decision (invalid-link view, done view, form).

The failures of the outside world are parameters: the identity provider's
`getSession` answer (`current`), which awaited call throws (`fault`), which
backend query fails (`QueryFault`), the provider's `resetPassword` reply, and
the current instant `now`.

Two consequences of the code are worth knowing. The withdrawal is not
transactional: a failure after the UPDATE leaves the user anonymised with
sessions or accounts still present (the model keeps exactly the statements
that ran, `FailureKeepsEarlierSteps`), and a second run succeeds and only
re-stamps `deletedAt` and `updatedAt` (`WithdrawnIdempotent`,
`SecondWithdrawalSucceeds`). And the database refuses the UPDATE
when another user already holds the synthetic address
`deleted_<id>@deleted.local` (`UpdateAcceptedIff`); that withdrawal then
answers 500 and changes nothing (`RefusedUpdateFails`).

## Model

| member | source | states |
|---|---|---|
| `Query.SelectOne` | backend/src/middleware/auth.rs:49-53 | the lookup returns nothing exactly when no row matches, and otherwise a row of the table that matches |
| `Query.UpdateWhere` | frontend/src/app/api/user/withdraw/route.ts:30-39 | every row satisfying the condition is replaced by the updated row, the others stay in place (definition) |
| `Query.DeleteWhere` | frontend/src/app/api/user/withdraw/route.ts:42-45 | a row survives the delete exactly when it was in the table and does not match the condition |
| `Query.SameKeySameRow` | frontend/src/db/schema.ts:28 | under a unique key two rows with the same key value are the same row, so a lookup by token or id is deterministic |
| `Query.DeleteWhereKeepsUnique` | frontend/src/db/schema.ts:23-28 | deleting rows never breaks a primary key or unique index |
| `Query.DeleteWhereKeepsReferences` | frontend/src/db/schema.ts:25-27 | rows left after a delete still reference existing users |
| `Query.DeleteWhereIdempotent` | frontend/src/app/api/user/withdraw/route.ts:42-45 | running the same delete twice leaves the table as one run does |
| `Schema.InsertUserKeepsValid` | frontend/src/db/schema.ts:11-20 | inserting a user with an unused id and email keeps every constraint; the new row defaults to unverified and not withdrawn |
| `Schema.Valid` | frontend/src/db/schema.ts:11-80 | primary keys of every table, unique email, unique session token, unique (providerId, accountId), and every `userId` of sessions, accounts and posts naming a user (definition) |
| `Schema.NewUser` | frontend/src/db/schema.ts:11-20 | a user row with the column defaults: `emailVerified` false, no image, `deletedAt` null, both timestamps at now (definition) |
| `SessionAuth.TokenPart` | backend/src/middleware/auth.rs:34-37 | the token is the longest prefix of the cookie value without a `.`: a prefix, containing no `.`, and either the whole value or followed by a `.` |
| `SessionAuth.ExtractSessionToken` | backend/src/middleware/auth.rs:28-38 | no token exactly when the session cookie is absent; otherwise the token part of its value |
| `SessionAuth.TokenPartDropsSignature` | backend/src/middleware/auth.rs:29-36 | for a cookie value `{token}.{signature}` the extracted token is `token`, whatever the signature |
| `SessionAuth.FindSessionByToken` | backend/src/middleware/auth.rs:49-53 | nothing exactly when no session holds the token, otherwise a session that holds it |
| `SessionAuth.FindUserById` | backend/src/middleware/auth.rs:61-64 | nothing exactly when no user has the id, otherwise a user with that id |
| `SessionAuth.Profile` | backend/src/middleware/auth.rs:71-77 | the handler-facing user carries the stored id, name, email, email_verified and image (definition) |
| `SessionAuth.GetUserFromSession` | backend/src/middleware/auth.rs:41-78 | no cookie or a failed query gives no user; a resolved user is the profile (id, name, email, emailVerified, image) of a non-withdrawn user owning a session that holds the cookie's token and has not expired |
| `SessionAuth.FindSessionByTokenExact` | backend/src/middleware/auth.rs:49-53 | under the unique token index the lookup returns exactly the session holding the token |
| `SessionAuth.LiveSessionResolves` | backend/src/middleware/auth.rs:41-78 | the converse: an unexpired session of a non-withdrawn user always resolves to that user's profile, and the middleware then runs the handler with it |
| `SessionAuth.ExpiredSessionRejected` | backend/src/middleware/auth.rs:56-58 | a session whose expiry is before now never resolves, and the middleware answers 401 |
| `SessionAuth.WithdrawnUserNeverResolves` | backend/src/middleware/auth.rs:66-69 | when the user's row carries `deletedAt`, no cookie resolves to that user id |
| `SessionAuth.AuthMiddleware` | backend/src/middleware/auth.rs:87-99 | 401 exactly when resolution gives no user; otherwise the next handler runs with that exact user attached |
| `SessionAuth.OptionalAuthUser.FromRequestParts` | backend/src/middleware/auth.rs:111-124 | never rejects, and wraps exactly the result of resolution |
| `Withdraw.Database.RunUpdateUser` | frontend/src/app/api/user/withdraw/route.ts:30-39 | the UPDATE applies the anonymisation when it does not throw and the unique email index accepts it; otherwise the table is unchanged |
| `Withdraw.Database.RunDeleteSessions` | frontend/src/app/api/user/withdraw/route.ts:42 | the sessions table loses the user's sessions unless the statement throws |
| `Withdraw.Database.RunDeleteAccounts` | frontend/src/app/api/user/withdraw/route.ts:45 | the accounts table loses the user's accounts unless the statement throws |
| `Withdraw.Database.Withdraw` | frontend/src/app/api/user/withdraw/route.ts:10-55 | the response and the tables afterwards are those of the `Withdrawal` transition, and every schema constraint still holds |
| `Withdraw.UnauthorizedChangesNothing` | frontend/src/app/api/user/withdraw/route.ts:17-22 | the answer is 401 exactly when there is no current session (and reading it did not throw), and without a current session no table changes |
| `Withdraw.ThrowingSessionReadFails` | frontend/src/app/api/user/withdraw/route.ts:11-15 | a `getSession` that throws answers 500 and changes no table |
| `Withdraw.RefusedUpdateFails` | frontend/src/app/api/user/withdraw/route.ts:30-54 | when the database refuses the anonymising UPDATE the answer is 500 and no table changes |
| `Withdraw.FailureKeepsEarlierSteps` | frontend/src/app/api/user/withdraw/route.ts:30-54 | a throwing step answers 500; the statements before it stay applied and the ones after it do not run |
| `Withdraw.SuccessAnonymisesAndRevokes` | frontend/src/app/api/user/withdraw/route.ts:27-45 | after success the user's row has the synthetic email, the placeholder name, no image, `deletedAt` and `updatedAt` at now, and no session or account of the user remains |
| `Withdraw.WithdrawalTouchesOnlyThatUser` | frontend/src/app/api/user/withdraw/route.ts:39-45 | other users' rows keep their place and contents, ids and creation data never change, every session and account of another user is kept, nothing is added, verifications and posts are untouched |
| `Withdraw.AnonymisedEmail` | frontend/src/app/api/user/withdraw/route.ts:27 | the synthetic address `deleted_<id>@deleted.local` (definition) |
| `Withdraw.AnonymiseUser` | frontend/src/app/api/user/withdraw/route.ts:30-39 | every row whose id is the user's gets the synthetic email, the placeholder name, no image and both stamps at now; other rows stay (definition) |
| `Withdraw.DeleteSessionsOf` | frontend/src/app/api/user/withdraw/route.ts:42 | the sessions table without the user's sessions (definition) |
| `Withdraw.DeleteAccountsOf` | frontend/src/app/api/user/withdraw/route.ts:45 | the accounts table without the user's accounts (definition) |
| `Withdraw.Withdrawn` | frontend/src/app/api/user/withdraw/route.ts:30-45 | the combined effect of the UPDATE and the two DELETEs when all three run (definition) |
| `Withdraw.UpdateAccepted` | frontend/src/app/api/user/withdraw/route.ts:30-39 | the database accepts the UPDATE exactly when the unique email index holds after it (definition; schema.ts:14) |
| `Withdraw.Withdrawal` | frontend/src/app/api/user/withdraw/route.ts:10-55 | the request step by step: a throwing session read, 401, refused or throwing UPDATE, throwing deletes, success; each failure keeps the statements before it (definition) |
| `Withdraw.UpdateAcceptedIff` | frontend/src/app/api/user/withdraw/route.ts:27-39 | the database refuses the anonymising UPDATE exactly when the user exists and another user already holds its synthetic email |
| `Withdraw.AnonymiseUserKeepsIds` | frontend/src/app/api/user/withdraw/route.ts:30-39 | the UPDATE keeps the primary key unique and the set of user ids the same |
| `Withdraw.AnonymiseUserKeepsValid` | frontend/src/app/api/user/withdraw/route.ts:30-39 | an UPDATE the database accepts keeps every schema constraint |
| `Withdraw.DeleteSessionsOfKeepsValid` | frontend/src/app/api/user/withdraw/route.ts:42 | deleting the user's sessions keeps every schema constraint |
| `Withdraw.DeleteAccountsOfKeepsValid` | frontend/src/app/api/user/withdraw/route.ts:45 | deleting the user's accounts keeps every schema constraint |
| `Withdraw.WithdrawalKeepsValid` | frontend/src/app/api/user/withdraw/route.ts:30-45 | every request, successful or failing at any step, leaves all schema constraints in force |
| `Withdraw.UpdateAcceptedAtAnyInstant` | frontend/src/app/api/user/withdraw/route.ts:36-37 | whether the UPDATE is accepted does not depend on the instant stamped |
| `Withdraw.WithdrawnIdempotent` | frontend/src/app/api/user/withdraw/route.ts:30-45 | running the three statements twice equals running them once at the later instant: only `deletedAt` and `updatedAt` change |
| `Withdraw.SecondWithdrawalSucceeds` | frontend/src/app/api/user/withdraw/route.ts:10-47 | a second withdrawal of an already withdrawn user succeeds and ends where one withdrawal at the later instant would |
| `Withdraw.ReRegistrationAfterWithdrawal` | frontend/src/app/api/user/withdraw/route.ts:27-39 | after success no row holds the user's original email, and a new user with a new id may register with it without breaking a constraint |
| `Withdraw.WithdrawnUserCannotAuthenticate` | frontend/src/app/api/user/withdraw/route.ts:36 | for every withdrawal, once the UPDATE committed, even if a later delete failed, no cookie resolves to the withdrawn user and the middleware never attaches it |
| `Withdraw.WithdrawnSessionsAreGone` | frontend/src/app/api/user/withdraw/route.ts:42 | after success a cookie carrying the token of one of the user's sessions resolves to nobody |
| `ResetPassword.TokenMissing` | frontend/src/components/auth/ResetPasswordForm.tsx:32 | JavaScript's `!token`: the token is absent or empty (definition; also used by the render branch at line 61) |
| `ResetPassword.ValidateSubmit` | frontend/src/components/auth/ResetPasswordForm.tsx:22-43 | mismatch is reported first, then fewer than 8 characters, then a missing or empty token; the provider is called exactly when all pass, with the password and the URL token |
| `ResetPassword.Failing` | frontend/src/components/auth/ResetPasswordForm.tsx:22-35 | the failing checks of a list are exactly the listed checks that do not pass |
| `ResetPassword.ValidateReportsFirstFailure` | frontend/src/components/auth/ResetPasswordForm.tsx:22-35 | the validator calls the provider exactly when no check fails and otherwise reports the first failing check in the order match, length, token |
| `ResetPassword.ProviderErrorText` | frontend/src/components/auth/ResetPasswordForm.tsx:45-47 | the shown text is the provider's message when it is non-empty and the generic failure text otherwise; it is never empty |
| `ResetPassword.Render` | frontend/src/components/auth/ResetPasswordForm.tsx:61-139 | the invalid-link view exactly without a token, the done view exactly with a token after success, otherwise the form with the error banner and a button disabled while loading |
| `ResetPassword.VisibleFormHasToken` | frontend/src/components/auth/ResetPasswordForm.tsx:32-35 | while the form is on screen the validator can never report the missing-token error |
| `ResetPassword.Form.constructor` | frontend/src/components/auth/ResetPasswordForm.tsx:12-16 | empty fields, no error, not loading, not succeeded |
| `ResetPassword.Form.SetPassword` | frontend/src/components/auth/ResetPasswordForm.tsx:107 | the password field takes the typed value |
| `ResetPassword.Form.SetConfirmPassword` | frontend/src/components/auth/ResetPasswordForm.tsx:123 | the confirmation field takes the typed value |
| `ResetPassword.Form.HandleSubmit` | frontend/src/components/auth/ResetPasswordForm.tsx:18-59 | a submit from the visible form never reports the missing-token error; a rejected submit sets the error and calls nothing; an accepted one calls the provider with the validated request, sets success only on an error-free result, shows the provider's or the generic error otherwise, and always ends not loading |

## Left out

- The route imports tables named `user`, `session` and `account`, which the schema does not export; the model uses the schema's `users`, `sessions` and `accounts` tables.
- The identity provider (Better-Auth) is not modelled: `getSession` is the `current` parameter, and password hashing, cookie signing, session issuance and reset tokens are its internals. The backend cuts the signature off the cookie value and never verifies it; the model does the same.
- Database connectivity, `async`/`await` and concurrency are not modelled: every request is one sequential step over a snapshot, so the race between a concurrent login and a withdrawal is outside the model.
- The two `new Date()` reads of the withdrawal are one instant `now`; the clock of the backend is the parameter `now`.
- `.one()` without `ORDER BY` may return any matching row; the model takes the first in scan order, which under the unique token and primary-key indexes is the only one.
- Cookies are one value per name; headers carrying the same cookie name twice are outside the model.
- The `ON DELETE CASCADE` rules are not modelled: users are only soft-deleted, so they never fire.
- The `posts` identity column's generation and the `verifications` table's use by the identity provider are not modelled; their rows appear only with their primary keys and references.
- The three-second timer and router navigation to `/login` after a reset, and `console.error` logging of a withdrawal failure, are not modelled.
- `isLoading` is `true` only while the provider call is in flight; in the sequential model that intermediate state is not observable, only that loading ends false.
- Password length is the number of characters in the sequence; JavaScript's UTF-16 code-unit length is not modelled.
- The HTML attributes `required` and `minLength` on the inputs, which the browser may enforce before `handleSubmit` runs, are not modelled.
- Page rendering, the withdraw button's confirm toggle, the login, register and forgot-password forms, server bootstrap and the backend routes are not part of this model.
