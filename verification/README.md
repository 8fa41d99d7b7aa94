# Verified model of the account and delivery back end

A Dafny model of the stateful parts of the service: the transactional outbox and its leased workers,
the fixed-window rate limiters, refresh-token families, TOTP second factors, external identities, and
the cache of public OIDC documents. `dafny verify dfyconfig.toml` checks everything.

Operations that the service performs step by step are methods, with loops and updates in place. Each is
proved equal to a function of the old state; the properties below are proved about runs made of those
functions, for every run, input and interleaving.

| files | contents |
|---|---|
| `OutboxRows` | rows of the outbox table, the claiming and finalising transactions, the retry delay |
| `OutboxProtocol`, `OutboxSafety`, `OutboxTheorems` | any number of workers as a state machine, its invariant, what follows |
| `OutboxWorkers` | the worker program, each statement of which is a step of the protocol |
| `RateWindows`, `MemoryLimiter`, `RedisLimiter` | counting the whole history, and two limiters that stand in for it |
| `AccountRows`, `AccountRequests` | account tables and the effect of each request |
| `AccountService`, `AccountApi` | the request handlers as programs over those tables, and what holds of the tables whatever they served |
| `AccountSessions`, `SessionTheorems`, `SessionList` | refresh-token families and the device list |
| `RefreshRaces` | refresh tokens again, one statement per step, when requests overlap |
| `AccountMfa`, `AccountMfaRuns`, `MfaTheorems` | TOTP enrolment, recovery codes, login challenges |
| `SignInChanges`, `SessionOrigins` | which changes end sessions, which requests start them, when guarded requests succeed |
| `RequestEffects`, `SignIn` | what each request answers and leaves, row by row, and signing in from one end to the other |
| `AccountIdentities`, `Usernames` | external identities, usernames for new accounts |
| `OidcCache`, `OidcProvider` | the shared document cache, its refresh lock, key lookup |
| `Common` | options and counting lemmas |

## What is proved, in short

- **Outbox.** A message can be handed to the mail server `n` times in some run if and only if the least
  time that `n` claims need (each a lease, or the message's retry delay, after the one before) is shorter
  than the life of its payload. Although the finalising update tests only the owner, it matches exactly
  when the worker's claim is still the latest one. A step carries the attempt counter past
  `OUTBOX_MAX_ATTEMPTS` if and only if it recovers the lease of the last permitted attempt; sends plus
  claims still to be sent never exceed the counter; what is delivered is what was enqueued; terminal rows
  never change.
- **Rate limits.** A call is allowed exactly when the client made fewer than `limit` calls in its window,
  over the whole history, or, in memory, when its two clock readings straddle a boundary; a window lets
  through more than its limit exactly when such a call comes late. The Redis limiter decides every call
  as one in-memory limiter would that sees the calls of all processes.
- **Sessions.** Every family is a rotation chain with at most one live token, its newest. Presenting any
  revoked token kills the family for the rest of the run, the first revocation is permanent, and
  disabled accounts have no live token. A change of how a user signs in ends all the sessions that the
  user had if and only if it is not the confirmation of an MFA enrolment (or there were none), and no
  request touches the sessions of two users.
- **Overlapping requests.** One live token per family, and dead families staying dead, need no atomic
  requests: they hold of single statements under row locks. A replay or a disabling then misses exactly
  the tokens inserted after its update began.
- **Origins.** A session starts only for an active user whom the request authenticated: by password or
  identity while MFA is off, by an open challenge while it is on. Conversely each of these succeeds, and
  challenges, reset tokens, enrolments and OIDC transactions are accepted for exactly as long as
  configured.
- **Second factors.** Every session issued while MFA is on uses up one challenge and one factor that
  nothing else uses. MFA goes on and off exactly under the stated conditions. Accepted TOTP counters rise
  strictly within an enrolment.
- **Identities.** No identity belongs to two accounts, an account has at most one per issuer and always
  keeps a way to sign in, and signing in never attaches an identity to an existing account.
- **Document cache.** Whatever other clients and failures do, only accepted documents are returned, one
  load fetches at most once, a document from the cache is one that the cache held during the load, and a
  lock of somebody else is never released.

## Where the program does not do what one might expect

- `OUTBOX_MAX_ATTEMPTS` does not bound attempts: the claiming query looks neither at the counter nor at the
  expiry. `OutboxTheorems.AttemptsCanExceed` gives a run to any value of the counter for every
  configuration and lifetime, `OutboxTheorems.ClaimExceedsExact` and `OutboxTheorems.StepExceedsExact`
  the exact condition. Deliveries are bounded by the lifetime: `OutboxTheorems.SendBoundExact`.
- The in-memory limiter reads the clock twice. When the two readings of one call lie in different
  windows it may allow one call too many in the earlier one: `MemoryLimiter.ExtraCallPossible` gives the
  run for every configuration, `MemoryLimiter.ExceedsExact` the exact condition.
- Of the three counters around the current time step, only the earliest that produces a TOTP code
  counts. A code that an unspent counter produces is refused if and only if a spent one of the three
  produces it too: `AccountMfa.RefusedExact`. `MfaTheorems.RefusalPossible` gives the run for every
  generator and time at which two of the three counters share a code.
- Switching MFA on leaves the sessions of the user alive: `SignInChanges.ConfirmationSpares` gives the run
  for every configuration that lets anybody enrol, `SignInChanges.EndsSessionsExact` the exact condition.
- Under overlapping requests a disabled user can keep a live token, and so can a family after a replay:
  `RefreshRaces.DisablingOvertaken` and `RefreshRaces.ReplayOvertaken` give the runs,
  `RefreshRaces.CleanExact` and `RefreshRaces.SweepExact` the exact conditions. The branch of the refresh
  handler for inactive users is what catches such a token later (`RefreshRaces.InactiveIsSwept`); with
  each request one transaction it is never taken (`SessionTheorems.RefreshExact`).

## Assumptions

- Outbox workers and rate limiter processes share one clock, which never runs backwards. An outbox worker
  reads it before the transaction that uses the reading, and time may pass in between. The account
  theorems need no such assumption: each request brings an arbitrary reading.
- Owner names of workers are unique, and a worker finishes or drops its batch before it claims again.
- Each account request is one atomic transaction with one clock reading, and a rollback restores
  everything; only `RefreshRaces` lets requests overlap. New row ids, family ids, tokens, challenges and
  recovery codes are fresh, as random values of their length are; lock tokens likewise.
- The jitter of a retry delay is an arbitrary but fixed two-byte function of message and attempt. Other
  digests are injective: a secret appears only as the stored digest. Password checks, signature checks,
  exchanges with the provider, decryption and mail delivery have arbitrary outcomes.
- Settings satisfy the bounds of `src/app/core/config.py:46-70` and `src/app/core/config.py:225-229`, and
  for the rate limiter a positive limit and window.

## Model

| member | source | states |
|---|---|---|
| `OutboxRows.OutboxTable.Enqueue` | src/app/services/outbox.py:29-72 | a new message is due at once, unclaimed, with its payload and no attempt |
| `OutboxRows.OutboxTable.ClaimMessages` | src/app/services/outbox_worker.py:41-105 | the row-by-row loop gives every selected row the lease and one more attempt and changes nothing else, and returns snapshots with the payload and expiry, the counter after the claim, and whether a lease was recovered |
| `OutboxRows.OutboxTable.MarkSucceeded` | src/app/services/outbox_worker.py:108-160 | the row becomes terminal exactly when it is still leased to the owner; otherwise nothing changes and the caller learns so |
| `OutboxRows.OutboxTable.MarkFailed` | src/app/services/outbox_worker.py:189-250 | under the same condition the row is retried after the delay or dead-lettered, as decided on the snapshot, and the answer tells which |
| `OutboxRows.RetryDelay` | src/app/services/outbox_worker.py:163-186 | for every digest the delay lies between the base and the maximum and not below the capped exponential |
| `OutboxRows.RetryDelayRange` | src/app/services/outbox_worker.py:163-186 | a delay is possible for some two-byte digest if and only if it exceeds the capped exponential by at most the base and a quarter of it, or by at most a second, and stays within the maximum |
| `OutboxRows.RetryDelayCycle` | src/app/services/outbox_worker.py:172-186 | as the digest grows the jitter runs through all permitted values in turn |
| `OutboxRows.RetryDelayGrows` | src/app/services/outbox_worker.py:163-186 | a later attempt never waits less, whatever jitter either draws |
| `OutboxSafety.StepKeepsInv` | src/app/services/outbox_worker.py:41-250 | every claim, hand-over, clock reading, finalisation, crash and tick keeps the protocol invariant |
| `OutboxSafety.InvAlways` | src/app/services/outbox_worker.py:41-250 | so the invariant holds after every run from the empty table |
| `OutboxTheorems.SendBound` | src/app/services/outbox_worker.py:47-84 | a message sent `n` times has lived longer than the least time for its claims, hence than `n - 1` times the lesser of lease and backoff base |
| `OutboxTheorems.SendBoundExact` | src/app/services/outbox_worker.py:335-341 | a message of a given lifetime can be sent `n` times if and only if the least time for its `n` claims, with its own jitter, is shorter than the lifetime |
| `OutboxTheorems.AttemptsCanExceed` | src/app/services/outbox_worker.py:47-84 | for every configuration and lifetime some run takes the attempt counter to any value |
| `OutboxTheorems.ClaimExceedsExact` | src/app/services/outbox_worker.py:54-83 | a claim carries the counter past the maximum if and only if the message is still leased and has no attempts left |
| `OutboxTheorems.StepExceedsExact` | src/app/services/outbox_worker.py:54-83 | over all steps, the counter passes the maximum if and only if the lease of the last permitted attempt is recovered |
| `OutboxTheorems.DeliveryAccounting` | src/app/services/outbox_worker.py:75-101 | the attempt counter equals the claims ever committed; sends plus unsent claims held by workers never exceed it; a succeeded row was sent |
| `OutboxTheorems.DeliversEnqueued` | src/app/services/outbox.py:51-66 | after any further run the row has the enqueued times and, until it is terminal, the enqueued payload, and every claim of it carries that payload and expiry |
| `OutboxTheorems.Fencing` | src/app/services/outbox_worker.py:108-124 | the owner-only condition matches if and only if the worker's claim is the latest claim of the row |
| `OutboxTheorems.FinalizeEffect` | src/app/services/outbox_worker.py:127-250 | a stale claim changes no row; a current one turns its own row into a success, a retry after exactly its delay or, exactly when the claim was final, a dead letter, and leaves all others |
| `OutboxTheorems.AttemptBudget` | src/app/services/outbox_worker.py:200-232 | attempts never exceed the maximum plus recoveries, pending rows are below the maximum, dead letters were expired, undecodable or exhausted, and the CHECK constraints hold |
| `OutboxTheorems.TerminalForever` | src/app/services/outbox_worker.py:108-124 | a succeeded or dead-lettered row is the same after any further run |
| `OutboxWorkers.OutboxWorker.RunOnce` | src/app/services/outbox_worker.py:274-294 | every statement is an enabled protocol step; it starts and ends holding nothing, claims nothing once a stop was requested, and finalises the claims it took, in order, all of them unless it raises or the grace period ends; it stops for the grace period at the first message before which that period has ended, and at no other; a raise may follow a claim that took effect |
| `OutboxWorkers.OutboxWorker.ProcessMessage` | src/app/services/outbox_worker.py:325-400 | the worker's steps are an inspection, a hand-over unless that settles the message, a clock reading and the update of exactly this claim; an error drops the batch right after the hand-over, before the update, or after an update whose answer was lost |
| `OutboxWorkers.OutboxWorker.Conclude` | src/app/services/outbox_worker.py:127-153 | the worker's next steps are reading the clock, committing the update unless an error comes first, and on any error, a lost answer to the commit included, dropping the batch, with anything of others in between |
| `OutboxWorkers.OutboxWorker.RequestStop` | src/app/services/outbox_worker.py:264-266 | a repeated signal does not restart the grace period |
| `RateWindows.WindowBounds` | src/app/middlewares/rate_limit.py:69-70 | an instant is in window `k` if and only if it lies from the start of `k` up to the start of `k + 1` |
| `MemoryLimiter.RateLimiter.Cleanup` | src/app/middlewares/rate_limit.py:60-66 | exactly the clients whose window is over are forgotten |
| `MemoryLimiter.RateLimiter.Check` | src/app/middlewares/rate_limit.py:68-78 | one call with its two clock readings is one step of the table, and the delay it answers is the least that leads into the next window |
| `MemoryLimiter.TableRemembers` | src/app/middlewares/rate_limit.py:60-78 | from the current window on, the table knows the count of every client over the whole history |
| `MemoryLimiter.TableForgets` | src/app/middlewares/rate_limit.py:60-66 | besides the last caller it keeps only clients whose window is not over |
| `MemoryLimiter.CheckExact` | src/app/middlewares/rate_limit.py:68-78 | a call is allowed if and only if its two readings straddle a boundary or fewer than `limit` earlier calls fell in its window |
| `MemoryLimiter.AllowedPerWindow` | src/app/middlewares/rate_limit.py:68-78 | a window allows the lesser of its calls and the limit, and one more exactly when a call of this client straddles its end after the limit was used up |
| `MemoryLimiter.ExceedsExact` | src/app/middlewares/rate_limit.py:68-78 | more than `limit` calls of a client are allowed in a window if and only if there is such a call, and never more than `limit + 1` |
| `MemoryLimiter.ExtraCallPossible` | src/app/middlewares/rate_limit.py:60-78 | the extra call happens: a run with `limit + 1` allowed calls in one window |
| `MemoryLimiter.AllowedOverTime` | src/app/middlewares/rate_limit.py:68-78 | any closed interval of `k` window lengths lets at most `(k + 1) * limit` calls of a client through, plus the client's own straddling calls in it, and at most `(k + 1) * (limit + 1)` |
| `MemoryLimiter.RetryAfterLeast` | src/app/middlewares/rate_limit.py:77-78 | waiting the advertised seconds leads into the very next window and one second less does not |
| `RateWindows.LeastWaitUnique` | src/app/middlewares/rate_limit.py:77-78 | no smaller positive number of seconds leaves the window |
| `RedisLimiter.RedisRateLimiter.Eval` | src/app/middlewares/rate_limit.py:30-43 | the script's statements together increment one expiring counter |
| `RedisLimiter.RedisRateLimiter.Check` | src/app/middlewares/rate_limit.py:107-115 | a call is one such increment and its decision |
| `RedisLimiter.LivesLongEnough` | src/app/middlewares/rate_limit.py:34-40 | a key does not expire in its own window or the next one |
| `RedisLimiter.StoreRemembers` | src/app/middlewares/rate_limit.py:30-43 | from the current window on, the store knows the count of every client over the whole history |
| `RedisLimiter.CallExact` | src/app/middlewares/rate_limit.py:30-43 | a call is allowed if and only if fewer than `limit` earlier calls of the client fell in its window |
| `RedisLimiter.FewKeys` | src/app/middlewares/rate_limit.py:37-40 | at most three keys of a client are alive at any time |
| `RedisLimiter.AgreesWithMemory` | src/app/middlewares/rate_limit.py:68-115 | on every trace, allowed flag and retry delay are those of one in-memory limiter that sees all calls |
| `RedisLimiter.AllowedOverTime` | src/app/middlewares/rate_limit.py:107-115 | any closed interval of `k` window lengths lets at most `(k + 1) * limit` calls through |
| `AccountService.Accounts.RevokeTokens` | src/app/services/sessions.py:73-88 | the bulk update marks exactly the selected live tokens and keeps the first time and reason of the others |
| `AccountService.Accounts.PrepareSessionTokens` | src/app/services/session_issuance.py:17-62 | only an active user gets a new family |
| `AccountService.Accounts.RefreshAccessToken` | src/app/auth/refresh.py:49-144 | equal to one `Refresh` step of the runs below: replay, expiry, unknown or disabled user, or rotation |
| `AccountService.Accounts.RevokeRefreshToken` | src/app/auth/refresh.py:147-179 | logging out ends the family of the presented token, live or not |
| `AccountService.Accounts.RevokeUserSessions` | src/app/services/sessions.py:52-91 | one family of the user, or all of them, end |
| `AccountService.Accounts.UpdateUserStatus` | src/app/api/v1/admin.py:100-131 | disabling ends every session in the same commit, enabling brings none back |
| `AccountSessions.StepIsSound` | src/app/auth/refresh.py:28-144 | every request keeps the chain invariant, lets tokens only evolve forward, and keeps dead families dead |
| `AccountSessions.RunIsSound` | src/app/services/sessions.py:65-91 | so does every run |
| `SessionTheorems.FamilyIsChain` | src/app/auth/refresh.py:110-128 | a family has one user and device, one token more than rotations, and at most one live token, the newest |
| `SessionTheorems.FamilyIsBornOnce` | src/app/services/session_issuance.py:48-57 | every token descends from exactly one issued session of the same user |
| `SessionTheorems.ReplayKillsFamily` | src/app/auth/refresh.py:69-83 | after any revoked token is presented its family is dead for the rest of every run |
| `SessionTheorems.DeadForever` | src/app/auth/refresh.py:28-46 | a family without a live token never gets one again |
| `SessionTheorems.RevocationIsPermanent` | src/app/auth/refresh.py:35-46 | revoked, time and reason go together, and the first ones stay |
| `SessionTheorems.DisabledHasNoSession` | src/app/api/v1/admin.py:116-125 | a disabled account has no live token, and none of its tokens lives again, re-enabled or not |
| `SessionTheorems.RefreshExact` | src/app/auth/refresh.py:55-108 | refreshing succeeds if and only if the token is stored, live and unexpired |
| `SessionTheorems.RefreshRotates` | src/app/auth/refresh.py:110-128 | the successor inherits user, family and device, and only the presented token ends |
| `RefreshRaces.OneLivePerFamily` | src/app/auth/refresh.py:55-60 | with statements interleaved under row locks, a family has one user and at most one live token, its newest |
| `RefreshRaces.DeadForever` | src/app/auth/refresh.py:69-83 | and a family without a live token never gets one again |
| `RefreshRaces.SweepExact` | src/app/auth/refresh.py:35-46 | a committed bulk revocation leaves its tokens dead if and only if none was inserted, and left live, since its update began |
| `RefreshRaces.CleanExact` | src/app/services/sessions.py:73-88 | disabled users get a live token if and only if a disabling commits over a token inserted since its update began |
| `RefreshRaces.CleanRun` | src/app/api/v1/admin.py:116-125 | in a run without such a commit disabled users never have a live token |
| `RefreshRaces.InactiveIsSwept` | src/app/auth/refresh.py:99-108 | presenting a live token of a disabled user starts a revocation of all the user's tokens, that one included |
| `RefreshRaces.DisablingOvertaken` | src/app/auth/refresh.py:110-128 | a run in which a refresh overtakes a disabling |
| `RefreshRaces.ReplayOvertaken` | src/app/auth/refresh.py:69-83 | a run in which a rotation overtakes the revocation that answers a replay |
| `AccountApi.Api.Handle` | src/app/auth/refresh.py:49-179 | any sequence of served requests is a run: the object's tables are reachable, one request longer |
| `AccountApi.Api.Refresh` | src/app/auth/refresh.py:49-144 | on the tables: succeeds if and only if the token was live and unexpired, and a revoked one ends its family |
| `AccountApi.Api.Disable` | src/app/api/v1/admin.py:100-131 | on the tables: afterwards the user has no live token |
| `AccountApi.Api.LogIn` | src/app/auth/login.py:27-66 | on the tables: when a login gives a session or an open challenge |
| `AccountApi.Api.SignOut` | src/app/services/sessions.py:52-91 | on the tables: exactly the user's tokens, or those of one family of the user, end |
| `AccountApi.Api.CompleteChallenge` | src/app/services/mfa.py:346-398 | on the tables: tokens only for a challenge that was open, which is spent, and one new token of its user |
| `AccountApi.Api.Reset` | src/app/services/password_reset.py:72-142 | on the tables: the owner of the open reset token has no live session afterwards |
| `AccountApi.Api.UnlinkIdentity` | src/app/services/oidc.py:416-446 | on the tables: everybody can still sign in |
| `AccountApi.Api.Sessions` | src/app/auth/refresh.py:28-144 | whatever was served, a family has one user, one device and at most one live token, and disabled users have none |
| `AccountApi.Api.Identities` | src/app/services/oidc.py:184-446 | whatever was served, identities are unique and everybody can sign in |
| `AccountApi.Api.Challenges` | src/app/services/mfa.py:320-328 | whatever was served, at most one login challenge of a user is open |
| `SignInChanges.SignInChangesEndSessions` | src/app/services/mfa.py:143-148 | any request but the confirmation of an enrolment that disables a user, changes password login, MFA or identities, or uses or replaces recovery codes under MFA ends every session the user had, for the rest of every run |
| `SignInChanges.EndsSessionsExact` | src/app/services/mfa.py:203-232 | such a change ends the earlier sessions if and only if it is not the confirmation of an enrolment, or there were none |
| `SignInChanges.ConfirmationSpares` | src/app/services/mfa.py:203-232 | whenever MFA is available and some current counter yields a six-digit code, a run leads to a confirmation that switches MFA on and leaves an earlier session live |
| `SignInChanges.StepHitsOneUser` | src/app/services/sessions.py:65-91 | no request changes tokens of two users |
| `RequestEffects.SignOutEverywhere` | src/app/services/sessions.py:56-91 | exactly the user's live tokens are revoked, at that time and for that reason, nobody else's, and none lives again in any run |
| `RequestEffects.SignOutOfDevice` | src/app/services/sessions.py:52-91 | exactly the live tokens of that user in that family are revoked |
| `RequestEffects.SignOutIsFinal` | src/app/services/sessions.py:52-91 | and if the family is the user's it is dead for the rest of every run |
| `RequestEffects.LogoutExact` | src/app/auth/refresh.py:147-179 | a stored token ends exactly its family, with time and reason; an unknown one changes nothing |
| `RequestEffects.RefreshRefuses` | src/app/auth/refresh.py:63-108 | a refused refresh answers 401 and changes nothing, except that a revoked token ends exactly its family, with time and reason |
| `RequestEffects.StatusExact` | src/app/api/v1/admin.py:100-131 | the flag is set, disabling ends exactly the user's sessions, and enabling touches nothing else |
| `RequestEffects.EmailVerifiedExact` | src/app/services/email_verification.py:100-102 | the account is marked verified and nothing else about it changes |
| `RequestEffects.RegisterExact` | src/app/auth/register.py:17-44 | an account is made if and only if nobody has the name or the address, with password login and unverified |
| `SignInChanges.ResetEndsSessions` | src/app/services/password_reset.py:115-138 | a confirmed reset ends every session of the owner for the rest of every run and leaves no reset token of the owner open |
| `SignInChanges.LogoutKillsFamily` | src/app/auth/refresh.py:147-179 | logging out kills the family for the rest of every run and touches no other |
| `SignInChanges.ReplaceExact` | src/app/services/mfa.py:114-119 | afterwards the user has exactly the new codes, unused, and everybody else's are as before |
| `SessionOrigins.SessionsNeedAuthentication` | src/app/auth/login.py:27-66 | a request starts at most one session, for an active user whom it authenticated by password or vouched identity without MFA, or by an open challenge with MFA |
| `RequestEffects.LoginExact` | src/app/auth/login.py:27-66 | a session if and only if the password of an active account is right and MFA is off, a challenge if and only if MFA is on and available, each with its device and expiry; otherwise nothing changes |
| `SignIn.SignInExact` | src/app/services/oidc.py:184-392 | an external sign-in yields tokens for exactly the active owner without MFA or the new account of a newcomer, and a challenge exactly for an active owner with MFA on while MFA is available |
| `SignIn.OwnerCompletes` | src/app/services/oidc.py:199-205 | the owner's session or challenge carries the device of the transaction, which is consumed; a refusal changes nothing |
| `SignIn.StrangerCompletes` | src/app/services/oidc.py:207-243 | the new account has that address, verified, and no password login; without a verified free address nothing changes |
| `SignIn.LinkCompletes` | src/app/services/oidc.py:355-368 | linking succeeds if and only if the user is active and the identity is the user's or free with the issuer unused, and a refusal leaves even the transaction open |
| `SignIn.CompletionNeeds` | src/app/services/oidc.py:306-352 | without an open, bound transaction and a vouching provider nothing changes |
| `SignIn.PasswordThenFactor` | src/app/services/mfa.py:309-398 | the challenge of a password login is completed if and only if this is before its expiry and with an acceptable code, and the session carries the device given at login |
| `SignIn.IdentityThenFactor` | src/app/services/oidc.py:377-392 | the same after an external sign-in, with the device of the transaction |
| `SignIn.BegunIsOpen` | src/app/services/oidc.py:102-120 | a transaction is open exactly until it expires, with its intent and device |
| `SignIn.RequestedIsConfirmed` | src/app/services/password_reset.py:24-142 | a reset token is confirmed exactly until it expires |
| `SignIn.BegunIsConfirmed` | src/app/services/mfa.py:170-232 | an enrolment is confirmed exactly until it expires, by the code of one of the three counters then current |
| `SessionOrigins.VerifyExact` | src/app/services/mfa.py:346-398 | a challenge is completed if and only if it is open and its active user with MFA on presents an acceptable TOTP code or an unused recovery code |
| `RequestEffects.VerifyWithTotp` | src/app/services/mfa.py:371-394 | the counter is spent, only this challenge is consumed, and one session for its device begins; nothing else changes |
| `RequestEffects.VerifyWithRecovery` | src/app/services/mfa.py:373-394 | only this code is used, only this challenge is consumed, the earlier sessions end and the new one begins |
| `SessionOrigins.ResetExact` | src/app/services/password_reset.py:72-142 | a reset succeeds if and only if its token is open and was issued for the address its active, verified user still has |
| `RequestEffects.ResetConfirmExact` | src/app/services/password_reset.py:110-142 | password login is on, the owner's reset tokens are consumed, exactly the owner's sessions end; a refusal changes nothing |
| `RequestEffects.ResetRequestExact` | src/app/services/password_reset.py:24-69 | the answer is always the same; a usable account gets one new token for its address and loses the earlier ones |
| `SessionOrigins.SwitchedOnExact` | src/app/services/mfa.py:203-232 | over all requests, MFA goes on if and only if an open enrolment is confirmed in time with an acceptable code |
| `SessionOrigins.SwitchedOffExact` | src/app/services/mfa.py:260-287 | over all requests, MFA goes off if and only if password and an acceptable code or unused recovery code are given |
| `RequestEffects.EnrollmentBeginExact` | src/app/services/mfa.py:170-200 | who may begin, and that only the user's pending enrolment and codes change |
| `RequestEffects.EnrollmentConfirmExact` | src/app/services/mfa.py:203-232 | the earliest matching counter is recorded and the user has exactly the new codes |
| `RequestEffects.RegenerateExact` | src/app/services/mfa.py:235-257 | new codes if and only if password and an acceptable TOTP code are given, and exactly the user's sessions end |
| `RequestEffects.DisableExact` | src/app/services/mfa.py:260-287 | the enrolment is cleared, the user's codes are gone, exactly the user's sessions end |
| `SessionList.GroupByFamily` | src/app/services/sessions.py:24-31 | every record is in exactly its family's group, in order, and families are listed once |
| `SessionList.Summarize` | src/app/services/sessions.py:36-46 | device of a most recently used live token, earliest creation, latest use, latest expiry |
| `SessionList.SortLatestFirst` | src/app/services/sessions.py:48-49 | a permutation ordered by non-increasing last use |
| `SessionList.ListActiveSessions` | src/app/services/sessions.py:17-49 | each family with a live unexpired token appears exactly once, truly described and ordered, and no other does |
| `SessionList.ListedIsRefreshable` | src/app/services/sessions.py:24-49 | in reachable states the device and expiry shown are those of the single live tip, which can be refreshed at that instant |
| `AccountService.Accounts.BeginTotpEnrollment` | src/app/services/mfa.py:170-200 | a pending enrolment replaces any earlier one, forgets the counter and deletes the codes |
| `AccountService.Accounts.ReplaceRecoveryCodes` | src/app/services/mfa.py:114-119 | the user's codes are exactly the new ones, all unused, and nobody else's change |
| `AccountService.Accounts.ConfirmTotpEnrollment` | src/app/services/mfa.py:203-232 | a fresh code within the enrolment lifetime switches MFA on and issues the recovery codes |
| `AccountService.Accounts.RegenerateRecoveryCodes` | src/app/services/mfa.py:235-257 | needs password and TOTP code, replaces the codes and ends all sessions |
| `AccountService.Accounts.DisableTotp` | src/app/services/mfa.py:260-287 | needs password and a factor, clears enrolment and codes and ends all sessions |
| `AccountService.Accounts.PrepareMfaLoginChallenge` | src/app/services/mfa.py:309-343 | a new challenge closes every open one of the user, over both purposes |
| `AccountService.Accounts.VerifyMfaLoginChallenge` | src/app/services/mfa.py:346-398 | challenge, factor and session change together or not at all |
| `AccountMfa.MatchingCounter` | src/app/services/mfa.py:83-95 | the search over three counters finds the match that the next row characterises |
| `AccountMfa.MatchExact` | src/app/services/mfa.py:83-95 | a code is accepted if and only if the earliest of the three counters producing it is above the last accepted one |
| `AccountMfa.TimeStepExact` | src/app/services/mfa.py:87 | the step is the number of whole 30-second periods since the epoch |
| `AccountMfa.RefusedExact` | src/app/services/mfa.py:88-94 | a code that an unspent counter of the three produces is refused if and only if a spent one produces it too |
| `AccountMfaRuns.StepKeeps` | src/app/services/mfa.py:170-398 | every request keeps the second-factor invariant |
| `AccountMfaRuns.RunKeeps` | src/app/services/mfa.py:170-398 | so the invariant holds after every run |
| `MfaTheorems.SessionsCostFactors` | src/app/services/mfa.py:346-398 | exactly the sessions of users with MFA on carry a second factor, and no two share a challenge or, for one user, a factor |
| `MfaTheorems.OnlyChallengesMint` | src/app/auth/login.py:50-60 | while MFA is on, only completing an open challenge with an unspent factor gives the user a session |
| `MfaTheorems.OneOpenChallenge` | src/app/services/mfa.py:320-328 | of two login challenges of a user, the older is consumed |
| `MfaTheorems.AcceptedCodes` | src/app/services/mfa.py:83-95 | within an enrolment accepted counters strictly increase, so time steps from `low` to `high` see at most `high - low + 3` accepted codes |
| `MfaTheorems.RefusalPossible` | src/app/services/mfa.py:88-94 | whenever two of the three counters share a code, a run reaches a user for whom it is refused although an unspent counter produces it |
| `AccountService.Accounts.IssueResetToken` | src/app/services/password_reset.py:24-69 | a new reset token closes the earlier ones; unusable accounts get the same answer and no token |
| `AccountService.Accounts.ConfirmPasswordReset` | src/app/services/password_reset.py:72-142 | a valid token enables password login, closes all reset tokens and ends all sessions, all or nothing |
| `AccountService.Accounts.Login` | src/app/auth/login.py:27-66 | with MFA on the password yields only a challenge |
| `AccountService.Accounts.IdentityForLogin` | src/app/services/oidc.py:184-243 | a known identity signs in, an unknown one with an unused verified address creates an account |
| `AccountService.Accounts.IdentityForLink` | src/app/services/oidc.py:246-295 | linking adds the identity to the asking account unless it or the issuer is taken, and ends all sessions |
| `AccountService.Accounts.CompleteOidcAuthorization` | src/app/services/oidc.py:298-404 | the transaction is consumed together with its result, and any failure leaves everything as it was |
| `AccountService.Accounts.UnlinkExternalIdentity` | src/app/services/oidc.py:416-446 | the identity is removed and all sessions end, unless it is the last way to sign in |
| `AccountIdentities.StepKeepsLinks` | src/app/services/oidc.py:184-446 | every request keeps the identity invariant |
| `AccountIdentities.IdentitiesAlways` | src/app/services/oidc.py:184-295 | in every reachable state identities are unique by subject and by account and issuer, every account can sign in, names and addresses are unique, and no OIDC transaction completed twice |
| `AccountIdentities.IdentityOnlyOnRequest` | src/app/services/oidc.py:200-243 | an identity is added only to the account that asked for it or to an account that did not exist before the step |
| `AccountIdentities.LinkExact` | src/app/services/oidc.py:246-295 | after linking the identity is the user's if and only if it was before, or the user is active and neither identity nor issuer was taken |
| `AccountIdentities.UnlinkExact` | src/app/services/oidc.py:416-446 | after unlinking the identity is gone if and only if it was the user's and another way to sign in remains |
| `RequestEffects.LinkAnswers` | src/app/services/oidc.py:246-295 | which answer linking gives, the row it adds, and that exactly the user's sessions end |
| `RequestEffects.UnlinkAnswers` | src/app/services/oidc.py:416-446 | which answer unlinking gives, that it removes one row of the user, and that exactly the user's sessions end |
| `Usernames.NewUsername` | src/app/services/oidc.py:161-172 | the search ends with the first unused candidate after at most as many rejections as there are names, and the name fits the column |
| `Usernames.BaseIsShort` | src/app/services/oidc.py:161-165 | the base name has at most 43 characters |
| `Usernames.BaseExact` | src/app/services/oidc.py:162-165 | the base is what precedes the first `@`, with other characters replaced, trimmed and cut to 30, or a stock name, and 12 digits of the digest |
| `Usernames.CandidateShape` | src/app/services/oidc.py:169-170 | candidate `n` is the base, cut to fit, and a dash and the decimal number |
| `Usernames.CandidatesDiffer` | src/app/services/oidc.py:166-171 | different suffixes give different names, even after truncation |
| `Usernames.CandidateFits` | src/app/services/oidc.py:166-171 | a candidate has at most 50 characters if and only if its number has at most 49 digits |
| `Usernames.TakenBound` | src/app/services/oidc.py:168-171 | at most as many candidates can be taken as there are names |
| `OidcCache.SharedStore.SetLock` | src/app/services/oidc_cache.py:112-131 | the lock changes hands only when it is free or has expired |
| `OidcCache.SharedStore.ReleaseLock` | src/app/services/oidc_cache.py:20-25 | the lock disappears only if it carries the token |
| `OidcCache.DocumentCache.ReadValue` | src/app/services/oidc_cache.py:55-78 | a hit is the parse of a value within the size limit that the store held at the read, a miss means that it held none, invalid that it held anything else; an error means that the store failed; during a read no lock token drawn here gains the lock, and none loses it before it expires |
| `OidcCache.DocumentCache.Write` | src/app/services/oidc_cache.py:86-110 | only a document within the size limit is stored, for the configured time, unless the store fails |
| `OidcCache.DocumentCache.AcquireRefreshLock` | src/app/services/oidc_cache.py:112-131 | a taken lock carries the drawn token and expires after the configured time; it is not taken only when the cache is disabled, the store fails, or somebody holds an unexpired lock |
| `OidcCache.DocumentCache.WaitForValue` | src/app/services/oidc_cache.py:142-158 | the loop ends within the wait divided by the poll interval plus one polls, at the first failure or the first value shown that is neither missing nor to be avoided, or when the wait is over |
| `OidcProvider.ProviderClient.Fetch` | src/app/services/oidc_provider.py:180-189 | the result is that of loading without a cache, and a held lock is released in every case |
| `OidcProvider.ProviderClient.Load` | src/app/services/oidc_provider.py:147-189 | fetches at most once; a fetched result is that of loading without a cache, an unfetched one an accepted document that the cache held during the call, other than the avoided one; an acceptable cached document is not fetched again; only the own lock is removed; exactly accepted storable fetches are offered to the cache |
| `OidcProvider.ProviderClient.FromCache` | src/app/services/oidc_provider.py:156-178 | a document from the cache is accepted, was shown by it during the call, is not the avoided one, and is the first shown if that is acceptable; the cache is read first unless it fails; neither document nor lock only after a failure, the whole wait, or an entry of no use |
| `OidcProvider.ProviderClient.FindSigningKey` | src/app/services/oidc_provider.py:244-283 | at most two fetches; the key found is in an accepted document; a missing key was missing from a fetched document or from two different cached ones; without a cache the answer is that of one direct load |

## Left out

- Routing, middleware wiring, proxy and client address handling, CORS, logging, tracing, metrics, health checks: plumbing.
- The fields `updated_at`, `traceparent`, `tracestate`, `message_type`, idempotency key and encryption version of outbox rows: they decide nothing.
- Anomalies between overlapping account requests, except those on refresh tokens in `RefreshRaces`; there the row lock on the user during session issuance is held within one step, and the expiry of tokens, deadlocks and the reasons of revocations are left out.
- `SELECT ... FOR UPDATE SKIP LOCKED`: the rows it may return are a parameter that satisfies `IsQueryResult` in the transaction, and in the protocol any due rows up to the batch size.
- Fairness and eventual delivery: nothing in the program guarantees that workers run.
- Two clock readings of one account request (expiry check, then revocation time): one reading stands for both.
- Email verification tokens: only their effect on the account is a request.
- Deleting users and changing roles.
- Email, last login and creation time of identities; password hashes; access tokens; device name normalisation.
- Looking users up by username or address at login and reset: requests name the user id.
- Addresses are compared after normalisation, which is not modelled; digits of TOTP codes are ASCII digits.
- The HMAC key prefix and client normalisation of the Redis limiter, its failure mode, and the sub-millisecond part of its clock.
- Configuration loading: its bounds are preconditions.
- Discovery metadata and key sets are payloads that a validator accepts or not; JSON, JWT and HTTP are not modelled.
- OidcCache.DocumentCache.WaitForValue: the sleep lasts at least as long as asked for, so polls are bounded and elapsed time is not.
- OidcProvider.ProviderClient.Load: agreement with direct loading is stated for fetched results; a cached document may be older than what the provider would answer, as caching intends.
- The polling loop of `src/app/workers/outbox.py`: it only repeats `RunOnce`, which starts and ends holding nothing.
- SessionList.SortLatestFirst: does not state that equal last uses keep their order.
- Usernames.Base: takes the local part of the address as already case-folded.
