# Proofs about the MooveSaathi backend

MooveSaathi is a ride-sharing backend. Its safety rests on facts spread over many methods: a seat counter and a redundant
`is_active` flag, bookings with a status graph and boarding codes, dispatch requests that turn into rides, payments moved
by seven entry points and by an outside provider, sessions and blacklists pruned by time, and a retrying job queue. This
project models those parts and proves what holds in every reachable state or over every run.

`dafny verify dfyconfig.toml` checks everything.

## How the model is laid out

- `RateLimit`, `Lockout`, `JobQueue`, `TokenStore`, `Auth`, `Idempotency`: the small stateful services, each a class
  that updates its fields as the source does, proved against a function of the old state, with theorems about runs of
  it.
- `Sessions`: which tokens stay accepted and which sessions listed, for every operation and over whole histories.
- `Payments`: one payment row, the table, and runs of all the entry points with an arbitrary provider.
- `PaymentOutcomes`: what each payment operation leaves, told from the stored row and the provider's answers alone.
- `Trips`: the rows of rides, bookings, payments and ride requests, and what each operation does to them. `TripRuns`
  has the invariant, `TripHistory`, `Boarding`, `Settlement` and `Dispatching` the theorems over runs.
- `Effects`: who may do what to rides, bookings and requests, the errors, and exactly which fields change.
- `RefundRetries`: the rows together with the queue of payment jobs and its worker, and what becomes of an owed
  refund. `RideCancellations` and `RolledBackCaptures` have what ride cancellation and rolled-back completions do to
  payments.
- `Database`, `PaymentService`, `BookingService`, `RideService`, `DispatchService`: the session and the services as
  classes that change the tables field by field, row by row and in loops, each proved equal to the operation in
  `Trips` or `Payments` and, through `TripRuns.StepCoherent`, to keep the coherence of the rows.
- `Listing`, `Money`, `Geometry`: ordered queries and the stable sort, rounding, and the distance to a route.

Conventions: row ids are positions in a table (nothing is deleted), and payments are keyed by the booking they pay for,
which is unique in the source too. The clock, random codes, token ids, distances and the driver's presence are parameters;
one operation sees one time. The provider's answers are parameters about which nothing is assumed. OTP and request hashes
are taken as injective. A step that raises leaves what its rollback leaves: the tables unchanged, apart from an expiry pass
that had been committed, and jobs already queued stay queued. Request validation gives a new ride at least one seat
and an updated one no negative number (app/schemas/ride.py:18, app/schemas/ride.py:32). The session that `revoke_other_sessions`
keeps comes from the caller's own access token (app/api/v1/endpoints/auth.py:195).

## What the proofs found out

- The rate limiter is better than twice the limit: 2*limit - 1 per interval, and that is reached for every limit and
  every window of at least two units of the clock.
- `change_password` stores the new password before it decodes the access token, so the sessions survive exactly when
  that token is refused; a run that does this is given. A password reset, and a change that goes through, are final
  for every earlier refresh token.
- Refresh and logout end a refresh token but leave its session in the user's session list until it expires.
- `reconcile_payment` can lower a status; when it does is stated exactly. Nothing else can.
- A completed ride becomes scheduled or full again when its driver accepts a booking that was still pending, and in no
  other way; a run that does this is given.
- The refund owed after a booking is cancelled by itself can be forgotten. `retry_refund_payment` returns without an
  error when the payment is not authorized or captured, so a retry that runs while a reconciliation has set the
  payment back to pending leaves the queue, and a later confirmation can capture the payment again. A run that does
  this is given; it is the only way, and it needs the provider to report a captured or authorized payment as pending.
- `cancel_ride` makes no payment call, and it is the only cancellation after which a captured or authorized payment is
  neither refunded nor queued for a refund retry; nothing asks for that refund later. A run that does this is given.
- A completion that a later booking's payment stops is rolled back together with the captures already granted, which
  are then asked for again; a run in which this happens is given. Apart from rollbacks and from reconciliations told
  less than what is stored, a payment is captured at most once.
- Requests are authenticated without the decoder's own expiry check: a logged-out access token authenticates again in
  exactly one second, the one it expires in, when pruning has dropped it from the blacklist. A run that does this is
  given.
- With more than 500 requests stale, a match can take one whose departure is past; exactly when is stated, and a run
  is given.
- Status 0 marks an unused idempotency key, so an operation answering with status 0 would run again; and a response
  body that is JSON null, as that of a ride cancellation, is replayed without content. Record keys of different
  requests are different whenever methods and paths have no colon, and unique against all requests exactly when the
  key has none either.

## Model

| member | source | states |
|---|---|---|
| `RateLimit.RateLimiter.Increment` | app/core/rate_limit.py:52-60 | The in-memory path: counts the request in its running window, or opens a new one; other keys keep their records unless they have expired. |
| `RateLimit.RateLimiter.Prune` | app/core/rate_limit.py:62-65 | Exactly the records that have not expired stay. |
| `RateLimit.RateLimiter.Enforce` | app/core/rate_limit.py:30-36 | The request is let through iff its count is within the limit; a refused one still counts. |
| `RateLimit.IntervalBound` | app/core/rate_limit.py:30-65 | In any part of any run lying in a half-open interval as long as the window, a key gets at most max(0, 2*limit - 1) requests through, which is one better than twice the limit. |
| `RateLimit.IntervalBoundIsTight` | app/core/rate_limit.py:30-65 | For every limit and every window of at least two clock units, a run of which 2*limit - 1 requests in one such interval are all let through, so no smaller bound holds. |
| `RateLimit.WindowBound` | app/core/rate_limit.py:54-57 | From the request that opens it until it expires, a window lets at most `limit` requests through. |
| `RateLimit.AdmittedIff` | app/core/rate_limit.py:30-60 | Exactly which requests are let through, on any trace with a nondecreasing clock: those among the first `limit` of their key in their window, a window being opened by the first request of the key after the last one ended. |
| `RateLimit.CountIs` | app/core/rate_limit.py:54-60 | The count a request gets is its place among the requests of its key in its window. |
| `RateLimit.MemoryIs` | app/core/rate_limit.py:52-65 | What is stored for a key is what its latest request left, unless that has expired. |
| `RateLimit.NothingExpiredIsKept` | app/core/rate_limit.py:62-65 | After every request no expired record is stored. |
| `RateLimit.PruningUnobservable` | app/core/rate_limit.py:59-65 | On every trace with a nondecreasing clock the counts returned are those of a limiter that never prunes. |
| `RateLimit.PruningInvisible` | app/core/rate_limit.py:59-65 | The same from any two memories that agree on the records still running. |
| `Lockout.User.Login` | app/services/auth.py:99-126 | The verdict (locked, wrong password, unverified, logged in) and the new counter and lock for each login; a locked account is refused before the password is looked at. |
| `Lockout.User.RecordFailedLogin` | app/services/auth.py:358-382 | Counts the failure; on reaching the maximum it locks the account and starts the counter again. |
| `Lockout.User.ClearFailedLogins` | app/services/auth.py:384-389 | Counter and lock are both cleared. |
| `Lockout.CounterBelowThreshold` | app/services/auth.py:358-389 | After any run the stored counter is between 0 and max(1, MAX) - 1. |
| `Lockout.LockoutBound` | app/services/auth.py:99-115 | In any half-open interval as long as the lock, of any run, with c successful logins at most (MAX-1)*c + MAX wrong passwords are checked. |
| `Lockout.LockedInWindow` | app/services/auth.py:341-356 | While a lock set inside the interval lasts, no password is checked at all. |
| `Lockout.LockedIff` | app/services/auth.py:341-382 | Exactly when a login is refused as locked, in any run with a nondecreasing clock: less than the lock's length after a checked wrong password that was the MAX-th since the last login or lock; every attempt in between is refused too. |
| `Lockout.CounterIs` | app/services/auth.py:358-389 | The stored counter is the number of wrong passwords since the last login or lock. |
| `Lockout.StoredLockIs` | app/services/auth.py:369-371 | The stored lock is the last one not lifted by a login. |
| `Lockout.JudgedOnItsOwn` | app/services/auth.py:104-113 | An attempt that is not locked out is judged by its password and the verification alone. |
| `Lockout.LoginClears` | app/services/auth.py:115-115 | A login starts the count again and leaves no lock. |
| `JobQueue.Queue.RecordEvent` | app/services/job_queue.py:205-217 | The bounded log always holds the last 25 of all the events ever recorded, in order. |
| `JobQueue.Queue.Enqueue` | app/services/job_queue.py:57-65 | The queued event is recorded; inline, the job has been run to its end on return, with all its events, otherwise it waits at the back of the queue. |
| `JobQueue.Queue.Execute` | app/services/job_queue.py:76-99 | The events, the counters and the queue after one run of the handler, or inline after all of them; submitted = succeeded + failed + still queued is kept. |
| `JobQueue.Queue.Fail` | app/services/job_queue.py:82-99 | A raising handler: attempt counted, back-off slept and the job enqueued again, or the failure recorded when the retries are used up. |
| `JobQueue.Queue.RecordSuccess` | app/services/job_queue.py:219-223 | One success with its event; the job is finished and is the last successful one. |
| `JobQueue.Queue.RecordRetry` | app/services/job_queue.py:225-228 | One retry with its event, and a back-off of delay times the attempt number; the job is not finished. |
| `JobQueue.Queue.RecordFailure` | app/services/job_queue.py:230-236 | One failure with its event and error; the job is finished, is the last failed one and gives the last error. |
| `JobQueue.Queue.Work` | app/services/job_queue.py:67-74 | One turn of the worker loop takes the head of the queue; a retried job goes to the back. |
| `JobQueue.Queue.Run` | app/services/job_queue.py:67-74 | The worker loop ends with an empty queue and the totals of the drain, for every success script. |
| `JobQueue.LastOfIs` | app/services/job_queue.py:32 | The bounded log is the tail of the whole one, of at most 25 events. |
| `JobQueue.DrainIsInline` | app/services/job_queue.py:57-99 | Draining the FIFO worker gives the same success, retry and failed totals, the same back-off and the same end of every job as running each job to its end in turn. |
| `JobQueue.DrainRecordsTheSame` | app/services/job_queue.py:57-99 | The worker records exactly the events of inline execution, each as often, in another order. |
| `JobQueue.FateEvents` | app/services/job_queue.py:57-99 | The events of a job tell its fate: one running event a run, one retry and one queued event a retry, and one success or failure. |
| `JobQueue.EventsCarry` | app/services/job_queue.py:205-236 | Events carry the job's name, the attempts made so far and, on failure, the error. |
| `JobQueue.RunBatch` | app/services/job_queue.py:57-74 | A batch handed to an empty queue ends in the same totals in either mode. |
| `JobQueue.EveryJobEnds` | app/services/job_queue.py:76-99 | Every job ends exactly once: successes and failures add up to the number of jobs. |
| `JobQueue.BudgetDecreases` | app/services/job_queue.py:83-98 | Every turn lowers the sum of max_retries + 1 - attempts over the unfinished jobs. |
| `JobQueue.TurnConserves` | app/services/job_queue.py:76-99 | What a turn adds and what is still to come make up what was to come before it. |
| `JobQueue.FateShape` | app/services/job_queue.py:76-99 | A handler runs at most max_retries + 1 times, stops at its first success, and a failed job has used all its runs. |
| `JobQueue.FailedJobBackoff` | app/services/job_queue.py:83-95 | A failed job has slept delay*n(n+1)/2 with n = max_retries. |
| `TokenStore.Tokens.Revoke` | app/services/token_store.py:45-47 | The token is blacklisted until its own expiry, and expired entries go. |
| `TokenStore.Tokens.IsRevoked` | app/services/token_store.py:55-57 | Tells whether the token is on the pruned blacklist. |
| `TokenStore.Tokens.RegisterSession` | app/services/token_store.py:91-101 | The session is recorded in the session map and in its user's index set. |
| `TokenStore.Tokens.ListSessions` | app/services/token_store.py:145-148 | Exactly the user's live sessions, each once, the newest first. |
| `TokenStore.PlacedIsNewestFirst` | app/services/token_store.py:148 | Placing one more session keeps the list sorted by issue time and loses none. |
| `TokenStore.Tokens.RevokeSession` | app/services/token_store.py:160-172 | The session leaves map and index and is blacklisted; an unknown one changes nothing. |
| `TokenStore.Tokens.RevokeUserSessions` | app/services/token_store.py:187-196 | Every session in the user's index set is dropped and blacklisted until its own expiry. |
| `TokenStore.Tokens.RevokeUserSessionsExcept` | app/services/token_store.py:216-231 | The same but for the kept one, which becomes the whole index set even when it is not a session of the user. |
| `TokenStore.Tokens.PruneExpired` | app/services/token_store.py:233-245 | The loop over expired sessions equals dropping them all at once from the map and from their users' index sets. |
| `TokenStore.UnindexedStep` | app/services/token_store.py:238-245 | Discarding token ids one at a time, dropping emptied sets on the way, gives the same index as all at once. |
| `TokenStore.BlacklistedStep` | app/services/token_store.py:195-196 | Revoking one record after another, pruning each time, equals blacklisting them together and pruning once. |
| `Auth.AuthService.DecodeExpectedToken` | app/services/auth.py:444-460 | A token is accepted iff it is of the expected type, not expired and not blacklisted; expired or mistyped ones are refused before the store is asked. |
| `Auth.AuthService.Refresh` | app/services/auth.py:128-136 | An accepted refresh token is revoked and replaced; a refused one yields nothing. |
| `Auth.AuthService.Logout` | app/services/auth.py:138-150 | Both tokens are revoked; the access token stays revoked when the refresh token is refused. |
| `Auth.AuthService.ResetPassword` | app/services/auth.py:226-247 | An accepted reset token of an existing user is spent and the user's sessions are ended; for a missing user nothing is revoked. |
| `Auth.AuthService.ChangePassword` | app/services/auth.py:249-270 | The password is stored iff the current one is right; the sessions end, and their cleanup is queued, iff also the access token is accepted afterwards. |
| `Auth.AuthService.RevokeSession` | app/services/auth.py:289-299 | Only a live session of that user can be revoked. |
| `Auth.StepInv` | app/services/auth.py:128-160 | Every operation keeps the invariant that each refresh token ever issued is expired, or blacklisted until its own expiry, or recorded in both the session map and its user's index set. |
| `Auth.RunInv` | app/services/token_store.py:35-245 | The invariant over every run with a nondecreasing clock and fresh token ids. |
| `Auth.StepDead` | app/services/token_store.py:45-57 | A token that is blacklisted or expired stays so under every operation, although pruning drops its entry. |
| `Auth.DeadIsRefused` | app/services/auth.py:444-460 | Such a token is refused by the decoder now and after every further run. |
| `Auth.RunDead` | app/services/token_store.py:45-57 | A dead token is dead after every further legal run. |
| `Auth.DeadAuthenticatesIff` | app/api/deps.py:34-40 | A revoked or expired access token, after any further legal run, authenticates a request iff this is the second in which it expires. |
| `Auth.LoggedOutCanAuthenticate` | app/api/deps.py:34-40 | Such a run from the empty store: logged in at 0, logged out at 5, refused at 9, authenticated at 10. |
| `Auth.StepEnds` | app/services/auth.py:226-299 | Password reset and change, session revocation, refresh and logout put the refresh tokens they promise to end into that state. |
| `Auth.EndedTokenIsNeverAccepted` | app/services/auth.py:226-299 | A refresh token ended in any of these ways is never accepted again, whatever runs before and after. |
| `Auth.PasswordResetIsFinal` | app/services/auth.py:226-247 | After a password reset no refresh token issued to that user earlier is accepted at any later time. |
| `Auth.RefreshAtMostOnce` | app/services/auth.py:128-136 | A refresh token that `refresh` accepted once is never accepted by it again. |
| `Auth.ChangeEndsSessionsOnlyIfAccepted` | app/services/auth.py:249-260 | A live refresh token survives a password change iff the access token that came with the change is refused. |
| `Auth.ChangeCanKeepSessions` | app/services/auth.py:253-259 | Such a change is reachable from the empty store: in the second the access token expires it still authenticates, the change refuses it, and the refresh token is accepted afterwards. |
| `Sessions.TokenLife` | app/services/auth.py:128-343 | In any history from the empty store, a token issued by a login, a refresh or otherwise is accepted exactly until it expires or an operation that promises to end it does so. |
| `Sessions.AcceptedUntilEnded` | app/services/auth.py:128-343 | The same from any state reached: nothing else ends a token, pruning included, and nothing revives it. |
| `Sessions.AcceptedAfterIff` | app/services/token_store.py:35-245 | One operation: a token is accepted afterwards iff it was before and the operation does not end it. |
| `Sessions.OthersRevokedIff` | app/services/token_store.py:216-231 | After the other sessions are revoked exactly the kept one and those of other users are still accepted. |
| `Sessions.NewIsAccepted` | app/services/auth.py:327-339 | A token just issued is accepted iff it has not expired. |
| `Sessions.StepOwned` | app/services/token_store.py:91-231 | Every operation keeps index sets to tokens of their user and sessions to refresh tokens. |
| `Sessions.ListedSessions` | app/services/token_store.py:145-148 | A user's listed sessions are unexpired refresh tokens of that user, and include every one still accepted. |
| `Sessions.ListedAfterIff` | app/services/token_store.py:150-231 | A session leaves the list by revocation only; refresh and logout, which end its token, leave it listed. |
| `Sessions.RegisteredSession` | app/services/token_store.py:91-101 | A new session carries its user, the time of its issue and its expiry. |
| `Sessions.RevocableIff` | app/services/auth.py:289-293 | An accepted session can be revoked by its own user and nobody else. |
| `Sessions.RevokedUserHasNoIndex` | app/services/token_store.py:189-189 | A user whose sessions are revoked has no index set left. |
| `Sessions.DecodingPrunes` | app/services/token_store.py:55-57 | Decoding a readable token drops exactly the expired entries; an unreadable one touches nothing. |
| `Idempotency.KeyInjective` | app/services/idempotency.py:95-97 | With no colon in methods and paths, two requests have the same record key iff they agree on actor, method, path and key. |
| `Idempotency.KeyUniqueIff` | app/services/idempotency.py:95-97 | No other request at all shares a record key iff method, path and key have no colon. |
| `Idempotency.Collision` | app/services/idempotency.py:95-97 | A colon in any of the three parts yields another request of the same actor with the same key string. |
| `Idempotency.KeyShape` | app/services/idempotency.py:96-97 | The parts of a record key in their order, and what stands for a user and for an anonymous caller. |
| `Idempotency.DigitsInjective` | app/services/idempotency.py:96-97 | Decimal renderings of different actor ids differ. |
| `Idempotency.RecordKeyIff` | app/services/idempotency.py:33-43 | Requests whose methods and paths have no colon share a record iff actor, method, path and header are the same. |
| `Idempotency.IdempotencyStore.GetCachedResponse` | app/services/idempotency.py:33-53 | No key, a fresh record, the stored record, or a conflict of payloads. |
| `Idempotency.IdempotencyStore.SaveResponse` | app/services/idempotency.py:55-73 | The record is stored under the key, the others stay. |
| `Idempotency.IdempotencyStore.IdempotentExecute` | app/api/idempotency.py:12-50 | Replays, refuses, or runs the callback and stores what it returned; nothing is stored when it raises. |
| `Idempotency.RecordIsFinal` | app/api/idempotency.py:20-33 | A stored record of nonzero status never changes, and no callback completes under its key again. |
| `Idempotency.CompletesAtMostOnce` | app/api/idempotency.py:20-48 | In every sequential run with nonzero statuses the callback completes at most once for each record key. |
| `Idempotency.LaterRequests` | app/api/idempotency.py:21-30 | Any later request under the key changes nothing: the same payload gets the first status and body back, the body exactly when it was not JSON null; another payload conflicts. |
| `Idempotency.CancelRideIsReplayedEmpty` | app/api/v1/endpoints/rides.py:108-114 | The input of the null case: the cancellation of a ride is answered with JSON null and its replay without content, and cancels once. |
| `Idempotency.ReplayedIffNonzero` | app/api/idempotency.py:23-23 | A completed request is answered from the store iff its status was not 0, the mark of an unused key. |
| `Idempotency.KeyStaysUnused` | app/api/idempotency.py:35-48 | A raising callback, and a request without a key, leave every key as it was. |
| `Idempotency.RefinesSpecification` | app/api/idempotency.py:12-50 | From an empty store and with nonzero statuses, every sequential run reaches the world of a specification that keeps no records and executes a call unless an earlier one under its key returned; the records are exactly the first answers. |
| `Idempotency.RespondsAsSpecified` | app/api/idempotency.py:20-50 | Every caller of such a run gets the specified response: its own answer, the first answer under the key, or a conflict. |
| `Idempotency.ExecutedIff` | app/api/idempotency.py:20-35 | The callback of a request is run iff it carries no key or no earlier call of the run by the same user with the same method, path and header returned. |
| `Idempotency.AnsweredByOwnCall` | app/api/idempotency.py:21-30 | A call that is not executed gets status and body of such an earlier call of the same user, or a conflict with its payload. |
| `Idempotency.FirstAnswerIs` | app/api/idempotency.py:20-48 | A key has a first answer iff some call under it was executed and returned, and it is that call's answer. |
| `Geometry.ClosestPoint` | app/services/ride.py:459-472 | The measured distance is at most the distance to any point of the segment, also when its length is zero. |
| `Geometry.ClosestPointIsOnSegment` | app/services/ride.py:468-472 | The measured distance is attained at a fraction in [0, 1]. |
| `Geometry.BufferCheck` | app/services/ride.py:435-439 | The check lets a location pass iff the buffer is not negative and some point of the projected route lies within it. |
| `Geometry.ValidateLocationNearRoute` | app/services/ride.py:413-439 | A location is accepted iff the route has no coordinates or the location is within the buffer of some point of it. |
| `Geometry.DegreesApart` | app/services/ride.py:453-457 | A degree of latitude is 110.574 km, a degree of longitude 111.32 km shrunk by the cosine. |
| `Money.RoundingError` | app/services/payment_provider.py:56 | Half-up rounding is at most half a unit off. |
| `Money.RoundingMonotone` | app/services/payment_provider.py:56 | Half-up rounding is monotone, on negative amounts too. |
| `Money.RoundingTies` | app/services/payment_provider.py:56 | A half is rounded away from zero. |
| `Money.WholeYen` | app/services/payment_provider.py:54-56 | Yen, in any case, are the currency without minor units; whole yen are kept. |
| `Money.UpperIs` | app/services/payment.py:49 | Currencies are stored in capitals. |
| `Money.MinorUnits` | app/services/payment_provider.py:52-56 | Minor units are monotone in the amount and at most half a unit off, for every currency. |
| `Money.TwoDecimalsExact` | app/services/payment_provider.py:52-56 | Prices of whole cents convert exactly in two-decimal currencies. |
| `Money.FareMonotone` | app/services/dispatch.py:284-287 | The fare does not fall with distance. |
| `Money.FareBounds` | app/services/dispatch.py:281-287 | Within the radius the fare lies between the base fare and max(base, radius * rate) when these are whole cents. |
| `Money.DoubleRounding` | app/services/payment_provider.py:52-56 | A fare rounded to cents and then to a zero-decimal currency is within 1/2 + 1/200 of the exact amount. |
| `Money.DoubleRoundingIsTight` | app/services/payment_provider.py:52-56 | The bound is reached. |
| `PaymentService.Service.CreatePayment` | app/services/payment.py:38-88 | The outcome with its error in the source's order of checks; the provider is asked for the price of the ride in minor units, and a created payment carries payer, provider, order, price, minor units and currency. |
| `PaymentService.ChargeIsThePrice` | app/services/payment.py:49-63 | The minor units charged are the cents of the price in a two-decimal currency, and at most half a yen off in yen. |
| `PaymentService.Service.ReconcileProviderReference` | app/services/payment.py:503-509 | A missing reference is looked up, which may also move the status; false when the provider is down. |
| `PaymentService.Service.CapturePaymentForBooking` | app/services/payment.py:144-209 | The new row and the retry jobs of a capture, in all four outcomes. |
| `PaymentService.Service.RefundPaymentForBooking` | app/services/payment.py:211-275 | The new row and the retry jobs of a refund, in all four outcomes. |
| `PaymentService.Service.RetryCapturePayment` | app/services/payment.py:277-319 | The capture retry: what is committed and when it raises. |
| `PaymentService.Service.RetryRefundPayment` | app/services/payment.py:321-362 | The refund retry: what is committed and when it raises. |
| `PaymentService.Service.ConfirmPayment` | app/services/payment.py:90-142 | Confirmation, followed by the capture of an authorized payment of an accepted booking. |
| `PaymentService.Service.CaptureIfAccepted` | app/services/payment.py:494-497 | That follow-up capture, which confirmation and reconciliation share. |
| `PaymentService.Service.ReconcilePayment` | app/services/payment.py:476-498 | The reported status overwrites any that is not final, and an authorized payment of an accepted booking is captured. |
| `PaymentService.Service.FindPayment` | app/services/payment.py:399-401 | A row with the event's reference, or failing that one with its order id. |
| `PaymentService.Service.ProcessWebhookEvent` | app/services/payment.py:383-435 | A delivery is processed iff its event id is new, and is then stored and applied to the payment it names; a repeat names the same payment, with its current status. |
| `PaymentService.Service.ApplyWebhookTransition` | app/services/payment.py:449-474 | The webhook's status table. |
| `Payments.TerminalIsFinal` | app/services/payment.py:476-479 | Refunded, failed and cancelled are absorbing under every entry point, whatever the provider says. |
| `Payments.StepKeepsRank` | app/services/payment.py:90-474 | No committed step lowers pending < authorized < captured < final, except a reconciliation told a lower status. |
| `Payments.RunIsMonotone` | app/services/payment.py:90-498 | If no reconciliation is told less than what is stored, every payment only moves up over the whole run. |
| `Payments.ReconcileLowersIff` | app/services/payment.py:488-497 | A reconciliation lowers the rank iff the report is lower, unless it authorizes an accepted booking and the provider then grants the capture or, asked for a missing reference, reports a later status. |
| `Payments.ReconcileCanLower` | app/services/payment.py:488-492 | A captured payment goes back to pending when the provider says so. |
| `Payments.RefundAtMostOnce` | app/services/payment.py:211-362 | Over any run whose steps commit, the provider grants at most one refund of a payment, which is then refunded. |
| `Payments.NoRefundOnceFinal` | app/services/payment.py:211-362 | Once a payment is final the provider is never asked for a refund of it successfully. |
| `Payments.CaptureAtMostOnce` | app/services/payment.py:128-319 | Over any run whose steps commit and in which no reconciliation is told less than what is stored, the provider grants at most one capture of a payment, counting those that follow a confirmation or a reconciliation. |
| `Payments.NoCaptureOnceCaptured` | app/services/payment.py:144-147 | In such a run no capture is granted once the payment is captured or final. |
| `Payments.CapturedTwice` | app/services/payment.py:488-497 | Told less, a reconciliation can have a captured payment captured once more. |
| `Payments.RefundedOrRetried` | app/services/payment.py:245-266 | A refund attempt leaves the payment refunded, or a refund retry queued, never both. |
| `PaymentOutcomes.RefundSettles` | app/services/payment.py:211-275 | A refund of an authorized or captured payment: refunded iff the provider, asked with an own or looked-up reference, says yes, or was looked up as refunded; otherwise exactly the refund retry and the reconciliation are queued; status, reference and reason in every case. |
| `PaymentOutcomes.CaptureSettles` | app/services/payment.py:144-209 | A capture of an authorized payment: captured iff granted or looked up as captured; retried iff not granted, reconciled iff the lookup failed. |
| `PaymentOutcomes.RetriesSettle` | app/services/payment.py:277-362 | The two retries settle the same way with their own reasons and queue nothing. |
| `PaymentOutcomes.OthersStay` | app/services/payment.py:145-214 | Captures leave payments alone that are not authorized, refunds those neither authorized nor captured. |
| `PaymentOutcomes.WorkedIff` | app/services/payment.py:168-245 | A call counts as made and granted iff there is a reference and the answer is yes. |
| `PaymentOutcomes.UsableIff` | app/services/payment.py:504-505 | A missing or empty reference is none. |
| `PaymentOutcomes.ConfirmedIs` | app/services/payment.py:101-116 | A confirmation takes over pending, authorized and captured, and fails on any other report. |
| `PaymentOutcomes.ReconciledIs` | app/services/payment.py:488-490 | A reconciliation stores the reported status and reference, and a reason iff it failed. |
| `PaymentOutcomes.ReportsAreTaken` | app/services/payment.py:90-129 | Confirmations concern pending payments, reconciliations those that are not final, both only with an answer; an authorized payment of an accepted booking is then captured. |
| `PaymentOutcomes.WebhookMoves` | app/services/payment.py:449-474 | A first delivery moves the named payment by the table of event types and statuses and stores its reference; a repeat changes nothing. |
| `PaymentOutcomes.FoundIs` | app/services/payment.py:399-401 | A webhook concerns the payment with its reference; if there is none, one with its order id, if it has one. |
| `PaymentOutcomes.StepIsLocal` | app/services/payment.py:144-498 | Every other operation changes the payment it names only. |
| `PaymentOutcomes.CreateStores` | app/services/payment.py:57-66 | A creation stores the payer, order, charge and reference in a pending payment, where there is none. |
| `PaymentOutcomes.RefundedOnlyIf` | app/services/payment.py:211-498 | A payment only becomes refunded by a granted refund, by the provider's report, or by its webhook. |
| `PaymentOutcomes.CapturedOnlyIf` | app/services/payment.py:90-498 | A payment only becomes captured by a granted capture, by the provider's report, or by its webhook. |
| `PaymentOutcomes.GrantsAreCalls` | app/services/payment.py:168-245 | The refunds and captures counted over runs are the provider calls made and granted. |
| `Payments.RepeatsHaveNoEffect` | app/services/payment.py:389-432 | Any delivery sequence, interleaved with any steps, ends in the state without the repeats of known event ids. |
| `Payments.ProcessedIffFirst` | app/services/payment.py:389-397 | From an empty event table a delivery is processed iff it is the first of its event id. |
| `Payments.StoredEvents` | app/services/payment.py:402-411 | The stored event ids are the initial ones and those delivered. |
| `Payments.TermsAreFinal` | app/services/payment.py:57-66 | Over any run payer, provider, order, amount and currency of a payment never change, and a stored event keeps naming the same payment. |
| `Listing.SortIsStable` | app/services/dispatch.py:167 | The sort by distance keeps the entries, orders them and is stable. |
| `Listing.QueryIs` | app/repositories/dispatch.py:96-107 | A filtered, ordered, limited query returns matching rows in order, as many as the limit allows, and omits none that sorts before a returned one. |
| `Listing.QueryReturnsAll` | app/repositories/dispatch.py:109-120 | When the limit is not reached every matching row is returned. |
| `Listing.BuildNearby` | app/services/dispatch.py:156-168 | The loop, sort and slice build the stable top of the examined requests within the radius. |
| `Listing.HundredthsNearest` | app/services/dispatch.py:165 | The rounded distance is the nearest hundredth, and the even one of two equally near. |
| `Listing.HundredthsMonotone` | app/services/dispatch.py:165-167 | Rounding keeps the order of distances. |
| `Listing.HundredthsTell` | app/services/dispatch.py:165-167 | What is not farther after rounding is at most a hundredth farther. |
| `BookingService.Service.CreateBooking` | app/services/booking.py:40-81 | The new pending booking, or the error with no row changed. |
| `BookingService.Service.FindByRideAndPassenger` | app/repositories/booking.py:22-24 | Returns a booking of the passenger on the ride iff there is one. |
| `BookingService.Service.UpdateStatus` | app/services/booking.py:83-109 | Rows, jobs and outcome of a status change by the driver or the passenger: it succeeds iff the table of permitted moves allows it and then moves that booking and its seat only; coherent rows stay coherent. |
| `BookingService.Service.ApplyDriverTransition` | app/services/booking.py:350-416 | The driver's transitions, one field after the other, equal the specified row changes. |
| `BookingService.Service.ApplyPassengerTransition` | app/services/booking.py:418-431 | The passenger's cancellation. |
| `BookingService.Service.ApplyCancellation` | app/services/booking.py:384-392 | The cancellation both sides share: seat returned if accepted, refund attempted, status set. |
| `BookingService.Service.TakeSeat` | app/services/booking.py:357-359 | One seat fewer; the ride is full at zero and scheduled otherwise, whatever it was before. |
| `BookingService.Service.ReturnSeat` | app/services/booking.py:388-390 | One seat more and the ride scheduled, unconditionally. |
| `BookingService.Service.IssueBoardingOtp` | app/services/booking.py:111-134 | A new code for the passenger of an accepted booking not boarded yet. |
| `BookingService.Service.VerifyBoardingOtp` | app/services/booking.py:136-167 | Boards on the right unexpired code and uses it up; already boarded changes nothing. |
| `TripHistory.StatusChange` | app/services/booking.py:350-431 | A status change succeeds iff the table of permitted moves allows it, and then changes that booking's status and its ride's seat only, keeping free plus taken seats; otherwise it changes nothing. |
| `Effects.StatusRefusals` | app/services/booking.py:83-109 | Why a status change is refused: unknown booking, a stranger, or a move that is not allowed. |
| `Effects.StatusChangesRide` | app/services/booking.py:356-429 | Seats, status and flag of the ride after an acceptance or a cancellation; its other fields, and other moves, change nothing. |
| `Effects.StatusChangesPayment` | app/services/booking.py:360-430 | The payment operation and jobs of a status change: a capture, a refund, or none. |
| `Effects.CreateBookingAdds` | app/services/booking.py:40-81 | A passenger books an open ride of another driver with a seat left, once; the new row and the errors. |
| `Effects.OneBookingReachable` | app/services/booking.py:55-59 | In every reachable state a passenger has at most one booking on a ride. |
| `Effects.IssueOtpStores` | app/services/booking.py:111-134 | Only the passenger of an accepted booking not boarded yet gets a code, stored with its expiry; the errors. |
| `Effects.VerifyOtpBoards` | app/services/booking.py:136-167 | Only the driver boards an accepted booking, with the stored unexpired code, once; the errors. |
| `TripHistory.CancelUndoesAccept` | app/services/booking.py:356-359 | Accepting a booking and then cancelling it restores the rides exactly when the ride was scheduled; a completed one is reopened. |
| `Boarding.IssuedCodeBoards` | app/services/booking.py:111-167 | Round trip: the code just issued, and no other, boards the passenger until it expires, and no further code can be issued. |
| `Boarding.StoredCodeIsLast` | app/services/booking.py:124-127 | In every reachable state a booking stores the code issued last for it, or none. |
| `Boarding.BoardedOnlyWithLastCode` | app/services/booking.py:136-167 | Completed implies boarded, and whoever is boarded was boarded by a step in which the ride's driver presented the code issued last before it expired, which set the boarding time the booking still has. |
| `Boarding.StillBoarded` | app/services/booking.py:144-145 | The boarding step and its time stay the same under every further step. |
| `RideService.Service.CreateRide` | app/services/ride.py:36-74 | A scheduled, active ride for a verified driver. |
| `RideService.Service.UpdateRide` | app/services/ride.py:110-161 | The seat count is re-based, not below the accepted bookings, and status and flag follow it. |
| `RideService.Service.CountAccepted` | app/services/ride.py:129 | The number of accepted bookings of the ride. |
| `RideService.Service.CancelRide` | app/services/ride.py:163-203 | The ride and its pending and accepted bookings are cancelled, others stay. |
| `RideService.Service.CancelBookings` | app/services/ride.py:183-185 | The loop over the bookings of the ride. |
| `RideService.Service.CompleteRide` | app/services/ride.py:205-258 | Rows, jobs and outcome of a completion, which is all or nothing on the rows. |
| `RideService.Service.FinishRide` | app/services/ride.py:230-257 | The captures and completions, with the rollback of the tables (not of the queue). |
| `RideService.Service.SettleBookings` | app/services/ride.py:230-244 | The loop captures and completes the accepted bookings, or stops at the first payment left uncaptured. |
| `RideService.Service.SettleBooking` | app/services/ride.py:231-237 | One turn of that loop. |
| `RideService.StoppedAt` | app/services/ride.py:232-236 | Once a capture stopped the loop nothing more is queued. |
| `Settlement.CompleteRideAllOrNothing` | app/services/ride.py:212-258 | For any number of bookings and any answers: every accepted booking becomes completed, each was boarded, each has no payment or a captured one; or no row changes. It succeeds iff the own driver asks, the ride is not finished, all are boarded and all captures settle. |
| `Settlement.CapturedRows` | app/services/ride.py:230-237 | The captures of a completion change exactly the payments of the bookings worked through. |
| `Settlement.CaptureJobsDone` | app/services/ride.py:230-236 | The loop gets through iff every capture leaves its payment captured. |
| `Effects.CreateRideAdds` | app/services/ride.py:37-74 | Only verified drivers publish rides; the new row. |
| `Effects.UpdateRideChanges` | app/services/ride.py:110-161 | Only its driver updates a ride that is not over, not to fewer seats than accepted passengers; the changed row and the errors. |
| `Effects.CancelRideChanges` | app/services/ride.py:163-203 | Only its driver cancels a ride that is not over, and its open bookings with it; the errors. |
| `Effects.CompleteRideRefusals` | app/services/ride.py:205-236 | Why a completion is refused, with the error told. |
| `Effects.CompletionQueues` | app/services/ride.py:230-237 | A completion queues exactly the capture retries of the bookings it got to whose capture was not granted. |
| `Effects.CompletionReconciles` | app/services/ride.py:230-237 | And the reconciliations of those whose missing reference could not be looked up; no refund retry. |
| `Settlement.RunIsPaymentRun` | app/services/payment.py:144-275 | Seen from the payments table a run of the whole system is a run of payment operations. |
| `Settlement.PaymentsOverTrips` | app/services/payment.py:144-362 | Absorbing statuses and at most one granted refund per payment, over runs of the whole system. |
| `Settlement.CancelRefundsOrRetries` | app/services/booking.py:391-392 | After a booking with an authorized or captured payment is cancelled, the payment is refunded or a refund retry is queued. |
| `Settlement.AcceptCapturesOrRetries` | app/services/booking.py:356-360 | After a booking with an authorized payment is accepted, the payment is captured or a capture retry is queued, the latter iff the provider call was not made or did not succeed. |
| `RefundRetries.RefundIsNotForgotten` | app/services/booking.py:391-392 | Over runs of the whole system with the payment jobs and the worker: after a cancellation of a booking with an authorized or captured payment, the payment is at every point final, or queued for a refund retry, or out of retries, iff no turn of the worker drops the retry; and none does unless the provider reports the payment as pending to a reconciliation. |
| `RefundRetries.CoverageEndsIff` | app/services/payment.py:321-324 | One event ends that coverage iff it is the turn on the only queued refund retry while the payment is pending, which the handler's guard lets return. |
| `RefundRetries.CoveredThroughoutIff` | app/services/payment_jobs.py:23-35 | The same for whole runs from any covered state. |
| `RefundRetries.WorkQueue` | app/services/job_queue.py:76-99 | Only the turn on a refund retry itself can take it out of the queue, when it succeeds or its retries are used up. |
| `RefundRetries.HandlersRaise` | app/services/payment.py:277-349 | When each payment job raises, and is therefore tried again. |
| `RefundRetries.RetriesUsedUp` | app/services/job_queue.py:83-98 | A refund that is always refused is tried max_retries + 1 times in all, no more and no less, and then given up. |
| `RefundRetries.NothingDropped` | app/services/payment.py:476-489 | While no reconciliation is told pending, a payment that was authorized never becomes pending, and no retry is dropped. |
| `RefundRetries.RefundCanBeForgotten` | app/services/payment.py:321-324 | A possible run from the empty system in which a refund is owed and after which the payment of the cancelled booking is captured with no job queued and no retry used up. |
| `RideCancellations.CoveredUnlessRideCancelled` | app/services/ride.py:181-194 | In every state a possible run reaches: an open booking with an authorized or captured payment that gets cancelled is refunded or has a refund retry queued iff it was not the whole ride that was cancelled. |
| `RideCancellations.CancelledRideIsNeverRefunded` | app/services/ride.py:181-194 | Once a ride is cancelled, no event of any further possible run asks the provider to refund a booking that was open until then. |
| `RideCancellations.PaidRideCancelled` | app/services/ride.py:163-203 | A possible run from the empty system that does it: paid, ride cancelled, payment still captured, no job queued, and never asked for afterwards. |
| `RideCancellations.SoundRun` | app/services/payment_jobs.py:23-35 | In every state a possible run reaches the rows are coherent, and refund retries are queued or used up only for bookings that are over. |
| `RideCancellations.NeverAskedAgain` | app/services/booking.py:384-392 | A booking that is over and has no refund retry queued is never refunded by the system again. |
| `RideCancellations.CancelledHow` | app/services/booking.py:384-431 | A booking is only cancelled through its own status update or with its ride. |
| `RolledBackCaptures.ForgottenIff` | app/services/ride.py:230-257 | A capture granted during a ride completion is forgotten by the rollback, so that it will be asked for again, iff the payment of a later booking is left uncaptured. |
| `RolledBackCaptures.GrantedTwice` | app/services/ride.py:230-257 | A possible run from the empty system in which two completions in a row are granted the capture of the same payment. |
| `Settlement.CancelRideKeepsPayments` | app/services/ride.py:181-194 | Cancelling a ride makes no payment call. |
| `TripRuns.StepInv` | app/services/booking.py:350-431 | Every operation keeps the invariant behind the theorems below: coherent rides and bookings, and conserved seats. |
| `TripRuns.Reachable` | app/services/booking.py:350-431 | The invariant holds in every reachable state. |
| `TripRuns.StepCoherent` | app/services/booking.py:350-431 | One operation keeps coherent rows coherent, which is what every service method promises of the session. |
| `TripRuns.UpdateStatusInv` | app/services/booking.py:384-392 | A cancel that sets the ride to scheduled keeps it, which needs the invariant itself. |
| `TripRuns.CancelRideInv` | app/services/ride.py:181-185 | Ride cancellation keeps it. |
| `TripRuns.CompleteRideInv` | app/services/ride.py:223-246 | Ride completion keeps it. |
| `TripRuns.MatchRequestInv` | app/services/dispatch.py:289-317 | A dispatch match keeps it. |
| `TripRuns.CountMoved` | app/services/ride.py:183-185 | How moving all bookings of a ride changes the number of taken seats of each ride. |
| `TripHistory.SeatConservation` | app/services/booking.py:351-431 | In every reachable state free seats, accepted and completed bookings add up to the capacity of the ride, at most so once it is cancelled, and the counter is not negative. |
| `TripHistory.CapacityIsSetByUpdate` | app/services/ride.py:129-144 | Only an update of the ride itself changes its capacity. |
| `TripHistory.SeatsBetweenUpdates` | app/services/ride.py:129-144 | Between two updates of a ride no run of other operations changes the sum of free seats, accepted and completed bookings, except that cancelling the ride may lower it. |
| `TripHistory.SearchFilter` | app/repositories/ride.py:58 | In every reachable state the three-part search filter equals `status == scheduled`, `is_active` follows the status, and full means no seats. |
| `TripHistory.ReopeningIsSafe` | app/services/booking.py:387-390 | Accepted bookings exist only on scheduled or full rides, and a cancelled ride has no pending or accepted one, so the unguarded assignment never reopens a finished ride. |
| `TripHistory.StepEvolves` | app/services/booking.py:350-431 | One operation never undoes a final status, a boarding time or a closed request. |
| `TripHistory.NothingIsUndone` | app/services/booking.py:350-431 | Nor does any run: cancelled rides, settled bookings, boarding times and closed requests stay. |
| `TripHistory.CompletedIsLeftOnlyByAccept` | app/services/booking.py:351-359 | A completed ride is left iff its driver accepts a booking of it that was still pending while a seat is left. |
| `TripHistory.CompletedCanBeLeft` | app/services/booking.py:351-359 | Such a run from the empty tables: a ride with a pending booking is completed, and the acceptance puts it up again. |
| `DispatchService.Service.ExpireStaleOpenRequests` | app/services/dispatch.py:403-434 | The loop closes exactly the page the query returned, and reports its size. |
| `DispatchService.Service.CreateRequest` | app/services/dispatch.py:98-139 | Expiry first; then a new open request unless the passenger has one. |
| `DispatchService.Service.FindOpen` | app/repositories/dispatch.py:57-67 | Returns the passenger's newest open request iff there is one. |
| `DispatchService.Service.CancelRequest` | app/services/dispatch.py:211-256 | Expiry, then the cancellation of the passenger's own open request. |
| `DispatchService.Service.AcceptRequest` | app/services/dispatch.py:258-367 | Expiry, then ride, booking and request of the match, or the error with only the expiry kept. |
| `DispatchService.Service.Match` | app/services/dispatch.py:289-319 | The three rows of a match, written field by field, equal the specified ones. |
| `DispatchService.Service.DeclineRequest` | app/services/dispatch.py:170-209 | Succeeds iff an available verified driver declines an open request; records the dismissal once. |
| `DispatchService.Service.ListNearbyRequests` | app/services/dispatch.py:147-168 | Expiry, then the items of the nearby list: at most `limit` open requests within 25 km that this driver has not declined, with their rounded distances. |
| `DispatchService.ClosedStep` | app/services/dispatch.py:409-411 | Closing one more request of the page. |
| `Effects.CreateRequestAdds` | app/services/dispatch.py:98-139 | A passenger without an open request after the expiry pass gets one with the given departure, created now; the errors. |
| `Effects.CancelRequestChanges` | app/services/dispatch.py:211-256 | A passenger cancels an own request that the pass left open; the errors. |
| `Effects.AcceptRequestIff` | app/services/dispatch.py:258-320 | Only a verified, present driver within 25 km matches an open request; the three rows and the errors. |
| `Effects.FareIs` | app/services/dispatch.py:284-287 | The fare of a match: 50 at least, else 15 a kilometre to the nearest cent. |
| `Dispatching.StepIntegrity` | app/services/dispatch.py:98-320 | Every operation keeps the integrity of the requests. |
| `Dispatching.DispatchIntegrity` | app/services/dispatch.py:289-318 | In every reachable state a passenger has at most one open request, a request is matched iff all three matched ids are set, they name a booking of that passenger on a ride of that driver, and matches have distinct rides and bookings. |
| `Dispatching.PageSize` | app/repositories/dispatch.py:109-120 | The expiry page holds stale requests only, each once, min(limit, #stale) of them. |
| `Dispatching.ClosedIff` | app/repositories/dispatch.py:109-120 | A pass closes a stale request iff fewer than `limit` stale ones come before it, by later departure or earlier row. |
| `Dispatching.ExpiryClosesExactly` | app/services/dispatch.py:403-434 | A pass closes exactly min(limit, #stale) stale requests and changes no other row. |
| `Dispatching.MatchTakesStaleIff` | app/services/dispatch.py:263-282 | A request whose departure is past is matched iff the driver's other checks pass and at least 500 other stale requests come before it. |
| `Dispatching.StaleCanBeMatched` | app/services/dispatch.py:263-273 | Such a run from the empty tables: 501 requests, and a driver takes the last one a second after its departure. |
| `Dispatching.MatchIsNotStale` | app/services/dispatch.py:263-273 | So with at most 500 stale requests a match never takes one whose departure is past. |
| `Dispatching.NearbyIsTop` | app/services/dispatch.py:156-168 | The list is a stable top-`limit` of the examined window: items are open, undismissed and in the radius, ordered by rounded distance with ties newest first; an omitted one in the radius is at least as far, and none is omitted from a short list. |
| `Dispatching.NearbyInKilometres` | app/services/dispatch.py:156-168 | In kilometres: listed requests are within the radius, and each is at most a hundredth farther than those after it and than any examined one in the radius that is left out. |
| `Dispatching.ExaminedAre` | app/repositories/dispatch.py:96-107 | The window is the newest 4*limit open undismissed requests, newest first, and all of them when there are fewer. |
| `Dispatching.OmittedItem` | app/services/dispatch.py:167-168 | An examined request in the radius that is not listed is at least as far, rounded, as each listed one. |

## Left out

- Redis: the in-memory paths are modelled; failover between the two stores and the expiry of idempotency records in Redis are not.
- Concurrency: operations are atomic steps. `update_status` takes no row lock and `idempotent_execute` reserves nothing, so the theorems are about sequential steps.
- Database failures: a commit that fails, and the unique constraints on provider ids and on a driver's dismissal, are not modelled.
- JobQueue.Queue.Execute: a job is a value whose handler is a success script by attempt; the stop marker, `reset` and `snapshot` are not modelled, and `attempts` is not shared with other holders of the job. Handlers that enqueue further jobs are modelled for payment jobs only, in `RefundRetries`.
- Payment jobs: operations append them to the session's list; with synchronous jobs the source would run a retry at once, in its own transaction, before the enclosing one commits.
- PaymentService.Service.ProcessWebhookEvent: if several rows share a reference or an order id any of them may be found; the uniqueness of both in the database is not modelled.
- PaymentService.Service.CreatePayment: the currency is upper-cased on ASCII letters only.
- TripRuns.Reachable: payment steps in a run may name any provider answers and any value of the accepted flag, which allows more runs than the source does.
- RideService.Service.SettleBookings: bookings are settled in row order; the source loads `ride.bookings` without an order, on which depends which retry jobs are queued before the loop stops, though not the stored rows.
- RefundRetries.RefundIsNotForgotten: jobs other than payment jobs, which cannot touch a payment, are not in the queue, and the worker is not stopped.
- JobQueue.Queue.RecordEvent: the random job id and the timestamp of an event are not modelled, and an error message is kept as the name and attempts it is made of.
- Auth.AuthService.ChangePassword: the queued clean-up of audit logs is not modelled.
- Idempotency.CancelRideIsReplayedEmpty: about the wrapper's two responses; the endpoint then drops the body and keeps the headers.
- TokenStore.Tokens.ListSessions: sessions issued at the same time are listed in any order; user agent and address of a session are not modelled.
- Access tokens are not ended by a password reset, in the source or here.
- JWT encoding, signatures, password hashing and audit records: token ids are fresh and claims are as issued.
- Money.RoundHalfUp: prices are reals; the 28 digits of Decimal contexts and the rendering of a float distance are not modelled.
- Geometry.ClosestPoint: exact reals; float rounding, the cosine and the haversine formula are parameters.
- Dispatching.NearbyIsTop: rounded distances are exact; among equal creation or departure times the database's order is taken as row order.
- Driver availability rows: being online and fresh is a parameter of the dispatch operations; clearing a stale row and the retention clean-ups of dismissals and presence are not modelled.
- Share tokens, location history and access windows, notifications, e-mail, chat, websockets, reviews, incidents, the assistant, metrics and migrations: no property of the kind proved here depends on them.
