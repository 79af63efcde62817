# Keyzori verification

Keyzori is a license server: PostgreSQL holds licenses, meters, registrations, Stripe links and a
webhook inbox; Redis holds sessions and rate-limit windows; an SDK client activates a license and
keeps its session alive. This project models the six parts whose guarantees span several of these
and proves what each promises over whole runs.

| File | What it models |
|---|---|
| `SessionCodec.dfy` | the text a session is stored under, and the two ways it is parsed |
| `SessionStore.dfy` | the four Lua scripts, as functions and as loops over Redis |
| `SessionIndex.dfy` | runs of the scripts: index agreement and the session cap |
| `Fencing.dfy`, `FencingRuns.dfy` | activations, session checks, admin actions and cleanups as one interleaved machine |
| `LicenseStatus.dfy`, `Admission.dfy` | the effective status, the admission transaction, heartbeats and usage reports |
| `AdmissionRuns.dfy`, `SessionRuns.dfy` | in the interleaved machine: committed registrations, trial starts and tokens; session checks |
| `MeterLedger.dfy` | meters and their append-only ledger |
| `LicenseTx.dfy`, `LicenseRecord.dfy` | one license's transactions, and its record under concurrent writers |
| `RecordFencing.dfy` | the record's steps as steps of the interleaved machine |
| `StripeReconcile.dfy` | linking and reconciling under the subscription lock |
| `WebhookInbox.dfy`, `WebhookWorkers.dfy` | the lease-based inbox, its worker and its backoff, and several workers at once |
| `RateLimit.dfy` | the sliding-window limiter |
| `HeartbeatTiming.dfy`, `LicenseClient.dfy`, `LicenseClientRuns.dfy` | the client's timing, its handlers, and its runs |
| `ClientAndServer.dfy` | the client and the interleaved machine under one clock |

Code that updates state in place is a class (`RedisSessions`, `ActivationService`, `MeterRepository`,
`LicenseTables`, `SubscriptionService`, `Inbox`, `SlidingWindow`, `SdkClient`). Its methods are
proved equal to functions on values, and the theorems about runs are proved for those functions. What such
a function does is stated once more without it: a lemma named `...IsExact` gives the answer and the new
rows or keys by columns, literal constants and counts.
Where requests interleave, each transaction and each script is one atomic step of a state machine,
and a theorem about a run covers every order of steps. `dafny verify dfyconfig.toml` checks it all.

## Assumptions

- A row lock or advisory lock is held until its transaction ends; transactions and scripts are atomic.
- The clock does not go back; Redis treats a key as gone from the millisecond of its expiry on.
- Session tokens and `operator:` identifiers are fresh, SHA-256 is injective and never yields an
  `operator:` identifier, and license IDs are not empty and hold no `|`.
- Session revisions live in a four-byte column; a bump at its maximum is refused by the database.
- Stripe is a register of snapshots with a version; a read returns the current one.
- The outcome of an allowlist read inside the fencing machine, whether Redis answers a cleanup, and
  where a transaction fails are inputs, so the theorems hold for every choice.
- A database statement that commits is reported as committed. If the answer to `markProcessed` were lost, the same
  worker would mark the event failed.

## Where the code decides

- `docs/runtime-flow.md` lists the trial start before the registration and concurrency limits. The code
  starts the trial after the session is reserved, and so does the model; a refused activation starts no trial.
- A Retry-After of at least one second is returned also when the limit is not positive, although no wait helps
  then; `RateLimit.RetryAfterIsLeast` states the exact condition. `apps/server/src/config.ts` accepts limits of at
  least 1 only; the fallback in `apps/server/src/index.ts`, used without a configuration, reads the variables unchecked.
- `markFailed` looks at no status. A processed event is final in every run if and only if there is at most
  one worker or every batch settles before the 60-second lease it took runs out;
  `WebhookWorkers.ProcessedIsFinalIffLeaseOutlives` proves both halves.
- An update that leaves the subscription type deletes the license's Stripe link in its transaction and once more
  after it. A link created in between is removed too, although nobody confirmed that:
  `LicenseRecord.TrailingDeletionIffRelinked` says exactly when, and `LicenseRecord.NewLinkIsRemoved` gives the run.
- A session whose lifetime does not exceed two timeouts plus the safety margin is not always renewed in
  time; `HeartbeatTiming.InTimeIffBudgetFits` states the exact condition.

## Model

| member | source | states |
|---|---|---|
| `FencingRuns.BumpedTokenIsNeverAccepted` | apps/server/src/application/services/LicenseService.ts:281-311 | Fencing over every interleaving of activations, heartbeats, usage reports, admin actions, cleanups and clock ticks: a token issued before its license's revision was raised is never accepted by a later check, even if Redis was not cleaned and the license was edited or restored since |
| `FencingRuns.StoredRevisionsAreReached` | apps/server/src/application/services/LicenseService.ts:320-407 | In every reachable state each stored session decodes, through the separator search of the scripts, to a license and a revision that is at most the committed one |
| `FencingRuns.AcceptedIsCurrent` | apps/server/src/application/services/LicenseService.ts:292-310 | A token that passes the check was issued under exactly the committed revision of a license that is active at that moment |
| `FencingRuns.RegisterDeletesOnlyOlder` | apps/server/src/infrastructure/repositories/RedisSessionRepository.ts:9-21 | The purge inside register, run under the row lock, deletes a live session if and only if it belongs to the license and is older than the committed revision |
| `FencingRuns.CleanupDeletesOnlyOlder` | apps/server/src/application/services/AdminService.ts:829-844 | Cleanup after a revision bump deletes a live session if and only if it belongs to the license and is older than the revision read back; such a session is older than the committed revision, even when a new activation landed between the bump and the cleanup |
| `FencingRuns.CurrentSurvives` | apps/server/src/infrastructure/repositories/RedisSessionRepository.ts:52-97 | No step but a removal under the token's own binding, a bump or deletion of its license, or the clock reaching its current expiry ends a session that carries the committed revision, and its expiry never moves back |
| `FencingRuns.CurrentSurvivesRun` | apps/server/src/infrastructure/repositories/RedisSessionRepository.ts:9-97 | The same over any stretch of a run, however often the session is refreshed in it |
| `FencingRuns.CurrentIsReachable` | apps/server/src/application/services/LicenseService.ts:313-407 | A current session is reachable: three steps of an activation of any active license produce one, whatever its session maximum |
| `FencingRuns.RunKeepsInv` | apps/server/src/application/services/LicenseService.ts:313-417 | The joint invariant of Redis, license rows, row locks and requests in flight holds in every reachable state |
| `Fencing.NextKeepsInv` | apps/server/src/infrastructure/repositories/DrizzleDeviceRepository.ts:45-53 | Every single step keeps it: stored values are the encodings of what was issued, no issue is ahead of its row, and a request that holds the row lock sees its revision unchanged |
| `Fencing.RefreshResolves` | apps/server/src/infrastructure/repositories/RedisSessionRepository.ts:130-148 | A refresh that succeeds resolves to exactly the license and revision the token was issued under, and only for the binding it was issued to |
| `SessionCodec.SplitReadsBack` | apps/server/src/infrastructure/repositories/RedisSessionRepository.ts:14-16 | The scripts read the three stored fields back if and only if the license ID holds no separator |
| `SessionCodec.ReplyReadsBack` | apps/server/src/infrastructure/repositories/RedisSessionRepository.ts:189-201 | `resolvedSession` reads license and revision back if and only if the license ID is not empty and the revision is a safe integer |
| `SessionCodec.DecimalRoundTrip` | apps/server/src/infrastructure/repositories/RedisSessionRepository.ts:122-123 | Revisions survive being written as decimal text and parsed again |
| `SessionStore.RedisSessions.RegisterSession` | apps/server/src/infrastructure/repositories/RedisSessionRepository.ts:9-32 | The register loop purges dead and other-revision members, enforces the maximum and stores the new session, as the function whose effect on keys, index and answer `SessionIndex.RegisterIsExact`, `RegisterIndexIsExact` and `RegisterRefusesIff` state |
| `SessionStore.RedisSessions.PurgeOtherRevisions` | apps/server/src/infrastructure/repositories/RedisSessionRepository.ts:10-21 | The first loop leaves exactly the members whose keys exist and carry the given revision |
| `SessionStore.RedisSessions.RefreshSession` | apps/server/src/infrastructure/repositories/RedisSessionRepository.ts:34-50 | Refresh renews key and index together and answers with license and revision, only for the same binding |
| `SessionStore.RedisSessions.RemoveSession` | apps/server/src/infrastructure/repositories/RedisSessionRepository.ts:52-70 | Remove takes key and index entry out together, only for the same binding |
| `SessionStore.RedisSessions.RemoveAllSessions` | apps/server/src/infrastructure/repositories/RedisSessionRepository.ts:72-97 | The removeAll loop removes exactly the malformed and older sessions, drops dead members, and returns how many keys it deleted |
| `SessionStore.RedisSessions.RemoveOlder` | apps/server/src/infrastructure/repositories/RedisSessionRepository.ts:76-92 | The loop itself, member by member, whatever the order |
| `SessionIndex.RunStaysIndexed` | apps/server/src/infrastructure/repositories/RedisSessionRepository.ts:9-97 | After any run of the four scripts every key is in the index of its own license and of no other, and the index expires no earlier than the key |
| `SessionIndex.SessionCap` | apps/server/src/infrastructure/repositories/RedisSessionRepository.ts:23-26 | With a fixed positive maximum a license never has more live sessions than that, across register, refresh, remove, removeAll and expiry |
| `SessionIndex.RunRegistersIff` | apps/server/src/infrastructure/repositories/RedisSessionRepository.ts:22-26 | In every run a registration is refused if and only if the maximum is positive and at least that many live keys of this license carry this revision at that moment |
| `SessionIndex.RegisterIsExact` | apps/server/src/infrastructure/repositories/RedisSessionRepository.ts:9-32 | Registering deletes exactly the license's live sessions of other revisions and, if there is room, stores this one for 45 seconds; every other live key is untouched |
| `SessionIndex.RegisterIndexIsExact` | apps/server/src/infrastructure/repositories/RedisSessionRepository.ts:17-31 | The index set afterwards is the counted sessions and, if there is room, the new one, and it lives as long as that one |
| `SessionIndex.RefreshIsExact` | apps/server/src/infrastructure/repositories/RedisSessionRepository.ts:34-50 | A refresh is accepted exactly for a live session under its own binding, and extends that one key to 45 seconds |
| `SessionIndex.RemoveIsExact` | apps/server/src/infrastructure/repositories/RedisSessionRepository.ts:52-70 | A removal takes out exactly the live session of this token, if the binding is its own |
| `SessionIndex.RemoveAllIsExact` | apps/server/src/infrastructure/repositories/RedisSessionRepository.ts:72-97 | removeAll deletes exactly the license's live sessions or, with a minimum, those of a lower or unreadable revision, and returns their number |
| `SessionIndex.RunBoundsIndex` | apps/server/src/infrastructure/repositories/RedisSessionRepository.ts:9-97 | Nor does its index set ever hold more members, live or dead |
| `SessionRuns.ExpiredStaysRefused` | apps/server/src/domain/licenseStatus.ts:3-36 | Once a license is not active, no check of its tokens accepts in any later state until an admin or its billing writes it, whatever activations are under way |
| `SessionRuns.RevokedStaysRefused` | apps/server/src/domain/licenseStatus.ts:15-20 | Payment recovery never lifts a manual revocation: whatever billing does, no check accepts until an admin writes the row |
| `Admission.ActivationService.AdmitActivation` | apps/server/src/application/services/LicenseService.ts:313-431 | All-or-nothing admission, decided by the columns in this order: license and revision, a revocation of either kind, a subscription or trial that is over, the two allowlists, the two slot limits, and the maximum against the live keys of this license and revision; a failure before, between or after the two writes rolls both back and returns no token; success registers the caller, starts an unstarted trial now, and keeps distinct addresses and devices within max(previous, limit) |
| `Admission.ActivationService.WriteAdmission` | apps/server/src/application/services/LicenseService.ts:387-406 | The writes themselves, with the trial start and the registration undone when the transaction fails at any later point |
| `AdmissionRuns.CommittedIffAnswered` | apps/server/src/application/services/LicenseService.ts:313-431 | In every interleaving a token is returned, on its way or lost on its way if and only if the transaction that reserved it committed its caller's registration and, for an unstarted trial, a trial start; a returned one was committed before |
| `AdmissionRuns.CommitIsWhole` | apps/server/src/application/services/LicenseService.ts:341-406 | At every commit registration and trial start appear together, nothing else in the row changes, and distinct addresses and devices stay within max(count at that moment, limit) |
| `AdmissionRuns.RegistrationHasToken` | apps/server/src/infrastructure/repositories/DrizzleDeviceRepository.ts:132-159 | Every committed registration was there at the start or belongs to a committed activation, whose token is returned, on its way or lost |
| `AdmissionRuns.TrialStartHasToken` | apps/server/src/infrastructure/repositories/DrizzleDeviceRepository.ts:92-111 | Unless an admin writes the row, a trial start changes only with a committed activation, whose token is returned, on its way or lost |
| `AdmissionRuns.FailedActivationReturnsNothing` | apps/server/src/application/services/LicenseService.ts:408-417 | An activation that fails after reserving leaves rows and registrations alone, and its token is never returned in any later state |
| `AdmissionRuns.RemovedTokenIsGone` | apps/server/src/application/services/LicenseService.ts:408-417 | Once the removal after a failed activation or a refused check has reached Redis, the token has no key in any later state, refreshing it opens no check, and no check accepts it but one whose refresh ran before the removal |
| `AdmissionRuns.GoneForever` | apps/server/src/infrastructure/repositories/RedisSessionRepository.ts:28-30 | Once an issued token's key is gone, by removal, cleanup, purge or expiry, it stays gone in every later state |
| `AdmissionRuns.DeactivatedTokenIsGone` | apps/server/src/application/services/LicenseService.ts:255-279 | Deactivation under the token's own binding is final in every later state, but for a check whose refresh ran before it; under another binding the session stays as it was |
| `AdmissionRuns.SlotWriters` | apps/server/src/infrastructure/repositories/DrizzleDeviceRepository.ts:132-260 | Registrations appear only by commits, one at a time, and go only with a bump that drops them or with their license |
| `AdmissionRuns.RunKeepsSlots` | apps/server/src/application/services/LicenseService.ts:341-369 | While its limits are fixed, a license's distinct addresses stay within a positive address limit and its devices within a positive device limit, in every interleaving |
| `SessionRuns.CheckDecides` | apps/server/src/application/services/LicenseService.ts:281-311 | A check takes place only if its refresh, any number of steps before, found the session live under its own binding; it accepts if and only if at the check the license still has the revision the token was issued under, is active, and the allowlists let the caller in |
| `SessionRuns.RefreshOpensIff` | apps/server/src/infrastructure/repositories/RedisSessionRepository.ts:34-50 | A refresh opens a check if and only if the session is live and the binding its own |
| `SessionRuns.SessionDecidedByLicense` | apps/server/src/application/services/LicenseService.ts:281-311 | Refresh and license read in one state of a run: the same exact condition and order of errors for any issued token, by its issue and the columns of the row |
| `ClientAndServer.PunctualClientKeepsSession` | apps/sdk/src/core/LicenseClient.ts:255-328 | Client and server together: while a punctual client's heartbeats succeed and nobody removes its session or raises or deletes its license, whenever the client is in service its session is live in Redis at the committed revision and lasts there at least as long as the client believes, which is not over yet |
| `ClientAndServer.ServiceIsReachable` | apps/sdk/src/core/LicenseClient.ts:152-170 | Such runs bring a client into service: one activation of any active license does |
| `Admission.SlotErrorIsExact` | apps/server/src/application/services/LicenseService.ts:341-369 | The slot checks refuse exactly the registrations that would push distinct addresses or devices past both the limit and what was there |
| `LicenseStatus.StatusIsExact` | apps/server/src/domain/licenseStatus.ts:3-36 | A license is active if and only if no revocation is set, its subscription has not reached its expiry and its started trial has minutes left; revocations are named before expiry |
| `Admission.PolicyIsExact` | apps/server/src/application/services/LicenseService.ts:433-460 | The policy decision by columns: revoked, over, address not listed, device not listed, in this order, and allowed otherwise |
| `SessionRuns.VerdictIsPolicy` | apps/server/src/application/services/LicenseService.ts:281-311 | The verdict of the interleaved machine is the service's policy decision at the issued revision, and both are the same condition on the columns |
| `SessionRuns.AdmissionDecides` | apps/server/src/application/services/LicenseService.ts:327-369 | The interleaved machine admits an activation if and only if the revision is still the one read, nothing is revoked or over, the caller is listed and both slot limits hold, and it then asks for a session under the row's own maximum |
| `SessionRuns.ReservationDecides` | apps/server/src/infrastructure/repositories/RedisSessionRepository.ts:22-31 | In every run an admitted activation gets its session unless its maximum is positive and at least that many live keys of its license carry its revision at that moment |
| `Admission.FailedReservationIsGone` | apps/server/src/application/services/LicenseService.ts:408-417 | Whatever scripts ran since the reservation, removing the session under its own binding leaves no key, and the token then resolves to nothing |
| `Admission.SessionFollowsLicense` | apps/server/src/application/services/LicenseService.ts:111-133 | Whatever scripts ran since it was stored, a session is accepted if and only if it has not expired, comes with its own binding, the license still has the admitted revision, no revocation is set, its time is not over and the allowlists name the caller; otherwise the first that fails names the error |
| `Admission.ActivationService.Heartbeat` | apps/server/src/application/services/LicenseService.ts:281-311 | Accepted if and only if the stored session is live under its own binding at the license's current revision, nothing is revoked or over and both allowlists name the caller; otherwise the first of these that fails names the error, and a refused session is removed when Redis answers |
| `Admission.ActivationService.Consume` | apps/server/src/application/services/LicenseService.ts:151-252 | Which of the errors a refused report gets, in the order of the checks; meters change only for an accepted session of a metered license, by exactly one atomic consumption, whose remaining balance is returned |
| `Admission.UsageFollowsLicenseAndMeter` | apps/server/src/application/services/LicenseService.ts:151-252 | For a new event a usage report answers with the balance less the units if and only if its session is accepted, the license metered, and the meter there, active and holding them; otherwise with the first cause |
| `Admission.ActivationService.RemoveRegisteredIp` | apps/server/src/application/services/AdminService.ts:591-616 | Removing an address frees its slots and raises the revision by one if and only if it held any |
| `MeterLedger.LedgerConserves` | apps/server/src/infrastructure/repositories/DrizzleMeterRepository.ts:47-301 | After any run each meter's entries chain from zero at creation, its balance is the sum of their deltas and the last entry's balanceAfter, and it stays within 0..2147483647 |
| `MeterLedger.BalanceIsWhatWasAsked` | apps/server/src/infrastructure/repositories/DrizzleMeterRepository.ts:47-301 | After any run a meter holds exactly what the calls that committed asked for: its first balance, plus the deltas, less the units |
| `MeterLedger.EventsAreChargedOnce` | apps/server/src/infrastructure/repositories/DrizzleMeterRepository.ts:161-192 | In every run an event is charged at most once |
| `MeterLedger.ConsumptionIsExact` | apps/server/src/infrastructure/repositories/DrizzleMeterRepository.ts:155-242 | A new event is consumed if and only if the meter is there, active and holds the units; balance and answer are the old balance less the units, one entry of minus the units is appended, every other meter stays; NotFound, archived and exhausted are told exactly for their causes |
| `MeterLedger.AdjustmentIsExact` | apps/server/src/infrastructure/repositories/DrizzleMeterRepository.ts:244-301 | An adjustment adds exactly its delta if the balance stays in range, and changes nothing otherwise |
| `MeterLedger.ArchivingIsExact` | apps/server/src/infrastructure/repositories/DrizzleMeterRepository.ts:85-153 | Archiving keeps the balance and is refused exactly for a missing or archived meter, or when every other meter of a metered license is archived |
| `MeterLedger.CreationIsExact` | apps/server/src/infrastructure/repositories/DrizzleMeterRepository.ts:47-83 | A meter is created with exactly the balance asked for, unless the name is taken or the balance out of range |
| `MeterLedger.InsertionIsExact` | apps/server/src/infrastructure/repositories/DrizzleLicenseRepository.ts:283-336 | A list of different meters is inserted if and only if no name is taken by an archived meter or another balance |
| `MeterLedger.InsertedMeters` | apps/server/src/infrastructure/repositories/DrizzleLicenseRepository.ts:283-336 | Afterwards the meters are those before, untouched, and those asked for, each with its balance |
| `MeterLedger.ConsumptionIsIdempotent` | apps/server/src/infrastructure/repositories/DrizzleMeterRepository.ts:161-192 | After a committed consumption and any other operations, the same meter, units and event return the original remaining balance and change nothing; another meter or amount under that event is a conflict that changes nothing |
| `MeterLedger.RejectedChangesNothing` | apps/server/src/infrastructure/repositories/DrizzleMeterRepository.ts:155-242 | Every call that does not commit leaves meters and ledger as they were, and the ledger is append-only |
| `MeterLedger.FoundStaysFound` | apps/server/src/db/schema.ts:230-233 | The entry found under an event key stays the one found as the ledger grows |
| `MeterLedger.RunKeepsAccount` | apps/server/src/infrastructure/repositories/DrizzleMeterRepository.ts:244-301 | The account invariant holds from any accounted ledger over any run |
| `MeterLedger.InsertKeepsAccount` | apps/server/src/infrastructure/repositories/DrizzleLicenseRepository.ts:283-336 | Meters that come with a license update start their chains at zero and leave other chains alone |
| `MeterLedger.MeterRepository.Create` | apps/server/src/infrastructure/repositories/DrizzleMeterRepository.ts:47-83 | Creation in place: meter and first entry together, or nothing |
| `MeterLedger.MeterRepository.ArchiveOne` | apps/server/src/infrastructure/repositories/DrizzleMeterRepository.ts:85-153 | Archiving in place, refusing the last active meter of a metered license |
| `MeterLedger.MeterRepository.ConsumeOne` | apps/server/src/infrastructure/repositories/DrizzleMeterRepository.ts:155-242 | Consumption in place, with replay, conflict and exhaustion; a committed one lowers this meter by exactly the units, appends one entry of minus the units, and leaves every other meter alone |
| `MeterLedger.MeterRepository.AdjustOne` | apps/server/src/infrastructure/repositories/DrizzleMeterRepository.ts:244-301 | Top-ups and adjustments in place by exactly the delta, refused when they would leave the range |
| `MeterLedger.MeterRepository.InsertNewMeters` | apps/server/src/infrastructure/repositories/DrizzleLicenseRepository.ts:283-336 | The insertion loop adds the meters not there yet and rolls everything back on a clash |
| `LicenseRecord.RunKeepsInv` | apps/server/src/infrastructure/repositories/DrizzleLicenseRepository.ts:157-281 | In every reachable state of interleaved admins, activations, billing and meter changes: expiry is set iff the type is subscription, duration is positive iff it is trial, trial start only for trial, a linked license is a subscription whose expiry is the link's non-null paid-through date, and a metered license has an active meter |
| `LicenseRecord.VersionCheckIsExact` | apps/server/src/infrastructure/repositories/DrizzleLicenseRepository.ts:171-188 | No lost updates: an update or rotation passes its version check if and only if no write to the row committed since the row was read |
| `LicenseRecord.NextAdvances` | apps/server/src/infrastructure/repositories/DrizzleLicenseRepository.ts:33-35 | Every step leaves the row untouched or raises its millisecond version by at least one |
| `LicenseRecord.RunAdvances` | apps/server/src/infrastructure/repositories/DrizzleLicenseRepository.ts:33-35 | Versions never fall over a run, and equal versions mean the row was never touched in between |
| `LicenseRecord.ColumnWriters` | apps/server/src/infrastructure/repositories/DrizzleLicenseRepository.ts:157-281 | Each column has its writers: revision, manual revocation and key change exactly by invalidations, rotations, revocations and restorations; type, limits, duration, expiry, trial start and drafts only by the named writers |
| `LicenseRecord.RevisionCounts` | apps/server/src/infrastructure/repositories/DrizzleLicenseRepository.ts:373-442 | Over any stretch of a run the session revision rises by exactly the number of committed invalidations and rotations |
| `LicenseRecord.RevocationFollowsAdmins` | apps/server/src/application/services/AdminService.ts:460-500 | The manual revocation is always what the admins' last revocation or restoration left, whatever reconciles, links, updates and rotations come between |
| `LicenseRecord.RevocationStands` | apps/server/src/infrastructure/repositories/DrizzleStripeRepository.ts:172-180 | A set manual revocation changes only by a restoration or another revocation |
| `LicenseRecord.KeyIsLastRotated` | apps/server/src/infrastructure/repositories/DrizzleLicenseRepository.ts:381-394 | The key hash is always that of the last rotation that committed |
| `LicenseRecord.CommittedUpdateFollowsInput` | apps/server/src/application/services/AdminService.ts:281-405 | An update built from an earlier state's row commits only on that very row, and the committed row is it with what the admin named: type, limits, duration and, unless linked, expiry; key, revision and revocation stay |
| `RecordFencing.RecordStepIsFencingStep` | apps/server/src/infrastructure/repositories/DrizzleLicenseRepository.ts:373-442 | Every step of the record is a step of the fencing machine on this license: a bump exactly when it commits an invalidation or a rotation, a billing step when it leaves the row alone, an edit otherwise |
| `RecordFencing.SessionOutlivesWritesIff` | apps/server/src/application/services/LicenseService.ts:292-310 | A session admitted under the record of one state passes the check in a later one if and only if nothing raised the revision in between, the admins' last word is no revocation, billing has not revoked, the time is not over and the lists name the caller |
| `LicenseTx.NextUpdatedAt` | apps/server/src/infrastructure/repositories/DrizzleLicenseRepository.ts:33-35 | The new version is at least a millisecond above the old one and never behind the clock, after rounding to the column's precision |
| `LicenseTx.InvalidationIsExact` | apps/server/src/infrastructure/repositories/DrizzleLicenseRepository.ts:410-442 | The revision rises by one, a revocation given with it is set and one in force kept; every other column but the version, the link and the ledger stay |
| `LicenseTx.RotationIsExact` | apps/server/src/infrastructure/repositories/DrizzleLicenseRepository.ts:373-408 | Key and revision change together, and only on the version that was read; everything else stays |
| `LicenseTx.RestorationIsExact` | apps/server/src/application/services/AdminService.ts:486-500 | Restoring lifts the manual revocation and nothing else; the revision does not go back |
| `LicenseTx.ReconciliationIsExact` | apps/server/src/infrastructure/repositories/DrizzleStripeRepository.ts:129-183 | NotFound exactly without this link, deletion exactly for another type; an update writes the link and, for a paid period, the expiry, and no other column but the version |
| `LicenseTx.LinkCreationIsExact` | apps/server/src/infrastructure/repositories/DrizzleStripeRepository.ts:63-93 | Each refusal exactly for its cause; otherwise the link and the expiry are written and nothing else but the version |
| `LicenseTx.TrialStartIsExact` | apps/server/src/infrastructure/repositories/DrizzleDeviceRepository.ts:92-111 | An unstarted trial starts at the given time; every other license stays exactly as it is |
| `LicenseTx.MeterDraftIsExact` | apps/server/src/infrastructure/repositories/DrizzleLicenseRepository.ts:444-467 | Only the draft of active meter names and the version change |
| `LicenseTx.UpdateIsExact` | apps/server/src/infrastructure/repositories/DrizzleLicenseRepository.ts:157-258 | An update commits exactly at its version, with its meters insertable, an active meter for a metered license and consent for a link; it writes its own columns, keeps the expiry of a linked subscription, and never key, revision or manual revocation |
| `LicenseTx.UpdateIsAcceptedIff` | apps/server/src/application/services/AdminService.ts:281-405 | The service accepts an update if and only if it names something and every setting fits the target type, the reads and the link |
| `LicenseTx.UpdateFollowsInput` | apps/server/src/application/services/AdminService.ts:925-985 | An accepted update asks for exactly what was named, falls back to the current or dormant settings, and creates the meters that are not active yet |
| `LicenseTx.CreationFollowsInput` | apps/server/src/application/services/AdminService.ts:234-271 | A license is created if and only if its settings fit its type, and it is exactly what was asked for: unrevoked, unstarted, at revision 0, with the meters asked for |
| `LicenseRecord.ReconcileNeverDeletes` | apps/server/src/infrastructure/repositories/DrizzleStripeRepository.ts:160-165 | The branch of reconcile that deletes the link of a license of another type is unreachable |
| `LicenseRecord.LinkNeedsConsent` | apps/server/src/infrastructure/repositories/DrizzleLicenseRepository.ts:210-250 | Whatever the admin saw, the transaction of an update ends a Stripe link only by leaving the subscription type with unlinking confirmed, and never sets the expiry of a linked license |
| `LicenseRecord.TrailingDeletionIffRelinked` | apps/server/src/application/services/AdminService.ts:405-421 | The deletion that follows an unlinking update removes a link if and only if one was created since the commit and is still there; the license is then a subscription again |
| `LicenseRecord.NewLinkIsRemoved` | apps/server/src/application/services/AdminService.ts:411-412 | It happens: for any subscription there is a run in which that deletion removes a link created after the update, from a license that is a subscription |
| `LicenseRecord.LinkedIffRelinked` | apps/server/src/infrastructure/repositories/DrizzleStripeRepository.ts:63-93 | From an unlinked state on there is a link exactly if one was created and has not gone since |
| `LicenseRecord.TrialStartsOnce` | apps/server/src/infrastructure/repositories/DrizzleDeviceRepository.ts:92-111 | A trial start, once set, does not change while the type stays trial |
| `LicenseRecord.BuildUpdateFits` | apps/server/src/application/services/AdminService.ts:925-985 | Every update the service computes fits the row it was computed from: shape, version, and unchanged dormant drafts |
| `LicenseRecord.TrialComesBack` | apps/server/src/application/services/AdminService.ts:959-976 | A license that left the trial type and went through any other types comes back, in the committed row, with its old duration and a fresh start, in every interleaving |
| `LicenseRecord.SubscriptionComesBack` | apps/server/src/application/services/AdminService.ts:937-958 | It comes back to subscription, in the committed row, with its old expiry if and only if that is still in the future |
| `LicenseRecord.MeteredComesBack` | apps/server/src/application/services/AdminService.ts:324-405 | It comes back to metered, in the committed row, with every meter that was active, as long as none was archived, although row, meters and link are read one after the other; it is refused only if the row was written since its read or an unlinking is not confirmed |
| `LicenseRecord.MetersKept` | apps/server/src/infrastructure/repositories/DrizzleMeterRepository.ts:85-153 | Only archiving takes an active meter away |
| `LicenseRecord.ArchiveKeepsOne` | apps/server/src/infrastructure/repositories/DrizzleMeterRepository.ts:100-112 | Archiving under a metered license always leaves an active meter |
| `LicenseRecord.CreatedLicenseStarts` | apps/server/src/application/services/AdminService.ts:846-923 | Every created license meets the invariant the runs start from |
| `LicenseTx.LicenseTables.Update` | apps/server/src/infrastructure/repositories/DrizzleLicenseRepository.ts:157-258 | The update transaction in place: commits as specified or rolls back with its error |
| `LicenseTx.LicenseTables.RotateKey` | apps/server/src/infrastructure/repositories/DrizzleLicenseRepository.ts:373-408 | Rotation in place, only at the expected version: the new hash, and the revision raised by one |
| `LicenseTx.LicenseTables.InvalidateSessions` | apps/server/src/infrastructure/repositories/DrizzleLicenseRepository.ts:410-442 | Invalidation in place: the revision rises by one, a revocation given with it is set, and one in force is kept |
| `LicenseTx.LicenseTables.StartTrialIfUnset` | apps/server/src/infrastructure/repositories/DrizzleDeviceRepository.ts:92-111 | The trial start is written only while it is unset and the type is trial |
| `LicenseTx.LicenseTables.CreateLink` | apps/server/src/infrastructure/repositories/DrizzleStripeRepository.ts:63-93 | A link is created only for an unlinked subscription with a paid period, which becomes its expiry |
| `LicenseTx.LicenseTables.Reconcile` | apps/server/src/infrastructure/repositories/DrizzleStripeRepository.ts:129-183 | Reconciliation in place: the link is rewritten and, for a known paid period, the expiry; no other column but the version changes |
| `StripeReconcile.LinkMirrorsStripe` | apps/server/src/integrations/stripe/StripeSubscriptionService.ts:213-246 | In every interleaving of link, reconcile, unlink, admin updates, key rotations and other writes the link mirrors the newest snapshot written, in Stripe's order; its revocation and synchronization time follow from the snapshots so far; the license expires with the last non-null paid period |
| `StripeReconcile.CommitNeverRegresses` | apps/server/src/integrations/stripe/StripeSubscriptionService.ts:213-246 | A reconciliation that commits late never replaces a snapshot by an older one, and leaves a billing revocation if and only if its snapshot is blocked |
| `StripeReconcile.BlockedSinceIsFirst` | apps/server/src/integrations/stripe/StripeSubscriptionService.ts:47-54 | The revocation is null iff the newest snapshot is not blocked; otherwise it is the synchronization time of the first snapshot in the trailing blocked run |
| `StripeReconcile.SyncTimeIsMax` | apps/server/src/integrations/stripe/StripeSubscriptionService.ts:223-226 | The synchronization time is the running maximum of the callers' times |
| `StripeReconcile.CommitKeepsFlows` | apps/server/src/infrastructure/repositories/DrizzleStripeRepository.ts:48-61 | A commit under one subscription's lock leaves what the holders of other locks know intact |
| `StripeReconcile.SubscriptionService.ReconcileSubscription` | apps/server/src/integrations/stripe/StripeSubscriptionService.ts:213-246 | Reconciliation in place, as that step of the machine |
| `StripeReconcile.SubscriptionService.LinkLicense` | apps/server/src/integrations/stripe/StripeSubscriptionService.ts:74-163 | Linking in place: each refusal leaves everything as it was, linking again reconciles |
| `WebhookInbox.NothingIsLost` | apps/server/src/infrastructure/repositories/DrizzleStripeRepository.ts:233-296 | With one worker every received event stays in the inbox, is processed for good, or is due again no later than its last touch plus max(60 s, maxDelay), through crashes as well |
| `WebhookInbox.ClaimedWithinBound` | apps/server/src/integrations/stripe/StripeWebhookService.ts:206-214 | Bounded wait: each batch that skips a due event uses up a full batch of the events ahead of it, so the number of such batches is limited by those ahead and by arrivals at its very instant |
| `WebhookInbox.SkippingClaim` | apps/server/src/infrastructure/repositories/DrizzleStripeRepository.ts:233-275 | A claim that skips a due event is full and moves all it claims behind that event |
| `WebhookInbox.BackoffIsMonotone` | apps/server/src/integrations/stripe/StripeWebhookService.ts:148-149 | Backoff stays between base and maximum and never decreases with attempts |
| `WebhookInbox.BackoffDoubles` | apps/server/src/integrations/stripe/StripeWebhookService.ts:146-149 | The first retry waits the base delay, each further one twice as long up to the cap, and the same from the 31st on |
| `WebhookInbox.ClaimIsExact` | apps/server/src/infrastructure/repositories/DrizzleStripeRepository.ts:233-275 | A claim takes unprocessed events whose time has come, all of them if fewer than limit and 100 are due, counts one attempt and leases each for 60 seconds; every other event stays |
| `WebhookInbox.ArrivalIsExact` | apps/server/src/infrastructure/repositories/DrizzleStripeRepository.ts:215-231 | A new event is due the moment it arrives, with no attempt made; a known one stays as it is |
| `WebhookInbox.SettlingIsExact` | apps/server/src/integrations/stripe/StripeWebhookService.ts:128-165 | A settled event keeps its attempts; success is final, a failure waits out the delay its claimed attempts call for |
| `WebhookInbox.AttemptsAreClaims` | apps/server/src/infrastructure/repositories/DrizzleStripeRepository.ts:258-266 | In every run with one worker the attempts of an event are the claims made of it, crashed batches included |
| `WebhookInbox.Clamped` | apps/server/src/integrations/stripe/StripeWebhookService.ts:87-91 | The clamped options always satisfy 100 <= base <= maximum |
| `WebhookWorkers.ProcessedIsFinalIffLeaseOutlives` | apps/server/src/infrastructure/repositories/DrizzleStripeRepository.ts:233-296 | With any number of workers, each batch settling within a bound D of the time it claimed with: processed is final in every run if and only if there is at most one worker or D is below the 60-second lease |
| `WebhookWorkers.ProcessedStays` | apps/server/src/infrastructure/repositories/DrizzleStripeRepository.ts:277-296 | Under that condition a processed event's row never changes again, whatever the workers claim, settle or abandon |
| `WebhookWorkers.LateFailureReopens` | apps/server/src/infrastructure/repositories/DrizzleStripeRepository.ts:287-296 | For two workers and any D of at least the lease there is a run in which a late failure reopens a processed event |
| `WebhookWorkers.NothingIsStranded` | apps/server/src/infrastructure/repositories/DrizzleStripeRepository.ts:258-266 | With any number of workers, however late they settle, no event leaves the inbox and every unprocessed one is due no later than its last touch plus max(60 s, maxDelay) |
| `WebhookInbox.Inbox.ClaimDue` | apps/server/src/infrastructure/repositories/DrizzleStripeRepository.ts:233-275 | The claim takes the earliest due events that fit, each once, and leases them for a minute |
| `WebhookInbox.Inbox.ProcessDue` | apps/server/src/integrations/stripe/StripeWebhookService.ts:114-170 | A batch settles every claimed event by its outcome, in order, with the attempts its claim read; a database failure ends it after the events settled so far |
| `WebhookInbox.Inbox.RunOnce` | apps/server/src/integrations/stripe/StripeWebhookService.ts:206-214 | While the flag is up a call claims nothing; otherwise it runs one batch and lowers the flag, also when the batch ends with an exception |
| `RateLimit.AtMostLimitPerWindow` | apps/server/src/plugins/ratelimit.ts:11-26 | At most `limit` calls are admitted in any half-open 60-second window, for non-decreasing call times |
| `RateLimit.WindowIsExact` | apps/server/src/plugins/ratelimit.ts:14-25 | Key expiry never drops an entry still in the window: at any later time the purged set is exactly the admitted calls of the last 60 seconds |
| `RateLimit.AdmittedIffRoom` | apps/server/src/plugins/ratelimit.ts:12-16 | A call is admitted if and only if fewer than `limit` admissions are younger than 60 seconds |
| `RateLimit.RetryAfterIsLeast` | apps/server/src/plugins/ratelimit.ts:17-23 | While nobody else is admitted, a call k seconds after a denial is admitted if and only if the limit is positive and k has reached the returned Retry-After (section 10.2.3 of RFC 9110) |
| `RateLimit.SlidingWindow.Consume` | apps/server/src/plugins/ratelimit.ts:36-60 | The script on the sorted set in place, as one function of window, time and limit |
| `LicenseClientRuns.HeartbeatLoopIsSingle` | apps/sdk/src/core/LicenseClient.ts:241-253 | In every run at most one of armed timer and open heartbeat exists, exactly one while active with no fatal cleanup pending, and no timer outside the active state |
| `LicenseClientRuns.NothingSentAfterDeactivation` | apps/sdk/src/core/LicenseClient.ts:131-138 | Once deactivation has begun at most one more request is sent, and that is the release with the newest token |
| `LicenseClientRuns.ReleaseIsLast` | apps/sdk/src/core/LicenseClient.ts:210-239 | A release is sent at most once, as the last request of a run, with the newest token, when nothing is outstanding |
| `LicenseClientRuns.DeactivatedIsFinal` | apps/sdk/src/core/LicenseClient.ts:232-236 | The deactivated state is absorbing |
| `LicenseClientRuns.RetriesAreBounded` | apps/sdk/src/core/LicenseClient.ts:265-295 | Any mix of failed and throttled heartbeats without a success ends the client by the (2 * maxRetries)-th |
| `LicenseClientRuns.BoundIsReached` | apps/sdk/src/core/LicenseClient.ts:270-295 | The bound is tight for every configuration whose timeout leaves two seconds of the session: some 2 * maxRetries - 1 misses leave the client in service, on time if a second for each throttle fits into the session |
| `LicenseClientRuns.SecondClampedThrottleIsFatal` | apps/sdk/src/core/LicenseClient.ts:267-285 | Without a success in between, the second throttle whose retry the expiry clamps is always fatal |
| `LicenseClientRuns.FatalExactlyForCause` | apps/sdk/src/core/LicenseClient.ts:265-318 | An answered heartbeat is fatal if and only if it is a refusal, the maxRetries-th failure since the last success, a throttle beyond maxRetries, or the second clamped one, counted from the history alone |
| `LicenseClientRuns.DeactivationCompletes` | apps/sdk/src/core/LicenseClient.ts:131-239 | From every reachable state, once the application or a fatal answer has begun the deactivation, the timer is off, and the answers to what is outstanding and to the release end it, after the token still held is released |
| `LicenseClientRuns.RequestsAreExact` | apps/sdk/src/core/LicenseClient.ts:96-264 | In every reachable state an event sends exactly one request or none: an activation from an idle client, a usage report while active, a heartbeat when a timer fires, the release once nothing is outstanding, all with the newest token |
| `LicenseClientRuns.NextHeartbeatIsDue` | apps/sdk/src/core/LicenseClient.ts:319-327 | After an answer that leaves the client in service the timer is armed for exactly the delay that the answer calls for |
| `LicenseClientRuns.GrantedActivationServes` | apps/sdk/src/core/LicenseClient.ts:152-170 | A granted activation brings the client into service with the token held and the first heartbeat due after the interval |
| `LicenseClientRuns.UsageIsFatalIff` | apps/sdk/src/core/LicenseClient.ts:186-192 | A usage answer settles one report and ends the client exactly if it is a fatal rejection |
| `LicenseClientRuns.FailedActivationRetries` | apps/sdk/src/core/LicenseClient.ts:106-113 | A failed activation can be repeated |
| `LicenseClientRuns.CountersMatchHistory` | apps/sdk/src/core/LicenseClient.ts:307-309 | Strikes, throttle count and the clamp flag always equal what the history since the last success says |
| `LicenseClientRuns.HeartbeatsBeatExpiry` | apps/sdk/src/core/LicenseClient.ts:298-326 | In every run whose timers fire at most `lag` late, with a session longer than the retry budget, the heartbeat after a success ends at least the safety margin less the lag before expiry, and after one non-fatal failure the retry is due before expiry if the lag is two milliseconds below the margin |
| `LicenseClientRuns.RunKeepsInv` | apps/sdk/src/core/LicenseClient.ts:96-328 | The client's invariant holds over every order of calls, answers, timers and cleanups |
| `HeartbeatTiming.InTimeIffBudgetFits` | apps/sdk/src/core/LicenseClient.ts:547-568 | The renewal bound holds for every timing if and only if the lifetime exceeds two timeouts plus the safety margin |
| `HeartbeatTiming.RetryStartsBeforeExpiry` | apps/sdk/src/core/LicenseClient.ts:594-606 | A clamped retry starts before expiry if and only if at least two milliseconds are left, and is never longer than asked |
| `HeartbeatTiming.RetryFinishesBeforeExpiry` | apps/sdk/src/core/LicenseClient.ts:594-606 | With more than a timeout and a second left, it also ends a second before expiry |
| `HeartbeatTiming.IntervalBounds` | apps/sdk/src/core/LicenseClient.ts:547-568 | The interval is between a millisecond and the requested one, at most two thirds of the lifetime, and leaves the retry budget when that fits |
| `HeartbeatTiming.IntervalIsLargest` | apps/sdk/src/core/LicenseClient.ts:547-568 | The interval is the longest one within the requested one, two thirds of the lifetime, and what leaves two timeouts and the margin or, where those do not fit, a third of the lifetime |
| `HeartbeatTiming.SafetyIsLargest` | apps/sdk/src/core/LicenseClient.ts:550-553 | The margin is a tenth of the lifetime, and at most a second |
| `HeartbeatTiming.RetryIsLargest` | apps/sdk/src/core/LicenseClient.ts:594-606 | A retry waits as long as asked, but no longer than leaves a timeout and a second before expiry, and at least a millisecond |
| `HeartbeatTiming.RequestedRetryIsExact` | apps/sdk/src/core/LicenseClient.ts:570-592 | A readable Retry-After (section 10.2.3 of RFC 9110) is honoured to the millisecond between a second and the longest timer |
| `LicenseClient.SdkClient.FinishHeartbeat` | apps/sdk/src/core/LicenseClient.ts:255-328 | The end of a heartbeat in place: renewal, throttle, refusal or failure, and the next delay |
| `LicenseClient.SdkClient.FinishActivation` | apps/sdk/src/core/LicenseClient.ts:152-174 | The end of an activation in place, also when the client was deactivated meanwhile |
| `LicenseClient.SdkClient.Stop` | apps/sdk/src/core/LicenseClient.ts:132-138 | Deactivation starts once, clears the timer and is safe to repeat |
| `LicenseClient.SdkClient.Release` | apps/sdk/src/core/LicenseClient.ts:210-223 | The release starts only when activation, heartbeat and usage reports have settled |
| `LicenseClient.SdkClient.BeginHeartbeat` | apps/sdk/src/core/LicenseClient.ts:241-264 | A due timer sends a heartbeat with the token held, only while active |
| `LicenseClient.SdkClient.Consume` | apps/sdk/src/core/LicenseClient.ts:117-129 | A usage report is sent only while active, with the token held |

## Left out

- `deleteCustomer`: its session cleanup carries no revision, so the fencing argument does not cover it.
- Controllers, OpenAPI, validation schemas, command line, configuration and startup: single-branch plumbing.
- Activity capture, redaction, statistics, last-seen touches and log output do not affect licensing decisions.
- Stripe calls, webhook signatures and event ID extraction, hashing, UUIDs, device fingerprints, and URL, address and name normalization or length checks.
- Text that is not decimal: `tonumber` and `Number` also read signs, spaces, hexadecimal and exponents, which no stored revision has.
- Reusing a deleted license's ID, and resetting registrations of a license deleted meanwhile.
- Agreement of `typeDrafts.metered` with the meters under concurrent edits: the names are read outside the lock, so the code does not promise it.
- Columns without influence on decisions: customer, metadata, Stripe customer, price, cancellation flag and last error.
- The draft object is a value here; that `updateTypeConfig` fills in the object it was given is not visible.
- Meter IDs: names are unique and immutable within a license and stand for them. The order in which several invalid meter inputs are reported is not modelled.
- `readJson` and the shape checks of responses: any unreadable answer is a failed request of the client.
- LicenseClient.SdkClient.Announce: a listener may deactivate the client from inside a handler; a listener that reports usage from inside one is modelled as a call before or after that handler.
- LicenseClientRuns.HeartbeatsBeatExpiry: requests end within the timeout and timers fire within the stated lag; a run that breaks either is not covered.
- ClientAndServer.PunctualClientKeepsSession: client and server read one clock, and the theorem covers runs in which every heartbeat succeeds.
- WebhookInbox.ClaimedWithinBound: counts batches of one worker; how often the interval timer wakes it is not modelled.
- WebhookInbox.Inbox.ProcessDue: settles a batch at the time it was claimed and without interruption; the runs let each event settle at its own time and other workers act in between.
- Admission.ActivationService.AdmitActivation: one license and one transaction at a time; the interleaving with other requests is the subject of the fencing machine.
