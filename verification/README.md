# Verified model of the booking backend

This project models the protocols and state machines of the booking backend in Dafny and proves
what they keep.  It covers the permission cache and its administration, refresh-token rotation,
the rate-limiting token bucket, the booking inventory with its calendar, refunds and night
arithmetic, fraud decisions and payment notices, promotions with the saga and the event consumers
that drive them, the transactional outbox, notification dispatch, the idempotency registry around
holds, and the text that VNPay requests are signed over.

`dafny verify dfyconfig.toml` checks everything.

## How it is built

Each component has the same three layers.

- **Tables as a value, transactions as functions.**  A database transaction is one atomic,
  serialisable step; a Redis, cache or in-memory call is one atomic step.  Errors are `Result`
  values, and a transaction that fails leaves the tables as they were.
- **Interleavings as sequences of turns.**  Where calls overlap, a call is a small machine with a
  program counter, `Turn` lists what any of them (or the environment) may do next, a turn that is not
  enabled changes nothing, and a theorem about every sequence of turns is a theorem about every
  interleaving of any number of calls, with crashes anywhere.
- **Services as classes.**  The services' objects are classes with the mutable fields and loops of
  the program.  Each method is proved to have exactly the effect of the function (or of the run of
  turns) that the theorems are about.

Some states carry a history component that no step reads: `stock` (what the calendar set),
`retained` (uses kept at a release), `emitted` (everything put into the outbox, or handed to it),
`chain` (all grants of a session), `log`, `marks` and `floor` (the role tables at every moment, and
what a version stands for), `runs` (executions of a hold).  They only serve to state what is kept.

| file | models |
|---|---|
| `rbac_keys.dfy`, `rbac.dfy`, `rbac_service.dfy` | cache keys and stamps; expansions interleaved with administrators; the services, access lists and checks |
| `refresh.dfy` | refresh-token rotation of one session |
| `token_bucket.dfy` | the rate limiter |
| `night_buckets.dfy`, `inventory.dfy`, `bookings.dfy`, `calendar.dfy`, `refunds.dfy`, `decisions.dfy` | nights, inventory and its conservation, the bookings service, the host's calendar, refunds, fraud decisions and payments |
| `lifecycle.dfy` | which call moves a booking, its verdict and its payment from where to where, and the refusals |
| `inventory_cases.dfy` | concrete runs, from empty tables, in which an inventory property fails |
| `promotion.dfy`, `saga.dfy`, `outbox.dfy` | promotions, their event handlers and consumers, the outbox |
| `notifications.dfy`, `idempotency.dfy`, `vnpay.dfy` | dispatch leases, the registry around holds, the signed text |
| `common.dfy`, `sorting.dfy` | shared datatypes; insertion sort |

## Assumptions

- Hashes and signatures are injective, and new token parts do not repeat.
- Clocks do not run backwards where a theorem says so (`Monotone` and `InTime` for the bucket, `Pass` for
  notification workers); elsewhere every call brings its own, arbitrary, time.
- The server keeps one offset; the zone of the inventory may change its own.
- Outbox rows are created in the order in which their transactions commit, where the order of a
  topic's log is concerned: the publisher reads them by creation time.
- The permission cache is the in-memory one.  With Redis the read-then-set that initialises a
  version has to be atomic for the same result, since a late set could roll a version back.
- Identifiers hold none of the separators `:`, `,` and `|`.
- The limiter's numbers are reals: rounding inside the script is not modelled.
- Handlers of the saga do not fail (the program swallows their errors and marks the event anyway).
- The hash of an idempotent request is computed over the payload of a hold: user, property, dates.

## Where the code and what it is meant for differ

Each of these is a lemma at a real input, with the exact condition under which the code does what
it is for.

- **A hold counts days on the server's clock.**  It compares the rows it finds with the days that a
  walk over the interval visits on the server, not with the nights.  For a zone east of Greenwich
  the two agree exactly when both local midnights lie in the same day of the server's clock
  (`NightBuckets.ServerDaysIff`), so never wrongly at a fixed offset (`Inventory.FixedZoneCounts`).  An
  accepted hold has found every night if and only if the counts agree
  (`Inventory.HoldFindsEveryNightIff`), and a free stay is accepted under the same condition
  (`Inventory.FreeStayAcceptedIff`).  Across London's change of the clocks, with the server at UTC, a
  stay with a missing night is accepted and one with all its rows free is refused
  (`InventoryCases.LondonStay`).
- **A success notice confirms a booking whatever state it is in**, and **a full mock refund closes a
  live booking without returning its nights**.  `Inventory.StepConservesIff` gives, for all eleven
  kinds of step, the condition under which the inventory law survives;
  `InventoryCases.LateNoticeBreaksLaw` and `InventoryCases.FullRefundBreaksLaw` are runs in which it
  does not.  A closed booking stays closed exactly when no such notice reopens it
  (`Inventory.ClosedThroughoutIff`); then each row gets at most one night back for it
  (`Inventory.GivenBackAtMostOnce`), and otherwise it can get two
  (`InventoryCases.ReopenedReturnsTwice`).
- **A fraud rejection looks for rows dated at the server's midnights.**  It returns the right rows of
  a booked stay exactly when the server is on UTC days, the day before the stay is not sought or
  has no row, and the last night is sought or has no row
  (`Inventory.EqualityReturnsTheStayIff`); for a complete stay whose ends have one offset that means
  UTC days for server and inventory both (`Inventory.EqualityNeedsUtc`).  At the shipped default
  zone, with the server at UTC or in that zone, a night is lost
  (`InventoryCases.DefaultRejectionLosesNight`), and no stay there is given back right wherever the
  server stands (`InventoryCases.FixedZoneRejectionWrong`).
- **A payment intent resets a settled payment.**  After a settled payment later notices leave the
  booking alone exactly as long as no intent is accepted for it, or it stands where they would take
  it (`Decisions.UntouchedIff`).  A booking that was paid, cancelled and refunded is confirmed again
  by an intent and its notice (`Decisions.IntentRevivesRefunded`).
- **Days before check-in are counted on the server's calendar.**  They are the days between the
  local dates exactly when the server stands on the same side of both local midnights
  (`Refunds.DaysBeforeIff`), as at any fixed offset; in `Refunds.SpringCancellation` seven days count
  as six and the refund is lost.
- Calendar rows and the stay's local dates agree exactly for zones with offset 0 or more
  (`NightBuckets.RowsMatchLabelsIff`).
- **A calendar request that fails may be half applied.**  Refused for want of a price, it has changed
  no row exactly when the item that lacks it is among the first 150 kept, or the whole chunks
  before it only repeat what the rows say (`Calendar.RefusedUnchangedIff`);
  `Calendar.HalfApplied` is a request of 151 days that leaves 150 of them behind.
- **Redelivering an event** is invisible under every continuation exactly when, at its first
  handling, the booking's promotion was reserved already or could no longer be
  (`Saga.RedeliveryInvisibleIff`, with `Saga.EarlyEventShows` as an instance).
- A notification can be emitted twice although every emitting transaction commits within its
  60-second lease: a *failure* written late clears another worker's lease
  (`Notifications.LateFailureSendsTwice`).  With both kinds of write inside the lease it cannot.
- A deny row takes effect on a check exactly when the resource kind is passed in lower case, since
  rows are stored in lower case but looked up as given (`RbacService.DenyTakesEffectIff`); the
  guard passes the capitalised kind (`src/modules/rbac/guards/permissions.guard.ts:57-68`), and a
  deny for a `"Property"` is never found (`RbacService.DenyForPropertyMissed`).
- Key expiry of the limiter is invisible exactly when the time to live refills the effective
  capacity; a cost above the capacity observes it (`TokenBucket.ExpiryInvisibleIff`,
  `TokenBucket.OversizedCostObservesExpiry`).
- The unique constraint of the idempotency registry does not bind rows without a user: of the calls
  with one scope, at most one proceeds if it names a user, and every one if it does not
  (`Idempotency.ProceedsExactly`).  All callers in the repository name one.
- A promotion's limit survives an administrator's edit exactly when the new limit leaves room for
  the uses made (`Promotion.EditKeepsLimitIff`), and a discount is negative when a negative value
  was stored (`Promotion.DiscountInRange`).

## Model

| member | source | states |
|---|---|---|
| `RbacKeys.StampInjective` | src/modules/rbac/rbac.service.ts:30-42 | Equal stamps come from the same user version and the same list of roles and versions |
| `RbacKeys.PermKeyInjective` | src/modules/rbac/rbac_cache.service.ts:25-26 | Equal cache keys come from the same user, scope and stamp |
| `Rbac.ScheduleKeeps` | src/modules/rbac/rbac.service.ts:44-94 | In every interleaving of expansions, administrator calls and evictions: every entry and every value in flight is what the tables gave its roles at one moment that its versions cover |
| `Rbac.CurrentEntryMatchesTables` | src/modules/rbac/rbac.service.ts:63-92 | Whenever no administrator call sits between its write to the roles and its bump, an entry under the current stamp equals the union of the roles' permissions in the tables |
| `Rbac.QuietUnchanged` | src/modules/rbac/rbac-admin.service.ts:33-74 | A role with no pending bump has not changed since the moment its latest version stands for |
| `Rbac.WrittenPerms` | src/modules/rbac/rbac-admin.service.ts:33-74 | A change gives or takes one permission of one role and nothing else |
| `Rbac.AnswerIsFresh` | src/modules/rbac/rbac.service.ts:44-94 | Every expansion returns what the tables said at one moment, no earlier than what was settled for each role when it began |
| `Rbac.CompletedCallIsSeen` | src/modules/rbac/rbac-admin.service.ts:33-74 | A permission change whose bump came before an expansion began is visible in its answer, whatever else interleaves |
| `Rbac.KeyDeterminesOrigin` | src/modules/rbac/rbac_cache.service.ts:25-26 | A lookup can only hit an entry stored for the same user, scope, user version, roles and versions |
| `Rbac.BumpKeeps` | src/modules/rbac/rbac_cache.service.ts:65-70 | A bump keeps the invariant although other writers of the same role may still be pending |
| `Rbac.BumpForgetsUser` | src/modules/rbac/rbac_cache.service.ts:42-49 | After a user's bump no key of that user is in the cache, for any scope and stamp |
| `RbacService.RbacCacheService.GetVersion` | src/modules/rbac/rbac_cache.service.ts:29-40 | Reads a counter, initialising it to 1, without changing what any counter stands at |
| `RbacService.RbacCacheService.GetRoleVersion` | src/modules/rbac/rbac_cache.service.ts:52-63 | The same for roles |
| `RbacService.RbacCacheService.BumpRole` | src/modules/rbac/rbac_cache.service.ts:65-70 | Counts up by one from what the role stood at |
| `RbacService.RbacCacheService.BumpUser` | src/modules/rbac/rbac_cache.service.ts:42-49 | Counts up and leaves exactly the keys that do not mention the user |
| `RbacService.RbacCacheService.GetRaw` | src/modules/rbac/rbac_cache.service.ts:73-85 | Returns exactly the live entry; an expired one is dropped and nothing else |
| `RbacService.RbacCacheService.SetRaw` | src/modules/rbac/rbac_cache.service.ts:87-90 | Stores one entry with its expiry and touches no other |
| `RbacService.StampIgnoresRowOrder` | src/modules/rbac/rbac.service.ts:37-41 | The stamp does not depend on the order in which role rows were read |
| `RbacService.RbacService.RolesInEffect` | src/modules/rbac/rbac.service.ts:51-61 | The loop finds the roles assigned and in effect now |
| `RbacService.ActiveRolesMembers` | src/modules/rbac/rbac.service.ts:51-60 | A role is active exactly when one of its assignments to the user has begun and not ended |
| `RbacService.RbacService.BuildStamp` | src/modules/rbac/rbac.service.ts:30-42 | The pairs of a stamp hold exactly the given roles, each at its current version |
| `RbacService.RbacService.GetPerms` | src/modules/rbac/rbac_cache.service.ts:93-95 | With no administrator call under way a hit equals the tables |
| `RbacService.RbacService.SetPerms` | src/modules/rbac/rbac_cache.service.ts:96-104 | Filling the cache from the tables keeps every entry sound |
| `RbacService.RbacService.ExpandUserPermissions` | src/modules/rbac/rbac.service.ts:44-94 | Run alone, the cached expansion returns exactly the union of the active roles' permissions, whatever the cache holds |
| `RbacService.RbacService.ApplyAcl` | src/modules/rbac/rbac.service.ts:96-120 | Denied and allowed keys are those of the user's rows for the resource |
| `RbacService.DenyTakesEffectIff` | src/modules/rbac/rbac-admin.service.ts:77-105 | A stored deny is found by a check of the same resource if and only if the kind is given in lower case |
| `RbacService.GrantedAre` | src/modules/rbac/rbac-admin.service.ts:77-105 | After a grant there is exactly one row for user, kind, resource and action, with its effect, and every other row is as before |
| `RbacService.RevokedAre` | src/modules/rbac/rbac-admin.service.ts:107-123 | A revocation drops exactly the rows of user, kind, resource and action |
| `RbacService.DenyForPropertyMissed` | src/modules/rbac/guards/permissions.guard.ts:57-68 | A concrete deny for a "Property", stored and never found, while asked for as "property" it fails the check |
| `RbacService.DenyWins` | src/modules/rbac/rbac.service.ts:174-178 | A denied key fails whatever the user owns |
| `RbacService.KeyParses` | src/modules/rbac/rbac.service.ts:18-28 | The normalised key splits back into its parts, so the second normalisation is harmless |
| `RbacService.RbacService.CheckPermissions` | src/modules/rbac/rbac.service.ts:148-184 | A check passes if and only if every requirement may pass (`MayIff`); the failing ones are returned in order |
| `RbacService.MayIff` | src/modules/rbac/rbac.service.ts:18-28 | A requirement on subject and action passes if and only if no deny row of the resource names it and the user owns that key, the subject's manage key, the action on any subject, or manage on all |
| `RbacService.OwnedIff` | src/modules/rbac/rbac.service.ts:44-146 | A key is owned exactly through a role assigned, begun and not ended, an allow row of the resource, or ownership of the property or user |
| `RbacService.HolderPasses` | src/modules/rbac/rbac.service.ts:18-28 | Whoever holds, by one assignment in effect, a role with one of the four keys passes unless denied |
| `RbacService.OnlyHoldersPass` | src/modules/rbac/rbac.service.ts:18-28 | Without a resource nobody else passes: a role, its assignment and the key can be named |
| `RbacService.HostMay` | src/modules/rbac/rbac.service.ts:122-146 | The host of a property, without any role, passes on it exactly what is not denied there about properties, and nothing about users |
| `RbacService.SelfMay` | src/modules/rbac/rbac.service.ts:122-146 | A user, without any role, passes on itself exactly what is not denied there about users, and nothing about properties |
| `RbacService.DeniedIff` | src/modules/rbac/rbac.service.ts:96-120 | A key is denied exactly by a deny row of this user and this resource |
| `RbacService.FailingInOrder` | src/modules/rbac/rbac.service.ts:174-184 | The failing requirements of a list are those of its parts, in order |
| `RbacService.AddThenCheck` | src/modules/rbac/rbac-admin.service.ts:33-52 | A permission added to a role passes the next check of a holder of the role, whatever the cache holds, unless denied |
| `RbacService.RemoveThenCheck` | src/modules/rbac/rbac-admin.service.ts:54-74 | A permission taken from the only role that gave it in any of the four ways no longer passes |
| `RbacService.RbacAdminService.ChangeRole` | src/modules/rbac/rbac-admin.service.ts:33-74 | Write then bump, as two turns of one administrator |
| `RbacService.RbacAdminService.AddPermissionToRole` | src/modules/rbac/rbac-admin.service.ts:33-52 | The permission exists and belongs to the role afterwards, and the role's version went up by one |
| `RbacService.RbacAdminService.RemovePermissionFromRole` | src/modules/rbac/rbac-admin.service.ts:54-74 | An unknown permission changes nothing at all; a known one leaves the role and bumps it |
| `RbacService.RbacAdminService.AddRoleToUser` | src/modules/rbac/rbac-admin.service.ts:16-24 | The assignment exists afterwards, an existing one is kept, and the user's entries are forgotten |
| `Refresh.RotationKeepsChain` | src/modules/auth/auth.service.ts:207-260 | In every interleaving, with the lock free to misbehave: the session's grants form one chain of distinct parts of length version + 1 ending in the current hash, the previous hash is its predecessor, and a pending entry holds the one successor of its hash |
| `Refresh.WinnersAgree` | src/modules/auth/auth.service.ts:499-645 | Every grant handed out is the successor of the token presented, or on the grace fallback its successor's successor; calls of one kind with equal tokens got equal grants, and without fallback different tokens got different ones |
| `Refresh.FallbackNeedsGrace` | src/modules/auth/auth.service.ts:499-549 | A call that read its token as the current one never gets the second successor |
| `Refresh.SuccessorUnique` | src/modules/auth/auth.service.ts:223-240 | No hash has two successors and no grant succeeds two hashes |
| `Refresh.SwapTurnKeeps` | src/modules/auth/auth.service.ts:223-242 | The compare-and-swap extends the chain by exactly one grant or loses without effect |
| `Refresh.RevokedIsFrozen` | src/modules/auth/auth.service.ts:223-240 | Once revoked, hash, version, expiry and chain never change again in any continuation |
| `Refresh.ReuseIsPunished` | src/modules/auth/auth.service.ts:647-669 | A call that read a token neither current nor in grace is never granted anything, and when it ends the session is revoked and the access version is higher than when it began |
| `Refresh.ReuseDetectedIff` | src/modules/auth/auth.service.ts:499-648 | Reuse is detected for exactly the tokens that are neither the last of the chain nor, within the window, the one before it |
| `Refresh.ReuseEndsSessionIff` | src/modules/auth/auth.service.ts:425-669 | Over every run of a session from its creation, a call whose row read finds the session live and approved, and that is neither limited nor suspicious, is treated as reuse if and only if its token is neither the last one nor, before the grace time after the last rotation has passed and its pair was cleared, the one before it; then it is never granted anything, and when it has ended the session is revoked and the access version raised |
| `Refresh.WindowHolds` | src/modules/auth/auth.service.ts:207-260 | In every run the session expires its lifetime after its last rotation, and the previous token is usable for the grace time after it, both counted from the turn that rotated |
| `Refresh.GrantNeeds` | src/modules/auth/auth.service.ts:425-645 | Over every run, a call is granted something only if at its row read the session was live, approved and within its lifetime since the last rotation, the call neither limited nor suspicious, and the token not stale |
| `Refresh.SoloIsRun` | src/modules/auth/auth.service.ts:425-649 | A refresh without interference is a run of the turns of one call |
| `Refresh.SoloRefuses` | src/modules/auth/auth.service.ts:425-648 | Which refusal a refresh without interference gets, for each of them exactly when, and what it leaves behind |
| `Refresh.SoloRotates` | src/modules/auth/auth.service.ts:207-260 | The last token of a live session gets the new part with the full lifetime; its own hash is kept for the grace time and its answer for a retry |
| `Refresh.SoloRetry` | src/modules/auth/auth.service.ts:499-649 | Sent again, a token gets the same answer within the grace time of its rotation, and loses the session after it |
| `Refresh.AwaitPending` | src/modules/auth/auth.service.ts:104-118 | The polling loop waits 40, 80, 160 and then 320 ms between looks, and returns the first grant seen before the deadline, or saw none at any look |
| `Refresh.PollTimes` | src/modules/auth/auth.service.ts:104-118 | The looks come at 0, 40, 120 and 280 ms and every 320 ms from there |
| `Refresh.AuthService.RotateRefreshTokenCAS` | src/modules/auth/auth.service.ts:207-260 | Rotates and publishes if and only if the hash is the expected one of a live session; otherwise nothing changes |
| `Refresh.AuthService.RevokeSession` | src/modules/auth/auth.service.ts:262-285 | Reports whether it was the one that revoked |
| `Refresh.AuthService.ReusePenalty` | src/modules/auth/auth.service.ts:651-669 | Revokes the session, raises the access version and locks the user |
| `Refresh.AuthService.Refresh` | src/modules/auth/auth.service.ts:425-649 | A refresh run alone has the effect and the answer of the model, which `SoloRefuses`, `SoloRotates` and `SoloRetry` describe, and is a run of the machine's turns |
| `Refresh.NewSessionOk` | src/modules/auth/auth.service.ts:161-201 | A new session starts the chain |
| `Refresh.NewSessionRotates` | src/modules/auth/auth.service.ts:161-201 | A new session is refreshed with its first token until its lifetime has passed |
| `TokenBucket.RunBound` | src/common/token-bucket.service.ts:47-76 | Every sub-run of every run grants at most the capacity plus the refill of its span |
| `TokenBucket.GrantedWithinRefill` | src/common/token-bucket.service.ts:62-74 | A run grants at most what it found plus the refill of its span |
| `TokenBucket.TokensStayNonNegative` | src/common/token-bucket.service.ts:62-79 | The stored amount never becomes negative, whatever the clock does |
| `TokenBucket.RefusedCallIsInvisible` | src/common/token-bucket.service.ts:70-79 | Erasing a refused call changes no later answer and no later state |
| `TokenBucket.RefusalsErase` | src/common/token-bucket.service.ts:70-79 | Erasing all refused calls leaves exactly the granted answers, unchanged |
| `TokenBucket.RetryAfterIsExact` | src/common/token-bucket.service.ts:88-93 | With no other traffic the refused call passes after a whole number of seconds if and only if that is at least the advertised one |
| `TokenBucket.AnswerNumbers` | src/common/token-bucket.service.ts:86-97 | The remaining count and the reset second are the nearest whole numbers to what they stand for |
| `TokenBucket.ExpiryInvisibleIff` | src/common/token-bucket.service.ts:81-84 | A time to live cannot be noticed if and only if it refills the whole effective capacity |
| `TokenBucket.ExpiryUnobservable` | src/common/token-bucket.service.ts:56-84 | Over every run an expiring bucket answers like one kept forever, when the time to live covers the fill |
| `TokenBucket.DefaultExpiryUnobservable` | src/common/token-bucket.service.ts:127-133 | The default time to live is such a one for every cost up to the capacity |
| `TokenBucket.ExpiringRunBound` | src/common/token-bucket.service.ts:47-92 | With the default expiry of keys, the answers to every sub-run of calls costing at most the capacity let through at most the capacity plus the refill of its span |
| `TokenBucket.OversizedCostObservesExpiry` | src/common/token-bucket.service.ts:47-48 | A concrete run with a cost above the capacity that notices the default expiry |
| `TokenBucket.RefillAndConsume` | src/common/token-bucket.service.ts:47-97 | The script's statements compute the bucket and the answer of the model |
| `TokenBucket.TokenBucketService.EvalScript` | src/common/token-bucket.service.ts:40-97 | One key is written with its expiry and no other is touched |
| `TokenBucket.TokenBucketService.Consume` | src/common/token-bucket.service.ts:104-151 | Passes everything when disabled, and otherwise decides and stores as the model of one request |
| `TokenBucket.ConsumeBound` | src/common/token-bucket.service.ts:104-151 | In every stretch of every run of requests on any keys, what is let through on one key, times the refill interval, is at most the capacity times the interval plus the refill tokens times the milliseconds of the stretch, expiring keys included |
| `TokenBucket.RetryAfterIs` | src/common/token-bucket.service.ts:88-93 | The advertised number is the least number of seconds in which the configured refill comes to what was missing |
| `TokenBucket.ConsumeRetryIff` | src/common/token-bucket.service.ts:88-93 | With no other traffic on the key a refused request passes after a whole number of seconds if and only if that is at least the advertised one, expiring keys included |
| `TokenBucket.DefaultTtlIs` | src/common/token-bucket.service.ts:127-133 | The default time to live is twice the time that refills the capacity, in whole seconds, one at least |
| `TokenBucket.GivenTtlIs` | src/common/token-bucket.service.ts:129-133 | A given time to live counts in whole seconds, one at least |
| `TokenBucket.BackwardRefillsNothing` | src/common/token-bucket.service.ts:60-67 | Time that runs backwards refills nothing |
| `TokenBucket.RunOnKey` | src/common/token-bucket.service.ts:104-151 | Seen from one key, a run of requests on any keys is a run of its calls on its own bucket |
| `NightBuckets.WindowIsTheStay` | src/modules/booking/bookings.service.ts:76-81 | The window of a stay holds exactly the calendar rows labelled with its local dates, one for each night, even across an offset change |
| `NightBuckets.RowsMatchLabelsIff` | src/modules/booking/bookings.service.ts:36-44 | For a fixed offset, rows and local dates agree if and only if the offset is not negative |
| `Inventory.FixedZoneCounts` | src/modules/booking/bookings.service.ts:116-126 | At a fixed offset every stay is counted right, wherever the server stands |
| `NightBuckets.BucketStartsTheDay` | src/modules/booking/bookings.service.ts:36-44 | An instant goes to the start of its local day, and that start to itself |
| `NightBuckets.ServerDaysIff` | src/modules/booking/bookings.service.ts:116-126 | The server counts as many days as the stay has nights if and only if both local midnights lie in the same day of its clock |
| `NightBuckets.EachDayOfInterval` | src/modules/booking/bookings.service.ts:116-119 | The days counted are exactly the local midnights of the server from the day of the earlier end to the later end, each once |
| `Inventory.StepConservesIff` | src/modules/booking/bookings.service.ts:105-252 | From a state that keeps the law, each of the eleven kinds of transaction keeps it if and only if it conforms |
| `Inventory.RunConserves` | src/modules/booking/bookings.service.ts:105-252 | Over every conforming run, each day's remaining count is not negative and together with the live bookings covering the day makes up the stock set by the calendar |
| `Inventory.MoveConservesIff` | src/modules/booking/bookings.service.ts:329-355 | Writing a booking and shifting rows keeps the law if and only if every row is shifted by what the booking no longer takes |
| `Inventory.OwnStepConserves` | src/modules/booking/bookings.service.ts:282-378 | Review decisions, expiry and cancellations keep the law unconditionally |
| `Inventory.HoldConserves` | src/modules/booking/bookings.service.ts:105-211 | A hold keeps the law: it takes one night from rows that have one |
| `Inventory.HoldFindsEveryNightIff` | src/modules/booking/bookings.service.ts:105-126 | An accepted hold has found every night of the stay if and only if the server counts as many days as there are nights |
| `Inventory.FreeStayAcceptedIff` | src/modules/booking/bookings.service.ts:105-140 | A stay of one to thirty nights, all of them there and free, is accepted if and only if the server stands in the same day at both ends |
| `Inventory.UpsertConserves` | src/modules/property/property.service.ts:353-383 | A calendar upsert resets the stock of its row and keeps the law |
| `Inventory.FraudRejectConservesIff` | src/modules/fraud/fraud.service.ts:159-174 | A rejection keeps the law if and only if the rows it hits by equality are those of the stay |
| `Inventory.EqualityReturnsTheStayIff` | src/modules/fraud/fraud.service.ts:159-170 | For every booked stay, a rejection returns exactly the rows of the stay if and only if the server is on UTC days, the day before is not sought or has no row, and the last night is sought or has no row |
| `Inventory.EqualityNeedsUtc` | src/modules/fraud/fraud.service.ts:159-170 | For a complete stay with one offset at both ends, that holds exactly when server and inventory both have their midnights at UTC midnight |
| `Inventory.PaymentConservesIff` | src/modules/payments/payment.service.ts:179-222 | A success notice keeps the law if and only if it finds its booking live (or its payment settled) |
| `Inventory.RefundConservesIff` | src/modules/payments/payment.service.ts:466-488 | A full mock refund keeps the law if and only if the booking was closed already |
| `Inventory.ConformsOnBooked` | src/modules/payments/payment.service.ts:196-222 | On tables built by holds, that condition is simply that the booking is live |
| `Inventory.RefundConformsOnBooked` | src/modules/payments/payment.service.ts:466-488 | And for the full mock refund, that the booking is closed |
| `Inventory.RowsExact` | src/modules/booking/bookings.service.ts:107-115 | The range query finds exactly the property's rows in the range, each once, in date order |
| `Inventory.WindowIsWindowSet` | src/modules/booking/bookings.service.ts:107-115 | Holding and every release select the same rows: those the stay covers |
| `Inventory.ReleaseReturnsEveryNight` | src/modules/booking/bookings.service.ts:329-350 | After any run, every booking has a night and a row; if the server counts its days as it has nights, a release finds one row for each night and misses none |
| `Inventory.RaiseCloses` | src/modules/booking/bookings.service.ts:329-350 | A step on a booking raises a row by one night at most, and only when it takes the booking from live to closed |
| `Inventory.ReleaseRaises` | src/modules/booking/bookings.service.ts:329-350 | Each of the four releases gives one night to exactly the rows the closed booking covers |
| `Inventory.StaysClosedIff` | src/modules/payments/payment.service.ts:179-222 | A closed booking stays closed in a step if and only if the step is not a success notice for an unsettled payment of it |
| `Inventory.ClosedThroughoutIff` | src/modules/payments/payment.service.ts:179-222 | Over every run, CANCELLED and REFUNDED are final if and only if no such notice comes |
| `Inventory.GivenBackAtMostOnce` | src/modules/booking/bookings.service.ts:322-378 | Over every run in which no notice reopens the booking, each row gets at most one night back for it, and none once it is closed |
| `Inventory.ClosesByState` | src/modules/booking/bookings.service.ts:558-635 | A booking closes as REFUNDED exactly when it was paid or confirmed |
| `Inventory.HoldHasDeadline` | src/modules/booking/bookings.service.ts:105-211 | A held booking has a deadline exactly when it is live, is cancelled exactly when high risk is declined, has one to thirty nights, and found one row for each day the server counts |
| `Inventory.HoldCharges` | src/modules/booking/bookings.service.ts:128 | A hold charges the price of each day found, added up: at one price that many times the price, and a dearer day raises it by the difference |
| `Inventory.PriceAdds` | src/modules/booking/bookings.service.ts:128 | The price of two lists of days is the sum of their prices, and of one day its price |
| `Inventory.HoldRecords` | src/modules/booking/bookings.service.ts:130-252 | The stay at its local midnights; cancelled, in review or held by the risk found, each with its deadline or none; and no other booking, verdict or payment changes |
| `Inventory.HoldTakes` | src/modules/booking/bookings.service.ts:105-190 | Every row found was open and had a night left, and a live booking takes one from each of them and from no other |
| `Inventory.HoldRefusesDates` | src/modules/booking/bookings.service.ts:61-85 | A stay is refused for its range exactly when it has no night and for its length exactly above thirty nights |
| `Lifecycle.BecomesConfirmedIff` | src/modules/booking/bookings.service.ts:282-320 | A booking is confirmed exactly by a reviewer's approval of a review or by a success notice that finds its payment unsettled |
| `Lifecycle.BecomesPaidIff` | src/modules/payments/payment.service.ts:179-222 | It is marked as paid exactly by such a notice when notices do not confirm |
| `Lifecycle.BecomesHeldIff` | src/modules/fraud/fraud.service.ts:102-193 | It goes back to a hold exactly by the approval of its pending fraud case; nothing sends a booking into review |
| `Lifecycle.BecomesCancelledIff` | src/modules/booking/bookings.service.ts:322-555 | It is cancelled exactly by a decline, a rejection, its own guest before payment, or the expiry job after its deadline |
| `Lifecycle.BecomesRefundedIff` | src/modules/booking/bookings.service.ts:558-635 | It is refunded exactly by its own guest once paid or confirmed, or by a full mock refund of a payment that succeeded |
| `Lifecycle.RestStays` | src/modules/booking/bookings.service.ts:282-635 | Nothing but status and deadline of a booking ever changes, and the deadline only vanishes, with approval or payment |
| `Lifecycle.VerdictMovesIff` | src/modules/fraud/fraud.service.ts:102-193 | Who brings a verdict where |
| `Lifecycle.PaymentMovesIff` | src/modules/booking/bookings.service.ts:558-635 | Which of the inventory's steps moves a payment where |
| `Lifecycle.RunDeadlines` | src/modules/booking/bookings.service.ts:448-506 | In every run holds and reviews have a deadline and paid and confirmed bookings have none |
| `Lifecycle.ReviewRefuses` | src/modules/booking/bookings.service.ts:282-378 | Which refusal a reviewer gets |
| `Lifecycle.CancelRefuses` | src/modules/booking/bookings.service.ts:509-635 | Which refusal a guest gets who cancels |
| `Lifecycle.RefundRefuses` | src/modules/payments/payment.service.ts:421-496 | Which refusal the mock refund and the fraud decision give |
| `Lifecycle.UpsertMakes` | src/modules/property/property.service.ts:278-388 | What one calendar item makes of its row, and when it is refused |
| `InventoryCases.LondonStay` | src/modules/booking/bookings.service.ts:105-126 | A concrete stay across a change of the clocks: accepted with a night missing, refused with all its rows free |
| `InventoryCases.LateNoticeBreaksLaw` | src/modules/payments/payment.service.ts:196-222 | A concrete run: held, cancelled, then paid; the booking is confirmed and its night still free |
| `InventoryCases.ReopenedReturnsTwice` | src/modules/payments/payment.service.ts:196-222 | The same run, cancelled once more, gives one night back twice |
| `InventoryCases.FullRefundBreaksLaw` | src/modules/payments/payment.service.ts:466-488 | A concrete run: held, paid, fully refunded by the mock; the booking is closed and its night lost |
| `InventoryCases.DefaultRejectionLosesNight` | src/modules/fraud/fraud.service.ts:143-170 | A concrete run at the default zone, server at UTC or there: a rejected stay loses its night |
| `InventoryCases.FixedZoneRejectionWrong` | src/modules/fraud/fraud.service.ts:159-170 | At any fixed offset inside a day no rejected stay gets its rows back right |
| `InventoryCases.PaidThenCancelled` | src/modules/booking/bookings.service.ts:558-635 | A concrete run: held, paid, cancelled and refunded leaves the night free again |
| `Bookings.BookingsService.SelectRange` | src/modules/booking/bookings.service.ts:107-115 | The query returns the rows of the window in date order |
| `Bookings.BookingsService.UpdateEach` | src/modules/booking/bookings.service.ts:340-350 | One update for each row shifts exactly these rows |
| `Bookings.BookingsService.HoldInTx` | src/modules/booking/bookings.service.ts:105-252 | The hold's transaction, row loops included, has the effect and the errors of the model's |
| `Bookings.BookingsService.Hold` | src/modules/booking/bookings.service.ts:61-272 | With its checks of dates and nights before it |
| `Bookings.BookingsService.ReviewApprove` | src/modules/booking/bookings.service.ts:282-320 | A reviewed booking is confirmed, errors as in the model |
| `Bookings.BookingsService.ReviewDecline` | src/modules/booking/bookings.service.ts:322-378 | A declined booking is cancelled and its nights returned |
| `Bookings.BookingsService.CancelHold` | src/modules/booking/bookings.service.ts:509-555 | Only the guest's own open booking is cancelled, and its nights returned |
| `Bookings.BookingsService.CancelPaidOrConfirmed` | src/modules/booking/bookings.service.ts:558-635 | Only the guest's own paid or confirmed booking is refunded, with payment and nights |
| `Bookings.ExpireSetConserves` | src/modules/booking/bookings.service.ts:448-506 | Expiring any set of overdue bookings keeps the law |
| `Bookings.BookingsService.ExpireHolds` | src/modules/booking/bookings.service.ts:448-506 | Run alone it ends, returns the number overdue at the start, leaves none, and each day gains the number of expired bookings covering it |
| `Bookings.BookingsService.ExpireBatch` | src/modules/booking/bookings.service.ts:462-503 | Each batch settles as many overdue bookings as it holds |
| `Calendar.PropertyService.Dedupe` | src/modules/property/property.service.ts:329-334 | What is kept is one item for each day sent, the last one, in the order in which the days first came |
| `Calendar.PropertyService.UpsertChunk` | src/modules/property/property.service.ts:346-385 | A chunk is applied as a whole, and only if every new day of it has a price |
| `Calendar.PropertyService.UpsertAvailability` | src/modules/property/property.service.ts:278-388 | A malformed request changes nothing; a request succeeds if and only if every new day has a price; otherwise exactly the whole chunks before the first item that lacks one are applied |
| `Calendar.RequestRefuses` | src/modules/property/property.service.ts:278-327 | Which requests are refused for their form |
| `Calendar.LastItemDecides` | src/modules/property/property.service.ts:329-385 | After a success the last item sent for a day decides its row, and every other row is as before |
| `Calendar.RequestSettles` | src/modules/property/property.service.ts:329-385 | After any request each row is what the last applied item of its day makes of it, or as before |
| `Calendar.RefusedUnchangedIff` | src/modules/property/property.service.ts:346-385 | A request that lacks a price changed no row if and only if the item lacking it is among the first 150 kept, or all items before its chunk only repeat the rows |
| `Calendar.HalfApplied` | src/modules/property/property.service.ts:346-385 | A concrete request of 151 days that is refused and leaves 150 of them created |
| `Calendar.RequestConserves` | src/modules/property/property.service.ts:278-388 | Any request, successful or not, keeps the inventory law and every booking |
| `Refunds.StrictestRuleApplies` | src/modules/booking/bookings.service.ts:46-49 | Sorting and taking the first rule met picks the rule with the most days among those met, the first listed among equals; none met refunds nothing |
| `Refunds.RefundInRange` | src/modules/booking/bookings.service.ts:441-444 | With rules that are percentages a refund is neither negative nor above the price |
| `Refunds.EarlierRefundsNoLess` | src/modules/booking/bookings.service.ts:419-445 | When stricter rules refund no less, cancelling earlier never refunds less |
| `Refunds.DaysBeforeIff` | src/modules/booking/bookings.service.ts:432-437 | The days counted are those between the local dates if and only if the server stands on the same side of both local midnights |
| `Refunds.ServerDoesNotMatter` | src/modules/booking/bookings.service.ts:432-437 | In a zone that never changes its offset they are, wherever the server stands |
| `Refunds.SpringCancellation` | src/modules/booking/bookings.service.ts:432-437 | A concrete cancellation seven local days before that is counted as six and refunded nothing |
| `Refunds.RefundPercentByRules` | src/modules/booking/bookings.service.ts:46-49 | The loop finds the first rule met |
| `Refunds.PreviewRefund` | src/modules/booking/bookings.service.ts:419-445 | The percentage of the strictest rule met, and the amount rounded down to whole units |
| `Decisions.FraudService.ReturnByEquality` | src/modules/fraud/fraud.service.ts:161-170 | The walk over server midnights gives one night back to exactly the rows dated at one of them |
| `Decisions.FraudService.Decide` | src/modules/fraud/fraud.service.ts:102-193 | Only a pending case on a booking in review is decided, approved back to HOLD or rejected |
| `Decisions.SettledBookingUntouched` | src/modules/payments/payment.service.ts:148-292 | Over overlapping deliveries in any order and repetition, and intents: once a payment is settled and not reset, no notice touches its booking again, and a refunded payment stays refunded |
| `Decisions.PaymentMovesIff` | src/modules/payments/payment.service.ts:148-292 | Over every turn of overlapping deliveries and intents: a payment succeeds exactly on a success notice that finds it unsettled, fails exactly on a failure notice that finds it unpaid, is refunded exactly on a refund notice, and is unpaid again exactly by an accepted intent |
| `Decisions.BookingMovesIff` | src/modules/payments/payment.service.ts:179-222 | And a booking is touched exactly by such a success notice, which takes it to its target |
| `Decisions.FailureThenSuccess` | src/modules/payments/payment.service.ts:179-240 | After a failed charge nothing is settled and no booking changed, and a later success settles the payment and confirms the booking |
| `Decisions.IntentRefuses` | src/modules/payments/payment.service.ts:47-118 | Which refusal an intent gets |
| `Decisions.NoticeRefuses` | src/modules/payments/payment.service.ts:160-262 | When a notice is refused |
| `Decisions.AppliedIsMarkedIff` | src/modules/payments/payment.service.ts:155-289 | An event is marked exactly by the turn that applies it |
| `Decisions.MarkedPassesNoMore` | src/modules/payments/payment.service.ts:155-160 | No delivery of a marked event passes the lookup any more |
| `Decisions.UntouchedIff` | src/modules/payments/payment.service.ts:100-118 | Of all turns on a booking with a settled payment, exactly an accepted intent lets later notices touch it, unless it stands where they would take it |
| `Decisions.IntentRevivesRefunded` | src/modules/payments/payment.service.ts:100-118 | A concrete run: paid, cancelled, refunded, then confirmed again by an intent and its notice, its night still free |
| `Decisions.RedeliveredNoticeInvisible` | src/modules/payments/payment.service.ts:155-289 | An applied notice whose second delivery passed the duplicate lookup too, or comes later, leaves everything as without it, whatever lies between, as long as no intent reset the payment there |
| `Decisions.PaymentService.CreateIntent` | src/modules/payments/payment.service.ts:47-146 | An intent resets the one payment of a booking to unpaid whatever its status, with the refusals |
| `Decisions.PaymentService.HandleWebhook` | src/modules/payments/payment.service.ts:148-292 | One delivery has the model's effect, and is marked exactly when it is applied |
| `Decisions.PaymentService.Refund` | src/modules/payments/payment.service.ts:421-496 | The mock refund, with its refusals |
| `Promotion.RunAccounted` | src/modules/promotion/promotion.service.ts:242-369 | Over every run, a code's counter is the number of applied redemptions plus those released without taking the use back, never negative and never above its limit |
| `Promotion.DecrementNeverBlocked` | src/modules/promotion/promotion.service.ts:336-345 | A due decrement always finds the counter above zero |
| `Promotion.EditKeepsLimitIff` | src/modules/promotion/promotion.service.ts:51-83 | An edit keeps the account if and only if the new limit leaves room for the uses made |
| `Promotion.ReleasedIsFinal` | src/modules/promotion/promotion.service.ts:313-369 | No step changes a released redemption |
| `Promotion.DiscountInRange` | src/modules/promotion/promotion.service.ts:122-128 | A discount never exceeds the price and is not negative for a value of at least zero |
| `Promotion.DiscountIs` | src/modules/promotion/promotion.service.ts:122-128 | A percentage takes that share of the price, rounded down, a fixed value takes the value, neither more than the price |
| `Promotion.PreviewAcceptsIff` | src/modules/promotion/promotion.service.ts:100-130 | A code is accepted exactly when it is active, within its dates, and stay and price reach its minimums |
| `Promotion.PreviewRefuses` | src/modules/promotion/promotion.service.ts:100-130 | The refusal is that of a check that failed |
| `Promotion.ApplyRefuses` | src/modules/promotion/promotion.service.ts:140-235 | Only the guest, in HOLD or REVIEW and without a promotion, may apply a code, and only that booking changes |
| `Promotion.ConfirmTakesUseIff` | src/modules/promotion/promotion.service.ts:242-306 | Paying applies a reservation and takes one use if there is room, releases it otherwise, and does nothing without one |
| `Promotion.ReleaseGivesUseBackIff` | src/modules/promotion/promotion.service.ts:313-369 | A release gives a use back exactly when one was taken and it is asked for or the booking was refunded |
| `Promotion.ReleaseClears` | src/modules/promotion/promotion.service.ts:313-369 | It releases the redemption, clears the booking and touches no other |
| `Promotion.PreviewAgreesWithApply` | src/modules/promotion/promotion.service.ts:100-217 | For a guest who may apply a code, applying succeeds or fails exactly as the preview does, and booking and redemption carry the previewed discount |
| `Promotion.PromotionService.ShowPreview` | src/modules/promotion/promotion.service.ts:100-130 | The preview, with its own checks, gives the quote or the refusal that applying gives |
| `Promotion.PromotionService.PreviewThenApply` | src/modules/promotion/promotion.service.ts:100-235 | Preview and apply, run one after the other: the quote shown is the one reserved, and a refusal shown is the one met and changes nothing |
| `Promotion.RefundUndoesUse` | src/modules/promotion/promotion.service.ts:242-369 | Reserving, paying and refunding leaves every counter where it was |
| `Promotion.PromotionService.ApplyOnHold` | src/modules/promotion/promotion.service.ts:140-235 | The service's checks and writes are the model's transaction |
| `Promotion.PromotionService.ConfirmOnPaid` | src/modules/promotion/promotion.service.ts:242-306 | Likewise for confirming, exhaustion included |
| `Promotion.PromotionService.ReleaseOnCancelOrExpire` | src/modules/promotion/promotion.service.ts:313-369 | Likewise for releasing |
| `Saga.RedeliveryInvisible` | src/modules/saga/saga.coordinator.ts:71-128 | Over every history in which events concern bookings whose promotion is decided, re-delivering handled events anywhere later leaves the same promotions, redemptions and discounts |
| `Saga.RedeliveryInvisibleIff` | src/modules/saga/saga.coordinator.ts:71-128 | For an event with an effect: handling it again is invisible under every continuation if and only if the promotion was decided at its first handling |
| `Saga.HistoryNamed` | src/modules/promotion/promotion.service.ts:190-235 | In every history a booking that names a promotion has a redemption of it |
| `Saga.EarlyEventShows` | src/modules/saga/saga.coordinator.ts:103-108 | A concrete history, with an event before its reservation, in which redelivery shows |
| `Saga.EffectivelyOnce` | src/modules/events/events-consumer.service.ts:244-264 | With overlapping consumers and crashes between handling and marking, the tables are those of handling each event once |
| `Saga.MarkedWasHandled` | src/modules/events/events-consumer.service.ts:247-264 | An event id is marked only after it was handled |
| `Saga.MarkedIff` | src/modules/events/events-consumer.service.ts:247-265 | A mark is written exactly by the turn that ends a handled job |
| `Saga.MarkedNotHandledAgain` | src/modules/events/events-consumer.service.ts:231-246 | A marked message that no consumer holds is never handled again |
| `Saga.EventMovesRedemption` | src/modules/saga/saga.coordinator.ts:71-128 | What each topic does to a booking's redemption |
| `Saga.EventMovesCounter` | src/modules/saga/saga.coordinator.ts:71-128 | What each topic does to the counter of its code: a payment takes a use, a refund gives one back, nothing else moves it |
| `Saga.SagaCoordinator.Handle` | src/modules/saga/saga.coordinator.ts:28-69 | The dispatch drives the promotion service as the model's effect says |
| `Saga.EventsConsumer.ProcessMessage` | src/modules/events/events-consumer.service.ts:231-265 | One message is the turns of one consumer job |
| `Outbox.NoRowIsLost` | src/modules/outbox/outbox.publisher.ts:93-136 | In every run of any number of publishers with sends failing at any point, every emitted row is in the outbox or in its topic's log, and logs hold emitted rows only |
| `Outbox.GroupingPermutes` | src/modules/outbox/outbox.publisher.ts:100-105 | Grouping by topic loses, invents and duplicates nothing |
| `Outbox.GroupByTopic` | src/modules/outbox/outbox.publisher.ts:100-105 | Each topic of the batch gets one group, with its rows in batch order |
| `Outbox.FirstOccurrencesInOrder` | src/modules/outbox/outbox.publisher.ts:93-136 | With one publisher, the first occurrences in each topic's log are the topic's rows in outbox order despite retries, and cover every row that left the outbox |
| `Outbox.ResendExtends` | src/modules/outbox/outbox.publisher.ts:107-125 | Sending a slice again extends the first occurrences by exactly what is new |
| `Outbox.OutboxPublisher.RunTick` | src/modules/outbox/outbox.publisher.ts:63-136 | A tick is a run of the publisher's turns: either each topic gained exactly its rows of the batch and the batch is gone, or no row left the outbox |
| `Notifications.EmittedOnce` | src/modules/notifications/notifications.service.ts:165-229 | Over all interleavings in which commits and failure writes keep to their 60-second leases, each notification is emitted at most once and exactly those marked SENT were |
| `Notifications.OncePerKey` | src/modules/notifications/notifications.service.ts:100-116 | With a dedupe key, one user gets at most one emission on a channel |
| `Notifications.CommitKeepsOnceIff` | src/modules/notifications/notifications.service.ts:196-214 | A commit keeps the promise if and only if its row is still pending |
| `Notifications.LateCommitSendsTwice` | src/modules/notifications/notifications.service.ts:182-214 | A concrete run: a commit after its lease emits twice |
| `Notifications.LateFailureSendsTwice` | src/modules/notifications/notifications.service.ts:215-226 | A concrete run: a late failure write makes timely commits emit twice |
| `Notifications.NotificationsService.FindDue` | src/modules/notifications/notifications.service.ts:167-176 | The first due rows in creation order |
| `Notifications.FoundAre` | src/modules/notifications/notifications.service.ts:167-176 | What is found are the pending rows, not in-app, dated now or before, the first ones up to the limit |
| `Notifications.FoundInOrder` | src/modules/notifications/notifications.service.ts:167-176 | In the order of creation |
| `Notifications.CreateIs` | src/modules/notifications/notifications.service.ts:70-160 | What a creation adds, marks and emits, and when it is a duplicate |
| `Notifications.TakenAgainIff` | src/modules/notifications/notifications.service.ts:181-226 | A claim lasts sixty seconds; a failed row is free at once and found again after two minutes |
| `Notifications.NotificationsService.DispatchOne` | src/modules/notifications/notifications.service.ts:181-227 | One row is emitted and marked, or counted and delayed, or left to its claimer |
| `Notifications.NotificationsService.DispatchDueSafely` | src/modules/notifications/notifications.service.ts:165-229 | One pass handles exactly the due rows that can be claimed, in order, and returns the number emitted |
| `Idempotency.HoldRunsOnce` | src/modules/idempotency/idempotency.service.ts:49-80 | While a scope's row is not swept, in every interleaving its requests run the hold at most once and every answer is that run's, for that run's payload |
| `Idempotency.RetriesActOnce` | src/modules/booking/bookings.service.ts:93-272 | From any tables and an empty registry, however often requests with one key are sent and interleave, the tables change as by one hold or not at all |
| `Idempotency.ProceedsExactly` | src/modules/idempotency/idempotency.service.ts:49-80 | Over every run of the registry, how many calls of one scope are let through: with a user, while no row of the scope is purged, none if a row was there and exactly one otherwise; without a user all of them |
| `Idempotency.IdempotencyService.BeginOrReuse` | src/modules/idempotency/idempotency.service.ts:31-80 | Short keys are refused, a new row lets the caller proceed, an existing one decides by payload and status |
| `Idempotency.IdempotencyService.CompleteOK` | src/modules/idempotency/idempotency.service.ts:82-88 | Stores the answer in exactly that row, if it is still there |
| `Idempotency.IdempotencyService.CompleteFailed` | src/modules/idempotency/idempotency.service.ts:90-95 | Marks exactly that row failed, if it is still there |
| `Idempotency.BeginTwice` | src/modules/idempotency/idempotency.service.ts:31-95 | A key used again waits, hears the first answer, or hears that it failed, and with another payload is refused |
| `Idempotency.AdmitIff` | src/modules/booking/bookings.service.ts:61-100 | Which holds are admitted to the registry, and what is hashed of them |
| `Idempotency.AdmittedRunsHold` | src/modules/booking/bookings.service.ts:93-252 | What runs for an admitted request is the hold of the bookings service for the same input |
| `Idempotency.AnswerIsBooking` | src/modules/booking/bookings.service.ts:255-272 | The answer stored is what the tables say about the booking |
| `Vnpay.Utf8RoundTrip` | src/modules/payments/providers/vnpay.adapter.ts:20-21 | Every text without lone surrogates comes back from its octets |
| `Vnpay.ReplacementIsSpaces` | src/modules/payments/providers/vnpay.adapter.ts:21-21 | The textual replacement of %20 touches encoded spaces only |
| `Vnpay.FormRoundTrip` | src/modules/payments/providers/vnpay.adapter.ts:20-21 | Percent-encoding, as in section 2.1 of RFC 3986, with or without plus signs, can be undone |
| `Vnpay.SignTextIgnoresOrder` | src/modules/payments/providers/vnpay.adapter.ts:15-25 | The signed text depends on the dictionary, not on the order of its keys |
| `Vnpay.SignTextOfTwo` | src/modules/payments/providers/vnpay.adapter.ts:15-25 | The smaller key first, each as key=value, joined by an ampersand |
| `Vnpay.UnitLeIff` | src/modules/payments/providers/vnpay.adapter.ts:16-16 | Keys are compared at the first unit in which they differ |
| `Vnpay.EscapeIs` | src/modules/payments/providers/vnpay.adapter.ts:20-21 | Which octets stand for themselves, and how the others are written |
| `Vnpay.EncodableIffPaired` | src/modules/payments/providers/vnpay.adapter.ts:20-21 | Exactly the texts without a lone surrogate can be encoded |
| `Vnpay.DecodeRecovers` | src/modules/payments/providers/vnpay.adapter.ts:15-25 | A decoder recovers every key and value from the signed text |
| `Vnpay.SignTextInjective` | src/modules/payments/providers/vnpay.adapter.ts:15-25 | Different dictionaries are signed over different texts |
| `Vnpay.AcceptedIffSigned` | src/modules/payments/providers/vnpay.adapter.ts:117-128 | A notification carrying the signature made for a dictionary is accepted if and only if its other parameters are that dictionary |
| `Vnpay.VnpayAdapter.ToStringDict` | src/modules/payments/providers/vnpay.adapter.ts:5-13 | Every key with its value, the first one of a list |
| `Vnpay.StringDictIs` | src/modules/payments/providers/vnpay.adapter.ts:5-13 | A parameter reads as its text, the first text of a list, or nothing |
| `Vnpay.VnpayAdapter.SortAndEncode` | src/modules/payments/providers/vnpay.adapter.ts:15-25 | Throws exactly when some key or value cannot be encoded, and otherwise gives the text of the dictionary |
| `Vnpay.VnpayAdapter.Filter` | src/modules/payments/providers/vnpay.adapter.ts:117-121 | Everything but the two signature parameters |
| `Vnpay.FilteredAre` | src/modules/payments/providers/vnpay.adapter.ts:117-121 | Exactly the parameters of the two names are left out |
| `Vnpay.VnpayAdapter.VerifyIpn` | src/modules/payments/providers/vnpay.adapter.ts:111-128 | Accepts exactly the notifications whose hash signs their other parameters |
| `Vnpay.EitherCaseAccepted` | src/modules/payments/providers/vnpay.adapter.ts:122-128 | The hash may come in upper or lower case |

## Left out

- Lower-casing of subjects, actions and hashes is that of ASCII letters.
- Controllers, guards, DTO validation, interceptors, logging and the web application: framework wiring.
- Kafka, Redis, MinIO, mail, PDF, image and search clients: the broker is a log for each topic, Redis a map that may lose entries.
- Bcrypt, JWT and the access tokens issued with a refresh: only the refresh tokens are followed.
- The lifetime of the user lock and of the single-flight lock: the first may vanish at any turn, the second may do anything.
- Role assignment rows inside the interleaved cache machine: an expansion starts with any list of role ids; the assignments and their time windows are in `RbacService`.
- Redis as the permission cache: see the assumptions.
- `removeRoleFromUser` and `revokeAcl`: the same bump as adding, after deleting a row.
- Offset commits of the event consumer and broker partitions: messages come any number of times in any order.
- The `booking.paid` row that the `payment.succeeded` handler emits on each handling, and invoice mails: not idempotent, and outside the promotion tables.
- A promotion code is found by its code; the program's separate promotion ids are not modelled.
- `Refresh.AuthService.Refresh`: the rate limiter's answer and the device comparison are parameters, and the session's last-use time is not kept.
- `Notifications.NotificationsService.DispatchDueSafely`: one clock reading for a whole pass; interleaved passes are covered by the machine.
- `Calendar.PropertyService.UpsertAvailability`: run alone, so that no other request comes between a chunk's look at existing days and its transaction; ownership checks are left out.
- `Decisions.PaymentService.CreateIntent`: the idempotency gate before it (modelled in `Idempotency`) and the order made with the provider are left out.
- A server whose own offset changes: see the assumptions.
- `Refresh.AwaitPending`: looking at the pending map takes no time of its own.
- `Refunds.PreviewRefund`: rules with fractional days or percentages.
- `Vnpay.VnpayAdapter.ToStringDict`: a parameter named `__proto__`, which JavaScript objects drop.
- The refund rows written by a cancellation, and the outbox rows written with each booking step.
- Cancelling or retrying notifications, in-app lists and preferences: the promise about emission is for runs without them.
- Fraud rules and their scores, content moderation, messaging, reviews, MFA, device approval beyond its flag.
- Development endpoints and seeding, which bypass the state machines.
