# Verified model of the vendor-risk platform's core protocols

Dafny models of the parts of the platform that carry state, loops or arithmetic, with proofs of what they promise. One
module per component; every operation that the program performs by updating fields or looping is a method of a class (or a
method with a loop) proved against a function, and the promises are lemmas about those functions over all inputs and all
runs.

- `RateLimit`: the token bucket shared by all NVD clients, as pure arithmetic and as the atomic Redis script, the blocking
  `acquire` loop, and the reserve that backfills leave for others.
- `Billing`: webhook deliveries that are duplicated, reordered and sometimes rolled back; billing row, effective plan and
  audit trail.
- `Exports`: export jobs between API, redelivered workers, purge and object store, as atomic steps that interleave and
  crash, and the service methods as runs of those steps.
- `Ingest`: the ingest loop over the deduplicating, buffering store, against plain upserts.
- `ScheduledSync`: planning by prefix and organisation, one memoised fetch per prefix, rescheduling.
- `Watermark`, `NvdClient`: incremental pulls keyed on a watermark that NVD reads in whole seconds; pagination.
- `SyncAsSteps`: a prefix sync on the database is a run of the steps that the watermark's promise is about.
- `Layout`: the dashboard's two-column packing, drag placement with hysteresis, and keyboard moves.
- `Cpe`, `Sbom`, `SbomService`: CPE prefixes (sections 6.1 and 6.2 of NISTIR 7695 describe the two bindings), grouping of
  components, preview and import.
- `Seats`: memberships, invitations and expiry against plan limits.
- `Wrappers`: `Option` and `Result`.

How the program's things are represented: tables are maps, sequences and sets; a database transaction, a conditional
update, a unique constraint and the Lua script are atomic steps; time is an `int` (a `real` in the rate limiter) and every
clock reading is a parameter or a step; floating-point numbers are `real`. Text functions that need Unicode or
percent-decoding tables (`casefold`, `unquote`, `humanize_product`) and the drag distance are parameters, so what is proved
holds whatever they do; `strip` and `lower` are modelled on ASCII. Random tokens and object keys are fresh.

Seven promises turned out not to hold as one might state them; the code is kept as it is, an input is given and the exact
condition proved:

- N requests per window is guaranteed if and only if the bucket holds less than one token when the window opens
  (`WindowPromiseIffDrained`, `OverfullWindow`); 2N always is (`AtMostTwiceTheWindow`).
- A normalised CPE prefix is its own normal form unless the vendor of a 2.2 URI decodes to something ending in a backslash
  or the product ends in white space (`NormalFormIff`; `BackslashVendorIsLost`, `SpaceIsLost`).
- An import compares prefixes with the normal forms of the stored ones but stores its own as given. So two imports can
  store the very same prefix, and importing the same rows twice can create a vendor the second time, exactly when a
  parsed product ends in white space that normalising would take off (`PrefixesStayDistinctIff`, `ImportedTwice`;
  `ImportingAgainCreatesNothingIff`, `SecondImportCreates`; `RawWobbles` has an input).
- The buffered store keeps the first record of a CVE in a batch where plain upserts keep the last
  (`BufferedEqualsPlainIff`, `FirstVersionIsKept`).
- After a sync the cache has every tracked version that NVD held at the watermark's second, or a newer one, unless NVD
  changed that CVE between that second and the fetch (`VersionsAreKept`); when a change of that kind leaves the cache
  without the version is decided exactly (`MissedIff`), and happens (`OlderVersionMayBeMissed`). The next pull has it
  (`NextPullCatchesUp`).
- The documentation of `app/services/scheduled_sync_service.py` lets the fetch and the watermark share one `now`, as
  `run_due_syncs` does; the worker in `app/workers/tasks.py:99-103` reads the clock twice. That is safe if and only if
  both readings fall into the same second (`TwoReadingsIff`, `LostBetween`, `LostForGood`).
- Members and pending invitations exceed the plan if an invitation is accepted at the very instant it expires, in a full
  organisation (`StepKeepsSeatsIff`, `SeatsCanOverrun`).

## Model

| member | source | states |
|---|---|---|
| RateLimit.RedisBucket.RunScript | app/workers/rate_limit.py:95-122 | one run of the script replaces the stored bucket by the specified successor and answers the specified decision |
| RateLimit.ScriptRefinesTokenBucket | app/workers/rate_limit.py:50-78 | the script answers what the pure bucket answers if and only if the stored tokens respect the capacity or the clock moved on; the stored time is the later of the two clocks |
| RateLimit.NextIsBounded | app/workers/rate_limit.py:95-122 | every script run, with any clock, keeps 0 <= tokens <= capacity and never moves the stored time back |
| RateLimit.BalancePays | app/workers/rate_limit.py:103-121 | over any run, grants plus the final balance never exceed the initial balance |
| RateLimit.Conservation | app/workers/rate_limit.py:103-121 | over any run, granted tokens plus tokens left are at most the tokens at the start plus what the elapsed stored time refilled |
| RateLimit.RateBound | app/workers/rate_limit.py:95-122 | between any two points of any run of any number of workers with arbitrary clocks, at most capacity + refill * elapsed is granted, and the bucket stays within its bounds |
| RateLimit.AtMostTwiceTheWindow | app/workers/rate_limit.py:30-34 | a bucket built from N requests per W seconds grants at most 2N in any stretch of W seconds |
| RateLimit.WindowPromiseIffDrained | app/workers/rate_limit.py:30-34 | no schedule of unit requests gets more than N through in W seconds if and only if the window opens with less than one token |
| RateLimit.OverfullWindow | app/workers/rate_limit.py:30-34 | from any bucket holding a whole token there is a schedule that gets N + 1 requests through in exactly W seconds |
| RateLimit.DeniedPollsAreInvisible | app/workers/rate_limit.py:103-121 | on a clock that never runs backwards, removing any denied attempts from a run changes no other decision |
| RateLimit.ExpiryInvisibleIff | app/workers/rate_limit.py:106-110 | an idle key may expire unseen from every bucket if and only if ttl * refill reaches the capacity |
| RateLimit.ExpiryChangesNoAnswer | app/workers/rate_limit.py:119-121 | then, over a whole run, dropping the key whenever it has been idle for its ttl changes no answer |
| RateLimit.BackfillCanRunIff | app/services/nvd_limits.py:41-43 | a backfill can ever be granted if and only if the reserve fraction leaves one whole token |
| RateLimit.BackfillsNeverStarve | app/services/nvd_limits.py:41-43 | whatever backfills do, the bucket lacks at most what other callers took, so a caller without a reserve is refused only because of its own kind |
| RateLimit.RetryAfterIsExact | app/workers/rate_limit.py:72-78 | with nobody else drawing, a denied attempt repeated at time t is granted if and only if it fits into the bucket and t is not before the denial plus retry_after |
| RateLimit.RedisRateLimiter.Poll | app/workers/rate_limit.py:154-158 | other workers' script runs, then this worker's own, give the specified bucket and answer |
| RateLimit.RedisRateLimiter.Acquire | app/workers/rate_limit.py:146-170 | the loop's outcome, sleeps and number of polls are those that the script's replies determine, and the bucket is the one after exactly those polls |
| RateLimit.SettleIsHonest | app/workers/rate_limit.py:153-170 | for any replies: success means exactly the last reply was a grant, failure means none was; the sleeps respect the ceiling and sum to at most the wait cap; "cannot refill" is raised exactly on the script's marker |
| RateLimit.SleepsTell | app/workers/rate_limit.py:159-170 | after every refusal it sleeps exactly the wait it was told, but at most the ceiling, and only stops when the call is decided |
| RateLimit.GivesUpTells | app/workers/rate_limit.py:167-169 | it gives up only when the next such sleep would take it past the cap |
| RateLimit.WithoutRefill | app/workers/rate_limit.py:30-34 | a window without a length refills nothing, and the first poll decides |
| RateLimit.AcquireIsHonest | app/workers/rate_limit.py:146-170 | whatever other workers do: one grant if and only if it returns, sleeps within max_wait, the reserve is left in the bucket, and an oversized request is never granted |
| RateLimit.AloneAcquires | app/workers/rate_limit.py:146-170 | alone with the bucket it sleeps exactly the first retry_after and succeeds if and only if that is within max_wait, and otherwise times out |
| Billing.BillingDb.ApplyEvent | app/services/billing_service.py:128-163 | one delivery, in one transaction, moves rows, plans, audit trail and event log to the specified state with the specified outcome, including duplicates and roll-backs |
| Billing.BillingDb.Checkout | app/services/billing_service.py:166-177 | a checkout fills the customer and subscription ids, or is rolled back when the customer id already belongs to another row |
| Billing.BillingDb.Subscribe | app/services/billing_service.py:180-224 | a subscription change updates row, plan and audit trail as specified, with every stale and ignored case |
| Billing.BillingDb.GetOrCreate | app/services/billing_service.py:51-57 | an organisation gets a Free row on first contact and keeps the one it has |
| Billing.EndOfAnotherIsStale | app/services/billing_service.py:198-199 | while the row names a subscription, the end of any other one, whatever its time, plan and organisation data, leaves every row, every plan and the audit trail as they were |
| Billing.OwnEndCancels | app/services/billing_service.py:198-224 | the end of the subscription the row names, not older than the row, with a known plan and no customer id of another row, is applied: the row ends canceled and the organisation on Free |
| Billing.RefusedTells | app/services/billing_service.py:195-208 | a new subscription event is stale exactly when it is older than the row or ends another subscription, ignored exactly when it is neither and brings no known plan, and then nothing but the event is recorded |
| Billing.AppliedRowTells | app/services/billing_service.py:201-217 | an applied subscription event leaves in the row the plan its price or metadata names, its status, cancel flag, period end and time |
| Billing.AppliedPlanTells | app/services/billing_service.py:219-223 | the plan is then the row's while the status is active, trialing or past_due and Free otherwise; exactly a change is audited; no other organisation is concerned |
| Billing.CheckoutTells | app/services/billing_service.py:166-177 | a checkout writes the ids it names into the row, and touches neither plans nor the audit trail, or is rolled back whole |
| Billing.TargetTells | app/services/billing_service.py:71-89 | an existing organisation named by reference is the one, then the one in the metadata, and only without either the one that holds the customer id |
| Billing.ApplyKeepsAgreement | app/services/billing_service.py:128-163 | every delivery, duplicate and failed ones included, keeps plan, row, audit trail and customer ids in agreement |
| Billing.RunAgrees | app/services/billing_service.py:128-163 | plan, row, audit trail and customer ids agree after any sequence of deliveries, if they did before |
| Billing.PlanStatusAndAuditAgree | app/services/billing_service.py:195-224 | after any deliveries to fresh Free organisations the plan is the row's while the status is entitled and Free otherwise, and the audited changes chain from Free to exactly that plan |
| Billing.HandleForIsLocal | app/services/billing_service.py:166-235 | handling an event of one organisation changes no other row or plan and never moves its event time back |
| Billing.DeliveryIsLocal | app/services/billing_service.py:71-89 | for any delivery, last_event_at never decreases and only the organisation the event is matched to changes |
| Billing.EachIdTakesEffectOnce | app/services/billing_service.py:129-136 | once a delivery was answered, every later one with the same stored id is a duplicate and leaves the whole state alone |
| Billing.RowFollowsAcked | app/services/billing_service.py:195-217 | after any reordered, repeated prefix the row reflects the newest answered event with a recognised plan, or none |
| Billing.ConvergesToTheNewest | app/services/billing_service.py:128-224 | once every event of a subscription has been answered, in any order and with any repetitions, and with ends of any other subscriptions in between once the row tracks this one, plan, status, period end, cancel flag and effective plan are those of the newest event with a recognised plan |
| Billing.RolledBackIff | app/services/billing_service.py:173-174 | a delivery is rolled back if and only if it is new and would write a customer id that another organisation's row holds |
| Billing.NothingIsRolledBack | app/services/billing_service.py:71-89 | if events that name an organisation carry no other organisation's customer id, every delivery is answered |
| Billing.ConvergesToTheNewestDelivered | app/services/billing_service.py:128-224 | the same for whatever is delivered: the subscription's own events, events without effect on it, and, after a first one of its own, ends of other subscriptions |
| Billing.RowStillFollows | app/services/billing_service.py:195-217 | an end of another subscription after a first event of the row's own leaves the row at the newest answered event |
| Exports.ExportService.CreateJob | app/services/export_service.py:278-299 | a job is queued, with that organisation, format and time, exactly when the plan allows the format and fewer than the cap of the organisation's jobs are queued or running |
| Exports.ExportService.MarkJobFailed | app/services/export_service.py:302-309 | only a queued or running job becomes failed |
| Exports.ExportService.RunJob | app/services/export_service.py:318-378 | claim, render, store and finish: a job that is not queued is left untouched, a failed render fails it, a stored one succeeds with its key and expiry |
| Exports.ExportService.SignedDownloadUrl | app/services/export_service.py:427-449 | refusals as specified, and a link names a file that is in the store and was stored for that job and organisation |
| Exports.ExportService.PurgeExports | app/services/export_service.py:452-490 | job by job: a file past retention whose delete works goes with its key and its job expires, a queued or running job older than staleAfter fails, every other row stays; the count is that of the deleted ones |
| Exports.NextKeepsConsistent | app/services/export_service.py:278-490 | every atomic step of every process, crashes between a store operation and its commit included, keeps jobs, files, workers and purges consistent |
| Exports.LinksNameStoredFiles | app/services/export_service.py:427-449 | in every reachable state every link handed out names a stored file of that very job and organisation |
| Exports.RenderedAtMostOnce | app/services/export_service.py:327-340 | in any run, with any redeliveries, each job is claimed at most once and stores at most one file |
| Exports.NoFileLeaks | app/services/export_service.py:365-373 | in a run without crashes, when nobody is in flight, the stored files are exactly the keys of succeeded jobs, even if purge had timed a job out first |
| Exports.ActiveJobsAreCapped | app/services/export_service.py:284-298 | in every reachable state every organisation has at most the cap of queued and running jobs |
| Exports.JobIsARun | app/services/export_service.py:318-378 | what the method does to the database and the store in one go is what the atomic steps of an undisturbed worker come to |
| Exports.PurgeIsARun | app/services/export_service.py:452-490 | a whole purge is a run of its atomic steps: start, deletes, one commit |
| Exports.PurgeStartTells | app/services/export_service.py:452-466 | a purge sets out to delete exactly the files of succeeded jobs whose retention is over when it starts |
| Exports.PurgeCommitTells | app/services/export_service.py:473-487 | a purge commit expires exactly the jobs whose files it deleted and fails exactly the active jobs created before its start minus staleAfter; no active job that old is left, and every other row stays |
| Exports.StuckJobsFreeTheCap | app/services/export_service.py:477-486 | whatever happens in between and afterwards, a job older than staleAfter when a purge begins is not active, and so not counted against the cap, once that purge has committed |
| Ingest.SqlAlchemyVulnStore.CommitAll | app/services/store.py:83-90 | commit makes the view, with every buffered link in it, the committed state and empties the buffer |
| Ingest.SqlAlchemyVulnStore.PutVendor | app/services/store.py:38-46 | only an existing vendor of the organisation is updated; an unknown one is reported and changes nothing |
| Ingest.SqlAlchemyVulnStore.PutVulnerability | app/services/store.py:48-68 | the first record of a CVE in a batch is written, later ones are ignored |
| Ingest.SqlAlchemyVulnStore.LinkVendor | app/services/store.py:70-77 | each link is buffered once and nothing is written before commit |
| Ingest.RunIngest | core/sync.py:69-122 | attempted and succeeded counts, the error lines and the number of distinct CVEs are right, the store is the specified one, and only a missing vendor stops the loop, leaving what the vendors before it committed |
| Ingest.RecordUnassessed | core/sync.py:125-134 | a failed vendor is marked unassessed only if it had no good data |
| Ingest.IngestVendor | core/sync.py:105-118 | a successful vendor is marked mapped, its records stored and linked, and all of it committed |
| Ingest.StatusTellsSuccess | core/sync.py:60-66 | success if and only if there were vendors and all succeeded, failed if and only if none did, and partial otherwise |
| Ingest.ErrorsTell | core/sync.py:96-101 | the report has one line for every failed fetch, with the vendor's name and the error, and no other |
| Ingest.VendorTells | core/sync.py:105-134 | a success marks the vendor mapped with the request's method, a failure unmaps a vendor without good data, and no other vendor changes |
| Ingest.FirstAgainstLast | seed/sqlite_store.py:114-148 | after an ingest each CVE's row is the batch's first record here and its last with plain upserts, and the old row if the batch has none |
| Ingest.BufferedEqualsPlainIff | app/services/store.py:48-90 | the buffered store commits what plain last-wins upserts would, if and only if the first and last record of each CVE in the batch agree |
| Ingest.FirstVersionIsKept | app/services/store.py:51-53 | for any two versions of a CVE in one fetch, the first is committed here and the second by plain upserts |
| Ingest.SyncsAreHonest | core/sync.py:86-134 | after any syncs with any failures a vendor is mapped if and only if it had a successful ingest, and its links are exactly the CVEs of its successful payloads |
| Ingest.EveryCommittedLinkHasItsRow | app/services/store.py:27-31 | at every point of an ingest, between any two records too, every committed or flushed link has its CVE row |
| ScheduledSync.PlanDueWork | app/services/scheduled_sync_service.py:95-114 | one work per prefix; each of its groups is exactly the due vendors of that prefix and organisation, in order; no due vendor is missing; backfill marks exactly the prefixes without a watermark |
| ScheduledSync.DueIdsMembers | app/services/scheduled_sync_service.py:75-92 | a vendor is planned for a prefix and organisation if and only if it is due for them |
| ScheduledSync.MemoFetch.Call | app/services/scheduled_sync_service.py:176-213 | every call answers the network's one answer, or its failure, and the network is called once |
| ScheduledSync.SyncDb.SyncOrg | app/services/scheduled_sync_service.py:245-277 | an organisation's surviving vendors are ingested, rescheduled and recorded as one run that is all-success or all-failed |
| ScheduledSync.SyncDb.SyncLive | app/services/scheduled_sync_service.py:235-277 | one run is recorded with the organisation's counts and its status, a snapshot for each vendor exactly if the fetch worked, and no watermark moves |
| ScheduledSync.OrgTells | app/services/scheduled_sync_service.py:235-260 | a successful fetch leaves each surviving vendor mapped with the method it had, or virtual_match, a failed one leaves good data alone; no other vendor changes |
| ScheduledSync.SyncDb.SyncPrefix | app/services/scheduled_sync_service.py:219-290 | at most one network call for all organisations; synced plus failed are the surviving vendors and one of them is zero; exactly after a successful fetch the prefix's watermark is now, and its backfill time too if it had no watermark; no other prefix's mark changes |
| ScheduledSync.SyncDb.RunDueSyncs | app/services/scheduled_sync_service.py:300-317 | every planned prefix is synced with at most one fetch each; every due vendor ends with its next sync exactly the longer of the hours asked for and allowed past now, failed fetches included, and no other vendor's schedule changes |
| ScheduledSync.WorksSettle | app/services/sync_service.py:54-57 | a run gives exactly the vendors its works hold that next sync, and leaves every other vendor's schedule alone |
| ScheduledSync.EverythingRescheduled | app/services/scheduled_sync_service.py:300-317 | after a run of everything due no vendor is due at the same instant, failed fetches included, since no plan's cadence is below an hour |
| ScheduledSync.CadenceIsLeast | app/services/integration_service.py:110-116 | the cadence is the least number of hours that is at least what the organisation asked for, a day by default, and at least its plan's minimum: 24 on Free and unknown plans, 6 on Team, 1 on Business |
| ScheduledSync.PlannedIff | app/services/scheduled_sync_service.py:75-92 | a vendor is planned if and only if it has a prefix and its next sync is not set or not after now |
| ScheduledSync.PlannedAgainFrom | app/services/scheduled_sync_service.py:75-114 | after a run, a vendor it synced is planned again by a later run if and only if that run is no earlier than the end of its cadence |
| ScheduledSync.NoWorkIffNothingDue | app/services/scheduled_sync_service.py:75-114 | a plan is empty if and only if no vendor is due |
| ScheduledSync.StoredBeforeTheWatermark | app/services/scheduled_sync_service.py:245-286 | a sync moves the watermark only with every record of its fetch in the cache; without a successful fetch the cache is as it was |
| NvdClient.FetchQuery | core/nvd_client.py:178-222 | paging returns NVD's result list itself, cut only by the page cap, always asks for at least one page, and for none past the last result |
| NvdClient.ReturnedIff | core/nvd_client.py:109-142 | a CVE is returned if and only if it matches the prefix and is known exploited, changed between the whole seconds of the last pull and of now, or, on a first pull, published in the 120 days up to now |
| Watermark.NextKeepsConsistent | app/services/scheduled_sync_service.py:219-290 | every step of NVD and of a sync, a death after any commit included, keeps every prefix covered since its watermark |
| Watermark.WatermarkCoverage | app/services/scheduled_sync_service.py:279-286 | after any run, every tracked CVE that NVD last changed before the watermark's whole second is cached in NVD's current version |
| Watermark.VersionsAreKept | app/services/scheduled_sync_service.py:279-286 | after any run, whatever NVD did later, the cache has every tracked version NVD held just before the watermark's second or a newer one, unless NVD changed the CVE between that second and the fetch behind the watermark |
| Watermark.NextRemembers | app/services/scheduled_sync_service.py:219-290 | every step of NVD and of a sync, failures and deaths included, keeps that promise for every prefix |
| Watermark.NextPullCatchesUp | core/nvd_client.py:130-142 | a tracked CVE that the cache does not hold in its current version is returned by the next incremental pull, unless NVD changed it after that pull's second |
| Watermark.OnlyFinishMovesWatermarks | app/services/scheduled_sync_service.py:279-286 | a watermark moves only at the end of a sync of that prefix that stored everything it fetched, and then to that sync's now |
| Watermark.MissedIff | app/services/scheduled_sync_service.py:279-286 | of a tracked version that NVD held at the watermark's second, a finished sync leaves nothing as new in the cache if and only if, before its fetch, the cache had none and NVD had changed the CVE since that second so that the query does not return it (rejected, no longer matching, or neither known exploited nor inside the window) |
| Watermark.OlderVersionMayBeMissed | core/nvd_client.py:109-110 | for every prefix and CVE a run after which the cache holds no version of a CVE that NVD held, tracked, at the watermark's second |
| Watermark.TwoReadingsIff | app/workers/tasks.py:99-103 | with separate readings for fetch and watermark, coverage survives all runs of such syncs if and only if both readings fall into the same second |
| Watermark.LostBetween | app/workers/tasks.py:99-103 | for any two readings in different seconds, a run after which a tracked CVE changed before the watermark is not cached |
| Watermark.LostForGood | app/workers/tasks.py:99-103 | after that run no continuation caches the CVE, until NVD changes it again or the clock readings of the prefix's syncs go back |
| SyncAsSteps.PrefixIsARun | app/services/scheduled_sync_service.py:219-290 | what a whole prefix sync does to cache and watermarks is a run of the steps: given up before or at the fetch, or begun, fetched, stored and finished |
| SyncAsSteps.SyncedRowsAreCurrent | app/services/scheduled_sync_service.py:219-290 | after any history, a sync that fetched leaves in the database's rows NVD's current version of every tracked CVE that NVD last changed before the new watermark's second |
| Layout.LayoutBoard | frontend/src/dashboard/layout.ts:61-82 | the loop computes the specified tops and board height |
| Layout.Packing | frontend/src/dashboard/layout.ts:61-82 | with distinct ids, a widget starts at least gap below every earlier widget it stacks with, and at 0 or exactly gap below one of them |
| Layout.HeightIsLowestEdge | frontend/src/dashboard/layout.ts:80-81 | no bottom edge is below the board's height and some bottom edge is at it |
| Layout.TryColumn | frontend/src/dashboard/layout.ts:149-160 | after one column the best so far is a real place, and within half a pixel of the best in that column |
| Layout.PickPlacement | frontend/src/dashboard/layout.ts:130-162 | for any distance: stay put, or go to a place within 0.5 of the best of all places and more than STICKINESS closer than now |
| Layout.SlotTells | frontend/src/dashboard/layout.ts:95-112 | a slot in pixels: full slots span the board, the left column starts at 0, the right one half a gap past the middle and ends at the board's width |
| Layout.SlotsAreApart | frontend/src/dashboard/layout.ts:61-112 | no two slots of a board overlap or come nearer than the gap, sideways or up and down |
| Layout.SlotsFitTheBoard | frontend/src/dashboard/layout.ts:61-112 | every slot lies within the board's width and height |
| Layout.HeldOnASlot | frontend/src/dashboard/layout.ts:130-162 | for any distance between the larger offset and the sum of both, as the Euclidean one is: a card held on the corner that some place would give it moves to within half a pixel of that point, or was within STICKINESS and half a pixel of it already |
| Layout.RearrangedKeepsTheRest | frontend/src/dashboard/layout.ts:141-153 | only the dragged widget's position and column can change, the column to the place's own; the others keep their order |
| Layout.SamePlaces | frontend/src/dashboard/layout.ts:122-125 | the places and their distances do not depend on where the widget is now |
| Layout.NoFlipFlop | frontend/src/dashboard/layout.ts:122-125 | once placed, the search at the same point stays put |
| Layout.SameAnswerFromAnywhere | frontend/src/dashboard/layout.ts:122-125 | from any two positions, two moving searches at the same point settle within half a pixel of each other |
| Layout.SwapUnstacked | frontend/src/dashboard/layout.ts:167-169 | swapping adjacent unstacked widgets changes no top and no board height |
| Layout.Nudge | frontend/src/dashboard/layout.ts:176-199 | the scan and splice compute the specified move |
| Layout.UpTells | frontend/src/dashboard/layout.ts:191-198 | up puts the widget right before the nearest earlier one that shares its run, leaving the order of all others; without one it stays |
| Layout.DownTells | frontend/src/dashboard/layout.ts:191-198 | down puts it right after the nearest later one that shares its run; without one it stays |
| Layout.NudgeKeepsTiles | frontend/src/dashboard/layout.ts:176-199 | up and down permute the board; left and right change at most one widget's column |
| Layout.UpThenDown | frontend/src/dashboard/layout.ts:191-198 | up and then down restores every top on two columns and the very list on one |
| Layout.DownThenUp | frontend/src/dashboard/layout.ts:191-198 | down and then up likewise |
| Cpe.JoinInvertsSplit | core/sbom.py:43 | joining what the split at unescaped colons gives is the input |
| Cpe.SplitInvertsJoin | core/sbom.py:27-43 | any whole fields of which only the last may end in an escape, joined and split, are read back |
| Cpe.SplitYieldsWhole | core/sbom.py:27 | no field of the split holds an unescaped colon, and only the last can end in an escape |
| Cpe.ParsedFields | core/sbom.py:36-60 | what the parser returns: a known part, and whole lower-case fields that name something |
| Cpe.PrintedParsesBackIff | core/sbom.py:63-66 | printed fields parse back to themselves if and only if the vendor does not end in a backslash and the product not in white space |
| Cpe.NormalFormIff | core/sbom.py:36-66 | for every accepted input the prefix is its own prefix if and only if the same condition holds of the parsed fields; the vendor's half is automatic for 2.3 strings |
| Cpe.PrintIsInjective | core/sbom.py:63-66 | two products share a prefix only if all three fields agree |
| Cpe.UriParses | core/sbom.py:47-54 | a 2.2 URI is split first, then decoded, then escaped |
| Cpe.FormattedParses | core/sbom.py:36-60 | a 2.3 string of any whole fields, in any case and with white space around it, parses if and only if it has a part a, o or h and a vendor and product other than ANY and NA, and then to these three in lower case |
| Cpe.UriFormParses | core/sbom.py:47-60 | a 2.2 URI of any fields parses if and only if its part is a, o or h and vendor and product decode to neither nothing nor a hyphen, and then to these decoded, escaped, in lower case |
| Cpe.StripTells | core/sbom.py:40 | white space goes from both ends and nothing else |
| Cpe.BackslashVendorIsLost | core/sbom.py:51-54 | every 2.2 URI whose vendor decodes to something ending in a backslash gets a prefix that names no product any more |
| Cpe.PrintedAgain | core/sbom.py:36-66 | normalising a prefix again takes white space off its product and changes nothing else, or finds no product |
| Cpe.MoreParses | core/sbom.py:42-46 | every product comes up as the parse of a 2.3 string with more after it, with the white space before the next colon |
| Cpe.SpaceIsLost | core/sbom.py:40-60 | "cpe:2.3:a:v:p :1" has a prefix whose own prefix is another one |
| Sbom.BuildCandidates | core/sbom.py:196-230 | the grouping loop and the final sort compute the specified candidates |
| Sbom.GroupDescribes | core/sbom.py:203-229 | each group holds exactly its key's components: their number, their versions, each once and in the order in which they first come up, their first supplier, and the label of the first of them |
| Sbom.KeysTell | core/sbom.py:203-213 | two components share a group if and only if they have the same prefix, or neither has one and their folded names agree |
| Sbom.FirstWithTells | core/sbom.py:214-218 | the label is that of the first component of the key |
| Sbom.FirstSupplierTells | core/sbom.py:228-229 | the supplier is the first non-empty one among the key's components |
| Sbom.CountTells | core/sbom.py:224 | the count is the number of components of the key |
| Sbom.GroupsInOrder | core/sbom.py:214-216 | groups are opened in the order of their first components |
| Sbom.FirstAtIsFirst | core/sbom.py:225-227 | the place that orders a version is one that brings it, and none before it does |
| Sbom.GroupsConserve | core/sbom.py:224 | the group counts add up to the number of components |
| Sbom.SortedIsInOrder | core/sbom.py:230 | the sorted list is in order, mapped first and then by folded name |
| Sbom.TextLeTells | core/sbom.py:230 | texts compare by the first character that differs, a prefix before what it begins |
| Sbom.InOrderTells | core/sbom.py:230 | in the sorted list no mapped candidate follows an unmapped one and each half is alphabetical by folded name |
| Sbom.SortIsStable | core/sbom.py:230 | candidates that tie in the sort keep the order in which their groups were opened |
| Sbom.CandidatesDescribe | core/sbom.py:196-230 | every candidate describes one key's components and every component is described by a candidate |
| Sbom.CandidatesPartition | core/sbom.py:196-230 | counts sum to the input, prefixes are distinct, no mapped candidate comes after an unmapped one |
| SbomService.Preview | app/services/sbom_service.py:39-50 | each row's mark follows from the vendors there are and the rows above it |
| SbomService.MarkTells | app/services/sbom_service.py:39-50 | a row exists if and only if some vendor has its folded name or, in normal form, its prefix; else it is a duplicate exactly when an earlier row has its folded name, and new otherwise |
| SbomService.VendorTable.ImportVendors | app/services/sbom_service.py:61-93 | the import's outcome and new table are the specified ones |
| SbomService.ItemTells | app/services/sbom_service.py:69-84 | what each item becomes after the ones before it: skipped for no name, for a prefix that names no product, or for a clash with the table or with what was created before it, in this order, and otherwise a vendor with the cut name and the normalised prefix, not assessed |
| SbomService.SiftNeverClashes | app/services/sbom_service.py:69-84 | created and skipped add up to the items; nothing created clashes by folded name or stored prefix with another created vendor, nor with the table by folded name or by the normal forms of its prefixes |
| SbomService.SkipsNothingIff | app/services/sbom_service.py:69-84 | nothing is skipped if and only if every item is acceptable and their vendors clash with nothing; then there is one vendor per item, in order |
| SbomService.ImportIsAllOrNothing | app/services/entitlements.py:99-119 | a refused import changes nothing, is a refusal of its size exactly above 500 items and a plan refusal exactly when the new vendors exceed the limit; an accepted one accounts for every item, stays within the limit and clashes with no name and no normal form of a stored prefix |
| SbomService.ImportsKeepTheTable | app/services/sbom_service.py:66-91 | over any sequence of imports vendors stay distinct by folded name, none disappears, no import takes the table past the limit, and stored prefixes stay distinct if no parsed product ends in white space to be taken off |
| SbomService.PrefixesStayDistinctIff | app/services/sbom_service.py:23-26 | stored prefixes stay distinct from every table and through every sequence of imports that use a given prefix if and only if its parsed product does not end in white space that normalising takes off |
| SbomService.ImportedTwice | app/services/sbom_service.py:72-84 | for every such prefix two imports under two names store it twice |
| SbomService.RawWobbles | app/services/sbom_service.py:73 | "cpe:2.3:a:v:p :1" is such a prefix |
| SbomService.ImportingAgainCreatesNothingIff | app/services/sbom_service.py:61-93 | importing the same rows again is accepted and creates nothing, under any limit, if and only if the first import left out no row only because of a prefix created with it that does not match in its normal form |
| SbomService.SecondImportCreates | app/services/sbom_service.py:66-84 | for every such prefix, two rows of which the first import creates one and the second the other |
| SbomService.PreviewPredictsImport | app/services/sbom_service.py:29-93 | with room in the plan, importing what the preview called new creates every row as shown and skips none if and only if its names are trimmed and its prefixes in normal form |
| SbomService.SbomImportsAsPreviewed | app/services/sbom_service.py:29-93 | the same from the components on, with no component lost and nothing assumed of the candidates |
| Seats.OrgService.SetMemberRole | app/services/org_service.py:95-108 | the role changes as specified; demoting the last owner is refused |
| Seats.OrgService.RemoveMember | app/services/org_service.py:145-157 | the member goes as specified; removing the last owner is refused |
| Seats.OrgService.CreateInvitation | app/services/org_service.py:173-202 | an invitation is created, or refused for a member, for lack of seats, or by the database |
| Seats.OrgService.AcceptInvitation | app/services/org_service.py:215-244 | a membership and the acceptance are written together, or one of the refusals applies and nothing changes |
| Seats.SetRoleTells | app/services/org_service.py:95-108 | that seat gets exactly the role asked for and no other changes; refused exactly for a non-member, and for taking the role from the only owner |
| Seats.RemoveTells | app/services/org_service.py:145-157 | exactly that seat goes; refused exactly for a non-member and for the only owner |
| Seats.InviteTells | app/services/org_service.py:173-202 | each refusal exactly when its condition holds, with 3 seats on Free and unknown plans, 10 on Team and any number on Business; otherwise an open invitation for the normalised address with the role asked for, for seven days |
| Seats.AcceptTells | app/services/org_service.py:215-244 | each refusal exactly when its condition holds; a new member gets the invitation's role, an old one keeps theirs, and only that invitation is used up |
| Seats.RoleIsTheLastGiven | app/services/org_service.py:95-244 | over any run, whoever is a member of an organisation there from the start has the role last given to them, by a change of role or by the invitation they joined with, or else the role they had at the start |
| Seats.OwnersNeverGrow | app/services/org_service.py:95-244 | over any run without changes of role to Owner and without Owner invitations no organisation gets a new owner |
| Seats.EveryOrgKeepsAnOwner | app/services/org_service.py:95-158 | over any run every organisation keeps at least one owner |
| Seats.MembersNeverExceedThePlan | app/services/entitlements.py:122-137 | over any run without downgrades no organisation has more members than its plan includes |
| Seats.StepKeepsSeatsIff | app/services/entitlements.py:84-93 | a step keeps members plus pending invitations within the plan if and only if it does not present an open invitation, at the exact instant of its expiry, for its addressee who is not a member, with room for one more member but for no more seats |
| Seats.SeatsFitIff | app/services/entitlements.py:122-145 | members plus pending invitations stay within the plan throughout a run if and only if no such acceptance happens in it |
| Seats.SeatsCanOverrun | app/services/org_service.py:224-240 | whoever is invited, there is a run on which a Free organisation comes to use four of its three seats |
| Seats.NewMembersWereInvited | app/services/org_service.py:215-240 | over any run, whoever becomes a member of an existing organisation has an accepted invitation to their address |
| Seats.AcceptedAtMostOnce | app/services/org_service.py:219-220 | in any run at most one acceptance of a token succeeds |

## Left out

- HTTP, sessions, React components, charts, migrations, scoring, filters, trends, alert rules: plumbing, or finite and easy.
- Cryptography and foreign libraries: signatures count as verified, tokens and object keys as fresh, object storage
  operations as atomic.
- Rounding of floating-point numbers and Redis number formatting.
- `acquire` under contention is followed for as many turns as the caller of the model supplies, since its waits can shrink
  without bound; alone with the bucket it is shown to end.
- `NvdThrottle`'s fallback when Redis is down, `bucket_id`, and the choice between the keyed and the keyless window.
- Billing: the parsing of payloads, owner actions (checkout, portal), and convergence across several subscriptions of one
  organisation beyond the ends of others: a deletion that arrives before the row tracks any subscription is applied.
- Exports: deletion of jobs and organisations, file names, sizes and error texts; creation is atomic, as it is when requests
  of one organisation do not overlap; a purge passes over succeeded jobs without a key, which no reachable state has.
- Ingest: parsing of NVD payloads (a fetch is its list of records), business fields of vendors.
- ScheduledSync: which API key is used, risk snapshots' contents and alerts, a run's CVE count and error text, the
  subscriber count.
- NvdClient: retries and pacing of single requests, NVD's own limit on the length of date ranges; pages of one query come
  from one list.
- Watermark: NVD and the workers share one clock, a fetch sees NVD at one instant and no rejected CVEs, syncs do not overlap.
- Layout: `withColumns`, `shorterColumn`, `widgetIds` (distinct ids are assumed where tops are looked up by id).
- Cpe and Sbom: the CycloneDX and SPDX parsers, the limit on the number of components, non-ASCII white space and letters.
- Seats: `add_member`, which no route calls, organisation slugs, employee ids; each call reads the clock once.
