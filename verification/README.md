# SyncForge in Dafny

SyncForge keeps customer records of several providers (Salesforce, HubSpot) in step. Webhooks become
events; a worker claims each event, finds the canonical record it belongs to, drops stale versions and
echoes of its own writes, merges concurrent edits field by field, writes the result to every destination
and commits the canonical record. Failed events go to a retry queue and, when that does not help, to a
dead-letter table. Reconciliation sweeps compare a provider with the canonical records and repair what
differs; full syncs walk a whole provider page by page.

This project models that core over explicit tables and proves what it is for. Run
`dafny verify dfyconfig.toml` to check it.

How the files are organised:

- `Customer`, `Fingerprint`, `ByteOrder`: the customer, the two provider schemas, when a fingerprint identifies
  a customer, string order.
- `Conflict`, `MergeOrder`: conflict detection and merge, and what a stream of merges converges to.
- `Tables`, `Apply`, `Worker`: the durable tables and providers as a value (`World`), what one event does
  to it as functions, and a class that carries the same operations out step by step and is proved against
  those functions.
- `IdentityIndex`, `PushRepair`, `SourceVersions`, `RowContent`, `Destinations`, `Convergence`,
  `EchoSuppression`: invariants and theorems over runs of the worker.
- `Reconcile`, `SweepInduction`, `SweepListing`, `SweepDiff`, `FindingLife`, `SweepRepairs`, `SweepStep`,
  `SweepConverges`: sweeps, the pages they list, their repairs, and the life of a finding.
- `Pipeline`, `Claims`, `VersionCount`, `NoLoss`, `Orphans`, `LossRuns`: workers, retry engines and operators as
  interleaved steps, with crashes; what is applied once, what is never lost, and the runs that lose something.
- `Retry`, `Backoff`: how often an event is tried and how long it waits, with int64 arithmetic.
- `TokenBucket`: the client and simulator rate limiters.
- `RecordIds`, `Listing`, `Simulator`, `Paging`, `FullSync`, `JobFates`: generated ids, listings by cursor, the record store,
  cursor walks, and the resumable full sync.

How the model reads the code:

- One tenant and one entity type. Each SQL statement is one update of a table, and succeeds. A provider
  call succeeds or fails, before or after it took effect, as a fault tape says. Clock readings, jitter
  factors and outcomes of calls are arguments.
- Field values are null, a string or a boolean. The fingerprint stands for the text that is hashed, so the
  hash is taken to be free of collisions.
- Event ids are abstract; ids of repair events are tied to their finding as `reconcile:` ids are.
- Ingestion rejects events without an entity id (internal/api/webhooks.go:87-88), so row keys are not empty.
- A policy names a source and destination once (migrations/0001_init.sql:76).

Where the code does not do what one would hope, the code is kept as it is and the exact condition is proved:

- An upsert can reset another source's recorded versions when two providers use the same id string
  (`SourceVersions.AppliedRaisesOwnVersionExactly`, `SourceVersions.ClobberLosesVersion`).
- Re-asserting an equal value moves ownership backwards (`MergeOrder.StepKeepsGreaterExactly`,
  `MergeOrder.EqualValuesBreakOrder`).
- Two customers share a fingerprint if and only if, in one of them, a value next to one of the labels between values
  contains that label; a separator alone does no harm (`Fingerprints.FingerprintSharedExactly`).
- A push repair can map one provider id twice, when another row has taken the id over since the finding
  (`IdentityIndex.PushKeepsIndexExactly`; a run of three events that does it: `PushRepair.PushBreaksIndex`). Ruling
  that out, every run of events of every kind keeps the index (`IdentityIndex.IndexStaysFunctional`).
- The version of a record counts its commits if and only if every commit had read the number of commits before it.
  One stale read is enough to lose a step for good (`VersionCount.VersionCountsCommitsExactly`,
  `VersionCount.LostUpdate`).
- An acknowledged event is lost when a retry of it finds the claim of another attempt still at work, takes it for a
  duplicate, deletes the retry row and resolves the dead letter, and the other attempt then fails; or when two sources
  use one event id (`LossRuns.MisjudgedDuplicateLoses`, `LossRuns.OverlapLosesAnEvent`, `LossRuns.SharedIdLosesAnEvent`). Ruling out
  these two, and nothing else, no acknowledged event is lost (`NoLoss.NoAcknowledgedEventLost`).
- A claim whose holder crashes before it commits or releases stays for ever: redeliveries and retries of the event are
  taken for duplicates and it is never applied. That happens if and only if the holder of a claim crashes
  (`Orphans.OrphanedExactly`, `Orphans.OrphanNeverApplied`).
- The backoff product can wrap to a short delay (`Backoff.BeforeJitterWrongExactly`,
  `Backoff.WrapShortensDelay`). A comment in the retry engine says Retry-After is obeyed where it is more
  conservative; the code takes it where it is shorter, and so does the model.
- Generated ids stop sorting in order at the seventh digit (`RecordIds.NextIdOrderedExactly`).
- A full sync that dies after its last checkpoint walks and counts everything again (`FullSync.CountsTwice`). A record
  whose worker crashes between claim and commit is counted as processed by the next run and never committed
  (`FullSync.Runner.CutOffIsNeverCommitted`).
- The wait a limiter returns is cut off to nanoseconds and can be one short (`TokenBucket.WaitIsExact`).

## Model

| member | source | states |
|---|---|---|
| `Customers.FieldsRoundTrip` | internal/model/customer.go:47-68 | FromFields after Fields gives back every customer |
| `Fingerprints.FingerprintSharedExactly` | internal/model/customer.go:70-75 | a customer shares its fingerprint with another one if and only if, for one of the four labels between values, the value before or after it contains that label |
| `Fingerprints.SharedTextConfuses` | internal/model/customer.go:70-75 | a customer that shares its fingerprint with a different one contains such a label |
| `Fingerprints.ConfusableShares` | internal/model/customer.go:70-75 | from any customer that contains one, another customer with the same fingerprint |
| `Customers.AdapterRoundTrip` | internal/connectors/hubspot/hubspot.go:141-170 | writing a customer over any record and reading it back gives the same five fields, for both schemas |
| `Customers.AdapterInverse` | internal/connectors/salesforce/salesforce.go:146-175 | Normalize undoes Denormalize |
| `Customers.DenormalizedIsValid` | internal/connectors/salesforce/salesforce.go:136-144 | a written record passes validation exactly when first name, last name and email are set |
| `ByteOrder.LessTransitive` | internal/conflict/conflict.go:97 | the order used for sorting is transitive |
| `ByteOrder.LessTotal` | internal/conflict/conflict.go:97 | any two different strings are ordered |
| `ByteOrder.AscendingUnique` | internal/simulator/store.go:96-100 | a set of strings can be sorted in one way only |
| `Conflict.Detect` | internal/conflict/conflict.go:69-99 | returns each conflicting field exactly once, with both sides, in sorted order, whatever the map iteration order |
| `Conflict.ReportUnique` | internal/conflict/conflict.go:69-99 | that report is the only one |
| `Conflict.SortByField` | internal/conflict/conflict.go:97 | sorts the conflicts by field, losing and adding none |
| `Conflict.ResolveIsGreater` | internal/conflict/conflict.go:117-148 | the winner of a conflict is the greater side in the strategy's order; manual has none |
| `Conflict.WinnerDecides` | internal/conflict/conflict.go:183-187 | value and owner after a conflict are those of the greater side, with that side's own priority |
| `Conflict.Merge` | internal/conflict/conflict.go:163-197 | for every iteration order the result is the pointwise merge; the no-conflict shortcut agrees with it; manual with conflicts changes nothing |
| `Conflict.ResolveAll` | internal/conflict/conflict.go:182-195 | deciding the fields one at a time in any order settles every field as the pointwise merge says |
| `Conflict.Adopt` | internal/conflict/conflict.go:169-175 | without conflicts every incoming field and its ownership go to the incoming source |
| `Conflict.Find` | internal/conflict/conflict.go:215-222 | finds the conflict of a field exactly if there is one |
| `MergeOrder.FoldGivesGreatest` | internal/conflict/conflict.go:163-197 | folding Merge over orderly edits leaves each field with value and owner of the greatest edit carrying it |
| `MergeOrder.InterleavingsAgree` | internal/conflict/conflict.go:163-197 | two orderly interleavings of the same edits give the same state, for every priority or time based strategy |
| `MergeOrder.StepKeepsGreaterExactly` | internal/conflict/conflict.go:163-197 | one merge keeps the greater owner if and only if it did not re-assert an equal or own value with a lesser event |
| `MergeOrder.EqualValuesBreakOrder` | internal/conflict/conflict.go:169-172 | a family of three edits with an equal value whose outcome depends on the order |
| `Tables.ByProvider` | internal/store/canonical.go:56-77 | the first row mapping the provider id, or none if no row does |
| `Tables.ByEmail` | internal/store/canonical.go:80-101 | the first live row with the email, or none if no row has it |
| `Tables.ByEntity` | internal/store/canonical.go:34-53 | the row with the entity id, or none if there is none |
| `SyncWorker.Worker.ClaimProcessedEvent` | internal/store/processed.go:17-31 | inserts the key once; reports whether this call inserted it |
| `SyncWorker.Worker.ReleaseProcessedEvent` | internal/store/processed.go:34-41 | removes the key and nothing else |
| `SyncWorker.Worker.UpsertCanonical` | internal/store/canonical.go:118-145 | inserts or replaces the row of the entity and no other |
| `SyncWorker.Worker.SetFindingStatus` | internal/store/reconcile.go:327-338 | moves a finding out of pending, or from failed back to pending, and no other way |
| `SyncWorker.Worker.PersistApplyState` | internal/store/applytx.go:18-64 | the loops over collected writes and operations record exactly one fingerprint and one ledger row per target, with the row |
| `SyncWorker.Worker.WriteDestinations` | internal/syncworker/worker.go:426-476 | the destination loop up to the first failure, with ids learnt from creates, equals its recursive specification |
| `SyncWorker.Worker.DeleteDestinations` | internal/syncworker/worker.go:507-528 | the delete loop equals its specification, skipping other policies and unmapped destinations |
| `SyncWorker.Worker.ResolveIdentity` | internal/syncworker/worker.go:542-582 | by provider id, then email (linked at once), else a new entity |
| `SyncWorker.Worker.ApplyUpsertEvent` | internal/syncworker/worker.go:322-487 | the whole upsert, every early exit included, refines its specification |
| `SyncWorker.Worker.MergeAndPropagate` | internal/syncworker/worker.go:383-487 | conflict handling, parking and propagation refine their specification |
| `SyncWorker.Worker.ApplyResolutionEvent` | internal/syncworker/worker.go:640-724 | an operator's resolution refines its specification |
| `SyncWorker.Worker.ApplyDeleteEvent` | internal/syncworker/worker.go:493-537 | a delete refines its specification, leaving a tombstone |
| `SyncWorker.Worker.ApplyReconcileFinding` | internal/syncworker/worker.go:729-849 | a repair in each direction refines its specification; a finding that is not pending does nothing |
| `SyncWorker.Worker.PushCanonicalState` | internal/syncworker/worker.go:773-837 | pushing canonical state, with the fallback to create, refines its specification |
| `SyncWorker.Worker.AdoptProviderState` | internal/syncworker/worker.go:854-950 | adopting a provider record refines its specification |
| `SyncWorker.Worker.ProcessEvent` | internal/syncworker/worker.go:135-227 | claim, apply and release on failure or missing policy refine the specification all theorems are about |
| `IdentityIndex.UpsertSound` | internal/syncworker/worker.go:322-487 | an upsert, failed or not, keeps the provider-id index functional, entity ids distinct and unissued ids unmapped |
| `IdentityIndex.ResolutionSound` | internal/syncworker/worker.go:640-724 | so does a resolution |
| `IdentityIndex.DeleteSound` | internal/syncworker/worker.go:493-537 | so does a delete |
| `IdentityIndex.AdoptSound` | internal/syncworker/worker.go:854-950 | so does an adoption |
| `IdentityIndex.IndexStaysFunctional` | internal/syncworker/worker.go:135-227 | after any run of events of every kind, with any failures, no two rows map one provider id, as long as no push in place meets another row that has taken over its record |
| `IdentityIndex.PushSound` | internal/syncworker/worker.go:773-837 | a push repair, in place, created anew or failed, keeps the provider-id index functional, entity ids distinct and unissued ids unmapped under that guard |
| `IdentityIndex.PushKeepsIndexExactly` | internal/syncworker/worker.go:773-837 | a push repair that goes through, on whichever path, keeps the index functional if and only if it created a record or no other row maps the finding's provider id |
| `PushRepair.PushBreaksIndex` | internal/syncworker/worker.go:816-822 | from any sound world with one row and any claims and fingerprints, an upsert that relinks the row, an upsert that makes a second row, and the push repair map one provider id twice |
| `PushRepair.Relinks` | internal/syncworker/worker.go:552-570 | a stale upsert of a new id with a known email is dropped, and has mapped the known row to the new id in place of the old one |
| `SourceVersions.AppliedRaisesOwnVersionExactly` | internal/syncworker/worker.go:362-369 | an applied upsert raises its own source's version and moves no other, if and only if it does not take over a foreign row with versions |
| `SourceVersions.NotAppliedKeepsVersions` | internal/syncworker/worker.go:362-381 | an upsert that is not applied moves no recorded version, however far it got |
| `SourceVersions.OwnersStayWithin` | internal/syncworker/worker.go:396-424 | over upsert-only runs every one of the five fields has an owner whose version is at most that source's recorded version |
| `SourceVersions.VersionsNeverFall` | internal/syncworker/worker.go:480-486 | recorded versions never decrease over such a run |
| `SourceVersions.StaleForever` | internal/syncworker/worker.go:362-369 | no event at or below a recorded version is ever applied afterwards |
| `SourceVersions.ClobberLosesVersion` | internal/syncworker/worker.go:573-581 | two providers with one id string: from a well-formed world an applied upsert with another email erases a recorded version |
| `RowContent.RowsStayWellFormed` | internal/syncworker/worker.go:480 | over every run, canonical rows hold exactly the five text fields of a customer |
| `Destinations.WriteTargetsWrites` | internal/syncworker/worker.go:426-476 | without faults, each destination ends up holding the customer under the entity's id, created at most once, and no other record or provider changes |
| `Destinations.CommitWrites` | internal/syncworker/worker.go:426-487 | the whole effect of a commit: the row, one write and fingerprint per target, and exactly the ledger rows of the event appended |
| `Convergence.OutOfOrderConverges` | internal/syncworker/worker.go:357-369 | any order of upserts with any duplicates ends with canonical and every destination equal to the newest event, after one create per destination |
| `Convergence.DeliveryOrderIrrelevant` | internal/syncworker/worker.go:150-160 | two deliveries of the same events, in whatever orders and multiplicities, converge to the same event |
| `EchoSuppression.EditWritesOncePerTarget` | internal/syncworker/worker.go:426-487 | from a settled state a genuine edit that wins every field writes once to each target and nowhere else |
| `EchoSuppression.EchoesAreInert` | internal/syncworker/worker.go:371-381 | echoes of what was written, any number in any order, change no row, no provider and no ledger |
| `EchoSuppression.EditSettles` | internal/syncworker/worker.go:371-487 | one edit, one write per target, and every echo of it is inert |
| `EchoSuppression.WrittenRecordEchoes` | internal/syncworker/worker.go:587-596 | a provider reporting the record it was given reports an echo |
| `EchoSuppression.EchoExactly` | internal/syncworker/worker.go:587-596 | a newer valid event is dropped as an echo if and only if its fingerprint is the one last written to its source; unless that customer shares its fingerprint, if and only if it is that customer |
| `Reconcile.Engine.RecordDivergence` | internal/reconcile/engine.go:207-242 | inserts once per (run, kind, id); repairs, skips or leaves it as mode and policy say |
| `Reconcile.Engine.WalkPage` | internal/reconcile/engine.go:99-149 | a page of records refines its specification; processed plus failed is the number of live records |
| `Reconcile.Engine.DetectMissing` | internal/reconcile/engine.go:162-186 | the missing pass refines its specification |
| `Reconcile.Engine.RunToEnd` | internal/reconcile/engine.go:85-186 | a whole sweep, listing by cursor from the provider as it is by then, refines its specification, and processed plus failed is the count of that specification |
| `SweepDiff.ManualSweepCounts` | internal/reconcile/engine.go:99-149 | for a manual sweep that count is the number of live records of the provider |
| `SweepConverges.AutomaticSweepCounts` | internal/reconcile/engine.go:99-149 | so it is for a fault-free automatic sweep, repairing as it walks |
| `SweepInduction.WalkCountsSeen` | internal/reconcile/engine.go:99-149 | a walk that lists no id twice counts the live ids it saw, each once |
| `Reconcile.Engine.WalkNext` | internal/reconcile/engine.go:91-160 | listing and walking one page leaves exactly the rest of the walk to do |
| `SweepListing.CursorCovers` | internal/reconcile/engine.go:89-160 | while the provider keeps its keys, the pages listed by cursor cover every record and list no id twice |
| `Listings.PagesAreFixed` | internal/reconcile/engine.go:89-160 | pages listed one by one, with anything happening between them that keeps the listing, are those listed with nothing in between |
| `Listings.FixedPagesAreCut` | internal/simulator/store.go:102-131 | listed from the cursor until there is no next one, they are the pages of the listing |
| `SweepDiff.KindIsDivergence` | internal/reconcile/classify.go:16-42 | a valid live record shows exactly the divergence its row implies, and at most one |
| `SweepDiff.ManualSweepIsDiff` | internal/reconcile/engine.go:85-242 | a manual sweep records exactly one pending finding, with the right content, for each missed, deleted, drifted or missing record, and changes nothing else |
| `SweepDiff.ManualSweepByCursorIsDiff` | internal/reconcile/engine.go:85-242 | the same for the pages the sweep lists by cursor, whatever the page size |
| `FindingLife.RepairKeepsSettled` | internal/syncworker/worker.go:729-742 | a repair changes no finding that has left pending, and does nothing if its own has |
| `FindingLife.RecordKeepsSettled` | internal/reconcile/engine.go:207-242 | recording a settled divergence again does nothing at all |
| `FindingLife.LeavesPendingOnce` | internal/store/reconcile.go:327-338 | over every run of deliveries, sweeps and operator decisions a finding leaves pending at most once, and later repair events for it touch nothing but the claim |
| `SweepRepairs.DeleteEffect` | internal/syncworker/worker.go:757-771 | pushing a delete marks that record deleted and touches nothing else |
| `SweepRepairs.DriftEffect` | internal/syncworker/worker.go:773-837 | pushing drift overwrites that record from the row and leaves the row's content |
| `SweepRepairs.MissingEffect` | internal/syncworker/worker.go:790-798 | recreating a missing record adds one record under a new id and maps the row to it |
| `SweepRepairs.AdoptEffect` | internal/syncworker/worker.go:854-950 | adopting an unknown record appends one row mapping it, with its fields |
| `SweepStep.RecordRepaired` | internal/reconcile/engine.go:99-149 | sweeping any record leaves it clean or deleted, and every other record, row view and match as it was |
| `SweepConverges.SweepCleans` | internal/reconcile/engine.go:85-186 | after a fault-free automatic sweep no record or row needs a repair the policy allows |
| `SweepConverges.SecondSweepIsQuiet` | internal/reconcile/engine.go:248-257 | a second sweep then changes nothing and records only findings the delete policy blocks |
| `SweepConverges.SecondSweepByCursorIsQuiet` | internal/reconcile/engine.go:85-257 | the same for sweeps that list by cursor, repairing as they walk, whatever the page size |
| `Claims.StepSafe` | internal/store/processed.go:17-41 | every step of every thread, crash or operator keeps claims exclusive, commits single and the ledger exact |
| `Claims.AppliedExactlyOnce` | internal/syncworker/worker.go:150-227 | after any interleaving at most one thread applies an event, it commits at most once, and leaves no ledger row or exactly one per target |
| `VersionCount.VersionCountsCommitsExactly` | internal/syncworker/worker.go:478-487 | after any interleaving a version is at most the number of commits, and equal to it if and only if every commit had read the number of commits before it |
| `VersionCount.LostUpdate` | internal/syncworker/worker.go:480-486 | two threads that read the same version raise it once |
| `VersionCount.VersionsCountCommits` | internal/syncworker/worker.go:478-487 | when events of one entity are not applied at the same time, every read is good and the version is the number of commits |
| `NoLoss.StepKept` | internal/syncworker/worker.go:231-303 | every step, crashes and operators included, keeps each acknowledged event recorded, unless a retry takes a claim still held for a duplicate |
| `NoLoss.NoAcknowledgedEventLost` | internal/syncworker/worker.go:116-130 | over every run with unique ids in which no retry takes a claim still held for a duplicate, an acknowledged event is claimed, queued, dead-lettered and not marked resolved, had no policy or is on its way |
| `LossRuns.MisjudgedDuplicateLoses` | internal/retry/engine.go:125-131 | from every state in which a retry is about to take for a duplicate a claim that another worker or engine holds, at whatever point, for an event acknowledged or held by a worker, with no third attempt or redelivery about and neither discarded nor found without policy, a run without crashes that loses it |
| `LossRuns.OverlapLosesAnEvent` | internal/retry/engine.go:125-131 | a run from the initial state, without crashes, that ends with the bus empty, every thread idle and an acknowledged event nowhere |
| `LossRuns.SharedIdLosesAnEvent` | internal/store/retry.go:33-56 | the same with two events of one id, each acknowledged, without any overlap |
| `Orphans.ClaimedMeans` | internal/store/processed.go:17-41 | a claimed key is exactly one of held by a thread, concluded by a commit or a drop, or orphaned |
| `Orphans.StepOrphans` | internal/store/processed.go:17-41 | a step orphans a key if and only if it is a crash of its holder; no step takes a key out of that state |
| `Orphans.OrphanedExactly` | internal/syncworker/worker.go:150-160 | after any run from the start a key is orphaned if and only if its holder crashed at some step |
| `Orphans.OrphanNeverApplied` | internal/syncworker/worker.go:150-160 | once orphaned, an event is never applied, whatever runs afterwards |
| `Orphans.AcknowledgedEventAccounted` | internal/syncworker/worker.go:116-130 | an acknowledged event is concluded, being worked on, queued, dead-lettered, without policy or on its way, or its holder crashed |
| `Retry.Queue.EnqueueRetry` | internal/store/retry.go:33-56 | inserts at attempt one, or raises the attempt and keeps the limit |
| `Retry.EnqueuedInPipeline` | internal/store/retry.go:33-56 | the queue of one event and the retry table of the pipeline are enqueued the same way |
| `Retry.Queue.DispatchFailure` | internal/syncworker/worker.go:248-279 | queues a retryable failure, dead-letters any other; the delay exceeds neither the limit nor a positive Retry-After |
| `Retry.Queue.ProcessRetry` | internal/retry/engine.go:116-171 | deletes, dead-letters or reschedules the row, for every outcome |
| `Retry.Queue.RunToEnd` | internal/retry/engine.go:104-171 | an event is processed until the first outcome not worth retrying or max(2, M) times, its row goes, it ends resolved or dead-lettered, and waits at most (attempts - 1) times the maximum delay |
| `Retry.StopsOnce` | internal/retry/engine.go:133-147 | that number of attempts is unique |
| `Retry.PersistentFailure` | internal/retry/engine.go:140-147 | under a persistent failure it is max(2, M), exactly |
| `Backoff.ComputeDelay` | internal/backoff/backoff.go:14-36 | between zero and the cap for every count, base, cap up to 2^62 and jitter factor, whatever wraps |
| `Backoff.BeforeJitterExactly` | internal/backoff/backoff.go:24-27 | the value before jitter is min(cap, base * 2^(failures-1)) if and only if the product fits or its wrapped value falls outside the range below the cap |
| `Backoff.BeforeJitterWrongExactly` | internal/backoff/backoff.go:24-27 | it is wrong if and only if the product does not fit and, for n <= 62 doublings, (base mod 2^(64-n)) * 2^n is positive and below the cap |
| `Backoff.NonDecreasing` | internal/backoff/backoff.go:24-27 | it does not decrease with the failure count while the product fits |
| `Backoff.WrapShortensDelay` | internal/backoff/backoff.go:24 | a family of bases whose product wraps to a short positive delay |
| `Backoff.Schedule` | internal/retry/engine.go:149-157 | the scheduled delay exceeds neither the maximum nor a positive Retry-After |
| `TokenBucket.Limiter.Take` | internal/connectors/ratelimit.go:52-64 | one call decides and refills as the bucket specification, and returns the wait in whole nanoseconds |
| `TokenBucket.RateLimiter.Allow` | internal/simulator/rate.go:32-52 | decides, waits and ends exactly as taking one token would |
| `TokenBucket.RateLimiter.SetCapacity` | internal/simulator/rate.go:55-65 | keeps tokens within the new capacity; ignores a non-positive one |
| `TokenBucket.NothingFromNothing` | internal/connectors/ratelimit.go:52-64 | over every run tokens stay within bounds, and grants plus tokens left never exceed tokens before plus refill |
| `TokenBucket.WindowBound` | internal/connectors/ratelimit.go:52-64 | every window of every run grants at most capacity plus rate times its length |
| `TokenBucket.WaitIsExact` | internal/connectors/ratelimit.go:62-63 | after a refusal a try after fewer nanoseconds than the returned wait is refused, one after more is granted, and one after exactly so many is granted if and only if nothing was cut off |
| `TokenBucket.TooLargeIsNeverGranted` | internal/connectors/ratelimit.go:58-61 | a request above the capacity is refused at any time |
| `RecordIds.Itoa` | internal/simulator/store.go:70-90 | the buffer loop writes the decimal digits of every int64, within bounds; for the least int64 only a sign |
| `RecordIds.Pad` | internal/simulator/store.go:60-68 | pads to six digits |
| `RecordIds.PadIsFixed` | internal/simulator/store.go:60-90 | a padded number is its fixed-width decimal form |
| `RecordIds.OrderedBelowMillion` | internal/simulator/store.go:54-68 | ids below one million sort in byte order as they were generated |
| `RecordIds.NextIdOrderedExactly` | internal/simulator/store.go:49-68 | the next id sorts after the last one if and only if it adds no seventh or later digit |
| `Simulator.Store.InsertRecord` | internal/simulator/store.go:145-153 | adds one record under the next generated id |
| `Simulator.Store.UpdateRecord` | internal/simulator/store.go:155-168 | merges data into an existing record and raises its version; reports an unknown id |
| `Simulator.Store.SoftDeleteRecord` | internal/simulator/store.go:170-182 | marks an existing record deleted and keeps it listed |
| `Simulator.Store.List` | internal/simulator/store.go:92-133 | the page and copies of its records are the first after the cursor, since the given time, in the only sorted order of the keys; the next cursor is set exactly on a full page |
| `Listings.SortStrings` | internal/simulator/store.go:96-100 | returns the keys, each once, in ascending order |
| `Simulator.PageOfIs` | internal/simulator/store.go:102-131 | without a since filter the page is a stretch of the sorted listing after the cursor |
| `Simulator.WalkQuiet` | internal/simulator/store.go:92-133 | calling List with its own next cursor until there is none returns the whole sorted listing of a store that does not change |
| `Listings.CutHolds` | internal/simulator/store.go:102-131 | the pages of an unchanging listing hold exactly the ids beyond the cursor |
| `Listings.CutApart` | internal/simulator/store.go:102-131 | no id is on two of them, or twice on one |
| `Simulator.CollectsPage` | internal/simulator/store.go:116-131 | without a since filter the collected page is a prefix of what follows the cursor |
| `Listings.PageExact` | internal/simulator/store.go:102-131 | a page holds exactly the ids beyond the cursor, up to its last one if it is full |
| `Paging.WalkReturnsEachOnce` | internal/simulator/store.go:92-133 | a walk over the pages List returns returns every record there at the start and no id twice, with any inserts, updates and deletes between pages |
| `Paging.WalkReturnsLateInserts` | internal/simulator/store.go:49-133 | below one million ids it returns exactly the records its last page saw, each once |
| `Paging.PassedIdsMissed` | internal/simulator/store.go:102-110 | an id that sorts before the cursor is not returned any more |
| `FullSync.Runner.Process` | internal/syncworker/worker.go:150-227 | what the worker does with a record for each fate, crashing anywhere: an id is claimed once and committed at most once, and a crash between the two cuts it off |
| `JobFates.WorkerDecides` | internal/syncworker/worker.go:150-227 | the worker itself, for every event and world, stays claimed exactly for the fates commit and drop, writes the ledger exactly for commit, and changes nothing for a claimed event |
| `FullSync.Runner.NeverCommittedExactly` | internal/syncjob/runner.go:161-169 | a record counted as processed was not committed if and only if it was dropped as stale, an echo or a parked conflict, was cut off by a crash, or had no policy |
| `FullSync.Runner.CutOffIsNeverCommitted` | internal/syncworker/worker.go:155-160 | a worker that crashes right after the claim leaves a record that every later run counts as processed and none commits |
| `FullSync.Runner.HandleRecord` | internal/syncjob/runner.go:139-168 | each live record is counted once, as processed or failed, and offered under its id or dead-lettered, unless a crash cuts it short |
| `FullSync.NextPage` | internal/syncjob/runner.go:127-136 | the page and record copies the store lists after the cursor are the next stretch of its ids, and the next cursor is its last id unless it is the last page |
| `FullSync.ListingLists` | internal/simulator/store.go:92-133 | the sorted listing of any store is the list of ids the job walks |
| `FullSync.Runner.WalkPage` | internal/syncjob/runner.go:139-169 | so for a page; with enough budget no crash occurs |
| `FullSync.Runner.Checkpoint` | internal/store/syncjobs.go:157-163 | persists cursor and counters so that the counters equal the live records up to the cursor, plus one full count per finished walk |
| `FullSync.Runner.Execute` | internal/syncjob/runner.go:117-191 | resumes from the row, lists the store by its own cursor and keeps that invariant wherever it is cut off; with enough budget it finishes the walk, and completes unless it dies right after its last checkpoint |
| `FullSync.Runner.RunWithCrashes` | internal/syncjob/runner.go:81-191 | after any number of crashes anywhere, a completed job has offered every valid live record under its id, committed each at most once, and counted each once per finished walk; it completes if some run has enough budget and does not die |
| `FullSync.CountsTwice` | internal/syncjob/runner.go:171-191 | a job that dies after its last checkpoint completes on the next run with every live record counted twice |
| `FullSync.JobEventIdInjective` | internal/syncjob/runner.go:239-241 | for job ids without a colon, event ids are equal if and only if job and record are |
| `FullSync.ColonSharesEventIds` | internal/syncjob/runner.go:239-241 | with a colon in a job id, two jobs share an event id |
| `FullSync.JobsShareIdsExactly` | internal/syncjob/runner.go:239-241 | two jobs can share an event id if and only if one job id is the beginning of the other up to a colon |

## Left out

- HTTP handlers, authentication, configuration, logging, metrics and tracing: outside the synchronisation core; of the operator API the model keeps replaying and discarding dead letters, and applying and dismissing findings.
- Multi-tenancy and row-level security: the model is one tenant; nothing crosses tenants.
- Conflict rows, source event statuses, origin fields and reconciliation run counters: written but not read back by the modelled logic.
- Fault injection, webhook dispatch and the load generator: test scaffolding.
- Provider values other than null, strings and booleans, and the hash function of the fingerprint.
- Failing store writes: a dead-letter insert that fails before its retry row is deleted loses the event, and is not modelled.
- Interrupted sweeps: the set of ids seen is not checkpointed by the code, and the sweep theorems are about uninterrupted runs.
- Edits to a provider from outside between the pages of a sweep: the sweep theorems are about the provider and the sweep's own repairs; `Paging` covers walks with edits between pages.
- A bound on the pages of a sweep and a budget of a full sync stand for running long enough; how much is enough is part of the statements.
- Claims.AppliedExactlyOnce: the steps between claim and commit are reads and destination writes; what the writes contain is the subject of the serial model in `Apply`.
- Convergence.OutOfOrderConverges: one source and one record; several sources are the subject of `MergeOrder` and `SourceVersions`.
- TokenBucket.WaitIsExact: real arithmetic instead of floating point, and no int64 overflow of the duration.
- FullSync.Runner.Process: what the worker decides is an argument; `JobFates` ties each decision to the worker, and `Apply` says what it depends on.
