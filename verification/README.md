# Parti: a Dafny model of the worker and of provisioning

Parti assigns partitions to workers through NATS JetStream. This project models four
parts of it and proves what they promise.

1. **The apply pipeline of a worker** (`Ordering`, `Pipeline`, `PipelineSafety`,
   `PipelineWakeup`, `PipelineNoLoss`, `PipelineDeliveries`, `PipelineConsumer`,
   `Debounce`). The commit
   watcher, the alias watcher, the two retry loops and the recovery refresh race to
   install assignments ordered by (Version, LeaderRevision). It is a transition system
   with any number of threads: every load, store, compare-and-swap and lock operation on
   a field another thread can see is one step, and the lock region of the apply core is
   split at each store. An Apply that fails may leave the consumer moved, part way or all
   the way. The theorems hold of every run. The debouncer in front of the
   commit handler is a class with its own loop.
2. **The lifecycle and degraded mode** (`Lifecycle`, `Recovery`, `ErrorWindow`). The
   state and the degraded record are two atomics changed lock-free by any number of
   threads. The sliding error window is the array slice the code appends to, trims and
   compacts in place, proved against the set of errors it should hold.
3. **The two-phase handoff** (`Claims`, `Handoff`, `HandoffSafety`, `HandoffRuns`,
   `HandoffLimits`, `HandoffFailure`, `HandoffHandover`, `HandoffPromotion`,
   `HandoffProgress`, `RemovalGuard`). Any number of workers apply one fixed commit
   through prepare, guard, update, commit and stabilize while background passes rewrite
   claims. Each claim write is a read followed, any time later, by a compare-and-set on
   the epoch.
4. **The provisioning reconciler** (`Provision`, `ProvisionAgreement`,
   `ProvisionSettled`, `ProvisionApply`, `ProvisionPlan`, `PartitionTable`,
   `PartitionDiff`, `PartitionWrite`). Planning, drift classification, the apply helpers
   with every request able to fail or to land unreported, the report, and the partition
   table.

Where a promise does not hold of the code, the code is modelled as it is, a lemma gives
the failing case, and another says when the promise holds:

- The stale gate ignores the leader revision between two version-0 assignments, so it is
  the lexicographic order except there (`Ordering.StaleIsLexLess`;
  `Ordering.VersionZeroIgnoresLeader` is an input).
- An alias raises the accepted-target fence before dual-read authority may drop it
  (`PipelineDeliveries.AliasAdmissionCanBeLost`); `PipelineNoLoss.OnlyDiscardsLose` names
  every step that can lose a target.
- After a failed Apply the worker need not consume what it last applied
  (`PipelineConsumer.FailedApplyMovesConsumer`). A failure keeps the match whatever it
  leaves exactly when the target has the same partitions
  (`PipelineConsumer.FailureKeepsMatchExactly`); the match holds whenever the lock is free
  and the last Apply succeeded, and always once the worker is at rest.
- A calculator sync that chose Stable can land on Degraded and leave the degraded record
  behind for good; the worker can then never degrade again
  (`Lifecycle.CalculatorSyncCanStrand`, `Lifecycle.StrandedForever`,
  `Lifecycle.StrandedExactlyByPlainSwap`). The comment at `manager_degraded.go:324` speaks
  of rolling the record back from Init and ClaimingID; the code also rolls back from
  Election, from Shutdown and when retries run out.
- The comment at `manager_degraded.go:165` takes the error window to be ascending, but
  errors can be appended out of time order, because the stamp is taken before the lock.
  Nothing that belongs is lost (`ErrorWindow.WindowKeepsBelonging`), but
  an older error behind a newer one can outlive the window
  (`ErrorWindow.OutOfOrderErrorOutlivesWindow`: stamps 10, 5 and 16 with a window of 10).
  The window is exact throughout if and only if no error arrives while a stale one stands
  behind one that stays (`ErrorWindow.ExactThroughoutExactly`). A window of zero would
  never be exact after an error; defaulting and validation make it positive
  (`manager.go:474-479`, `config.go:248`), so this does not arise.
- Among consumers that hold a partition from their last applied assignment and whose other
  transfers have settled, the partition can lose its last one exactly when its claim is
  missing or names a worker that does not consume it
  (`HandoffLimits.DroppedExactlyWhenUnprotected`). A partition can also be lost while its
  consumer holds it outside its last applied assignment, which a failed apply of an
  earlier commit can bring about (`HandoffLimits.UnrecordedConsumptionIsUnguarded`).
- A rebalance can finish exactly when no workers owe each other partitions in a circle:
  the guard on what a worker gives up stands before the update that would let it take what
  it gains (`HandoffProgress.FinishesExactlyWithoutRing`,
  `HandoffLimits.CircularTransferNeverCompletes`). One application of each worker is
  enough where their last applied assignments do not overlap
  (`HandoffProgress.FinishesInOneRoundExactly`), and two always are.
- A claim reset as expired between prepare and commit is committed in the old owner's
  name; the gainer finishes, both workers consume, and the old owner is never let go until
  the gainer applies again (`HandoffHandover.ExpiryStrandsTransfer`,
  `HandoffHandover.StuckUntilReapplied`). Only that reset does it
  (`HandoffHandover.UnnamedExactlyByReset`), and the first commit write to land decides
  (`HandoffPromotion.HandedOverExactly`).
- A stored empty instance label is repaired by an update that no finding announces
  (`ProvisionAgreement.SilentExactlyOnEmptyLabel`).
- A recreate whose delete lands but is reported cancelled loses the resource without an
  error (`ProvisionPlan.CancelledDeleteGoesUnreported`); `ProvisionPlan.ApplyPlan` states
  that nothing else does.
- Static validation accepts two control-plane buckets with one name. Some state of that
  bucket settles both exactly when the policy can bring it to both
  (`ProvisionPlan.SharedNameSettlesExactly`); otherwise every plan has an action, unless
  Parti does not manage the bucket (`ProvisionPlan.SharedNameNeverSettles`).

## Model

| member | source | states |
|---|---|---|
| `Ordering.StaleIsLexLess` | manager_assignment.go:1411-1419 | the stale gate agrees with the lexicographic order on (Version, LeaderRevision) if and only if the two are not version-0 assignments with rising leader revisions |
| `Ordering.StashHoldsNewest` | manager_assignment.go:1485-1523 | after any offers the apply stash holds one whose coordinate no offer exceeds, with the identity of the last offer made at that coordinate |
| `Ordering.FetchStashHoldsNewest` | manager_assignment.go:1525-1537 | the same for the commit-fetch stash |
| `PipelineSafety.HandedInOrder` | manager_assignment.go:1699-1777 | in every interleaving the targets handed to the coordinator's Apply, failed calls included, never go back in order |
| `PipelineSafety.NothingRegresses` | manager_assignment.go:1816-1916 | between any two instants of a run the snapshot, the last applied assignment, the leader-revision fence and the accepted-target fence never go back |
| `PipelineSafety.SnapshotIsFenced` | manager_assignment.go:1816-1856 | at every instant, mid-apply included, the leader-revision fence covers the snapshot and the snapshot is at or past the last applied assignment |
| `PipelineSafety.HeartbeatMatchesLastApplied` | manager_assignment.go:1816-1888 | whenever the apply lock is free the heartbeat acknowledges exactly the last applied assignment, however many applies failed |
| `PipelineWakeup.NoLostWakeup` | manager_assignment.go:1959-2230 | for each retry loop the active flag has at most one owner and is set exactly while it has one; while the context is live a nonempty stash has a running loop, an exiting loop yet to re-check, or a producer yet to activate |
| `PipelineNoLoss.NothingLost` | manager_assignment.go:1128-1246 | in every run without a deliberate discard, the newest admitted target is applied or still held by a thread or stash |
| `PipelineNoLoss.OnlyDiscardsLose` | manager_assignment.go:1128-1246 | a step of a reachable state loses the newest target if and only if it is one of the named discards and nothing else holds it |
| `PipelineConsumer.ToldLastApplied` | manager_assignment.go:1543-1549 | every call of Apply is told the target of the last call that succeeded, or what the run started from, however far refreshes pushed the snapshot |
| `PipelineConsumer.ConsumedBetween` | manager_assignment.go:1762-1815 | at every instant the worker consumes at least what its last applied assignment shares with every target that failed since, and at most these together |
| `PipelineConsumer.ConsumerMatchesLastApplied` | manager_assignment.go:1762-1888 | whenever the apply lock is free and the last Apply did not fail, the consumed partitions are exactly those of the last applied assignment |
| `HandoffFailure.PhasesRefineFailedApply` | internal/assignment/handoff/twophase.go:347-441 | what the phases can leave a worker consuming, at rest with its old record, once its transfers have settled, is exactly what the one step standing for a failed Apply in the worker pipeline can leave |
| `HandoffFailure.RunKeepsBetween` | internal/assignment/handoff/twophase.go:395-415 | at every instant of every run a worker consumes at least what its start and its assignment share and at most the two together |
| `PipelineConsumer.FailureKeepsMatchExactly` | internal/assignment/handoff/twophase.go:395-415 | the match survives every outcome of a failed Apply if and only if the target has the partitions already consumed |
| `PipelineConsumer.FailedApplyMovesConsumer` | manager_assignment.go:1779-1815 | from every started worker, for every newer commit the handler takes, a run leaves any such set with the lock free and the old assignment still the last applied |
| `PipelineConsumer.QuiescentWorkerIsUpToDate` | manager_assignment.go:2003-2230 | when every thread has finished, the newest admitted target and the newest snapshot have been applied and exactly their partitions are consumed, because every failed target was applied again or superseded |
| `PipelineDeliveries.CommitFedRunLosesNothing` | manager_assignment.go:1114-1246 | runs fed by one commit watcher and recovery refreshes, with own labels and a live context, lose nothing and never use the in-flight coalescing stash |
| `PipelineDeliveries.AliasAdmissionCanBeLost` | manager_assignment.go:646-716 | a run in which an alias raises the fence and is then dropped for good |
| `Debounce.AssignmentChanged` | manager_assignment.go:1011-1032 | the forced-flush test is inequality of this worker's view, absent or payload hash |
| `Debounce.CommitDebouncer.constructor` | manager_assignment.go:814-827 | a new debouncer has nothing pending, and debounces exactly when its window is positive |
| `Debounce.CommitDebouncer.Stage` | manager_assignment.go:852-896 | keeps the history faithful; drops exactly a commit older than the pending one; otherwise accepts it as the pending one |
| `Debounce.CommitDebouncer.Flush` | manager_assignment.go:898-905 | dispatches exactly what was pending and keeps the history faithful |
| `Debounce.RunSession` | manager_assignment.go:921-965 | for every stream and every placement of timer firings, dispatched plus pending is a subsequence of the accepted commits with the same last commit and the same stutter-free views; a stream whose versions never go down is accepted whole; without a window everything is dispatched |
| `Lifecycle.DegradedHasRecord` | manager_degraded.go:324-432 | in every interleaving Degraded implies a degraded record, and at most one thread is between the two writes of an entry or exit |
| `Lifecycle.EveryChangeIsAnEdge` | manager_state.go:101-191 | every state change of every run is an edge of the table |
| `Lifecycle.ShutdownIsFinal` | manager_state.go:168-191 | Shutdown is never left |
| `Lifecycle.StrandedExactlyByPlainSwap` | manager_state.go:101-144 | a step leaves a record behind outside Degraded if and only if it is a plain transition's swap away from Degraded |
| `Lifecycle.StrandedForever` | manager_degraded.go:324-432 | a record left behind never changes and the worker never enters Degraded again |
| `Lifecycle.RecordMeansDegraded` | manager_degraded.go:324-432 | without such a swap a record always means Degraded, or an entry or exit in progress |
| `Lifecycle.CalculatorSyncCanStrand` | manager_state.go:206-262 | a run in which the calculator sync leaves the record behind |
| `Recovery.RecoveryClearsOnlyWhatItJudged` | manager_degraded.go:469-605 | with one recovery thread, no other exit and no rolled-back entry: whenever recovery clears a record, it is the one it loaded, in place since; and after the load, in order, the snapshot it read was applied with full identity, the exhaustion latch was unset, and the signal its reason waits for was later than the record's start |
| `ErrorWindow.MarkedErrorsSplit` | kv_error_classify.go:53-67 | for every error of a periodic operation: stream-missing ones never enter the window; others enter as transient exactly when tagged unavailable or a timeout other than whole-bucket loss, and as whole-bucket loss exactly when that and not tagged |
| `ErrorWindow.TrimIsFilterExactly` | manager_degraded.go:161-180 | the head trim after an append keeps exactly the events after the window's start if and only if no stale event stands behind one that stays |
| `ErrorWindow.ExactThroughoutExactly` | manager_degraded.go:133-203 | for every history and every window: after every operation the kept window is exactly the errors since the last reset within the window of every later error and, if transient, with no later healthy operation, if and only if at every error the window is positive and no stale error stands behind one that stays |
| `ErrorWindow.WindowIsExact` | manager_degraded.go:133-203 | so it is exact for every time-ordered history and positive window |
| `ErrorWindow.WindowKeepsBelonging` | manager_degraded.go:153-203 | for every history, in time order or not, and every window, no error that belongs is lost |
| `ErrorWindow.OutOfOrderErrorOutlivesWindow` | manager_degraded.go:153-203 | errors stamped 10, 5 and 16 with a window of 10 leave all three, though only 10 and 16 belong |
| `ErrorWindow.Compact` | manager_degraded.go:262-289 | the in-place filter leaves exactly the lasting errors, in order |
| `ErrorWindow.Circuit.RecordError` | manager_degraded.go:133-203 | an admitted error extends the history and the slice stays equal to its replay; the degraded reason is returned exactly at the threshold, with the reason its class calls for |
| `ErrorWindow.Circuit.RecordSuccess` | manager_degraded.go:240-255 | a full reset empties the window |
| `ErrorWindow.Circuit.RecordHealthyOp` | manager_degraded.go:262-289 | a healthy operation drops exactly the transient errors |
| `HandoffSafety.StepIsSteady` | internal/assignment/handoff/twophase.go:458-760 | no step of any worker or background pass moves the ownership of a batch claim before the claim's target consumes, and a target that consumes keeps consuming |
| `HandoffSafety.NeverWithoutConsumer` | manager_assignment.go:2340-2388 | in every interleaving a batch partition protected at the start that has a consumer at some instant has one at every later instant |
| `HandoffLimits.DroppedExactlyWhenUnprotected` | internal/assignment/handoff/twophase.go:537-652 | for any number of consumers whose other transfers have settled, some interleaving leaves the partition without a consumer if and only if it is unprotected at the start |
| `HandoffLimits.UnrecordedConsumptionIsUnguarded` | manager_assignment.go:2396-2409 | a partition consumed outside the last applied assignment is dropped without the guard looking |
| `HandoffLimits.CircularTransferNeverCompletes` | internal/assignment/handoff/twophase.go:347-441 | in no run does a worker in a ring of owed transfers change what it consumes or lose its claim |
| `HandoffProgress.FinishesExactlyWithoutRing` | internal/assignment/handoff/twophase.go:347-441 | with every assigned worker there and every owed transfer claimed by its giver, some run lets every worker finish if and only if there is no such ring, and then in two applications each |
| `HandoffProgress.FinishesInOneRoundExactly` | internal/assignment/handoff/twophase.go:347-441 | the same in exactly one application each, where no worker lists a partition it is still owed as already applied |
| `HandoffLimits.ExchangeNeverHappens` | manager_assignment.go:2340-2388 | two workers that should exchange one partition each never do |
| `HandoffHandover.UnnamedExactlyByReset` | internal/assignment/handoff/twophase.go:1309-1328 | a step stops a batch claim from naming its target if and only if it lands an expired reset on a claim that names the target as pending and is owned by another worker |
| `HandoffHandover.NamedReadsHandOver` | internal/assignment/handoff/twophase.go:663-712 | a worker that finishes, all of whose commit reads of a partition since it began found the claim naming it, owns that claim and consumes the partition from then on, whatever expires |
| `HandoffHandover.FinishedIsHandedOver` | internal/assignment/handoff/twophase.go:663-712 | the same when no expired reset lands on that claim between its prepare and its commit read |
| `HandoffHandover.ResetIsFinal` | internal/assignment/handoff/twophase.go:663-712 | a reset in that window, with nothing of the target in flight, leaves the claim with another worker until the target begins again |
| `HandoffHandover.OneReadHandsOverExactly` | internal/assignment/handoff/twophase.go:663-712 | an attempt that reads the claim once in its commit phase, with nothing else of its own on it in flight before, hands the partition over if and only if no expired reset lands on it between prepare and that read |
| `HandoffPromotion.HandedOverExactly` | internal/assignment/handoff/twophase.go:663-712 | every attempt that finishes, however often it reads and whatever is in flight, hands the partition over if and only if no commit write that moved the prepared claim on was made from a claim not naming the worker; the first such write decides |
| `HandoffHandover.NextRebalanceIsProtected` | internal/assignment/handoff/twophase.go:347-441 | a partition handed over is consumed and protected whatever the next commit assigns |
| `HandoffHandover.ExpiryStrandsTransfer` | manager_handoff.go:134-196 | a reset between prepare and commit lets the gainer finish while the claim stays with the old owner, which still has to give the partition up |
| `HandoffHandover.StuckUntilReapplied` | manager_assignment.go:2340-2388 | in no run in which the gainer does not apply again does that owner stop consuming |
| `RemovalGuard.RemovedIsDifference` | manager_assignment.go:2396-2409 | the removals are exactly the partitions of previous that next lacks |
| `RemovalGuard.PermitsExactlySettledTransfers` | manager_assignment.go:2340-2388 | the guard permits an update if and only if every batch partition given up has a readable claim another worker holds in commit or stable |
| `RemovalGuard.Guard.FanOut` | manager_assignment.go:2486-2503 | the fan-out is the union of all payloads, or fails exactly when some payload cannot be fetched |
| `RemovalGuard.Guard.CurrentBatch` | manager_assignment.go:2424-2454 | with any commits published meanwhile, the answer is the fan-out of the commit that was read, or a payload error only when one of its payloads is unfetchable; a cache hit never depends on payload reads, and an answered commit is a hit next time |
| `RemovalGuard.Guard.Check` | manager_assignment.go:2340-2388 | the cached guard gives the uncached guard's verdict on the same read, or a batch error only when a payload of that read is unfetchable and its batch is not cached |
| `RemovalGuard.Replay` | manager_assignment.go:2424-2480 | over every run of publishes, deletes and reads each answer is the fan-out of the entry live at that moment, unless a payload of that entry is unfetchable |
| `ProvisionAgreement.MutableAgreement` | provision/plan.go:314-400 | on a managed resource the update target differs from live if and only if a mutable finding is reported or an empty instance label is stored where none is wanted |
| `ProvisionAgreement.ImmutableAgreement` | provision/apply_recreate.go:319-343 | an immutable finding is reported if and only if the re-check before the delete still sees drift |
| `ProvisionAgreement.SilentExactlyOnEmptyLabel` | provision/plan_streams.go:241-368 | the classifier reports nothing if and only if the resource has such a label, no mutable field differs and the re-check before a delete sees no drift |
| `ProvisionAgreement.EmptyLabelGoesUnreported` | provision/plan.go:412-451 | every resource has a live state with no finding for which an update is planned |
| `ProvisionAgreement.UpdateKeepsImmutable` | provision/plan.go:437-468 | an update changes neither storage, history, retention, component nor any foreign field or label |
| `ProvisionSettled.SettledAfterCreate` | provision/plan.go:298-309 | a created resource, as the server stores it, needs nothing under any policy |
| `ProvisionSettled.SettledAfterUpdate` | provision/plan.go:461-468 | an updated resource needs nothing more under the policy that updated it |
| `ProvisionSettled.SettledAfterStamp` | provision/plan.go:412-424 | a stamped resource needs nothing more under adopt |
| `ProvisionApply.ExecuteCreate` | provision/apply.go:199-225 | a create touches only its resource, succeeds when planned on unchanged state unless its request fails, and success settles the resource |
| `ProvisionApply.ReconcileUpdate` | provision/apply_update.go:70-136 | how an update ends from what its re-read found: missing, undescribed, converged, stale, failed or written |
| `ProvisionApply.StampWith` | provision/apply_update.go:176-240 | the same for a marker stamp, which has no stale check |
| `ProvisionApply.Rebuild` | provision/apply_recreate.go:93-156 | the same for a recreate; any failure after the delete is an error, never a cancellation |
| `ProvisionApply.Execute` | provision/apply.go:160-190 | any action touches only its resource; planned on unchanged state it succeeds unless a request fails, and success settles its resource; a resource it makes disappear is an error unless the delete was cancelled after landing |
| `ProvisionPlan.Plan` | provision/plan.go:130-214 | the loops propose for every resource what its own live state calls for |
| `ProvisionPlan.Skip` | provision/apply.go:283-289 | every remaining action is skipped once, in order, with the given reason |
| `ProvisionPlan.Fold` | provision/apply.go:241-266 | one outcome is recorded in exactly one place and the rest is skipped on failure or cancellation |
| `ProvisionPlan.ApplyPlan` | provision/apply.go:80-140 | executed, then at most one error, then skipped lists every action once in order and an aborted report has no error; every vanished resource is accounted for; a plan made from the starting state, in any order, succeeds unless a request fails, and after success planning finds nothing |
| `ProvisionPlan.AllSettled` | provision/plan.go:34-90 | once every planned action has been carried out the next plan is empty |
| `ProvisionPlan.CancelledDeleteGoesUnreported` | provision/apply_recreate.go:125-140 | a delete that lands but is reported cancelled removes the resource and leaves no error |
| `ProvisionPlan.SharedNameSettlesExactly` | provision/plan.go:106-214 | for two control-plane buckets of one name, some managed state needs no action for either if and only if, where the policy updates, their expiry and replicas agree and, where it may recreate for both, their storage and component too |
| `ProvisionPlan.SharedNameNeverSettles` | provision/plan.go:106-214 | two such buckets the policy cannot bring together leave every plan nonempty unless the bucket is unmanaged |
| `PartitionTable.CanonicalIdIsInjective` | types/partition.go:164-178 | two key tuples with one canonical id are equal |
| `PartitionTable.TablesEqual` | provision/apply_partitions.go:322-343 | equal length and one-way lookup decide equality of duplicate-free tables |
| `PartitionTable.CountRemovals` | provision/apply_partitions.go:347-361 | the count is the number of records the write would delete |
| `PartitionDiff.Diff` | provision/partition_records.go:168-211 | the parts hold exactly the new, gone and altered records, each sorted by identity |
| `PartitionDiff.PatchMakesDesired` | provision/partition_records.go:168-211 | applying a diff to the live table gives exactly the declared one |
| `PartitionDiff.PatchUndone` | provision/partition_records.go:168-211 | the reversed diff gives back the live table |
| `PartitionDiff.PartsDisjoint` | provision/partition_records.go:168-211 | no record is in two parts |
| `PartitionDiff.EmptyExactlyWhenEqual` | provision/apply_partitions.go:322-343 | a diff is empty if and only if the tables are equal |
| `PartitionDiff.PlanWrite` | provision/partition_records.go:49-123 | a write is planned exactly when the tables differ, and it turns live into declared and back |
| `PartitionWrite.Decide` | provision/apply_partitions.go:215-244 | converged, stale, would-remove and proceed, each if and only if the tables and the prune flag say so |
| `PartitionWrite.CompareAndSet` | provision/apply_partitions.go:246-272 | a landed write replaces exactly the table that was read |
| `PartitionWrite.ApplyWrite` | provision/apply_partitions.go:197-281 | against any concurrent writers: success means the table equalled the target at some instant of the call; a landed write replaced a table equal to the planned one and dropped records only with prune; otherwise this call wrote nothing; undisturbed, it succeeds exactly when the table is the target or the planned one and nothing is dropped without prune |

## Left out

- NATS calls, hooks, metrics, logging, JSON, gzip and jitter: outcomes are parameters or free choices of the environment; only the wall-clock order of stamps is kept.
- Load-and-swap loops that raise a maximum or offer to a stash are one step each, taken at the winning swap or the load that gives up; `transitionState` keeps its separate load and swap and its 16 retries.
- The coordinator's Apply inside the worker pipeline is one step: it succeeds with the target consumed, or fails with any set left between what was consumed and the target; its phases are modelled in `Handoff`.
- Payloads travel inside the commit with their content hash; the partition-set digest is the set itself.
- Startup stores that bypass the gates: runs start from a state that satisfies the invariants.
- PipelineDeliveries.CommitFedRunLosesNothing: does not cover alias deliveries, for which the promise is false, nor several commit handlers at once, which the shipped watcher never runs.
- HandoffSafety.NeverWithoutConsumer: covers one commit at a time; at the start no claim write of an earlier commit is in flight and every worker consumes only what it last applied or is now assigned; the reap of orphaned claims spares the batch.
- Recovery.RecoveryClearsOnlyWhatItJudged: assumes one recovery thread, no other exit and no entry that has to be rolled back.
- Handoff: partition hashes and subject keys are taken to identify partitions; claim epochs are unbounded and positive; TTL expiry is a free choice; an updater that fails may leave anything between what it consumed and what it should.
- RemovalGuard.Guard.CurrentBatch: relies on revisions of the commit key never being reused, which a deleted and recreated bucket would break.
- Provisioning: the plan's drift list and the sort of its actions are not modelled, because the laws are proved for every order of the actions; consumer actions, dynamic consumers and the view command are left out.
- Provisioning: a bucket's fields outside the key-value projection are one opaque value; the server stores 0 replicas as 1 and 0 limits as -1 and may add labels other than the ownership markers.
- Partition tables: decoding and validation give duplicate-free tables; keys are character sequences rather than bytes.
- The calculator, election, heartbeat publisher, durable consumer layer, partition strategies and rate limiters are not part of this model.
