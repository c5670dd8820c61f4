# ferrosa in Dafny

A model of the parts of ferrosa whose correctness rests on an argument about every run or
every input, and proofs of those arguments. `dafny verify dfyconfig.toml` checks the whole
project. Each module stands for one component. The protocols are state machines whose steps
are the code's atomic actions: one lock section, one atomic update, one read or write of a
file. Where the model joins several, "Left out" says so. Where the code updates objects in
place there is a class whose methods are proved to take exactly those steps.

| module | component | main results |
|---|---|---|
| `PairAuthority` | durable pair authority, fencing and handoff | `PairIsSafe`, `WritableExactlyWithToken`, `StaleGrantTooLate` |
| `DepWaitGraph`, `DepWaitApplier` | dependency-ordered Accord apply | `ClosesCycle`, `Engine.TryApply`, `CascadeShrinks`, `EarlierWaitsNeverRefused` |
| `DepWaitReclaim` | sweeping stale parks while applies run | `AppliesInDependencyOrder`, `HollowExactly`, `NeverMarkedExactly` |
| `CompactionIntent` | crash-safe replacement of SSTables | `ReopensWhole`, `GuardExactly`, `Directory.ReconcileAll` |
| `CellOrder`, `CompactionPurge` | last-write-wins merging and tombstone purge | `Associative`, `MergeAnyOrder`, `CompactedReadsSame` |
| `RecoveredReads` | recovery of compactions that purge | `RecoveredReadsSame`, `RecoveredExactly`, `RecoveredUndeleted` |
| `DisjointRuns` | grouping SSTables into runs, the range merger | `GroupRuns`, `CrowdNeedsRuns`, `ScanBothWays` |
| `SpillPool` | node-wide spill accounting | `PoolIsBounded`, `DocumentedBound`, `OneSpillIsEnough` |
| `FairQueue` | two-level fair scheduling and admission | `GroupsStayTogether`, `OneChargeExactly` |
| `WindowedStream` | windowed internode range streams | `ServeWindow`, `Forward`, `WindowFits` |
| `ViewDelta` | incremental view maintenance | `MaintainedIsRecomputed`, `ReplayedInAnyOrder`, `CellwiseExactly` |
| `CrateDag`, `Fingerprint` | crate order and crate fingerprints of the measurement inventory | `Dag`, `FeedsExactlyReachable`, `UnchangedByOtherEdits` |
| `CfgExpr` | evaluation of cfg expressions | `PrintedValue`, `DropsOnlyDeadModules` |
| `Coverage`, `Adoption`, `StateFile` | resumed sweeps, adopted rows, the shared state file | `SweepSettlesExactly`, `RunsStayHonest`, `RivalNeverReplaced`, `StoreExactly` |
| `BraceScanner` | the line scanner for test modules | `InCfgTestModule` |

`Base` and `Graphs` hold what several modules share.

## Where a promise holds only under a condition

In these places the code does less than its documentation, or than one would expect of it.
The model follows the code; a lemma shows the failing case and another says exactly when
the promise holds.

- Startup reconciliation ends with all inputs or the output if and only if no output is torn
  or stands beside one of its inputs (`ReopensWhole`). A recovery whose removals work always
  gets there (`RecoveryCleans`). The invariant behind it needs three guards the code does not
  have: not compacting an output one of whose own inputs is still on disk
  (`ConsumingOrphans`, `StuckInputResurrected`), not rolling back without removing the output
  (`RollbackOrphans`, `LeftoverOrphans`), and not opening past a recovery that is not clean.
  The first two are exact (`GuardExactly`): without them a file is left that no record names,
  and it returns at the next start (`OrphanReturns`).
- Compaction with purge leaves reads unchanged if and only if none of three situations
  involving partition deletions shows anything (`CompactedReadsSame`; `ReinsertedChanges`,
  `ExposedChanges` and `StrippedChanges` are the cases). They come from dropping whole rows
  by their liveness. Without partition deletions reads never change
  (`CompactionInvisible`), and static rows never do (`StaticReadsSame`).
- The cluster README says a mutation persists only once all its dependencies have applied
  locally. A dependency of which the node holds no state is not awaited
  (`UnknownDependencyNotAwaited`); one it knows is (`KnownDependenciesInOrder`).
- The same README says that a reclaimed transaction can never be woken into a false Applied.
  A sweep for stale parks clears waits and drops parks in separate lock sections, and it
  does not take the apply gate. So it can drop the park of a write-set that a cascade has
  woken and not reached (`SnatchBreaksOrder`), or the new park of one that was submitted
  again after its waits were cleared (`ResubmittedSnatched`). That write-set is then marked
  applied with nothing persisted, and later ones become durable on it. This can happen if
  and only if a sweep drops the park of a transaction that is woken or waits
  (`HollowExactly`, `NakedExactly`, `ReclaimedNeverApplied`). A sweep is safe if none of its
  transactions is woken when their waits are cleared and none is submitted again before they
  are dropped (`UntouchedSweepSafe`).
- Two backlogged groups stay within one maximum charge of each other in all runs if and only
  if there is a single slot (`OneChargeExactly`); with more, within one charge for each slot
  (`GroupsStayTogether`). The group floor rises on picks only, so a group that arrives while
  another runs alone can undercut it by more than the boost (`ArrivalUndercutsExactly`,
  `ArrivalFarBehind`).
- Windows deliver each row once (`Forward`) unless a window is a single chunk of a single
  fragment: every such window can rewind into rows already delivered (`TinyWindowRewinds`).
- A slow consumer cannot close a route if and only if fewer than sixteen heartbeats ever wait
  in its buffer (`HeartbeatsExactly`).
- A grant of higher generation that answers an older challenge uses up the challenge held
  now. In no run does that cost the pair its writer: when such a grant arrives, the role is
  lost already (`StaleGrantTooLate`). What loses it is a prepare that is delivered again
  ahead of the grant (`PreparedAgainFences`): safe, but both members stay fenced.
- The inventory script says that merging one crate into the current file makes distinct
  crates safe, and that checking for a newer row makes the same crate safe. Nothing is
  locked from the check to the write, and the whole file is written back. So a row of
  another crate can vanish (`LostRow`), and a run that has given a crate up can put an older
  row of it back (`RivalReplaced`). A store keeps the other rows and every rival's row if and
  only if those rows are still what the run read and the row it replaces is not a rival's
  (`StoreExactly`). Over runs all of whose stores meet this, rows only get newer and a
  rival's row is never replaced (`RowsOnlyGetNewer`, `RivalNeverReplaced`); runs that take
  turns from the check to the write do (`TurnsAreCareful`).
- A rival's row in the state file is recognised if and only if it was stamped in a later
  second than the one this run started in, and in none this run stamped the crate in
  (`RecognisedExactly`, `SameSecondRivalOverwritten`).
- A row left by an interrupted sweep can settle (`InterruptedRowSettles`), and so can rows
  carried over from another fingerprint (`StalePriorSettles`);
  `InterruptedSettlesExactly` and `SweepSettlesExactly` say when.
- A view upsert lists only columns that are not null. Replacing the row with it is exact
  (`MaintainedIsRecomputed`); merging it cell by cell keeps the view recomputed if and only if
  no change takes a shown value away and leaves the view row in place (`CellwiseExactly`).

## Model

| member | source | states |
|---|---|---|
| `PairAuthority.PairMember.constructor` | ferrosa-cluster/src/pair/node.rs:122-143 | a member comes up fenced: its durable record is kept, no challenge is held and its writer is closed |
| `PairAuthority.PairMember.CurrentGeneration` | ferrosa-cluster/src/pair/authority.rs:42-65 | an absent record reads as generation 0 |
| `PairAuthority.PairMember.StoreRecord` | ferrosa-cluster/src/pair/authority.rs:67-108 | a failed write leaves either the old record or the new one on disk and reports failure |
| `PairAuthority.PairMember.HandlePrepare` | ferrosa-cluster/src/pair/switchover.rs:263-286 | only a fenced member answers, with a new challenge that replaces the one it held |
| `PairAuthority.PairMember.HandleGrant` | ferrosa-cluster/src/pair/switchover.rs:287-307 | a grant opens the writer only above the stored generation, against the held challenge, after the record is durable; a grant above the stored generation uses up the held challenge, accepted or not |
| `PairAuthority.PairMember.FinishSwitchover` | ferrosa-cluster/src/pair/switchover.rs:118-192 | the old writer is closed and its record durable before the grant leaves |
| `PairAuthority.PairMember.Connect` | ferrosa-cluster/src/controller/pair.rs:73-109 | an open writer stays open only while the record names this member; without a record the deterministic first owner opens, once its record is durable |
| `PairAuthority.BeginKeeps` | ferrosa-cluster/src/pair/switchover.rs:118-192 | starting a handoff keeps the protocol invariant |
| `PairAuthority.TimeoutKeeps` | ferrosa-cluster/src/pair/switchover.rs:118-192 | giving up on a handoff keeps the invariant |
| `PairAuthority.RestartKeeps` | ferrosa-cluster/src/pair/node.rs:122-143 | a restart at any point keeps the invariant |
| `PairAuthority.PrepareKeeps` | ferrosa-cluster/src/pair/switchover.rs:276-286 | delivering, or redelivering, a prepare keeps the invariant |
| `PairAuthority.ConnectKeeps` | ferrosa-cluster/src/controller/pair.rs:73-109 | bootstrap keeps the invariant |
| `PairAuthority.ReadyKeeps` | ferrosa-cluster/src/pair/switchover.rs:118-192 | withdrawing on a ready keeps the invariant: the one live grant is the new one and no writer is open |
| `PairAuthority.PromotedByLiveGrant` | ferrosa-cluster/src/pair/switchover.rs:287-307 | a writer is opened by a grant only if that grant was the live one |
| `PairAuthority.GrantKeeps` | ferrosa-cluster/src/pair/switchover.rs:287-307 | delivering any grant, stale or duplicated, keeps the invariant |
| `PairAuthority.StepKeeps` | ferrosa-cluster/README.md:1330-1350 | every step of the protocol keeps the invariant |
| `PairAuthority.StepMovesForward` | ferrosa-cluster/src/pair/authority.rs:67-108 | no step lowers a stored generation or rewrites the promotion log |
| `PairAuthority.RunKeeps` | ferrosa-cluster/README.md:1330-1350 | the invariant holds after every run with lost, repeated and reordered messages, timeouts and restarts |
| `PairAuthority.RunMovesForward` | ferrosa-cluster/README.md:1330-1350 | generations never decrease over any run |
| `PairAuthority.PairIsSafe` | ferrosa-cluster/README.md:1330-1350 | over every run at most one writer is open, promotions carry strictly increasing generations and each challenge promotes at most once |
| `PairAuthority.LostTokenStaysLost` | ferrosa-cluster/README.md:1330-1350 | with no writer, no live grant and bootstrap past, no step makes one |
| `PairAuthority.LostTokenRun` | ferrosa-cluster/README.md:1330-1350 | the same over every run |
| `PairAuthority.WritableExactlyWithToken` | ferrosa-cluster/README.md:1330-1350 | the pair can reach an open writer if and only if one is open, a live grant is on its way, or bootstrap has not happened |
| `PairAuthority.RestartLosesToken` | ferrosa-cluster/src/pair/node.rs:122-143 | after the writer restarts no run without an operator opens a writer again |
| `PairAuthority.SoleRun` | ferrosa-cluster/src/pair/switchover.rs:118-192 | in every run, while a grant is not recorded by the member it is for, nobody writes and there is no other such grant |
| `PairAuthority.StaleGrantTooLate` | ferrosa-cluster/src/pair/switchover.rs:287-297 | in every run, a grant of higher generation with the wrong challenge is delivered only when the pair could not have written again anyway |
| `PairAuthority.PreparedAgainFences` | ferrosa-cluster/src/pair/switchover.rs:276-286 | a prepare delivered again before a live grant fences both members for good, without an operator |
| `DepWaitGraph.DfsCycle` | ferrosa-cluster/src/accord/dep_wait.rs:411-448 | the depth-first search returns a real cycle, or a topological order that contains the start vertex |
| `DepWaitGraph.ClosesCycle` | ferrosa-cluster/src/accord/dep_wait.rs:400-448 | on an acyclic graph the search from the waiter finds a cycle if and only if the new edge closes one, and what it reports is a cycle |
| `DepWaitGraph.WaitGraph.constructor` | ferrosa-cluster/src/accord/dep_wait.rs:105-115 | a new board has no waits and is well formed |
| `DepWaitGraph.WaitGraph.RegisterWait` | ferrosa-cluster/src/accord/dep_wait.rs:135-170 | refuses exactly the waits that would close a cycle, leaves the forward edges as they were on refusal, ignores applied dependencies, and keeps the graph acyclic |
| `DepWaitGraph.WaitGraph.MarkApplied` | ferrosa-cluster/src/accord/dep_wait.rs:196-222 | returns exactly the waiters left with nothing to wait for, each once |
| `DepWaitGraph.WaitGraph.ClearWaits` | ferrosa-cluster/src/accord/dep_wait.rs:229-242 | drops every wait of one transaction and nothing else |
| `DepWaitGraph.WaitGraph.Waive` | ferrosa-cluster/src/accord/dep_wait.rs:257-281 | drops one wait, and reports the waiter free exactly when that was its last one |
| `DepWaitGraph.WaitGraph.Forget` | ferrosa-cluster/src/accord/dep_wait.rs:336-346 | forgets applied transactions without touching waits |
| `DepWaitGraph.MarkedKeeps` | ferrosa-cluster/src/accord/dep_wait.rs:196-222 | marking keeps the graph well formed; the woken no longer wait |
| `DepWaitGraph.ClearedKeeps` | ferrosa-cluster/src/accord/dep_wait.rs:229-242 | clearing keeps the graph well formed |
| `DepWaitGraph.WaivedKeeps` | ferrosa-cluster/src/accord/dep_wait.rs:257-281 | waiving keeps the graph well formed |
| `DepWaitGraph.AddedKeeps` | ferrosa-cluster/src/accord/dep_wait.rs:135-170 | adding an accepted wait keeps the graph well formed and acyclic |
| `DepWaitGraph.StaleDropped` | ferrosa-cluster/src/accord/dep_wait.rs:152-168 | undoing a refused wait leaves the reverse index sound |
| `DepWaitGraph.StripWaiters` | ferrosa-cluster/src/accord/dep_wait.rs:196-222 | the loop over waiters removes the applied dependency from each and lists those left with none |
| `DepWaitGraph.StrippedIsMarked` | ferrosa-cluster/src/accord/dep_wait.rs:196-222 | stripping along the reverse index is the same as removing the vertex everywhere |
| `DepWaitGraph.SomebodyOutsideBlocks` | ferrosa-cluster/README.md:990-1013 | whenever anybody waits, some wait is on a transaction that is neither waiting nor applied: waiters never block only each other |
| `DepWaitApplier.RegisterAllKeeps` | ferrosa-cluster/src/accord/apply.rs:1658-1682 | registering all waits either refuses and leaves nothing, or accounts for every dependency as applied or awaited |
| `DepWaitApplier.NotWaitingMeansApplied` | ferrosa-cluster/src/accord/apply.rs:1658-1682 | a transaction that need not wait has every dependency applied |
| `DepWaitApplier.ClearedAllKeeps` | ferrosa-cluster/src/accord/apply.rs:1537-1551 | clearing the waits of a sweep takes exactly those transactions out of the waiters and keeps the graph well formed |
| `DepWaitApplier.SubmitKeeps` | ferrosa-cluster/src/accord/apply.rs:1696-1705 | registering a write-set, refused, waiting or not, keeps the invariant |
| `DepWaitApplier.ParkKeeps` | ferrosa-cluster/src/accord/apply.rs:1705-1717 | parking it keeps the invariant, also when a sweep cleared its waits in between or staging fails |
| `DepWaitApplier.StoreKeeps` | ferrosa-cluster/src/accord/apply.rs:1853-1862 | making a write-set durable keeps the invariant: each of its dependencies is marked or waived by then |
| `DepWaitApplier.MarkKeeps` | ferrosa-cluster/src/accord/apply.rs:1864-1866 | marking applied and waking waiters keeps the invariant |
| `DepWaitApplier.TakeKeeps` | ferrosa-cluster/src/accord/apply.rs:1835-1840 | taking the next woken transaction keeps the invariant, when nothing is parked for it too |
| `DepWaitApplier.NotifyKeeps` | ferrosa-cluster/src/accord/apply.rs:1878-1882 | an external applied notice keeps the invariant |
| `DepWaitApplier.WaiveKeeps` | ferrosa-cluster/src/accord/apply.rs:1822-1828 | waiving a dependency that executes later keeps the invariant |
| `DepWaitApplier.ClearKeeps` | ferrosa-cluster/src/accord/apply.rs:1537-1551 | the second lock section of a sweep keeps the invariant, whatever the apply in progress is at |
| `DepWaitApplier.DropKeeps` | ferrosa-cluster/src/accord/apply.rs:1552-1558 | the third one keeps it too |
| `DepWaitApplier.StepKeeps` | ferrosa-cluster/src/accord/apply.rs:1520-1882 | every lock section and every storage write keeps the invariant |
| `DepWaitApplier.RunKeeps` | ferrosa-cluster/src/accord/apply.rs:1520-1882 | the invariant holds after every run, with sweeps and forgetting between any two sections of an inbound apply |
| `DepWaitApplier.OrderedDeps` | ferrosa-cluster/src/accord/state_machine.rs:1196-1200 | exactly the dependencies that have local state and are not known to execute later are awaited |
| `DepWaitApplier.AppliesAtOnce` | ferrosa-cluster/src/accord/apply.rs:1719-1727 | a write-set without dependencies is registered, made durable and marked in three steps, and wakes exactly those that waited for it alone |
| `DepWaitApplier.UnknownDependencyNotAwaited` | ferrosa-cluster/src/accord/state_machine.rs:1196-1200 | an earlier dependency without local state is not awaited: the write set persists at once |
| `DepWaitApplier.CascadeShrinks` | ferrosa-cluster/src/accord/apply.rs:1833-1869 | every step under the gate uses up some of a bound on the work left and no sweep adds to it, so a cascade ends whatever falls into it |
| `DepWaitApplier.StuckOnlyFromOutside` | ferrosa-cluster/README.md:990-1013 | in every reachable state with waiters, something blocks that is itself neither parked nor applied |
| `DepWaitApplier.Engine.constructor` | ferrosa-cluster/src/accord/apply.rs:1431-1445 | a new engine has nothing parked, waiting or applied |
| `DepWaitApplier.Engine.MarkOne` | ferrosa-cluster/src/accord/apply.rs:1864-1866 | marking what is in hand is one step of the call |
| `DepWaitApplier.Engine.StoreOne` | ferrosa-cluster/src/accord/apply.rs:1853-1866 | a write-set is made durable and then marked, or the write fails and nothing is marked or reported |
| `DepWaitApplier.Engine.ApplyOne` | ferrosa-cluster/src/accord/apply.rs:1835-1866 | one iteration of the loop is steps of the call, reports the transaction exactly if its park became durable, and shrinks the work left |
| `DepWaitApplier.Engine.ApplyUnblocked` | ferrosa-cluster/src/accord/apply.rs:1833-1869 | the loop ends with an empty queue and returns exactly what the log reports applied, in order |
| `DepWaitApplier.Engine.RegisterWaits` | ferrosa-cluster/src/accord/apply.rs:1658-1682 | the loop over the dependencies, refusal and undoing included, computes the specified registration |
| `DepWaitApplier.Engine.ParkNow` | ferrosa-cluster/src/accord/apply.rs:1705-1717 | the write-set is parked, or its waits are cleared when staging fails |
| `DepWaitApplier.Engine.ApplyNow` | ferrosa-cluster/src/accord/apply.rs:1719-1727 | the write-set and what it unblocks, as steps of the call |
| `DepWaitApplier.Engine.TryApply` | ferrosa-cluster/src/accord/apply.rs:1696-1728 | one call of the state machine, from a registration to a free gate; returns exactly the transactions reported applied, in order |
| `DepWaitApplier.Engine.NotifyApplied` | ferrosa-cluster/src/accord/apply.rs:1878-1882 | the same for a no-write notice |
| `DepWaitApplier.Engine.WaiveDependency` | ferrosa-cluster/src/accord/apply.rs:1822-1828 | the same for a waiver |
| `DepWaitApplier.Engine.ReclaimStale` | ferrosa-cluster/src/accord/apply.rs:1520-1570 | a sweep with nothing in between is its three steps |
| `DepWaitApplier.RegisterAllOrdered` | ferrosa-cluster/src/accord/dep_wait.rs:135-170 | registering only earlier dependencies is never refused and keeps the waits in execution order |
| `DepWaitApplier.EarlierWaitsNeverRefused` | ferrosa-cluster/README.md:998-1005 | in every run whose write-sets list only earlier dependencies the waits follow the execution order and no submission is refused |
| `DepWaitReclaim.UnbrokenRun` | ferrosa-cluster/src/accord/apply.rs:1833-1869 | in a run in which no sweep drops an expected park, everything woken or waiting has its park when its turn comes |
| `DepWaitReclaim.AppliesInDependencyOrder` | ferrosa-cluster/README.md:990-1013 | in every run a write set persists only after each of its dependencies with an earlier timestamp was marked applied, which without a snatch means persisted or resolved without a write; and Applied always follows durable writes |
| `DepWaitReclaim.KnownDependenciesInOrder` | ferrosa-cluster/src/accord/state_machine.rs:1196-1200 | the same for a dependency this node knows, over the whole dependency set |
| `DepWaitReclaim.OutOfPlayRun` | ferrosa-cluster/src/accord/apply.rs:1520-1570 | a transaction that is not woken, waits for nothing and is not being applied is never marked until it is submitted or notified again |
| `DepWaitReclaim.DependencyApplied` | ferrosa-cluster/src/accord/apply.rs:1719-1727 | with the gate free a dependency of a waiter can be applied, a sweep in progress notwithstanding |
| `DepWaitReclaim.Resolvable` | ferrosa-cluster/src/accord/apply.rs:1833-1869 | whatever is woken, waits or is being applied can still be marked without coming back itself, and for nothing if it has no park |
| `DepWaitReclaim.NeverMarkedExactly` | ferrosa-cluster/src/accord/apply.rs:1833-1869 | a transaction is never marked before it comes back if and only if it is not woken, waits for nothing and is not being applied |
| `DepWaitReclaim.ReclaimedNeverApplied` | ferrosa-cluster/README.md:1003-1013 | so a reclaimed transaction is never marked before it comes back if and only if that holds when its park is dropped |
| `DepWaitReclaim.NakedExactly` | ferrosa-cluster/src/accord/apply.rs:1833-1869 | something can be marked applied with nothing persisted if and only if something woken or waiting has no park |
| `DepWaitReclaim.HollowExactly` | ferrosa-cluster/src/accord/apply.rs:1520-1570 | over every run: without a snatch nothing is marked for nothing, and the next step makes that possible if and only if it is a snatch, which is dropping the park of a transaction that is woken or registered again |
| `DepWaitReclaim.UntouchedSweepSafe` | ferrosa-cluster/src/accord/apply.rs:1533-1558 | a sweep is no snatch if none of its transactions is woken when their waits are cleared and none is submitted again before they are dropped |
| `DepWaitReclaim.ResubmittedSnatched` | ferrosa-cluster/src/accord/apply.rs:1520-1570 | a run from the empty replica: a write-set submitted again between the two halves of a sweep loses its new park and is marked applied with nothing persisted, with no cascade under way |
| `DepWaitReclaim.SnatchBreaksOrder` | ferrosa-cluster/src/accord/apply.rs:1833-1869 | a run from the empty replica in which a sweep takes a woken write-set, it is marked applied with nothing persisted, and a later write-set becomes durable on it |
| `CompactionIntent.GoodKept` | ferrosa-storage/src/engine.rs:13110-13638 | each record keeps its own invariant (what is on disk, what is served, which phase) through every step |
| `CompactionIntent.ApartKept` | ferrosa-storage/src/engine.rs:13110-13638 | any two records stay disjoint except where one consumed the other's output |
| `CompactionIntent.AccountedKept` | ferrosa-storage/src/engine.rs:13110-13638 | every generation on disk but not served, or served but not on disk, is named by a record |
| `CompactionIntent.UnretiredOutputOnDisk` | ferrosa-storage/src/engine.rs:13056-13108 | while an input of a swapped record is on disk, so is its output |
| `CompactionIntent.OpenKeeps` | ferrosa-storage/src/engine.rs:8299-8350 | opening the table after a clean recovery re-establishes the invariant |
| `CompactionIntent.StepKeeps` | ferrosa-storage/src/engine.rs:13110-13638 | every guarded step, crashes and failed file operations included, keeps the invariant |
| `CompactionIntent.RunKeeps` | ferrosa-storage/src/engine.rs:13110-13638 | the invariant holds after every guarded run |
| `CompactionIntent.CleanIsWhole` | ferrosa-storage/README.md:394-416 | when recovery left no torn output and no half-replaced set, the disk holds exactly the served set with each unfinished replacement done or undone as a whole |
| `CompactionIntent.WholeIsClean` | ferrosa-storage/README.md:394-416 | the converse |
| `CompactionIntent.ReopensWhole` | ferrosa-storage/README.md:394-416 | at every point of every recovery, after any crashes: all inputs or the output, never a mixture, if and only if no output on disk is torn or accompanied by one of its inputs |
| `CompactionIntent.RolledReadsSame` | ferrosa-storage/README.md:394-416 | carrying out replacements that are each faithful where they are made leaves the read unchanged |
| `CompactionIntent.RecoveryReadsSame` | ferrosa-storage/README.md:394-416 | a clean recovery reads as before the crash, when the replacements it completed are faithful; `RecoveredReads` shows that they are |
| `CompactionIntent.DealtRun` | ferrosa-storage/src/engine.rs:8375-8532 | during recovery without removal failures every record is still to do or settled |
| `CompactionIntent.RecoveryCleans` | ferrosa-storage/src/engine.rs:8299-8350 | a recovery in which no file removal fails ends clean |
| `CompactionIntent.RetireRun` | ferrosa-storage/src/engine.rs:8375-8532 | retiring a set of inputs is a run of single removals |
| `CompactionIntent.ReconciledIsRun` | ferrosa-storage/src/engine.rs:8375-8532 | reconciling one record is a run of the state machine, whichever removals fail |
| `CompactionIntent.Directory.constructor` | ferrosa-storage/src/engine.rs:8299-8350 | a directory as found at startup |
| `CompactionIntent.Directory.RetireAll` | ferrosa-storage/src/compaction/retire.rs:15-33 | removes every input that can be removed and reports completeness exactly |
| `CompactionIntent.Directory.Reconcile` | ferrosa-storage/src/engine.rs:8375-8532 | the imperative reconciliation of one record does what the state machine's does |
| `CompactionIntent.Directory.ReconcileAll` | ferrosa-storage/src/engine.rs:8299-8350 | reconciling every record, with working removals, is a run that ends clean and ready to open |
| `CompactionIntent.OrphanStays` | ferrosa-storage/src/engine.rs:8299-8350 | a file no record names and no reader serves survives every step short of opening |
| `CompactionIntent.OrphanReturns` | ferrosa-storage/src/engine.rs:8299-8350 | such a file is on disk at the next opening, so the reopened table is not whole |
| `CompactionIntent.NoOrphans` | ferrosa-storage/src/engine.rs:8299-8350 | while the guards hold there is no orphan |
| `CompactionIntent.GuardExactly` | ferrosa-storage/src/engine.rs:13110-13638 | short of opening, a step is guarded if and only if guarded steps after it never lead to an orphan |
| `CompactionIntent.RollbackOrphans` | ferrosa-storage/src/engine.rs:17138-17175 | a rollback that leaves its output on disk and deletes its record makes an orphan at once |
| `CompactionIntent.LeftoverOrphans` | ferrosa-storage/src/engine.rs:17138-17175 | if the record stays, the output becomes an orphan when its inputs are compacted again |
| `CompactionIntent.ConsumingOrphans` | ferrosa-storage/src/engine.rs:13110-13638 | compacting an output one of whose own inputs is still on disk makes that input an orphan, also while its record is still retiring |
| `CompactionIntent.StuckInputRun` | ferrosa-storage/src/engine.rs:13056-13108 | a reachable state in which one input could not be retired |
| `CompactionIntent.StuckInputResurrected` | ferrosa-storage/src/engine.rs:13056-13108 | from that state a later compaction and a crash bring the stale input back |
| `RecoveredReads.ReplacedExactly` | ferrosa-storage/src/compaction/purge.rs:120-187 | replacing the inputs of a compaction by its output in any view changes nothing the table shows if and only if none of the three purge situations shows anything |
| `RecoveredReads.RecoveredReadsSame` | ferrosa-storage/README.md:394-416 | after any crashes and half-done recoveries a clean table shows what it showed before the crash, for any number of interrupted compactions that purge |
| `RecoveredReads.RecoveredExactly` | ferrosa-storage/README.md:394-416 | with one interrupted compaction, if and only if none of the three situations shows anything |
| `RecoveredReads.RecoveredUndeleted` | ferrosa-storage/README.md:394-416 | without partition deletions, always: no purged row reappears |
| `RecoveredReads.OutputKept` | ferrosa-storage/src/compaction/purge.rs:63-84 | the output of one interrupted compaction stays above the purge limit of every other |
| `RecoveredReads.LookAnyOrder` | ferrosa-storage/src/merge.rs:42-95 | what a read shows does not depend on the order of its sources |
| `CellOrder.CmpBytesLaws` | ferrosa-common/src/complex_cell.rs:82-98 | byte comparison is antisymmetric and total |
| `CellOrder.CmpBytesTransitive` | ferrosa-common/src/complex_cell.rs:82-98 | byte comparison is transitive |
| `CellOrder.CmpLaws` | ferrosa-common/src/complex_cell.rs:75-98 | cell comparison is antisymmetric and only equal cells tie |
| `CellOrder.CmpTransitive` | ferrosa-common/src/complex_cell.rs:75-98 | cell comparison is transitive |
| `CellOrder.Commutative` | ferrosa-common/src/complex_cell.rs:58-69 | reconciliation is commutative |
| `CellOrder.Idempotent` | ferrosa-common/src/complex_cell.rs:58-69 | reconciliation is idempotent |
| `CellOrder.Associative` | ferrosa-common/src/complex_cell.rs:58-69 | reconciliation is associative |
| `CellOrder.WinnerIsNewest` | ferrosa-common/README.md:322-326 | the winner is one of the two, is the newest, and is a deletion when a deletion ties |
| `CompactionPurge.CellKept` | ferrosa-storage/src/compaction/purge.rs:148-187 | one cell, merged with outside data, differs after masking and purging only by a dropped tombstone |
| `CompactionPurge.RowCellKept` | ferrosa-storage/src/compaction/purge.rs:148-187 | the same for every cell of a purged row |
| `CompactionPurge.RowShownKept` | ferrosa-storage/src/compaction/purge.rs:148-187 | every cell shows the same value after compaction |
| `CompactionPurge.ElementOutlives` | ferrosa-storage/src/compaction/purge.rs:148-187 | an element that survives a dropped collection marker is newer than the guard |
| `CompactionPurge.RowViewKept` | ferrosa-storage/src/compaction/purge.rs:148-187 | a whole row reads the same after masking and purging, whatever outside data it merges with |
| `CompactionPurge.KeptExactly` | ferrosa-storage/src/merge.rs:189-218 | exactly when compaction changes whether a row survives the partition deletion |
| `CompactionPurge.CompactionExact` | ferrosa-storage/README.md:314-322 | a row reads the same after compaction if and only if none of three named situations about partition deletions shows anything |
| `CompactionPurge.CompactionInvisible` | ferrosa-storage/README.md:314-322 | without partition deletions compaction with purge never changes a read |
| `CompactionPurge.ReinsertedChanges` | ferrosa-storage/src/merge.rs:189-218 | a row dropped under a partition deletion and re-inserted outside reads differently |
| `CompactionPurge.ExposedChanges` | ferrosa-storage/src/compaction/purge.rs:120-140 | purging a partition deletion exposes an outside row without liveness |
| `CompactionPurge.StrippedChanges` | ferrosa-storage/src/compaction/purge.rs:148-187 | purging a row deletion together with the liveness it shadows loses a newer cell under an older partition deletion |
| `CompactionPurge.StaticCellKept` | ferrosa-storage/src/merge.rs:189-218 | a static cell differs only by a dropped tombstone |
| `CompactionPurge.StaticUnchanged` | ferrosa-storage/src/merge.rs:189-218 | the static row shows the same values after compaction |
| `CompactionPurge.MergeSources` | ferrosa-storage/src/merge.rs:42-95 | the loop over sources computes the merge of all of them |
| `CompactionPurge.MergeRowsCommutative` | ferrosa-storage/src/merge.rs:152-172 | merging rows is commutative |
| `CompactionPurge.MergeRowsIdempotent` | ferrosa-storage/src/merge.rs:152-172 | merging rows is idempotent |
| `CompactionPurge.MergeRowsAssociative` | ferrosa-storage/src/merge.rs:152-172 | merging rows is associative |
| `CompactionPurge.MergeSplit` | ferrosa-storage/src/merge.rs:42-95 | a merge may be cut anywhere: merging two parts and then their results gives the same rows |
| `CompactionPurge.MergeAnyOrder` | ferrosa-storage/src/merge.rs:42-95 | sources may be folded in any order |
| `CompactionPurge.ReadAnyOrder` | ferrosa-storage/src/merge.rs:31-95 | the merged partition after suppression has the same rows whatever the order of its sources |
| `CompactionPurge.MergedAbove` | ferrosa-storage/src/compaction/purge.rs:63-84 | data above the guard stays above it when merged |
| `CompactionPurge.CompactedReadsSame` | ferrosa-storage/README.md:314-322 | for any inputs, any outside sources and any row: the read is unchanged by the compaction if and only if none of the three situations shows anything |
| `CompactionPurge.StaticReadsSame` | ferrosa-storage/README.md:314-322 | static reads are unchanged by any compaction |
| `CompactionPurge.CompactedAlone` | ferrosa-storage/README.md:314-322 | the same characterisation when nothing lies outside |
| `CompactionPurge.MaxPurgeable` | ferrosa-storage/src/compaction/purge.rs:63-84 | the guard is the least timestamp of unflushed data and of every overlapping table outside the compaction |
| `DisjointRuns.InsertByLow` | ferrosa-storage/src/range_merger.rs:1098-1140 | stable insertion keeps the order by lower bound and the contents |
| `DisjointRuns.SortDecodable` | ferrosa-storage/src/range_merger.rs:1098-1140 | the decodable tables sorted by lower bound; together with the undecodable ones, every table once |
| `DisjointRuns.FirstFit` | ferrosa-storage/src/range_merger.rs:1098-1140 | the first run whose last table ends before this one starts |
| `DisjointRuns.ColoringGrows` | ferrosa-storage/src/range_merger.rs:1098-1140 | extending a run keeps the colouring sound |
| `DisjointRuns.ColoringOpens` | ferrosa-storage/src/range_merger.rs:1098-1140 | a run is opened only when that many tables share a key range |
| `DisjointRuns.Color` | ferrosa-storage/src/range_merger.rs:1098-1140 | the loop places every table in one run of key-disjoint tables |
| `DisjointRuns.AppendBare` | ferrosa-storage/src/range_merger.rs:1098-1140 | undecodable tables are added as singleton runs |
| `DisjointRuns.GroupRuns` | ferrosa-storage/src/range_merger.rs:1062-1140 | every table in exactly one run, runs key-disjoint, undecodable tables alone, and as many coloured runs as tables covering some one key |
| `DisjointRuns.RunApart` | ferrosa-storage/src/range_merger.rs:1098-1140 | any two tables of a run are disjoint, not only neighbours |
| `DisjointRuns.CrowdNeedsRuns` | ferrosa-storage/src/range_merger.rs:1098-1140 | no grouping does with fewer runs than tables covering one key: the colouring is optimal |
| `DisjointRuns.CombinesOnce` | ferrosa-storage/src/range_merger.rs:1733-1760 | the copies of a key merge to one partition, whatever order they were popped in |
| `DisjointRuns.EnumeratesOnce` | ferrosa-storage/README.md:1169-1182 | the ascending list of keys with their merged partitions is unique, as far as a read can tell |
| `DisjointRuns.CountsAgree` | ferrosa-storage/README.md:1169-1182 | lists that agree count the same rows |
| `DisjointRuns.SkipBelow` | ferrosa-storage/src/range_merger.rs:1614-1634 | a source opened at the start of the range loses only what lies before it |
| `DisjointRuns.SkipAll` | ferrosa-storage/src/range_merger.rs:1614-1634 | the same for all sources together |
| `DisjointRuns.RangeMerger.constructor` | ferrosa-storage/src/range_merger.rs:1614-1634 | opening skips only what lies before the range |
| `DisjointRuns.RangeMerger.PeekLeast` | ferrosa-storage/src/range_merger.rs:1645-1762 | the least key at the head of any source |
| `DisjointRuns.RangeMerger.Next` | ferrosa-storage/src/range_merger.rs:1645-1762 | the next key of the range in order, with every copy of it taken out of the sources, merged and suppressed |
| `DisjointRuns.RangeMerger.Drain` | ferrosa-storage/src/range_merger.rs:1645-1762 | the whole range, each key once, ascending, with all its copies merged |
| `DisjointRuns.TakeGroup` | ferrosa-storage/src/range_merger.rs:1675-1697 | pops exactly the copies of one key |
| `DisjointRuns.RunsKeepCopies` | ferrosa-storage/README.md:1169-1182 | concatenating tables into runs keeps every copy of every key |
| `DisjointRuns.RunAscends` | ferrosa-storage/README.md:1169-1182 | a concatenated run is strictly ascending |
| `DisjointRuns.ScanRuns` | ferrosa-storage/README.md:1169-1182 | grouping, concatenating and merging lists every key of the tables once with all its copies merged |
| `DisjointRuns.ScanSources` | ferrosa-storage/src/range_merger.rs:1645-1762 | merging the sources one by one does the same |
| `DisjointRuns.ScanBothWays` | ferrosa-storage/README.md:1169-1182 | both scans return the same keys with the same rows, though they fold copies in different orders, and count the same |
| `SpillPool.SharedPool.constructor` | ferrosa-storage/src/spill_pool.rs:100-115 | a pool has room for at least one byte and nothing used |
| `SpillPool.SharedPool.Add` | ferrosa-storage/src/spill_pool.rs:180-199 | grants exactly when the request fits |
| `SpillPool.SharedPool.Sub` | ferrosa-storage/src/spill_pool.rs:211-228 | gives bytes back and reopens the pool |
| `SpillPool.SpillCharge.constructor` | ferrosa-storage/src/spill_pool.rs:171-178 | opening a charge counts one live operator |
| `SpillPool.SpillCharge.Admit` | ferrosa-storage/src/spill_pool.rs:244-255 | the first update, and the second one when the first was refused below the floor |
| `SpillPool.SpillCharge.ReleaseAll` | ferrosa-storage/src/spill_pool.rs:270-276 | returns exactly what was held |
| `SpillPool.SpillCharge.OverFairShare` | ferrosa-storage/src/spill_pool.rs:260-263 | an operator must yield exactly when the pool is exhausted and it holds more than its floor and its share |
| `SpillPool.TryKeeps` | ferrosa-storage/src/spill_pool.rs:180-199 | the first update of a request keeps the accounts |
| `SpillPool.ForceKeeps` | ferrosa-storage/src/spill_pool.rs:201-204 | the second one keeps them too, whatever happened in between |
| `SpillPool.NeverUnderflows` | ferrosa-storage/src/spill_pool.rs:211-228 | no release ever takes the counter below zero |
| `SpillPool.ReleaseKeeps` | ferrosa-storage/src/spill_pool.rs:270-276 | release keeps the accounts |
| `SpillPool.OpenKeeps` | ferrosa-storage/src/spill_pool.rs:171-178 | opening an operator keeps the accounts |
| `SpillPool.DropKeeps` | ferrosa-storage/src/spill_pool.rs:288-293 | dropping one keeps the accounts |
| `SpillPool.StepKeeps` | ferrosa-storage/src/spill_pool.rs:100-292 | every step by any operator keeps the accounts |
| `SpillPool.RunKeeps` | ferrosa-storage/src/spill_pool.rs:100-292 | the accounts hold after every interleaving |
| `SpillPool.PoolIsBounded` | ferrosa-storage/README.md:1081-1094 | in every run used bytes equal the sum of outstanding charges and never exceed the limit plus a floor and a row for each live operator |
| `SpillPool.Bounded` | ferrosa-storage/README.md:1081-1094 | the bound in every sound state |
| `SpillPool.UniformSlack` | ferrosa-storage/README.md:1081-1094 | with one floor the allowance is live operators times floor plus row |
| `SpillPool.DocumentedBound` | ferrosa-storage/README.md:1081-1094 | the bound in its documented form, in every run whose operators share one floor |
| `SpillPool.CountersFit` | ferrosa-storage/src/spill_pool.rs:180-228 | when the bound fits 64 bits no counter wraps |
| `SpillPool.AllReturned` | ferrosa-storage/src/spill_pool.rs:289-292 | when every operator has been dropped nothing is outstanding |
| `SpillPool.OneSpillIsEnough` | ferrosa-storage/src/spill_pool.rs:240-255 | an operator told to spill holds its floor, and once it has spilled its next request is admitted, whatever the others do in between |
| `SpillPool.RunsReachFloor` | ferrosa-storage/src/spill_pool.rs:2-6 | in every run an operator that releases because it was refused or over its share returns at least its floor |
| `FairQueue.Advance` | ferrosa-sched/src/scheduler.rs:34-41 | virtual time never goes back and advances by no more than the cost, saturation included |
| `FairQueue.EnqueueKeeps` | ferrosa-sched/src/group_runqueue.rs:91-110 | queueing keeps keys unique, current and above the floor |
| `FairQueue.PickKeeps` | ferrosa-sched/src/group_runqueue.rs:115-138 | picking keeps the queue consistent and never lowers the floor |
| `FairQueue.ChargeKeeps` | ferrosa-sched/src/group_runqueue.rs:157-169 | charging re-keys the group and keeps the queue consistent |
| `FairQueue.RemoveKeeps` | ferrosa-sched/src/group_runqueue.rs:192-208 | removing a waiter keeps the queue consistent |
| `FairQueue.StepKeeps` | ferrosa-sched/src/fair_admit.rs:167-418 | every step keeps the queue consistent and free plus held slots equal to the capacity |
| `FairQueue.RunKeeps` | ferrosa-sched/src/fair_admit.rs:124-418 | both hold in every state an admission can reach |
| `FairQueue.GrantStaysNear` | ferrosa-sched/src/fair_admit.rs:403-418 | granting the least group keeps the distance bound |
| `FairQueue.ServeStaysNear` | ferrosa-sched/src/fair_admit.rs:316-338 | charging a running query keeps the distance bound |
| `FairQueue.QuietStaysNear` | ferrosa-sched/src/fair_admit.rs:236-400 | admission, suspension, readmission, finish and cancellation keep the distance bound |
| `FairQueue.RunStaysNear` | ferrosa-sched/README.md:71-77 | the bound holds through every run in which both groups stay backlogged |
| `FairQueue.GroupsStayTogether` | ferrosa-sched/README.md:71-77 | two backlogged groups stay within one maximum charge per slot of each other, whatever the number of their queries |
| `FairQueue.GroupStaysBehind` | ferrosa-sched/README.md:71-77 | the same for one direction and any larger starting distance |
| `FairQueue.OneChargeExactly` | ferrosa-sched/README.md:71-77 | from every reachable state one maximum charge bounds the distance in all runs if and only if there is a single slot |
| `FairQueue.CrowdReached` | ferrosa-sched/src/fair_admit.rs:167-200 | an admission of any capacity reaches a state in which one group holds every slot and two others wait |
| `FairQueue.CrowdDrifts` | ferrosa-sched/src/fair_admit.rs:316-338 | from there, with two slots or more, a backlogged run ends two charges apart |
| `FairQueue.ArrivalUndercutsExactly` | ferrosa-sched/src/group_runqueue.rs:91-110 | a new group starts within the boost of another exactly when that one has not run past both floor and boost |
| `FairQueue.ArrivalFarBehind` | ferrosa-sched/src/group_runqueue.rs:157-169 | for every lead and boost there is a run in which a group arrives that far below the one running alone |
| `FairQueue.NotOutrankedLeads` | ferrosa-sched/src/fair_admit.rs:316-338 | a query that keeps its slot belongs to a group no later than any waiting one |
| `FairQueue.SomebodyIsTop` | ferrosa-sched/src/group_runqueue.rs:147-152 | whenever anybody waits there is a unique most deserving query |
| `FairQueue.GroupRunQueue.constructor` | ferrosa-sched/src/group_runqueue.rs:78-88 | an empty queue is consistent |
| `FairQueue.GroupRunQueue.Put` | ferrosa-sched/src/group_runqueue.rs:91-110 | enqueue as specified, with its floor |
| `FairQueue.GroupRunQueue.PickNext` | ferrosa-sched/src/group_runqueue.rs:115-138 | returns nothing exactly when nothing waits; otherwise the least query of the least group, taken out |
| `FairQueue.GroupRunQueue.LeastOf` | ferrosa-sched/src/group_runqueue.rs:115-138 | the scan finds the group of least vruntime, oldest first |
| `FairQueue.GroupRunQueue.ChargeGroup` | ferrosa-sched/src/group_runqueue.rs:157-169 | charge as specified |
| `FairQueue.LeastKey` | ferrosa-sched/src/runqueue.rs:103-118 | the least key of a queue |
| `ViewDelta.StampAnyOrder` | ferrosa-view/src/delta.rs:152-168 | deltas that never write one key at one time leave the same register in any order |
| `ViewDelta.StampedInOrder` | ferrosa-view/src/delta.rs:70-93 | in order, a store that keeps the newest write follows the maintained view |
| `ViewDelta.ReplayedInAnyOrder` | ferrosa-view/README.md:52-55 | the stamped deltas of a history, delivered in any order to a store that keeps the newest write of each key, leave the recomputed view |
| `ViewDelta.RecomputedOnce` | ferrosa-view/README.md:46-55 | the view of given base rows is unique |
| `ViewDelta.KeyDecides` | ferrosa-view/src/delta.rs:107-133 | the column-wise key comparison agrees with equality of the built keys |
| `ViewDelta.CoversExactly` | ferrosa-view/src/validate.rs:147-158 | a view keeps the rows of every table apart if and only if its key covers the base key |
| `ViewDelta.RowsStayApart` | ferrosa-view/src/validate.rs:147-172 | an accepted definition never maps two base rows to one view key |
| `ViewDelta.DeltasMove` | ferrosa-view/src/delta.rs:70-93 | applying the deltas removes the old row and adds the new one, in every combination |
| `ViewDelta.ChangeMaintains` | ferrosa-view/README.md:46-55 | one base change keeps the view equal to the recomputed one |
| `ViewDelta.MaintainedIsRecomputed` | ferrosa-view/README.md:46-55 | after any sequence of inserts, updates, key changes and deletes the maintained view is the recomputed view |
| `ViewDelta.CellwiseStep` | ferrosa-view/src/delta.rs:135-162 | one change comes to the same cell by cell as row by row if and only if it takes no value away in place |
| `ViewDelta.CellwiseExactly` | ferrosa-view/src/delta.rs:135-162 | applied cell by cell the deltas keep the view recomputed throughout a history if and only if no change takes a shown value away and leaves the view row in place |
| `WindowedStream.SplitRows` | ferrosa-cluster/src/coordinator/stream_request_handler.rs:290-464 | a position that splits the fragments splits the rows |
| `WindowedStream.FilteredRows` | ferrosa-cluster/src/write_path.rs:68-85 | the resume filter keeps exactly the rows after the position |
| `WindowedStream.ScanSkips` | ferrosa-cluster/src/coordinator/stream_request_handler.rs:315-376 | a fragment the filter drops held nothing to deliver |
| `WindowedStream.ScanShips` | ferrosa-cluster/src/coordinator/stream_request_handler.rs:315-376 | shipping a fragment keeps the tracked position right, headers without rows included |
| `WindowedStream.BareOpens` | ferrosa-cluster/src/coordinator/stream_request_handler.rs:315-376 | a partition that starts with a bare header may be resumed at its start |
| `WindowedStream.BareContinues` | ferrosa-cluster/src/coordinator/stream_request_handler.rs:315-376 | a bare fragment of the same partition does not move the position |
| `WindowedStream.Seek` | ferrosa-cluster/src/coordinator/stream_request_handler.rs:227-262 | opening at the resume partition skips only delivered rows |
| `WindowedStream.SkipDropped` | ferrosa-cluster/src/coordinator/stream_request_handler.rs:315-376 | passing over dropped fragments loses no row |
| `WindowedStream.NextShipped` | ferrosa-cluster/src/coordinator/stream_request_handler.rs:315-376 | the next fragment that survives the filter |
| `WindowedStream.Collect` | ferrosa-cluster/src/coordinator/stream_request_handler.rs:327-349 | pulling a fragment into the chunk moves the position as the producer does |
| `WindowedStream.FillChunk` | ferrosa-cluster/src/coordinator/stream_request_handler.rs:327-365 | a chunk is the next part of the stream, up to a fragment or a row limit |
| `WindowedStream.ServeWindow` | ferrosa-cluster/src/coordinator/stream_request_handler.rs:290-464 | a window ships at most its chunks; what it ships and what follows its resume position are exactly what was asked for |
| `WindowedStream.StreamEnds` | ferrosa-cluster/src/coordinator/stream_request_handler.rs:420-447 | no resume position means everything was shipped |
| `WindowedStream.WindowEnds` | ferrosa-cluster/src/coordinator/stream_request_handler.rs:437-453 | the reported position continues the stream without gap or repeat |
| `WindowedStream.MoreThanHeader` | ferrosa-cluster/src/coordinator/stream_request_handler.rs:327-365 | a roomy window never ends on a bare header alone |
| `WindowedStream.Forward` | ferrosa-cluster/src/coordinator/range_read_stream.rs:1611-1715 | window after window, the rows delivered are the rows of the stream, in order, each once |
| `WindowedStream.RowsRise` | ferrosa-cluster/README.md:625-638 | the rows of an ordered stream strictly rise |
| `WindowedStream.TinyWindowRewinds` | ferrosa-cluster/src/coordinator/stream_request_handler.rs:327-447 | for every window that is not roomy, windows from the start of a stream come back to a position they had passed |
| `WindowedStream.RouteKeeps` | ferrosa-net/src/stream_router.rs:99-141 | routing data and heartbeats keeps the frame count |
| `WindowedStream.WindowFits` | ferrosa-cluster/src/coordinator/range_read_stream.rs:195-220 | waiting data frames never exceed the window and its Done, and with fewer than sixteen waiting heartbeats no data frame is refused |
| `WindowedStream.HeartbeatsExactly` | ferrosa-net/src/stream_router.rs:99-141 | from a route just opened no data frame is refused while at most so many heartbeats wait if and only if that is fewer than sixteen |
| `CrateDag.DagWalk.constructor` | scripts/lean_gap_inventory.py:109-113 | the walk starts with nothing listed |
| `CrateDag.DagWalk.Visit` | scripts/lean_gap_inventory.py:114-124 | lists a crate after all it depends on, or stops on a path that ends in a real cycle; ends because the stack holds each crate once |
| `CrateDag.Dag` | scripts/lean_gap_inventory.py:109-128 | returns normally if and only if the workspace graph is acyclic, and then lists every crate once after its dependencies |
| `CrateDag.CycleIsCyclic` | scripts/lean_gap_inventory.py:114-124 | the reported path proves a cycle |
| `CrateDag.ReachedBefore` | scripts/lean_gap_inventory.py:109-128 | whatever a crate reaches is listed at or before it |
| `Fingerprint.PreorderSplit` | scripts/lean_gap_inventory.py:214-227 | the walk takes its worklist piece by piece |
| `Fingerprint.PreorderClosed` | scripts/lean_gap_inventory.py:214-227 | whatever a met crate depends on is met too |
| `Fingerprint.FeedsExactlyReachable` | scripts/lean_gap_inventory.py:208-230 | the hash is fed exactly the crates reachable from the name, each once, on cyclic graphs too |
| `Fingerprint.UnchangedByOtherEdits` | scripts/lean_gap_inventory.py:208-230 | an edit outside the reachable crates leaves the fingerprint as it was |
| `Fingerprint.HashedAtOrBefore` | scripts/lean_gap_inventory.py:208-230 | every crate hashed comes at or before the name in a dependency order |
| `Fingerprint.Hasher.constructor` | scripts/lean_gap_inventory.py:208-212 | a new hash is fed the toolchain identity first |
| `Fingerprint.Hasher.Feed` | scripts/lean_gap_inventory.py:214-227 | one crate's updates, in order |
| `Fingerprint.Hasher.Add` | scripts/lean_gap_inventory.py:214-227 | the recursive walk feeds the preorder of what was not seen |
| `Fingerprint.Hasher.AddAll` | scripts/lean_gap_inventory.py:214-227 | the same for a list of dependencies |
| `Fingerprint.Hasher.AddNext` | scripts/lean_gap_inventory.py:214-227 | one dependency more |
| `Fingerprint.CrateFingerprint` | scripts/lean_gap_inventory.py:208-230 | the updates fed are those of the specification |
| `CfgExpr.SplitTopLevel` | scripts/lean_gap_inventory.py:281-292 | the loop splits at the commas outside parentheses and trims the parts; a blank last part is dropped |
| `CfgExpr.TrimIsTight` | scripts/lean_gap_inventory.py:281-292 | trimming leaves no blank at either end and changes nothing else |
| `CfgExpr.CutThrough` | scripts/lean_gap_inventory.py:281-292 | text that never falls below its depth passes through the splitter whole |
| `CfgExpr.CutPrinted` | scripts/lean_gap_inventory.py:281-292 | cutting printed arguments gives them back with their lead |
| `CfgExpr.SplitPrinted` | scripts/lean_gap_inventory.py:281-292 | splitting printed arguments gives them back, one by one |
| `CfgExpr.PrintStays` | scripts/lean_gap_inventory.py:281-292 | printed expressions are balanced |
| `CfgExpr.PrintedCall` | scripts/lean_gap_inventory.py:295-319 | a printed operator and its body are recognised |
| `CfgExpr.PrintedValue` | scripts/lean_gap_inventory.py:295-319 | evaluating the text of any expression tree gives its three-valued value |
| `CfgExpr.DefiniteIsTrue` | scripts/lean_gap_inventory.py:295-319 | a definite answer is the classical value under every assignment of the unknown atoms |
| `CfgExpr.IsDropped` | scripts/lean_gap_inventory.py:322-342 | a module is dropped exactly when one of its gates is definitely false |
| `CfgExpr.DeclaredModules` | scripts/lean_gap_inventory.py:322-342 | the loop keeps exactly the modules not dropped, in order |
| `CfgExpr.DropsOnlyDeadModules` | scripts/lean_gap_inventory.py:322-342 | a dropped module has a false gate under every assignment |
| `Coverage.CountConcluded` | scripts/lean_gap_inventory.py:464-495 | all rows are counted exactly when all concluded |
| `Coverage.FirstOpen` | scripts/lean_gap_inventory.py:464-495 | the first row that did not conclude |
| `Coverage.CoverageSettlesExactly` | scripts/lean_gap_inventory.py:398-413 | a coverage row settles exactly when it has modules and all concluded |
| `Coverage.StoppedIsFirst` | scripts/lean_gap_inventory.py:464-495 | otherwise `stopped` names the first module that did not conclude |
| `Coverage.LookupPut` | scripts/lean_gap_inventory.py:557-597 | updating the row map |
| `Coverage.AllConcludedByKey` | scripts/lean_gap_inventory.py:464-495 | all rows concluded, seen module by module |
| `Coverage.MeasureModules` | scripts/lean_gap_inventory.py:557-597 | the sweep computes the specified rows and runs the specified modules |
| `Coverage.SweptLookup` | scripts/lean_gap_inventory.py:557-597 | each module ends with its report, or with its prior row if that concluded |
| `Coverage.SweepSettlesExactly` | scripts/lean_gap_inventory.py:557-597 | the row settles if and only if every module of the crate and every carried-over row concluded |
| `Coverage.NoModulesNeverSettle` | scripts/lean_gap_inventory.py:557-597 | a sweep without modules never settles |
| `Coverage.RunsOnlyUnfinished` | scripts/lean_gap_inventory.py:557-597 | resuming runs exactly the modules that had not concluded |
| `Coverage.InterruptedSettlesExactly` | scripts/lean_gap_inventory.py:832-844 | when the row left by an interrupted sweep settles |
| `Coverage.InterruptedRowSettles` | scripts/lean_gap_inventory.py:832-844 | a sweep killed after one of two modules leaves a row that settles although the next module would fail |
| `Coverage.StalePriorSettles` | scripts/lean_gap_inventory.py:825 | prior rows from another fingerprint settle for the current one without anything being run |
| `Adoption.ResolvedNeverAdopts` | scripts/lean_gap_inventory.py:233-242 | two fully resolved identities are never joined |
| `Adoption.AdoptedHonest` | scripts/lean_gap_inventory.py:245-256 | an adopted row has the current source, tools that agree where known, and was never adopted before |
| `Adoption.PassKeeps` | scripts/lean_gap_inventory.py:737-754 | one adoption pass with a resolved toolchain keeps every row honest |
| `Adoption.RunsStayHonest` | scripts/lean_gap_inventory.py:233-256 | over any sequence of such passes no measurement crosses two resolved values of a tool or a source change, and each is adopted at most once |
| `Adoption.UnresolvedRunCarriesAcross` | scripts/lean_gap_inventory.py:737-754 | one pass with an unresolved tool carries a measurement across two resolved values |
| `StateFile.RunStamp.constructor` | scripts/lean_gap_inventory.py:509-513 | no stamp and no start |
| `StateFile.RunStamp.Begin` | scripts/lean_gap_inventory.py:515-518 | records the start |
| `StateFile.RunStamp.Mark` | scripts/lean_gap_inventory.py:520-524 | the stamp is the whole second of now, remembered as own |
| `StateFile.RunStamp.IsForeign` | scripts/lean_gap_inventory.py:526-533 | foreign exactly when later than the start and not own |
| `StateFile.Publish` | scripts/lean_gap_inventory.py:536-554 | the merge replaces exactly the owned rows that are not foreign on disk |
| `StateFile.PublishedMore` | scripts/lean_gap_inventory.py:536-554 | publishing one more crate |
| `StateFile.NotRivalNotNewer` | scripts/lean_gap_inventory.py:526-533 | a row on disk that is not a rival's is no newer than the run's latest |
| `StateFile.StoreChanges` | scripts/lean_gap_inventory.py:805-821 | a careful store puts the run's own row over one that is no newer and leaves every other row |
| `StateFile.DoneMeansSame` | scripts/lean_gap_inventory.py:846-862 | a finished crate without a rival has the same row in memory and on disk |
| `StateFile.MergeChangesNothing` | scripts/lean_gap_inventory.py:866-877 | the final merge of a run comes to the file as it is |
| `StateFile.RivalStays` | scripts/lean_gap_inventory.py:775-793 | a careful step by anybody leaves a rival's row foreign, a stamp of the run itself too |
| `StateFile.RivalOutlivesStore` | scripts/lean_gap_inventory.py:805-821 | a careful store by anybody leaves it foreign |
| `StateFile.AuthoredKept` | scripts/lean_gap_inventory.py:520-533 | every row that could count as a rival's carries the stamp of some run |
| `StateFile.SeenKept` | scripts/lean_gap_inventory.py:805-821 | what a run has read is never newer than the file, and what changed since was stamped |
| `StateFile.StoreTracks` | scripts/lean_gap_inventory.py:805-821 | a careful store keeps what every run knows of its crates |
| `StateFile.StepKeeps` | scripts/lean_gap_inventory.py:775-877 | every careful read, stamp and write of every run keeps the invariant |
| `StateFile.RunKeeps` | scripts/lean_gap_inventory.py:775-877 | the invariant holds in every interleaving of careful steps |
| `StateFile.OnlyOwnedRowsChange` | scripts/lean_gap_inventory.py:795-804 | a careful step changes only the row its run stores, and only without a rival; the final merge changes none |
| `StateFile.RowsOnlyGetNewer` | scripts/lean_gap_inventory.py:778-788 | a careful step replaces a row only by one no older |
| `StateFile.RivalLasts` | scripts/lean_gap_inventory.py:775-793 | a rival found once is found at every later step of a careful run |
| `StateFile.RivalNeverReplaced` | scripts/lean_gap_inventory.py:775-793 | over every careful run from a file without runs: once a run has found a rival's row, every later check does, and no later step of that run changes the row |
| `StateFile.FreshIsConsiderate` | scripts/lean_gap_inventory.py:805-821 | a store over a file that has not changed keeps every other row and every rival's |
| `StateFile.ConsiderateIsFresh` | scripts/lean_gap_inventory.py:805-821 | and only such a store does: a stale copy is always an older one |
| `StateFile.StoreExactly` | scripts/lean_gap_inventory.py:795-821 | after every careful run, a store keeps the rows of other crates and every rival's row if and only if those rows are still what the run read and the row it replaces is not a rival's |
| `StateFile.TurnsAreCareful` | scripts/lean_gap_inventory.py:775-877 | runs that take turns, from the check of a row to its write, are careful, so everything above holds of them |
| `StateFile.RecognisedExactly` | scripts/lean_gap_inventory.py:515-533 | a rival row is recognised if and only if it was stamped in a later second than the one the run started in, and in none the run stamped the crate in itself |
| `StateFile.LostRow` | scripts/lean_gap_inventory.py:795-804 | a run of the protocol from an empty file in which the row of a crate vanishes when a run that never took it on writes its copy back |
| `StateFile.RivalReplaced` | scripts/lean_gap_inventory.py:775-821 | one in which a run that has given a crate up to a rival puts an older row of it back |
| `StateFile.SameSecondRivalOverwritten` | scripts/lean_gap_inventory.py:515-533 | one in which a rival stamped in the starting second is overwritten by a careful store |
| `BraceScanner.WaitingStep` | scripts/check-unbounded-reads.py:39-61 | which line opens a test module, seen one line at a time |
| `BraceScanner.TrackedStep` | scripts/check-unbounded-reads.py:39-61 | the depth list holds exactly the depths of the open test modules |
| `BraceScanner.ScanStep` | scripts/check-unbounded-reads.py:39-61 | one line keeps depth, pending attribute and depth list right |
| `BraceScanner.InCfgTestModule` | scripts/check-unbounded-reads.py:39-61 | true exactly when an earlier test module opened at a depth never dropped below since |
| `BraceScanner.LaterLinesIrrelevant` | scripts/check-unbounded-reads.py:39-61 | lines after the queried one cannot change the answer |

## Left out

- Operator promotion of a pair member: the pair contract names it as an outside assumption; `WritableExactlyWithToken` says when it is needed.
- PairAuthority.PairMember.constructor: models a member that has a record or has not met its peer; the first election and store, which the code does in the same place, are `Connect`.
- PairAuthority: peers of a third identity and undecodable record files, which the code answers by staying fenced; schema push before a handoff.
- Accord quorums, recovery and timestamps: `at` is any assignment of execution timestamps; the timeout, abort and pruning paths of the wait graph (`break_cycle`, `abort_timeout`, `prune`) are not modelled.
- DepWaitReclaim.AppliesInDependencyOrder: speaks of the dependencies handed to the applier; which ones those are is `OrderedDeps`.
- DepWaitReclaim.ReclaimedNeverApplied: the age of a park is not modelled, a sweep may find any parks.
- DepWaitApplier.RunKeeps: the code keeps the lock on the parks from taking a woken one to the end of its storage write; here a sweep may fall in between, which only adds runs.
- DepWaitApplier.Engine.TryApply: which disk writes succeed is given; the methods are the entry points without interference, which the runs above add.
- Object-store phases of a compaction record (upload, manifest, delete queue): the record is kept or deleted by steps that do not touch local files.
- TRUNCATE and DROP of a table: both wait until no compaction of the table runs and then remove its directory with all replacement records, so they meet no record in the middle of a replacement.
- CompactionIntent.StepKeeps: assumes the three guards described above; `GuardExactly` and the lemmas about orphans cover what happens without them.
- RecoveredReads.RecoveredReadsSame: each generation holds what a flush or a compaction wrote; the policy of a compaction is one that nothing outside it is older than, as `MaxPurgeable` computes it.
- CompactionPurge.CompactedReadsSame: outside rows are at or above the guard, as `MaxPurgeable` computes it; later writes with older timestamps, TTL expiry and table truncation markers are not modelled.
- DisjointRuns: decoding of index bounds, which is an option per table here; reading partitions from disk; the heap, of which only the least head is specified.
- DisjointRuns.ScanRuns: tables hold ascending keys within their decoded bounds.
- SpillPool: the exhausted flag and the refusal count change in the same step as the counter they follow; `row` bounds the bytes of one admitted row.
- FairQueue.GroupsStayTogether: wall-clock service is a number given with each charge; the bound on waiting queries and async cancellation are not modelled.
- FairQueue.GroupRunQueue.PickNext: groups and queries are maps searched for their least key, not balanced trees.
- WindowedStream.Forward: decode errors, cancellation and failed sends end a stream in the code and are not part of a run here; clustering bytes are ordered numbers.
- ViewDelta.MaintainedIsRecomputed: upserts replace the view row; nothing in the repository applies the deltas yet. The validator also accepts deterministic computed columns; the deltas leave them out, and so does the recomputed view here.
- Fingerprint.CrateFingerprint: the hash is the list of its update calls, not its bytes.
- CfgExpr.DeclaredModules: declarations and their gates are given, not matched by regular expressions; the final sort of the names is left out.
- CfgExpr.PrintedValue: atoms hold no comma or parenthesis.
- Coverage.MeasureModules: running the report for a module is a function from modules to rows.
- StateFile.RunKeeps: speaks of runs whose stores are careful and in which no two runs stamp one crate in the same second; `StoreExactly` and `RecognisedExactly` say what these conditions are for.
- StateFile: one read or write of the file is atomic and the clock never goes back; the whole-file write of an adoption pass and the fallbacks for an unreadable file are not modelled.
- Adoption.RunsStayHonest: fingerprints are pairs of source and tools, so equal fingerprints mean equal inputs.
- BraceScanner.InCfgTestModule: the attribute match, the module match and the brace counts of a line are given.
- Front ends, wire formats, TLS, object stores, SSTable byte formats, openraft and performance: they hold no argument of this kind, or would only add easy members.
