# Verified model of the Congeries core

Congeries runs long-lived agent and workflow executions. This project models the parts of its core
whose correctness depends on order, on interleaving and on what survives a crash, and proves what
they promise. It covers five areas.

1. **Durable workflow execution.** The Run state machine with its attempt history, the versioned
   Run repository, the checkpoint store, the two-phase checkpoint commit, recovery with fallback and
   migration, and the workflow driver that dispatches a node, commits a checkpoint and only then
   unlocks dependents.
2. **Plugins.** The capability registry with its receipts, the lifecycle records with activation
   epochs and execution leases, and the manager's locked operations beside unlocked capability calls.
3. **Ordering.** Kahn's algorithm in the workflow validator and the plugin resolver, and the
   incremental scheduler.
4. **Semantic versions.** Precedence, ranges, parser and printer.
5. **Audit delivery.** The outbox in its two implementations and the bounded retry loop over it.

`dafny verify dfyconfig.toml` verifies everything.

## How the model is built

Classes whose methods change dictionaries in place (`InMemoryRunRepository`, `InMemoryCheckpointStore`,
`CheckpointCoordinator`, `RecoveryCoordinator`, `DeterministicScheduler`, `CapabilityRegistry`,
`PluginLifecycleController`, `InMemoryEventLedger`, `SqliteEventLedger`, `EventDispatcher`) are classes
with the same fields; each method's contract equates its result and the new state with a function of
the old state, and the laws are proved about those functions. Loops over local variables are methods
with loops. Code that only builds new values is functions.

Concurrency is modelled by step relations over a shared state (`RunStore`, `CommitProtocol`,
`Workflow`, `PluginSystem`). A client's local variables between two awaits are part of that state, any
other client may step between them, and a client may vanish at any moment. Every read of a Run, save,
commit and call on the Run service is a step of its own; only loading the checkpoint that a Run's marker
names is one step with reading that Run in `Workflow`, where such a checkpoint is immutable and stays
stored. New checkpoint references there are ones that were never generated before. A driver of `Workflow` is
one call of the runtime: `execute`, which starts a CREATED Run and alone builds its first checkpoint,
`recover` with its restorer, or a decision. It fails or cancels the Run itself after a failed evaluation, a
failed agent, a stall or a failed restore, and a driver of its own does so for refused input and failed
audits; only calls from outside the workflow runtime are left open. Main results are about
every run: every list of states in which each follows from the one before by some action. Where one needs
an assumption, the exact condition is proved beside it, with a run that breaks it.

Conventions: identifiers are natural numbers that stand for their rank in the order of their values
(`Order.RankEmbedsIdentifiers` is why this loses nothing for code that only compares them). Digests are
injective constructors. Clocks are integers. Authorization is a choice to refuse made before an effect.

| file | subject |
|---|---|
| `Wrappers`, `Order` | optional values; lexicographic order, sorting, ranks |
| `Graph`, `Kahn`, `Scheduler`, `Validation` | the greedy topological order and the code that follows it |
| `SemVer`, `SemVerText` | precedence and ranges; text form |
| `Resolver`, `ResolverLaws` | the plugin resolver and its laws |
| `RunMachine`, `RunChecks`, `RunLaws`, `RunEnvelope`, `RunStore` | the Run transitions and attempts; when the constructor's checks are kept; laws over call sequences; which calls are accepted and what each field then tells; repository, service and interleaved clients |
| `Checkpoints`, `CheckpointStore`, `StoreHistory`, `Paging` | the checkpoint value, its store, side effects over histories of the store, listing through cursors |
| `Coordinator`, `Recovery` | commit, orphan deletion and fallback by one caller |
| `Chains`, `CommitProtocol`, `CommitSafety`, `CommitIntegrity`, `CommitLabels`, `CommitRaces` | predecessor chains; the same operations interleaved; exactly when every marker is whole; what moves a marker; runs that break it |
| `Workflow`, `WorkflowContent` | the driver's steps and the checkpoints it builds |
| `WorkflowInvariant`, `WorkflowSteps`, `WorkflowSafety`, `WorkflowEnds` | what every step keeps, the guarantees, and the reason for every status |
| `WorkflowLimits`, `WorkflowFinals`, `WorkflowProgress` | exactly when a driver can go on; what nothing can follow; a save without contention |
| `WorkflowAnswers`, `WorkflowDispatch` | recorded results are answers to hand-outs; when nodes are handed out |
| `WorkflowCompletion`, `WorkflowResumption` | an execution of every definition that succeeds; exactly when an interrupted one still can |
| `WorkflowOpening`, `WorkflowRaces`, `WorkflowOrphans` | executions that end blocked after an approval or a crash; what an orphan does to a Run |
| `PluginRegistry`, `PluginLifecycle`, `PluginHistory`, `PluginSystem` | registry, lifecycle records and leases, what they tell after any history, and both interleaved |
| `PluginSafety`, `PluginForce`, `PluginRaces`, `PluginUnload` | their agreement, exactly when leases and registrations in use stay, a use after unload, what can always still be done |
| `Outbox`, `OutboxHistory`, `AuditDispatch`, `AuditDelivery`, `AuditSafety` | the two ledgers, what they hold after any history, the delivery loop, its exact outcome, its guarantees |

## Findings

Each is a lemma with a concrete input or an exact condition.

- `advance(STARTING)` on a CREATED Run skips opening attempt 1 (`RunMachine.SkippedStartBreaksRecordCount`). The
  number of records follows the attempt number after every prefix of a call sequence if and only if the sequence
  never does that (`RunMachine.RecordCount`).
- The lifecycle document says that entering RECOVERING opens the new attempt. `recover` does; `advance(RECOVERING)`
  stays in the attempt (`RunLaws.AdvanceEntersRecovery`, and exactly when in `RunLaws.EnteringRecovery`).
- The Run constructor's checks are not inductive. `RunChecks.AcceptedKeptExactly` says for every operation when it
  keeps them; `RunChecks.ClosedCurrentBreaks` names the family that fails, a current attempt whose record is closed;
  `RunChecks.AcceptedIsNotInductive` has instances for `complete`, `cancel`, `recover` and `resume`.
- Deleting a checkpoint that is being saved can leave the marker dangling, in two ways: the deletion ends before the
  commit (`CommitRaces.DeletedBeforeCommit`), or it began before the commit and ends after it
  (`CommitRaces.DeletedAfterCommit`). Every marker is whole throughout a run if and only if each successful commit
  finds its checkpoint stored and no deletion hits a committed chain (`CommitIntegrity.MarkersWholeExactly`); not
  deleting what is being saved is enough (`CommitIntegrity.CommittedChainIntegrity`). References must not be reused
  for another place either (`CommitRaces.ReuseBreaksMarker`).
- A fallback below a migration moves the marker and leaves the Run on the migrated definition, so the marker then names
  a checkpoint of another definition, which `execute` then loads without comparing the two
  (`CommitRaces.FallbackCrossesMigration`). Runs and
  the checkpoints of their markers agree throughout if and only if no fallback crosses a migration
  (`CommitLabels.VersionsAgreeExactly`).
- After a fallback nothing can be saved or migrated until the abandoned suffix is deleted
  (`CommitIntegrity.StoredExactlyAboveMarker`).
- A crash between store and commit leaves an orphan that freezes its Run: as long as it is not deleted, nothing is
  committed, over every continuation (`WorkflowOrphans.OrphanFreezes`). `WorkflowOrphans.OrphanStops` is such an
  execution: the recovered attempt does a side-effecting node again, passes its checks and is refused the store. A
  driver's checkpoint is stored if and only if nothing of the Run is stored at its sequence or above
  (`WorkflowLimits.StoredExactly`).
- A Run that loses its driver after its start and before its first commit is never continued: `execute` and `recover`
  both need a committed checkpoint, and only the call that started the Run builds the first
  (`WorkflowFinals.LostForGood`; `WorkflowOrphans.StartIsLost` reaches such a RUNNING Run under every definition).
- A decision repeated after a crash lets the driver hand out work that can never be committed
  (`WorkflowRaces.RepeatedApproval`): a save begins if and only if its driver continues from the committed checkpoint
  of an unchanged Run (`WorkflowLimits.SaveBeginsExactly`).
- A crash between a committed rejection and the Run's failure leaves a workflow that recovery brings back to RUNNING
  and cannot move (`WorkflowRaces.RefusalRecovered`): an approval can be requested if and only if the Run is RUNNING
  and no refusal is on record (`WorkflowLimits.RequestedExactly`). Without fallback and migration nothing is ever
  committed after a refusal or a failed evaluation (`WorkflowFinals.DeadIsFinal`); a fallback below it, followed by the
  deletion of the suffix, can commit again. In every other case a Run that has a checkpoint and has not ended can
  still be brought to success (`WorkflowResumption.SucceedsExactly`).
- A grant that narrows the page limit stops the recovery listing after the first page unless everything
  fitted on it (`Paging.NarrowedGrantExactly`).
- Two calls with one identity share one lease, and the first release drops it for both
  (`PluginLifecycle.SharedKeySharesLease`). The other call can then outlive its plugin: `PluginRaces.UseAfterUnload` is
  a run that ends with an operation at work after its plugin was unloaded and its registration withdrawn. Leases in
  use stay recorded if and only if no call releases a lease that another call still uses
  (`PluginSafety.LeasesHeldExactly`), and every operation at work keeps its plugin and registration if and only if no
  plugin is withdrawn under one of them (`PluginForce.InForceExactly`).
- RFC-0002 promises the same plan or the same structured error for every order of the candidates. With two names
  taken, either can be the one a duplicate-name error reports (`ResolverLaws.DuplicateReportsDiffer`); the order never
  matters if and only if at most one name is taken (`ResolverLaws.OrderIgnoredExactly`).
- The cycle error names every plugin that depends on a cycle, not only those on one
  (`ResolverLaws.ReportNamesLoops`).
- A receipt that names only some of its registration's keys strands the others
  (`PluginRegistry.PartialReceiptStrands`, and exactly when in `PluginRegistry.ReceiptMustNameAllKeys`).
- Version precedence is total exactly for versions that do not first differ in two spellings of one number
  (`SemVer.TotalUnlessNumericTie`).
- The two event ledgers answer a history alike exactly when it marks no acknowledged entry
  (`Outbox.LedgersAgreeExactly`). Hence publishing an acknowledged event again succeeds over one and raises
  over the other (`AuditSafety.RepublishDiffers`).
- The delivery loop does not check what an acknowledgement names (`AuditSafety.MisnamedAcknowledgement`). After a
  publication that ends normally the entry is acknowledged if and only if it was before or the last answer names it
  (`AuditSafety.PublicationAcknowledgesExactly`).

## Model

| member | source | states |
|---|---|---|
| Order.RankEmbedsIdentifiers | src/congeries_core/workflow/scheduler.py:42-48 | among any finite set of identifiers, comparing ranks is comparing values, in both directions; sorting by value may be modelled on ranks |
| Graph.SortableIffAcyclic | src/congeries_core/workflow/validation.py:245-256 | taking the least ready node again and again reaches every node if and only if the graph has no cycle |
| Graph.GreedyIsLeast | src/congeries_core/workflow/validation.py:241-256 | that order is the lexicographically least of all edge-respecting permutations |
| Graph.GreedyIsTopological | src/congeries_core/workflow/validation.py:241-256 | it lists every node once and every edge points forward |
| Graph.GreedySuffix | src/congeries_core/workflow/scheduler.py:42-52 | restarted after any prefix, the greedy choice gives exactly the remaining suffix |
| Kahn.Tables | src/congeries_core/workflow/validation.py:233-244 | the loop over dependencies builds exact predecessor counts and target lists |
| Kahn.Release | src/congeries_core/workflow/validation.py:247-253 | one decrement per outgoing edge; the ready list then holds exactly the ready nodes in order |
| Kahn.TopologicalOrder | src/congeries_core/workflow/validation.py:233-256 | succeeds if and only if the graph is acyclic, and then returns the greedy order; the counts left are zero exactly for the nodes it took |
| Scheduler.DeterministicScheduler.Create | src/congeries_core/workflow/scheduler.py:15-33 | refuses exactly a completed set that names an unknown node |
| Scheduler.DeterministicScheduler.Next | src/congeries_core/workflow/scheduler.py:42-52 | yields the first entry of the greedy order that continues from the completed set, or nothing when there is none |
| Scheduler.DeterministicScheduler.MarkCompleted | src/congeries_core/workflow/scheduler.py:54-64 | accepts exactly completed and ready nodes; the completed set grows by that node or stays |
| Scheduler.DeterministicScheduler.Done | src/congeries_core/workflow/scheduler.py:73-75 | comparing sizes decides whether every node is completed |
| Scheduler.DeterministicScheduler.RunToEnd | src/congeries_core/workflow/runtime.py:364-480 | repeated next and mark_completed walk exactly the rest of the greedy order, and stall exactly when it misses a node |
| Scheduler.SchedulerFollowsOrder | src/congeries_core/workflow/scheduler.py:42-64 | after any prefix of the validator's order the scheduler continues with exactly its suffix |
| Validation.AllUnique | src/congeries_core/workflow/validation.py:55-70 | as many distinct values as values, if and only if none repeats |
| Validation.ReachableFrom | src/congeries_core/workflow/validation.py:327-349 | the grow-until-unchanged loop collects exactly the nodes some walk from an input-bound node reaches |
| Validation.Validate | src/congeries_core/workflow/validation.py:50-84 | which error the graph checks give each definition, in the source's order, and success with the greedy order exactly when all of them pass |
| SemVer.LessIsItem11 | src/congeries_core/plugin/model.py:67-74 | the comparison is item 11 of Semantic Versioning 2.0.0, stated independently, on every pair of versions |
| SemVer.LessIrreflexive | src/congeries_core/plugin/model.py:67-92 | equal versions, and versions differing only in build metadata, do not precede each other |
| SemVer.LessTransitive | src/congeries_core/plugin/model.py:67-74 | precedence is transitive on canonical versions |
| SemVer.LessTotal | src/congeries_core/plugin/model.py:67-92 | on canonical versions exactly one of less, same and greater holds |
| SemVer.LeadingZeroBreaksTotality | src/congeries_core/plugin/model.py:461-480 | the pre-releases 1 and 01 are not equal and each compares as the greater |
| SemVer.TotalUnlessNumericTie | src/congeries_core/plugin/model.py:461-480 | the exact condition under which two versions compare, for every pair |
| SemVer.ComparatorExactly | src/congeries_core/plugin/model.py:104-113 | what each operator matches, for every pair of versions, by the independent precedence: `=` the same, `>` and `<` strictly after and before, `>=` and `<=` those or the same; only two versions that precede in neither direction and are not the same match both `>` and `>=` |
| SemVer.RangeExactly | src/congeries_core/plugin/model.py:145-146 | a range of canonical versions matches a canonical version if and only if every comparator is satisfied |
| SemVer.RangeConvex | src/congeries_core/plugin/model.py:104-113 | whatever lies between two versions a range matches is matched too |
| SemVer.RangeIgnoresBuild | src/congeries_core/plugin/model.py:145-146 | a range cannot tell versions apart that differ only in build metadata |
| SemVerText.ParsePrint | src/congeries_core/plugin/model.py:44-65 | parsing a printed canonical version gives it back, build metadata included |
| SemVerText.PrintParse | src/congeries_core/plugin/model.py:44-65 | what the parser accepts is canonical and prints as exactly the text read |
| SemVerText.ParserAcceptsPrintedForms | src/congeries_core/plugin/model.py:44-65 | the parser accepts exactly the printed forms of canonical versions |
| SemVerText.RangeRoundTrip | src/congeries_core/plugin/model.py:127-151 | parsing a printed range gives back its comparators in order |
| Resolver.CheckNames | src/congeries_core/plugin/dependency.py:63-74 | finds the first candidate, in input order, whose name an earlier one or an active plugin has already |
| Resolver.Schedule | src/congeries_core/plugin/dependency.py:96-123 | Kahn's loop over the candidates: the plan in greedy order, or a cycle error with exactly the plugins whose count stays above zero |
| Resolver.ResolvePlan | src/congeries_core/plugin/dependency.py:57-123 | the loops compute the plan or error of the value specification on every input, with the selected capability of each binding and the plugin, dependency or cycle each error reports |
| ResolverLaws.ResolvesExactly | src/congeries_core/plugin/dependency.py:57-123 | for any candidates: there is a plan if and only if the names are unique, every dependency has exactly one compatible provider other than its own plugin, and the provider graph is acyclic; otherwise the first repeated name, the first dependency that cannot be bound, or the cycle is reported |
| ResolverLaws.DependencyExactly | src/congeries_core/plugin/dependency.py:136-246 | a dependency resolves if and only if exactly one provider is compatible, else the cause: nothing offers it, several do, or none in range |
| ResolverLaws.BindsExactly | src/congeries_core/plugin/dependency.py:82-94 | every dependency of every candidate is bound or the error names the first that cannot be, by name and stable key, with its consumer and cause |
| ResolverLaws.BoundAll | src/congeries_core/plugin/dependency.py:82-94 | the bindings are exactly the manifests' dependencies with the provider each resolves to |
| ResolverLaws.PluginProviderMatches | src/congeries_core/plugin/dependency.py:136-159 | a plugin dependency is bound to a known plugin of that name inside its version range |
| ResolverLaws.CapabilityProviderMatches | src/congeries_core/plugin/dependency.py:161-227 | a capability dependency is bound to the owner and the declaration of a compatible offer |
| ResolverLaws.PluginChoiceExactly | src/congeries_core/plugin/dependency.py:136-246 | a plugin dependency resolves if and only if exactly one known plugin of that name is in range, and then to it; the exact cause of each refusal |
| ResolverLaws.CapabilityChoiceExactly | src/congeries_core/plugin/dependency.py:161-208 | the same for a capability: exactly one compatible offer, its owner and its declaration |
| ResolverLaws.PlanListsCandidates | src/congeries_core/plugin/dependency.py:96-123 | a successful plan lists every candidate exactly once |
| ResolverLaws.PlanOrdersProviders | src/congeries_core/plugin/dependency.py:88-107 | each candidate provider comes before its consumers |
| ResolverLaws.CycleReportedExactly | src/congeries_core/plugin/dependency.py:93-114 | a resolvable set gets its plan if and only if no plugin names itself and the provider graph is acyclic; otherwise the error names the first plugin that names itself, or else everything the cycle blocks |
| ResolverLaws.ReportNamesLoops | src/congeries_core/plugin/dependency.py:108-114 | the plugins in the cycle error are exactly those on a cycle or depending on one |
| Graph.BlockedExactly | src/congeries_core/plugin/dependency.py:98-109 | the nodes the greedy order never reaches are exactly those some walk with a repeated node leads to |
| ResolverLaws.ResolutionIgnoresInputOrder | src/congeries_core/plugin/dependency.py:57-123 | permuting the candidates changes neither the plan nor the error, with the consumer, dependency and cycle it reports, except that of several taken names another may be reported |
| ResolverLaws.OrderIgnoredExactly | docs/rfcs/RFC-0002-plugin-sdk.md:130-135 | for any candidates: every order gives the same plan or the same structured error if and only if at most one name is taken |
| ResolverLaws.DuplicateReportsDiffer | src/congeries_core/plugin/dependency.py:63-74 | two plugins, each twice: two orders give errors that name different plugins |
| ResolverLaws.FinalSortIsIdentity | src/congeries_core/plugin/dependency.py:115-123 | the loops already emit the bindings in the order the final sort asks for |
| RunMachine.AttemptAccounting | src/congeries_core/runtime/run.py:611-908 | from CREATED, under every call sequence with a monotone clock, records are numbered 1..n, only the last may be open, and the constructor's checks hold |
| RunMachine.RecordCount | src/congeries_core/runtime/run.py:611-908 | the number of records follows the attempt number after every prefix of a call sequence (none in CREATED, one less while a retry is pending, else equal), if and only if the sequence never skips start |
| RunMachine.SkippedStartBreaksRecordCount | src/congeries_core/runtime/run.py:643-661 | advance(STARTING) on a CREATED Run gives a STARTING Run on attempt 1 with no record |
| RunChecks.AcceptedKeptExactly | src/congeries_core/runtime/run.py:611-908 | for every operation, exactly when it leaves a Run that passes the constructor's checks passing them |
| RunChecks.ClosedCurrentBreaks | src/congeries_core/runtime/run.py:616-626 | when the current attempt's record is closed already, exactly the operations that close or open an attempt break the checks, at any time |
| RunChecks.AcceptedIsNotInductive | src/congeries_core/runtime/run.py:231-281 | a RUNNING and a PAUSED Run that pass every check, and list an attempt twice after complete, cancel, recover or resume |
| RunLaws.DiagramExactly | docs/rfcs/RFC-0004-execution-run-lifecycle.md:85-126 | some operation takes a Run to another status if and only if the lifecycle diagram has that move |
| RunMachine.CommitExactly | docs/rfcs/RFC-0004-execution-run-lifecycle.md:162-165 | exactly when a checkpoint commit succeeds, and that it changes only the marker, version and time, or under migration also the definition and graph version |
| RunEnvelope.AcceptedExactly | src/congeries_core/runtime/run.py:611-908 | for every operation, a table of the Runs it accepts at the expected version, and the error it answers to any other |
| RunEnvelope.FieldsTellTheCalls | src/congeries_core/runtime/run.py:611-908 | over every call sequence: the version counts the calls that changed the Run, and updated_at, started_at, ended_at and the error are those of the last call of their kind |
| RunLaws.PhaseSurvives | src/congeries_core/runtime/run.py:663-750 | whatever pauses, resumes, retries, redispatches and commits arrive, at whatever versions, the Run stays in its phase and the attempt grows by exactly the retries that went through |
| RunLaws.RecordsNameTheirCalls | src/congeries_core/runtime/run.py:703-908 | over every call sequence, a record is closed exactly as the call that ended its attempt says and a recovery source is the one its recover call gave, and every such call is found unchanged at its attempt's place |
| RunLaws.EnteringRecovery | src/congeries_core/runtime/run.py:583-592 | entering RECOVERING opens a new attempt exactly when recover does it |
| RunLaws.AdvanceEntersRecovery | src/congeries_core/runtime/run.py:583-592 | advance takes a RUNNING Run to RECOVERING on the same attempt and history |
| RunMachine.TerminalIsFinal | src/congeries_core/runtime/run.py:628-908 | no call changes a terminal Run |
| RunMachine.MarkerMovesByCommit | src/congeries_core/runtime/run.py:799-851 | only a checkpoint commit moves the marker or the definition |
| RunStore.InMemoryRunRepository.CompareAndSet | src/congeries_core/state/repository.py:47-70 | the stored Run advances by exactly one version or nothing changes, with the error of each refusal |
| RunStore.CompareExactly | src/congeries_core/state/repository.py:47-70 | accepted if and only if the Run is stored at the expected version and the new one is one above it; which refusal otherwise |
| RunStore.InMemoryRunRepository.Add | src/congeries_core/state/repository.py:26-34 | stores a new Run, refuses a known identity |
| RunStore.RunService.Mutate | src/congeries_core/state/service.py:55-68 | stores exactly one transition of the state machine, or nothing |
| RunStore.NoLostUpdate | src/congeries_core/state/service.py:55-68 | in every interleaving a client's compare-and-set succeeds if and only if the stored Run is the value it had read, and is stale otherwise |
| RunStore.RaceHasOneWinner | docs/rfcs/RFC-0004-execution-run-lifecycle.md:151-160 | of two clients that computed from the same stored value at most one commits, for instance a completion and a cancellation |
| RunStore.Linearized | src/congeries_core/state/repository.py:47-70 | the values ever stored for a Run form one legal path of the state machine and a version names one value |
| RunStore.TerminalEndsHistory | src/congeries_core/state/repository.py:47-70 | nothing is stored after a terminal value |
| RunStore.HistoryOnlyGrows | src/congeries_core/state/repository.py:47-70 | later steps only append to what was stored |
| CheckpointStore.SaveKeepsIndex | src/congeries_core/checkpoint/store.py:74-135 | a save leaves the two maps exact inverse indexes of each other and adds its checkpoint or nothing |
| CheckpointStore.SaveExactly | src/congeries_core/checkpoint/store.py:74-135 | a fresh checkpoint is stored if and only if its digest is right, its sequence is one above all of its Run, its predecessor is stored for that Run one below it, and it repeats every side effect of its predecessor unchanged; which refusal each failure gets; the new maps |
| CheckpointStore.SaveAgainExactly | src/congeries_core/checkpoint/store.py:80-89 | under a reference already stored: the same digest changes nothing, any other is refused |
| StoreHistory.EffectsNeverLost | src/congeries_core/checkpoint/store.py:118-132 | after any history of saves and deletions by any clients, along any chain of stored checkpoints a recorded side effect is recorded unchanged by all later ones |
| StoreHistory.SavesCarry | src/congeries_core/checkpoint/store.py:118-132 | the same along any line of saves, even when what recorded the effect first is deleted later |
| CheckpointStore.SaveAcceptedExactly | src/congeries_core/checkpoint/store.py:89-132 | a fresh, linked checkpoint that keeps all side effects is stored if and only if nothing of its Run lies above its predecessor |
| CheckpointStore.FirstStoredExactly | src/congeries_core/checkpoint/store.py:89-117 | a fresh first checkpoint is stored if and only if nothing of its Run is |
| CheckpointStore.SaveThenLoad | src/congeries_core/checkpoint/store.py:74-150 | what was saved loads back, saving it again changes nothing, other content under its reference is refused, other references load as before |
| CheckpointStore.SaveThenRemove | src/congeries_core/checkpoint/store.py:74-216 | deleting a checkpoint right after its save restores both maps |
| CheckpointStore.InMemoryCheckpointStore.HighestSequence | src/congeries_core/checkpoint/store.py:97-102 | the highest sequence in use for a Run, or 0 |
| CheckpointStore.InMemoryCheckpointStore.SaveCheckpoint | src/congeries_core/checkpoint/store.py:74-135 | the store's decision and new state, with the error of each refusal |
| CheckpointStore.InMemoryCheckpointStore.LoadCheckpoint | src/congeries_core/checkpoint/store.py:137-150 | the stored value if it passes integrity, else which error |
| CheckpointStore.InMemoryCheckpointStore.DeleteCheckpoint | src/congeries_core/checkpoint/store.py:191-216 | removes exactly the owned checkpoint from both maps; a missing one is reported, a foreign one refused |
| CheckpointStore.InMemoryCheckpointStore.ListCheckpoints | src/congeries_core/checkpoint/store.py:152-234 | the newest matching items below the cursor, strictly descending, with a cursor exactly when items remain |
| Paging.ValidatePage | src/congeries_core/checkpoint/gateway.py:281-322 | which of the page checks fails first decides the error: the limit, then item by item identity before order, then the cursor; none exactly when all pass |
| Paging.StorePagesAreValid | src/congeries_core/checkpoint/gateway.py:281-322 | every page of the store passes every gateway check |
| Paging.RestBelowCursor | src/congeries_core/checkpoint/store.py:163-189 | the items below a page's cursor are the rest of the listing |
| Paging.GatewayList | src/congeries_core/checkpoint/gateway.py:152-177 | one authorized list call: it answers exactly for a limit in range that a cursor does not contradict, with the store's page for that limit, which always passes the page checks |
| Paging.ListAll | src/congeries_core/checkpoint/coordinator.py:431-451 | the paging loop through the gateway, whatever limits are granted: it terminates, and if it ends well it has all matching checkpoints, once each, latest first; with exact grants it always ends well |
| Paging.NarrowedGrantExactly | src/congeries_core/checkpoint/gateway.py:260-278 | exactly when a narrowed first page lets the loop go on |
| Coordinator.CheckpointCoordinator.SaveAndCommit | src/congeries_core/checkpoint/coordinator.py:155-216 | an uncontended save succeeds if and only if it is admissible or already committed; then the store and the marker have both moved, otherwise neither has, with the exact failure |
| Coordinator.CheckpointCoordinator.DeleteOrphan | src/congeries_core/checkpoint/coordinator.py:218-252 | deletes only what the committed chain does not contain; on a whole chain the walk is the chain and the cycle guard does not fire; on an intact chain, without a marker and for a missing or other Run, exactly which answer |
| Coordinator.WalkIsChain | src/congeries_core/checkpoint/coordinator.py:228-245 | a predecessor walk that ends on a whole chain is that chain |
| Coordinator.CycleNeedsBrokenChain | src/congeries_core/checkpoint/coordinator.py:230-236 | a repeated reference shows the chain was not whole |
| Recovery.NearestMeaning | src/congeries_core/checkpoint/coordinator.py:459-485 | the search finds the first intact entry and fails exactly when there is none |
| Recovery.WalkBack | src/congeries_core/checkpoint/coordinator.py:452-485 | the loop terminates and on a whole chain selects the closest intact ancestor |
| Recovery.Gather | src/congeries_core/checkpoint/coordinator.py:431-451 | the paging loop gathers exactly the Run's checkpoints by reference |
| Recovery.RecoveryCoordinator.LoadWithFallback | src/congeries_core/checkpoint/coordinator.py:411-499 | on every store: an intact marker is used as it is; a corrupt one gives what the walk over recorded predecessors selects and moves the marker there, or the exact failure; on a whole chain that is the nearest intact ancestor |
| Chains.UnbrokenIsWhole | src/congeries_core/checkpoint/store.py:102-117 | links recorded at save time that fall by one give a whole chain of stored checkpoints |
| CommitIntegrity.MarkersWholeExactly | src/congeries_core/checkpoint/coordinator.py:155-252 | over any run of saves, commits, crashes, corruption, fallbacks, migrations and deletions: every marker names a stored checkpoint of its Run whose predecessors are stored and fall by one to sequence 1, in every state, if and only if each successful commit finds its checkpoint stored and no deletion hits a current marker's chain |
| CommitIntegrity.StepExactly | src/congeries_core/checkpoint/coordinator.py:202-252 | the same for one step |
| CommitIntegrity.CommittedChainIntegrity | src/congeries_core/checkpoint/coordinator.py:155-252 | every marker is whole in every interleaving in which nobody deletes what is being saved |
| CommitSafety.CycleGuardsUnreachable | src/congeries_core/checkpoint/coordinator.py:228-236 | neither the deletion's nor the fallback's cycle guard can fire, whatever is deleted |
| CommitSafety.FallbackStaysOnChain | src/congeries_core/checkpoint/coordinator.py:459-485 | over any pages read at any times, the fallback selects an intact ancestor of the marker |
| CommitIntegrity.TargetIsOrphan | src/congeries_core/checkpoint/coordinator.py:246-252 | when the walk ends, its target is in no committed chain, whatever committed meanwhile |
| CommitRaces.DeletedBeforeCommit | src/congeries_core/checkpoint/coordinator.py:202-252 | a run of two clients in which the deletion ends before the commit: the commit is unsafe and its marker dangles |
| CommitRaces.DeletedAfterCommit | src/congeries_core/checkpoint/coordinator.py:228-252 | a run in which the commit is safe and a deletion that read the marker before it ends afterwards: the marker dangles |
| CommitRaces.ReuseBreaksMarker | src/congeries_core/checkpoint/coordinator.py:155-252 | a run of safe steps in which a deleted reference is used again for another Run: the first Run's marker names a foreign checkpoint |
| CommitIntegrity.StoredExactlyAboveMarker | src/congeries_core/checkpoint/coordinator.py:182-209 | a checkpoint in place above the current marker is stored if and only if nothing of its Run lies above the marker, for saves and migrations alike |
| CommitLabels.MarkerMoves | src/congeries_core/checkpoint/coordinator.py:263-552 | over every run of clients, a marker moves in three ways only: a save commits a checkpoint that carries the Run's identity, definition, graph version and attempt, directly above the marker; a migration commits what the migrator answered for the loaded source, with its side effects, and takes the Run to its definition and graph version; a fallback goes to an intact checkpoint and leaves the Run on the definition it has |
| CommitLabels.VersionsAgreeExactly | src/congeries_core/checkpoint/coordinator.py:487-497 | over any run, every Run is in every state on the definition and graph version of the checkpoint that its marker names, if and only if no fallback crosses a migration |
| CommitRaces.FallbackCrossesMigration | src/congeries_core/checkpoint/coordinator.py:487-497 | a run of save, migration, decay and fallback that ends with a Run on the migrated definition and its marker at an intact checkpoint of the old one |
| CommitSafety.FallbackCommitKeeps | src/congeries_core/checkpoint/coordinator.py:491-499 | moving the marker to the candidate keeps every recorded chain unbroken and every client's place in it |
| CommitSafety.MigrateKeeps | src/congeries_core/checkpoint/coordinator.py:501-553 | a migrated checkpoint that passes the identity checks sits directly above the marker it was read from |
| WorkflowContent.NextInOrder | src/congeries_core/workflow/scheduler.py:42-52 | the node the scheduler picks from a checkpoint is the next entry of the validator's order |
| WorkflowContent.AgentGood | src/congeries_core/workflow/runtime.py:434-470 | the checkpoint after an agent node is at the next stage and changes nothing settled |
| WorkflowContent.EvaluationGood | src/congeries_core/workflow/runtime.py:576-606 | the same for an evaluation, passed or failed |
| WorkflowContent.RequestGood | src/congeries_core/workflow/runtime.py:754-791 | the same for a requested approval |
| WorkflowContent.DecisionGood | src/congeries_core/workflow/runtime.py:240-281 | the same for a decided approval |
| WorkflowContent.ReplayIsSame | src/congeries_core/checkpoint/approval.py:112-115 | an approval made again changes no content, when its checkpoint can be constructed at all |
| WorkflowContent.DecidedAfterwards | src/congeries_core/checkpoint/approval.py:101-115 | an approval that somebody else committed between the two reads: the checkpoint built from the first read is a copy of the committed one |
| WorkflowSafety.CommittedPrefix | src/congeries_core/workflow/runtime.py:325-489 | the succeeded nodes of every committed checkpoint are a prefix of the validator's order; recorded and pending nodes partition the definition's |
| WorkflowSafety.DispatchAfterDependencies | src/congeries_core/workflow/runtime.py:364-412 | a node is handed out only after all its dependencies succeeded in a committed checkpoint |
| WorkflowSafety.NeverRedispatched | src/congeries_core/workflow/runtime.py:325-489 | with one driver at a time, across crashes and recoveries, a node committed as succeeded is never handed out again |
| WorkflowSafety.SuccessMeansAllNodes | src/congeries_core/workflow/runtime.py:803-838 | a succeeded Run's marker names a checkpoint with every node succeeded |
| WorkflowSafety.HistoryIsWriteOnce | src/congeries_core/workflow/runtime.py:240-281 | side effects, decisions and settled node states of a committed checkpoint reappear unchanged in every later one |
| WorkflowSafety.ResultsAreRecorded | src/congeries_core/workflow/runtime.py:434-470 | side effects are recorded for exactly the side-effecting nodes that succeeded, each with the node's output; every agent and evaluation has its result, as output or as error |
| WorkflowSafety.DecisionsAreOutcomes | src/congeries_core/workflow/runtime.py:240-281 | in every committed checkpoint an approval node is waiting, succeeded, denied or cancelled exactly as the decision on record is missing, approved, rejected or withdrawn |
| WorkflowAnswers.ResultsAreAnswers | src/congeries_core/workflow/runtime.py:396-480 | in every execution, what a committed checkpoint records for an agent or evaluation node is what a driver answered for it while that node was handed to it: output, side effect with key, request and result, or evaluation result, as output if it passed and as error if not |
| WorkflowDispatch.HandedOutWhileRunning | src/congeries_core/workflow/runtime.py:194-202 | in every execution, a node is handed out by a driver that continues from the checkpoint its Run's marker names and found that Run RUNNING, or by one that repeated an approval, given while the Run was WAITING_APPROVAL, which was on record already |
| WorkflowEnds.EveryStatusHasAReason | src/congeries_core/workflow/runtime.py:840-884 | over every execution, whenever a call of the runtime gives the Run a new status: SUCCEEDED has every node succeeded on record, WAITING_APPROVAL an open approval, RUNNING a start, a restore or an approval, and FAILED or CANCELLED a recorded refusal, a recorded failed evaluation, a handed-out agent node that is unsettled with its dependencies succeeded, a restore under way, or a report of refused input or a failed audit |
| WorkflowEnds.FailureIsCurrent | src/congeries_core/workflow/runtime.py:348-420 | with one driver at a time, a terminal failure is about the committed checkpoint: it has a failed evaluation, or the failed node is unsettled in it with every dependency succeeded |
| WorkflowEnds.NoRunStalls | src/congeries_core/workflow/runtime.py:367-377 | no driver, in any execution, has pending work and no ready node: the stall failure is unreachable |
| WorkflowLimits.SaveBeginsExactly | src/congeries_core/checkpoint/coordinator.py:155-200 | a driver's save passes its checks if and only if the Run is the one it read and not terminal and it continues from the committed checkpoint |
| WorkflowLimits.StoredExactly | src/congeries_core/checkpoint/store.py:89-132 | whatever happened since the checks, the checkpoint is stored if and only if nothing of the Run is stored at its sequence or above |
| WorkflowLimits.SuccessorAdmissibleExactly | src/congeries_core/checkpoint/coordinator.py:155-209 | exactly when a successor of the marker is admissible |
| WorkflowProgress.UncontendedSaveCommits | src/congeries_core/checkpoint/coordinator.py:155-216 | check, store and commit take an uncontended driver to the state with its checkpoint stored and committed |
| WorkflowCompletion.WorkflowSucceeds | src/congeries_core/workflow/runtime.py:325-489 | for every validated definition an execution that hands out each node once, in the validator's order, and ends with the Run SUCCEEDED and every node committed |
| WorkflowResumption.SucceedsExactly | src/congeries_core/workflow/runtime.py:204-222 | wherever an execution is interrupted after its first commit, with its Run not ended: some continuation succeeds if and only if the last committed checkpoint holds no refusal and no failed evaluation |
| WorkflowResumption.AliveSucceeds | src/congeries_core/workflow/runtime.py:325-489 | that continuation, for any driver and time: exactly the nodes of the validator's order that were not on record are handed out, once each and in order |
| WorkflowResumption.RecoveryReturns | src/congeries_core/workflow/runtime.py:204-222 | recover takes any started Run that has a checkpoint and is not yet RECOVERING to RUNNING, with its driver at the committed checkpoint |
| WorkflowResumption.ExecutePicksUp | src/congeries_core/workflow/runtime.py:187-202 | execute takes a RUNNING Run over in one step, at the committed checkpoint and without changing the Run |
| WorkflowResumption.OpenIsDecided | src/congeries_core/workflow/runtime.py:224-281 | wherever the execution was interrupted, an open approval can be decided: the decision is committed and the Run goes on, fails or is cancelled accordingly |
| WorkflowResumption.FailureEnds | src/congeries_core/workflow/runtime.py:348-357 | wherever the execution was interrupted, a committed evaluation failure can end the Run as FAILED or CANCELLED, with nothing more committed |
| WorkflowResumption.AgentFailureEnds | src/congeries_core/workflow/runtime.py:840-866 | an agent node that fails at work can end its Run the same way |
| WorkflowResumption.RestoreFailureEnds | src/congeries_core/checkpoint/coordinator.py:387-403 | a restorer that raises fails the Run, wherever the execution was interrupted, when the recovery policy says so |
| WorkflowResumption.ReportIsCarriedOut | src/congeries_core/workflow/runtime.py:868-879 | refused input ends a Run that has not ended, and a failed audit ends or pauses it, wherever it is |
| WorkflowRaces.RepeatedApproval | src/congeries_core/checkpoint/approval.py:112-115 | an execution in which an approval is decided again after a crash, the next node is handed out and answered, and its save cannot begin |
| WorkflowLimits.RequestedExactly | src/congeries_core/workflow/runtime.py:741-791 | the chosen approval can be requested if and only if the Run is RUNNING and no refusal is on record |
| WorkflowFinals.DeadIsFinal | src/congeries_core/workflow/runtime.py:348-357 | once a refusal or a failed evaluation is committed, without fallback and migration nothing is ever committed again and the Run never succeeds, whatever recoveries, retries and decisions are tried |
| WorkflowFinals.FailureEndsDispatch | src/congeries_core/workflow/runtime.py:348-357 | after a committed failed evaluation a node is handed out only by a driver that still holds an older checkpoint, and with one driver at a time never |
| WorkflowFinals.LostForGood | src/congeries_core/workflow/runtime.py:187-192 | a started Run without a checkpoint whose driver is gone never gets a checkpoint, a dispatch or a success, whatever is called |
| WorkflowRaces.RefusalRecovered | src/congeries_core/workflow/runtime.py:204-222 | an execution in which recovery after a committed rejection reaches RUNNING and picks the refused approval, which no answer can leave |
| WorkflowLimits.OrphanBlocks | src/congeries_core/checkpoint/coordinator.py:277-289 | a checkpoint left by a crashed attempt is never committed by a later one, and blocks every other successor of the marker |
| WorkflowOrphans.OrphanFreezes | src/congeries_core/checkpoint/coordinator.py:182-209 | over every execution: while an orphan lies directly above the marker nothing is committed, until somebody deletes it |
| WorkflowOrphans.CrashBeforeCommit | src/congeries_core/checkpoint/coordinator.py:182-209 | whenever a save could go through, its driver can instead crash with its checkpoint stored and not committed |
| WorkflowOrphans.OrphanStops | src/congeries_core/checkpoint/coordinator.py:182-209 | an execution in which a crash between store and commit, after the first checkpoint was committed, and a recovery make the second attempt do the same node again, pass its checks and fail to store |
| WorkflowOrphans.StartIsLost | src/congeries_core/workflow/runtime.py:163-192 | for every definition, an execution that ends with the Run RUNNING, its first checkpoint stored and uncommitted, and its driver gone |
| PluginRegistry.CapabilityRegistry.CommitPlan | src/congeries_core/plugin/registry.py:112-159 | the whole plan is published at one new version, or nothing changes, with the reason |
| PluginRegistry.CapabilityRegistry.UnregisterReceipt | src/congeries_core/plugin/registry.py:161-190 | exactly the receipt's keys go, or nothing changes; a retired receipt changes nothing |
| PluginRegistry.CommitMeaning | src/congeries_core/plugin/registry.py:129-159 | a commit adds exactly the keys its receipt lists, owned by it, and keeps the rest |
| PluginRegistry.CommitAcceptedExactly | src/congeries_core/plugin/registry.py:123-140 | a commit is accepted if and only if the registry is at the expected version and none of the keys is registered; which refusal otherwise; the new version and receipt |
| PluginRegistry.OneCommitPerVersion | src/congeries_core/plugin/registry.py:123-129 | over any history, at most one commit computed from a version is accepted, whatever the keys |
| PluginRegistry.ForeignKeysAreSafe | src/congeries_core/plugin/registry.py:161-190 | any receipt, issued or not: refused if and only if it is not retired and one of its keys is not registered to it; keys of others stay |
| PluginRegistry.LiveReceiptTakesItsKeys | src/congeries_core/plugin/registry.py:161-190 | whatever was committed in between, a live receipt is accepted and takes back exactly its keys |
| PluginRegistry.Conservation | src/congeries_core/plugin/registry.py:112-190 | after every history the registrations are the disjoint union of the live receipts' keys and the version counts the changes |
| PluginRegistry.LiveReceiptsAreDisjoint | src/congeries_core/plugin/registry.py:131-140 | two live receipts share neither identity nor key |
| PluginRegistry.ReceiptMustNameAllKeys | src/congeries_core/plugin/registry.py:166-190 | a withdrawal leaves nothing of its identity behind if and only if its receipt names all of its keys |
| PluginRegistry.PartialReceiptStrands | src/congeries_core/plugin/registry.py:166-190 | two capabilities are published, a receipt naming one is accepted, and the complete receipt then takes nothing back |
| PluginLifecycle.PluginLifecycleController.Discover | src/congeries_core/plugin/lifecycle.py:74-95 | a new plugin starts DISCOVERED and without leases; a known one must have the same manifest |
| PluginLifecycle.PluginLifecycleController.Transition | src/congeries_core/plugin/lifecycle.py:102-153 | the transition or its refusal, for that plugin's record alone |
| PluginLifecycle.PluginLifecycleController.MarkHook | src/congeries_core/plugin/lifecycle.py:155-169 | a successful hook is recorded once |
| PluginLifecycle.PluginLifecycleController.Acquire | src/congeries_core/plugin/lifecycle.py:171-236 | the lease or its refusal, and the plugin's new leases |
| PluginLifecycle.PluginLifecycleController.Release | src/congeries_core/plugin/lifecycle.py:238-252 | exactly the recorded lease is dropped and its identity retired |
| PluginHistory.MoveExactly | src/congeries_core/plugin/lifecycle.py:102-153 | exactly which transitions are granted, the refusal of the others, and every field of the new record |
| PluginHistory.TakeExactly | src/congeries_core/plugin/lifecycle.py:171-236 | exactly what an acquisition answers: the lease the call holds already, a new one of the current epoch, or which refusal |
| PluginHistory.DropExactly | src/congeries_core/plugin/lifecycle.py:238-252 | exactly which leases are accepted back and what then remains |
| PluginHistory.RecordTellsTheCalls | src/congeries_core/plugin/lifecycle.py:102-169 | after any history the epoch counts the activations, the version the changes, and a hook is marked if and only if it was marked |
| PluginHistory.LeasesTellTheCalls | src/congeries_core/plugin/lifecycle.py:171-252 | after any history a lease is recorded if and only if some call was granted it and no call released it since |
| PluginLifecycle.VersionNamesRecord | src/congeries_core/plugin/lifecycle.py:102-169 | over any history a record's version only grows and names one record, and epochs never fall |
| PluginLifecycle.UnregisteredIsFinal | src/congeries_core/plugin/lifecycle.py:50-63 | an unregistered plugin never comes back and never gets a new lease |
| PluginLifecycle.ReactivationGrantsAgain | src/congeries_core/plugin/lifecycle.py:137-149 | a released call is refused for the rest of its epoch and granted a fresh identity after the next activation |
| PluginLifecycle.GrantedExactly | src/congeries_core/plugin/lifecycle.py:187-224 | exactly when a lease is handed out |
| PluginLifecycle.NeverGrantedAgain | src/congeries_core/plugin/lifecycle.py:211-252 | a released lease identity is never granted again, whatever happens in between |
| PluginLifecycle.SharedKeySharesLease | src/congeries_core/plugin/lifecycle.py:189-199 | two calls with one identity share one lease and the first release drops it for both |
| PluginSafety.NoUseAfterUnload | src/congeries_core/plugin/invocation.py:61-134 | while no call releases a lease that another still uses: a running operation's plugin is ACTIVE or DRAINING and the registration it was handed is still committed |
| PluginSafety.LeasesHeldExactly | src/congeries_core/plugin/lifecycle.py:238-252 | over any run, every lease in use stays recorded if and only if every release is of a lease that no other call uses |
| PluginForce.InForceExactly | src/congeries_core/plugin/manager.py:536-555 | over any run, every running operation's plugin is ACTIVE or DRAINING with the registration it was handed committed, if and only if no plugin's registration is withdrawn under one of its operations |
| PluginSafety.LeaveExactly | src/congeries_core/plugin/invocation.py:121-134 | the same for one release |
| PluginSafety.NoTwinsAreLone | src/congeries_core/plugin/lifecycle.py:189-199 | calls with different identities never share a lease, so different identities are enough |
| PluginRaces.UseAfterUnload | src/congeries_core/plugin/lifecycle.py:189-252 | a run of two calls with one identity that ends with an operation at work, its plugin UNLOADED and its registration gone |
| PluginSafety.LifecycleAgreesWithRegistry | src/congeries_core/plugin/manager.py:340-433 | in every run, with the lock free, the state is REGISTERED, ACTIVE or DRAINING exactly when the record holds a receipt, and the owner's keys in the registry are exactly that receipt's |
| PluginSafety.LockedStepsSucceed | src/congeries_core/plugin/manager.py:358-375 | in every run the rollback and the refusals in the middle of unload are unreachable, and a lease is always accepted back, whichever calls share it |
| PluginSafety.WithdrawTakes | src/congeries_core/plugin/manager.py:536-555 | the receipt an unload withdraws is live, and every other live receipt's keys stay |
| PluginSafety.LeaveKeeps | src/congeries_core/plugin/invocation.py:121-134 | a release is accepted and keeps lifecycle, leases and registry in agreement |
| PluginUnload.IdleIsUnloaded | src/congeries_core/plugin/manager.py:512-577 | wherever a run of the system has got to, a loaded plugin that was published and has no operation at work can be unloaded once its lock is free: nothing of it stays registered and nothing of the others is touched |
| PluginUnload.DrainIsCancelled | src/congeries_core/plugin/manager.py:482-510 | a cancelled drain takes the plugin back to ACTIVE in a new epoch, with the registration and the leases it had |
| Outbox.InMemoryEventLedger.NextSequence | src/congeries_core/event/memory.py:24-28 | one more than the Run's last number, starting at 1 |
| Outbox.InMemoryEventLedger.EnqueueEvent | src/congeries_core/event/memory.py:30-64 | a new pending entry, the same entry again, or an identity conflict |
| Outbox.InMemoryEventLedger.MarkAttempt | src/congeries_core/event/memory.py:66-88 | one more attempt on a pending entry; nothing on an acknowledged one; an error on a missing one |
| Outbox.InMemoryEventLedger.AcknowledgeEvent | src/congeries_core/event/memory.py:90-113 | the entry becomes acknowledged with its own digest, or a conflict |
| Outbox.SqliteEventLedger.NextSequence | src/congeries_core/adapter/sqlite_event.py:111-128 | the same over rows |
| Outbox.SqliteEventLedger.EnqueueEvent | src/congeries_core/adapter/sqlite_event.py:130-177 | the same over rows |
| Outbox.SqliteEventLedger.MarkAttempt | src/congeries_core/adapter/sqlite_event.py:179-201 | one more attempt on a pending row; an error on an acknowledged or missing one |
| Outbox.SqliteEventLedger.AcknowledgeEvent | src/congeries_core/adapter/sqlite_event.py:203-240 | the same over rows |
| Outbox.LedgersAgreeExactly | src/congeries_core/adapter/sqlite_event.py:179-201 | the two ledgers answer a history alike if and only if it marks no acknowledged entry; they always end in the same abstract state |
| OutboxHistory.AnswersExactly | src/congeries_core/event/memory.py:24-113 | the answer of each ledger to every call |
| OutboxHistory.EntryTellsTheCalls | src/congeries_core/event/memory.py:30-113 | after any history an entry exists if and only if it was enqueued; it has the digest of the first enqueue, is acknowledged by the first later call that names it with this digest, and until then counts its marks and keeps the last one's error |
| Outbox.EntryIsKept | src/congeries_core/event/memory.py:66-113 | an entry keeps its digest for good, stays pending until acknowledged with it, and keeps its first acknowledgement |
| Outbox.SequencesCount | src/congeries_core/event/memory.py:24-28 | the n-th request for a Run's number is answered with n |
| AuditDispatch.EventDispatcher.DeliverAudit | src/congeries_core/event/dispatcher.py:430-465 | the retry loop's new outbox, deliveries and failure, for every sink behaviour |
| AuditDelivery.DeliverExactly | src/congeries_core/event/dispatcher.py:430-465 | the outcome for a pending entry from the sink's answers alone: after m retryable errors the next answer decides, or the attempts are used up; the hand-overs, the failure code and the entry in each case |
| AuditDelivery.DeliverAgainExactly | src/congeries_core/event/dispatcher.py:430-465 | the same for an entry acknowledged before, over either ledger |
| AuditDispatch.EventDispatcher.PublishAudit | src/congeries_core/event/dispatcher.py:272-310 | required sinks in order up to the first failure, then the others |
| AuditDelivery.PublishExactly | src/congeries_core/event/dispatcher.py:272-310 | a publication ends normally if and only if some sink is required and every required one accepts; else which failure; a sink is served if and only if all required ones before it, or for an optional one all of them, accepted |
| AuditDispatch.EventDispatcher.RecoverPending | src/congeries_core/event/dispatcher.py:205-238 | every listed entry is delivered from its recorded attempts on, and the count of those acknowledged |
| AuditDelivery.RecoverExactly | src/congeries_core/event/dispatcher.py:205-238 | recovery hands every listed entry over as its sink's answers say, from its recorded attempts on, whatever happens to the others |
| AuditDelivery.RecoveredExactly | src/congeries_core/event/dispatcher.py:205-238 | the count it returns is the number of listed entries whose sink accepts |
| AuditSafety.PublishLosesNothing | src/congeries_core/event/dispatcher.py:272-310 | however a publication ends, no entry is lost, changes its digest or loses its acknowledgement |
| AuditSafety.NormalReturnMeansAcknowledged | src/congeries_core/event/dispatcher.py:286-290 | a normal return means every required sink's entry is acknowledged with the digest of what it was given |
| AuditSafety.PublicationAcknowledgesExactly | src/congeries_core/event/dispatcher.py:430-465 | after a publication to a sink that ends normally, the event's own entry is acknowledged if and only if it was before or the last answer names it |
| AuditSafety.MisnamedAcknowledgement | src/congeries_core/event/dispatcher.py:440-449 | a publication that returns normally with its own entry still pending |
| AuditSafety.DeliveriesBounded | src/congeries_core/event/dispatcher.py:430-465 | one publication and all later recoveries hand an entry over at most audit_max_attempts times |
| AuditSafety.RepublishDiffers | src/congeries_core/event/dispatcher.py:440-456 | publishing an acknowledged event again succeeds in memory and raises over rows |

## Left out

- CommitIntegrity.CommittedChainIntegrity: assumes that no reference is deleted while a save of it is in flight, and that a stored reference keeps its place in a chain; both are needed, see `CommitRaces`. Corruption leaves the chain links of a checkpoint readable.
- CommitIntegrity.MarkersWholeExactly: assumes that a stored reference keeps its place.
- CommitIntegrity.StoredExactlyAboveMarker: assumes a fresh reference; for a stored one the store compares digests, as `SaveCheckpoint` states.
- WorkflowSafety.NeverRedispatched: assumes one driver at a time; two live drivers can both hand out one node, and the compare-and-set then lets one of them commit. The other workflow results hold for any number of drivers.
- WorkflowSafety.CommittedPrefix: like every workflow result, about runs without fallback and migration; a checkpoint that fails integrity there is a load that raises.
- WorkflowSafety.SuccessMeansAllNodes: assumes that nobody but the driver completes the Run.
- WorkflowSafety.HistoryIsWriteOnce: covers chains built by the driver; a migrator is only held to the side effects.
- PluginSafety.NoUseAfterUnload: assumes that no call releases a lease that another call still uses; see `PluginRaces.UseAfterUnload`, and `PluginForce.InForceExactly` for the exact condition.
- Validation.Validate: has the graph checks, duplicate and unknown nodes, cycles and reachability of the output; the output node's type and schema, execution policy, node contracts, schemas, permissions and input bindings are checks of one record each and are left out.
- Resolver.ResolvePlan: an error is its code and what it names; its message text, category and retry flag are left out.
- WorkflowFinals.DeadIsFinal: about runs without fallback and migration, which can move the marker below the refusal.
- WorkflowOrphans.OrphanFreezes: the same.
- WorkflowEnds.EveryStatusHasAReason: calls from outside the workflow runtime need no reason.
- Paging.ListAll: grants are limits; recovery's gathering is stated for exact ones.
- PluginRegistry.Conservation: assumes that only issued receipts are presented; see `PartialReceiptStrands`.
- AuditSafety.NormalReturnMeansAcknowledged: assumes that a sink's acknowledgement names the entry it was given.
- AuditDelivery.PublishExactly: about a new event, sinks with distinct identities and acknowledgements that name their entry.
- AuditDelivery.RecoverExactly: about acknowledgements that name their entry and a list of different pending entries.
- AuditDelivery.RecoveredExactly: the same.
- AuditSafety.DeliveriesBounded: assumes that every failure is a CoreError; a process that dies between a delivery and its mark leaves that delivery uncounted. Sinks have distinct identities.
- Orphan deletion in `Workflow` is one step that spares committed checkpoints and those about to be; its walk is interleaved in `CommitProtocol`.
- The workflow driver, the approval coordinator and the plugin manager are step relations over values rather than classes, because their properties are about interleavings; object identity and aliasing of their local dictionaries are not captured.
- Liveness: nothing says that every execution ends. `WorkflowResumption` says which ends can still be reached, by continuations in which callers answer, decide and delete orphans.
- Serialization, JSON copying and field validation of the many frozen records.
- The text of identifiers and references, SHA-256, UUIDs and time zones; non-ASCII digits, which the version parser's character class would admit, are not part of this model.
- Scope narrowing, grants other than the page limit, permissions and authorization policy: a refusal before the effect.
- The output binding read at the end of an execution.
- Node input loading, output persistence and agent or evaluation internals: an agent node answers with an output, an evaluation with any verdict.
- Expiry and allowed outcomes of approvals; the order of the approvals tuple.
- Order and limit of the outbox's pending list, event creation, the observability queue, diagnostics and backoff delays.
- SQLite connections, transactions and journaling, threads, and asyncio cancellation in the middle of a locked section.
- Plugin loaders, hooks and announcements: they succeed or fail. Catalog snapshots and activation permissions are refusals before an effect.
- `pending_nodes` of the scheduler: the checkpoint builders state the pending set directly.
