# terragraph: graph algorithms, group expansion and the execution journal, verified

terragraph runs many independent Terraform root modules as one directed acyclic graph. It journals every
step, so that an interrupted run never blindly replays a mutation. This project models the parts of it in
which a mistake would be silent, and proves what those parts promise.

`dafny verify dfyconfig.toml` checks everything.

| file | what it models |
|---|---|
| `Names`, `Graphs`, `Options`, `Outcomes`, `Sequences` | names in byte order, graphs as the two projections of an edge list, reachability; small shared datatypes |
| `Tarjan`, `Topo`, `Selections` | `FindCycles`, `Levels`, `Select`, `ValidateMembership`, `SelectedLevels` |
| `Expansion`, `Wiring` | `Build`: `use` instances spliced in under dotted names, edges rewritten through exports, roots and sinks; and what the result consists of, said of the declared blocks |
| `Scheduler` | `runLevels`: every interleaving of the workers of a level, all exits, keep-going |
| `ExecutionStore`, `StoreRuns` | the compare-and-swap store as a class, and any interleaving of sessions on it |
| `Journal` | one process under the graph lock: barrier, pruning, node workers, saved rounds, recovery |
| `JournalInvariant`, `JournalWrites`, `JournalSteps`, `JournalProperties` | the invariant every step keeps, and what no step does |
| `GraphLock`, `Protocol`, `Histories`, `ProtocolRuns` | the lock object; whole runs of any number of processes with crashes, lost writes and forced releases; what earlier events of a run say about later ones; runs that exist |
| `Sessions`, `Recovery` | the session object over its node list, and `RecoverExecution` |
| `JournalTrace`, `Links`, `NodeActions`, `SavedRound` | sequences of journal steps, the session object as one side of them, the node actions of each command, and one round of a saved execution step by step |
| `ContractType` | three-valued contract checking of partially unknown values |
| `Receipts`, `ReceiptRuns`, `Credentials` | plugin call receipts and `NeedsRecovery`, whole runs of calls, the leases of a node |

## How the journal is modelled

A process that holds the lock takes steps: it reads (`Look`), writes its record conditionally (`Publish`),
works on nodes (`Work`), removes artifacts (`Remove`), creates an execution or leaves. Every write ends in
one of three ways: recorded, not recorded, or recorded although it reported an error; the last one happens
when the directory cannot be synced after the rename. The workers of a session interleave in any order. A
process can crash between any two steps, and time passes at any moment.

Beside the stored objects the state keeps what really happened: `unknown` holds the nodes whose mutation
may have started and whose outcome has not reached the store. A node enters it when its mutation is
launched. It leaves it only when the outcome is stored, or when an operator acknowledges the execution
(`Protocol.OutcomesAccounted`). `applied` holds every node whose stored phase has ever been applying.

Identifiers and revisions are numbers that grow, time is a growing number, and the graph binding is the
predecessor relation it stands for, so that equal bindings mean equal predecessors. A process writes and
then moves on; a publisher that reads the session's record outside its mutex is modelled as not overlapping
another publisher.

`NodeActions` runs the commands' bodies against the store and, beside it, as steps of `Journal`. A
`JournalTrace.Trace` is a sequence of such steps, each enabled where it is taken (`Journal.Can`) and leading to
`Journal.StoreAfter` and `Journal.ProcAfter`. `Links.Linked` says that a session object and the objects in its
store are the process and the store at the end of the trace, and every body is proved to keep it.
`ProtocolRuns.PlayLog` then replays any such trace inside any run that has brought the process to its beginning,
so what `Protocol` proves about runs holds of runs made of these bodies. Outcomes that depend on the outside (a
subprocess, a policy answer, a readable file) are arguments, and the contracts say what each answer leads to.
Store faults are arbitrary unless a `healthy` flag rules them out.

A contract clause of the form `P(x) == true` says `P(x)`; the longer form keeps the verifier from expanding
a large invariant where it only has to be handed on.

## Model

| member | source | states |
|---|---|---|
| Tarjan.FindCycles | internal/graph/tarjan.go:8-75 | the answer is exactly the cyclic strongly connected components: maximal sets of mutually reachable nodes with two members or a self-edge, each sorted, listed by first name |
| Tarjan.Search.StrongConnect | internal/graph/tarjan.go:19-58 | one recursive visit keeps the index, lowlink and stack invariant, reports every component it completes, and leaves the lowlink that its caller needs |
| Tarjan.Search.PopComponent | internal/graph/tarjan.go:42-57 | popping removes exactly the stack above the root and reports it exactly when it is cyclic |
| Tarjan.PartIsScc | internal/graph/tarjan.go:28-52 | when lowlink equals index, the stack above the node is a maximal set of mutually reachable nodes |
| Tarjan.IsCyclic | internal/graph/tarjan.go:77-88 | true exactly for components of two or more nodes or with a self-edge, duplicates in the edge lists included |
| Tarjan.FindCycle | internal/graph/validate.go:314-320 | empty exactly when the graph is acyclic, otherwise one sorted cyclic component |
| Tarjan.OnCycleIffReported | internal/graph/tarjan.go:8-75 | a node lies on a cycle if and only if it is in a reported component, and then in exactly one |
| Tarjan.EmptyIffAcyclic | internal/graph/validate.go:314-320 | nothing is reported if and only if no node reaches itself |
| Tarjan.AnswerUnique | internal/graph/tarjan.go:8-75 | the specification has one ordered answer, so map order cannot change it |
| Topo.ComputeLevels | internal/graph/topo.go:10-48 | succeeds exactly on acyclic graphs; then every node appears once and its level is the length of its longest chain of predecessors; otherwise names a cyclic component |
| Topo.TopoSort | internal/graph/topo.go:51-61 | every node once, and every node after all that reach it |
| Topo.LevelsRespectReach | internal/graph/topo.go:10-48 | a node that reaches another lies on a strictly earlier level |
| Topo.RestHasCycle | internal/graph/topo.go:43-46 | nodes that all wait for one another prove a cycle, so a short count is a cycle |
| Topo.LevelsAgreeWithFindCycles | internal/graph/validate.go:314-320 | the two algorithms agree: where levels exist, no component is reported |
| Selections.ValidateMembership | internal/graph/selection.go:164-243 | accepts exactly the well-formed selections: header, sorted distinct members, reasons, links to members, every node linked to a requested seed through recorded links, sorted boundary |
| Selections.LinkedNodes | internal/graph/selection.go:209-226 | the fixpoint loop finds exactly the nodes that a chain of recorded links joins to a seed |
| Selections.Select | internal/graph/selection.go:29-104 | refuses empty, unknown and missing seeds; otherwise records exactly the seeds and, downstream, everything they reach, with links, and as boundary every edge with exactly one end inside, as often as the graph has it |
| Selections.Downstream | internal/graph/selection.go:61-71 | the queue collects exactly the nodes reachable from the seeds |
| Selections.SelectPassesValidation | internal/graph/selection.go:29-104 | what Select records passes its own validator if and only if no node that the request selects beyond the requested ones has an edge to itself |
| Selections.SelfEdgeRejected | internal/graph/selection.go:202-206 | a well-formed graph with a self-edge, the selection Select records for a request on it, and its refusal by the validator |
| Selections.AcyclicSelectionValid | internal/graph/selection.go:164-243 | on acyclic graphs every recorded selection is accepted |
| Selections.SelectedLevels | internal/graph/selection.go:118-152 | fails exactly on cycles and removed names; otherwise the levels partition the names without an empty level, in the order of their longest chains in the full graph, equally deep names sharing a level; a node that reaches another, even through omitted nodes, comes strictly earlier, or later when reversed |
| Selections.FilterLevels | internal/graph/selection.go:136-147 | dropping unselected names and empty levels keeps the order |
| Selections.KeyFirstDifference | internal/graph/selection.go:106-108 | boundary edges are ordered by the first of from node, from port, to node, to port and kind in which they differ |
| Names.LessFirstDifference | internal/graph/selection.go:42-59 | names are ordered by the first character in which they differ, and a prefix comes first |
| Expansion.Build | internal/graph/build.go:137-265 | the expansion with in-place adjacency lists gives the graph of the recursive expansion and restores the stack on every path; what that graph consists of and when there is one is said by `Wiring.EdgesExactly`, `Wiring.LeavesExactly` and `Wiring.SucceedsExactly` |
| Expansion.Instantiate | internal/graph/build.go:268-337 | one `use`: guarded by the stack, expanded under its prefix, cycle refused, exports resolved, roots and sinks listed in order |
| Expansion.SpliceUses | internal/graph/build.go:212-246 | instances are spliced in declaration order and the first error stops |
| Expansion.RewriteAll | internal/graph/group.go:203-224 | the loop rewrites every edge or reports the first bad endpoint; what an edge is rewritten to is said by `Wiring.EdgeMeans` |
| Expansion.AddEdges | internal/graph/build.go:236-240 | the two adjacency maps stay the projections of the edge list |
| Expansion.Ends | internal/graph/build.go:321-331 | roots and sinks are listed once each, in order |
| Expansion.ResolveContext.Push | internal/graph/group.go:29-38 | refuses exactly the groups already being expanded |
| Expansion.ResolveContext.Pop | internal/graph/group.go:29-38 | undoes one push |
| Expansion.Deeper | internal/graph/group.go:29-38 | each nested group leaves fewer definitions to enter, so expansion ends |
| Expansion.SourceNodes | internal/graph/source.go:35-67 | the listing walk computes the names in declaration order and restores the stack |
| Expansion.SourceDistinct | internal/graph/source.go:70-75 | qualified names are pairwise distinct and lie under their own instance |
| Expansion.BuildMatchesSource | internal/graph/source.go:31-67 | whenever expansion succeeds, its leaves are exactly the listed names, in order |
| Expansion.BuildResult | internal/graph/build.go:137-265 | the expanded graph is well-formed, has distinct leaves, and no edge names a `use` |
| Expansion.BareEdgeOrders | internal/graph/group.go:226-265 | a bare edge orders every leaf of its upstream before every leaf of its downstream, though only sink-to-root edges are emitted |
| Expansion.BareEdgeOrdersEverywhere | internal/graph/group.go:226-265 | the same for an edge of a scope nested to any depth, in the whole expanded graph |
| Wiring.PortMeans | internal/graph/group.go:139-194 | a port of a node or instance resolves if and only if its group exports it, and then to exactly the leaf ports it leads to through the declared export blocks of any number of nested instances |
| Wiring.EdgeMeans | internal/graph/group.go:203-224 | an edge is rewritten if and only if its ports are exported, and then to exactly the pairs of what its two ends stand for: leaf ports for a data edge, sinks and roots for an ordering edge |
| Wiring.EdgesExactly | internal/graph/build.go:213-262 | the edges of the expanded graph are exactly those contributed by the declared edges of the scopes nested to any depth |
| Wiring.LeavesExactly | internal/graph/build.go:160-235 | the leaves of the expanded graph are exactly the nodes declared in the scopes nested to any depth, under the dotted names of their instances |
| Wiring.SucceedsExactly | internal/graph/build.go:268-337 | expansion succeeds if and only if in every nested scope no instance is of a group being expanded or of none, every port an edge or an export names is exported, and every group is acyclic and passes the other checks |
| Wiring.ListingExactly | internal/graph/source.go:35-67 | the listing succeeds if and only if no nested scope uses a group being expanded or none at all, and names exactly the declared nodes |
| Scheduler.ReachableInv | internal/engine/run.go:123-245 | what holds between any two steps of any interleaving |
| Scheduler.StartsAfterAncestors | internal/engine/run.go:123-216 | a worker sees exactly the outputs that succeeded on earlier levels, and in default mode starts only after every selected ancestor (descendant when reversed) succeeded |
| Scheduler.Return | internal/engine/run.go:108-121 | on every exit the report lists each selected node once, in order of level and name, with its status; without an error every one succeeded |
| Scheduler.ErrorReported | internal/engine/run.go:217-251 | a run returns an error if and only if it was cancelled, a plugin or level hook failed, or some selected node did not succeed |
| Scheduler.StatusTold | internal/engine/run.go:160-213 | a node is reported as succeeded or failed exactly when its action was called and returned that way, and as not run exactly when its action was never called |
| Scheduler.SortRuns | internal/engine/run.go:115-120 | sorting keeps the entries and puts them in that order |
| Scheduler.MarkRemaining | internal/engine/run.go:254-261 | appends an entry for exactly the nodes of the levels never reached, with their level numbers |
| Scheduler.KeepGoingSkipsExactlyDependents | internal/engine/run.go:132-181 | in keep-going mode without disturbance, a node is not run if and only if a chain of selected nodes leads to it from a node whose own action failed |
| ExecutionStore.LocalStore.Read | internal/engine/execution_store.go:77-120 | the stored object, or a missing or failed read |
| ExecutionStore.LocalStore.Write | internal/engine/execution_store.go:123-171 | takes effect on exactly the version named or not at all, under a fresh revision; for each place it can fail, what is stored, what is reported and whether the temporary file remains, the removal of that file being one of the places |
| ExecutionStore.LocalStore.Remove | internal/engine/execution_store.go:173-187 | removes exactly the version named or nothing, also when it then reports an error |
| ExecutionStore.LocalStore.List | internal/engine/execution_store.go:189-218 | each stored key once, in order, temporary files never |
| StoreRuns.RunChained | internal/engine/execution_store.go:123-187 | in any interleaving every change was made on exactly the content its author last saw, and nothing follows a removal |
| StoreRuns.FailedWrite | internal/engine/execution_journal.go:284-298 | after a failed write the session still holds the current revision and nothing changed, or it is behind |
| StoreRuns.BehindForever | internal/engine/execution_store.go:123-141 | a session that is behind stays behind in every later state |
| StoreRuns.BehindIsHarmless | internal/engine/execution_store.go:136-138 | whatever such a session attempts changes nothing |
| StoreRuns.RemovedForGood | internal/engine/execution_store.go:173-187 | a removed object is absent from every later state |
| Sessions.NeedsRecovery | internal/engine/execution_journal.go:173-190 | the scan of the node list answers yes exactly for an unacknowledged record with a preparation marker or a node that is initializing, applying, operating, indeterminate or applied |
| Sessions.Session.Publish | internal/engine/execution_journal.go:284-298 | the session's copy changes only with a reported success; after a failure the store is unchanged or the session is no longer current |
| Sessions.Session.Transition | internal/engine/execution_journal.go:249-282 | exactly one row changes, in the record and, whatever the write reports, in the store; an absent node changes nothing |
| Sessions.MoveRowsAbs | internal/engine/execution_journal.go:261-276 | rewriting the row is rewriting that node and no other |
| Sessions.Session.Finish | internal/engine/execution_journal.go:300-324 | a record that needs recovery is left open as such; another is closed as failed or completed by the run's verdict |
| Sessions.FinishSavedDoc | internal/engine/saved_execution.go:446-470 | nodes caught planning become pending; the status is recovery needed, waiting for apply, ready for the next plan, failed or completed, in that order of precedence |
| Sessions.Session.FinishSaved | internal/engine/saved_execution.go:440-471 | a finished record that needs no recovery is untouched; another gets the status its nodes call for |
| Sessions.Session.Settle | internal/engine/saved_execution.go:270-284 | after an apply round the execution is completed if and only if every node is, and otherwise ready for the next plan |
| Sessions.Frontier | internal/engine/saved_execution.go:93-111 | exactly the rows that are pending and all of whose direct predecessors among the rows are completed |
| Sessions.Session.Cleanup | internal/engine/execution_cleanup.go:14-35 | removes only plans of its own record, only when finished and settled, and on success all of them |
| Links.Publish | internal/engine/execution_journal.go:284-298 | publishing through the session is the journal's publication: same record, same revision order, same three outcomes, with store and process linked again afterwards |
| Links.Transition | internal/engine/execution_journal.go:249-282 | rewriting a row through the session is the journal's transition, and the worker moves on only with a reported success |
| Links.ReadPlanBundle | internal/engine/plan_bundle.go:163-179 | a bundle is handed out exactly when it is in the store, readable, belongs to the execution and the node, and has not expired |
| JournalTrace.LogPerforms | internal/engine/execution_journal.go:192-324 | a trace is a list of actions enabled one after the other that ends in the traced store and process |
| NodeActions.Record | internal/engine/execution_journal.go:249-282 | a transition through the session is the same transition in the journal; the record follows only on success, and then is the stored one |
| NodeActions.Initialise | internal/engine/apply.go:74-83 | intent, initialisation, outcome, each a permitted step; success leaves the node prepared and stored, an unknown end is recorded as indeterminate, one that never started as failed |
| NodeActions.ApplyPreparedPlan | internal/engine/prepared_plan.go:41-123 | a plan that fails inspection or is not permitted leaves no mark and starts nothing; an unchanged plan at most records completion after its outputs were read; otherwise success is intent, apply, applied and completed in that order, and each failure is recorded as what it is, missing outputs leaving the node applied |
| NodeActions.RunRecorded | internal/engine/prepared_plan.go:96-122 | what follows a recorded intent: an unknown end is recorded as indeterminate, one that never started as failed, each as the last step; a backup that was not archived leaves the intent stored as it was |
| NodeActions.ApplyNode | internal/engine/apply.go:57-112 | success is initialisation, planning, the retained bundle if asked for, and the apply, in that order; without inputs nothing happens, and every other answer that stops it leaves the phase it was stopped in, failed or indeterminate |
| NodeActions.PlanNode | internal/engine/plan.go:64-157 | success means exactly these steps: intent, initialisation, preparing, completed; nothing else is mutated |
| NodeActions.DestroyNode | internal/engine/destroy.go:70-122 | success is the destroy, after initialisation in the planned form; a refused admission starts nothing; an unknown end is recorded as indeterminate, one that never started as failed |
| NodeActions.RunNode | internal/engine/node_operation.go:109-147 | success is the intent, the command and completion; a refused admission starts nothing; an unusable backup leaves operating stored, an unknown end is recorded as indeterminate, one that never started as failed |
| NodeActions.Archive | internal/engine/node_operation.go:150-177 | the backup is stored and then noted in the record; whichever of the two fails, the stored phase stays what it was |
| NodeActions.ReadNode | internal/engine/node_operation.go:116-147 | a reading command records reading, then completed if it could read and failed if not |
| NodeActions.SaveFrontierNode | internal/engine/saved_execution.go:131-195 | success is initialisation, then the bundle in the store under the plan's key, then the node recorded as planned with that plan; a plan that is not made or fails inspection leaves the node preparing |
| NodeActions.ApplySavedNode | internal/engine/saved_execution.go:288-347 | without a stored, unexpired bundle of its own nothing happens; with one, success is the initialisation back to planned and the apply; every answer that stops it leaves the phase it was stopped in, failed or indeterminate |
| NodeActions.Retain | internal/engine/plan_bundle.go:133-161 | success puts the bundle, with its execution, node and expiry, in the store, and only then records the node as planned with that plan |
| JournalWrites.TargetAcceptable | internal/engine/execution_journal.go:249-324 | every record any command writes keeps write-ahead evidence, order, plans and the single-recovery rule |
| JournalWrites.FinishSavedTarget | internal/engine/saved_execution.go:440-471 | making nodes plannable again keeps order and evidence |
| JournalWrites.RecoveryTarget | internal/engine/recovery_outputs.go:80-97 | setting and clearing the preparation marker and acknowledging keep the invariant |
| JournalWrites.TransitionLegal | internal/engine/prepared_plan.go:93-121 | no permitted transition leaves completed, returns to pending, or enters applying again |
| JournalSteps.StepKeeps | internal/engine/execution_journal.go:192-324 | every step of a process under the lock keeps the invariant of store and process |
| JournalSteps.RemovalKeeps | internal/engine/execution_cleanup.go:100-164 | pruning and cleanup keep it, whatever a removal reports |
| JournalProperties.StepMonotone | internal/engine/saved_execution.go:249-281 | in one step no stored node leaves completed or enters applying again, and no identifier is reused |
| JournalProperties.StepDisposes | internal/engine/execution_cleanup.go:100-164 | one step removes only artifacts of finished executions that need no recovery |
| JournalProperties.LaunchGuarded | internal/engine/execution_journal.go:416-437 | when a mutation starts, its own execution is marked in the store and no other one is |
| JournalProperties.StepAccounted | internal/engine/execution_journal.go:249-298 | an open mutation is closed only by a stored outcome or an acknowledgement |
| GraphLock.Bucket.Acquire | internal/graphlock/s3.go:36-82 | a lock is handed out exactly when nothing was stored and an ETag came back; a write without one is undone |
| GraphLock.Bucket.Release | internal/graphlock/s3.go:95-107 | the operator gets success and an empty bucket, or an error; after an error the bucket is empty, or as it was when nothing was deleted |
| GraphLock.Bucket.Retake | internal/graphlock/s3.go:95-107 | after a forced release and a new acquisition the lock is the new holder's, and the old holder's Close leaves it alone |
| GraphLock.Held.Close | internal/graphlock/s3.go:195-217 | never removes another holder's lock; closing again is harmless |
| Protocol.RunInv | internal/engine/execution_store.go:27-34 | the invariant holds in every state of every run |
| Protocol.MutualExclusion | internal/graphlock/s3.go:36-82 | at most one live process holds the lock, and its tag is the stored one |
| Protocol.WriteAheadAlways | internal/engine/execution_journal.go:173-190 | with any crash and any failed write, a mutation or backend preparation that may have started and has no recorded outcome leaves a stored record that needs recovery |
| Protocol.OutcomesAccounted | internal/engine/execution_journal.go:249-298 | mutations become open only by being launched and stop being open only by a stored outcome or an acknowledgement |
| Protocol.OneNeedsRecovery | internal/engine/execution_journal.go:416-437 | at most one stored record needs recovery |
| Protocol.MutatorsWorkAlone | internal/engine/execution_journal.go:192-240 | while a mutating execution is created, resumed or at work, no other record needs recovery |
| Protocol.LaunchesAreMarked | internal/engine/saved_execution.go:349-375 | at every launch the launching execution's record is the one that needs recovery |
| Protocol.SavedOrder | internal/engine/saved_execution.go:93-121 | in every reachable state a node that left pending has all its selected direct predecessors completed |
| Protocol.CompletedForever | internal/engine/saved_execution.go:440-471 | a completed node stays completed as long as its record is stored, over any rounds and crashes |
| Protocol.AppliesOnce | internal/engine/saved_execution.go:249-281 | no node enters applying twice |
| Protocol.RemovedForGood | internal/engine/execution_store.go:48-52 | a removed execution never comes back |
| Protocol.PlannedHasBundle | internal/engine/plan_bundle.go:154-159 | every planned node of an unfinished record has its own bundle in the store |
| ProtocolRuns.CrashLeavesEvidence | internal/engine/apply.go:74-77 | for every node name there is a run that crashes right after a launch: the lock is left behind and the record needs recovery |
| ProtocolRuns.SavedLifetime | internal/engine/saved_execution.go:198-286 | for all nodes and predecessors without a cycle, and any positive plan lifetime, there is a run of planning and applying rounds, each by a process of its own, at whose end every node and the execution are completed |
| ProtocolRuns.RecoveryPossible | internal/engine/execution_recovery.go:43-57 | from every reachable state without a live owner of the lock in which an execution needs recovery, some continuation leads to a free lock and no execution that needs recovery, with no node relabelled |
| ProtocolRuns.PruningPossible | internal/engine/execution_cleanup.go:100-164 | from every reachable state without a live owner of the lock, some continuation removes a given finished execution that needs no recovery, and no other |
| ProtocolRuns.CancelPossible | internal/engine/execution_cleanup.go:38-79 | from every such state, some continuation cancels a given unfinished execution that needs no recovery, with no node relabelled |
| ProtocolRuns.PlayLog | internal/engine/execution_journal.go:192-324 | any trace of a process is part of any run that has brought the process to the beginning of the trace |
| Protocol.EvidenceKept | internal/engine/execution_cleanup.go:14-35 | no event removes a plan, a backup or a record of an execution that is unfinished or needs recovery |
| Histories.CompletedAfterFine | internal/engine/prepared_plan.go:96-122 | in any run, a node is recorded as completed after a launch only if that launch returned well |
| Histories.OutcomeRecorded | internal/engine/execution_journal.go:371-376 | the first phase recorded after a mutation returned is failed if it never started, indeterminate if it broke, and neither if it ended well |
| Histories.AppliesAfterInit | internal/engine/apply.go:74-83 | no node enters applying before the same process has initialised it and that ended well |
| Histories.StartsInTime | internal/engine/plan_bundle.go:163-179 | a saved plan is started only while its own bundle is stored and less than a plan's lifetime has passed since it was planned |
| Histories.WorksOnBoundGraph | internal/engine/saved_execution.go:71-92 | a node of a saved execution is worked on only by a process whose graph has the predecessors the execution is bound to |
| Histories.AdmittedInTurn | internal/engine/saved_execution.go:230-239 | a planning round is admitted only for a new execution or one ready for the next plan, an applying round only for one that waits for it, and neither when recovery is needed |
| Histories.RetentionKept | internal/engine/execution_cleanup.go:136-162 | backups and records are removed only a retention period after their execution finished, and a record only after its plans and its backup |
| Histories.VerdictsEarned | internal/engine/execution_journal.go:300-324 | whenever the status of a stored record changes the new one is earned: completed and failed executions have nothing open, recovery is claimed only where needed, plans expire only when one is out of date, only an operator cancels or retires |
| Recovery.RecoverExecution | internal/engine/execution_recovery.go:43-98 | without the operator's confirmations nothing happens; a phase changes only from applied to completed and only after the node's outputs were read again; replanning changes none; unresolved issues leave recovery needed in the session and in the store; with a store that takes every write it succeeds if and only if it replans or only readable outputs are missing |
| Recovery.RecoverNodeOutputs | internal/engine/recovery_outputs.go:60-104 | only the marker changes, a marker that was set is left alone, and success means that initialisation ended well and the outputs were read, checked and published |
| Recovery.InitRead | internal/engine/recovery_outputs.go:80-91 | callers must show that a backend that is not read-only is initialised only while the stored record carries the marker |
| Recovery.Retire | internal/engine/execution_recovery.go:49-57 | acknowledgement relabels no node |
| ContractType.CheckContractType | internal/blueprint/contract_type.go:87-180 | whatever order attributes and elements are visited in, the answer is the combined verdict of the parts |
| ContractType.Stable | internal/blueprint/contract_type.go:87-180 | confirmed and violation are kept by every completion of the unknowns |
| ContractType.KnownDecided | internal/blueprint/contract_type.go:87-180 | a wholly known value is never deferred: confirmed if and only if it conforms |
| ContractType.Exact | internal/blueprint/contract_type.go:87-180 | confirmed if and only if every wholly known completion conforms, violation if and only if none does |
| Receipts.NeedsRecovery | internal/plugins/lifecycle.go:596-624 | the two-pass scan decides exactly whether some receipt is neither acknowledged nor excused by a release and is an obtained lease, an open credential call, or an enforced external call that is open or, for observers and credentials, failed |
| Receipts.LeaseKeyExact | internal/plugins/lifecycle.go:597-609 | the joined key identifies alias, node and lease |
| Receipts.OpenCallBlocks | internal/plugins/lifecycle.go:603-622 | a guarded call without a recorded outcome blocks if and only if its lease was not given back, other calls apart |
| Receipts.RenewalForgiven | internal/plugins/lifecycle.go:607-609 | an unanswered renewal does not block once its lease was released |
| Receipts.Upsert | internal/engine/plugins.go:226-247 | replaces the receipt of that key or appends it, and refuses only a new key at the limit |
| ReceiptRuns.StepKeeps | internal/plugins/lifecycle.go:194-264 | record, send, answer, record again, whatever the answer names: every step keeps the receipts ahead of the effects and acquire receipts true to what was granted |
| ReceiptRuns.SentRecorded | internal/plugins/lifecycle.go:215-219 | whatever was sent without a recorded outcome is in the store as open |
| ReceiptRuns.SentVisible | internal/plugins/lifecycle.go:596-624 | such a guarded call holds up recovery if and only if no settled release receipt names its lease |
| ReceiptRuns.OpenUntilAnswered | internal/plugins/lifecycle.go:248-257 | a guarded call that was sent stays open until it is answered or acknowledged: silence settles nothing |
| ReceiptRuns.SentOnce | internal/plugins/lifecycle.go:626-650 | no request is sent twice unless its effect is idempotent |
| ReceiptRuns.LeaseVisible | internal/plugins/lifecycle.go:243-261 | as long as no answer to a release names a lease that was not given back, a granted lease that was not given back makes recovery necessary until its acquire call or a release of it is acknowledged |
| ReceiptRuns.LeaseHoldsUp | internal/plugins/lifecycle.go:596-624 | in every run a granted lease holds up recovery through its acquire receipt if and only if that receipt is not acknowledged and either does not name the lease yet or no settled release receipt names it |
| ReceiptRuns.TruthfulReleases | internal/plugins/lifecycle.go:243-245 | if no answer to a release names a lease that was not given back, every lease recorded as released was given back |
| ReceiptRuns.LeaseLost | internal/plugins/lifecycle.go:243-245 | a run in which an answer that names another lease makes a lease that was never given back disappear from recovery |
| ReceiptRuns.SettledClears | internal/plugins/lifecycle.go:596-624 | once every receipt is closed and every granted lease is recorded as released or its acquire call acknowledged, nothing needs recovery |
| Credentials.Scope.Acquire | internal/plugins/credentials.go:52-132 | stops at the first answer it cannot accept; the leases of all answers taken, that one included, are kept in order and as often as they occur; success is exactly that all answers are accepted, and then their credentials are the environment; a failed or ready scope acquires nothing more |
| Credentials.Scope.Close | internal/plugins/credentials.go:200-223 | every kept lease gets one release call, newest first, even after a failure |
| Credentials.Lifetime | internal/plugins/credentials.go:52-223 | from the first request to the end, whatever the answers are, exactly the leases in the answers taken get release calls, newest first |

## Where the code and its description differ

- `Select` on a graph with a self-edge: the graph parts accept such a graph, and the selection recorded for
  it can fail `ValidateMembership`. `Selections.SelfEdgeRejected` is an example;
  `Selections.SelectPassesValidation` gives the exact condition, in terms of the graph and the request. Graphs
  that passed `Levels` have no self-edge.
- An unanswered credential renewal is described as an unresolved effect, but the scan forgives it once the
  same lease was released. `Receipts.OpenCallBlocks` states exactly when it counts.
- A release receipt takes the lease from the answer, so a provider that answers a release with the identifier
  of another lease has that lease counted as given back, and it then no longer holds up recovery.
  `ReceiptRuns.LeaseLost` is such a run. `ReceiptRuns.LeaseHoldsUp` says for every run exactly when a lease
  holds up recovery, and `ReceiptRuns.LeaseVisible` that none is lost while answers to releases name only
  leases that were given back.

## Left out

- Parsing of HCL, JSON and module schemas: the model starts from parsed nodes, edges, uses and exports.
- Variables, environments, runtimes and contracts merged along `use` instances: they do not affect names, edges or order.
- Schema checks during expansion: their verdict is an arbitrary input of the expansion.
- Launch limits of the scheduler: they only remove interleavings.
- Plugin calls inside the journal's executions: the journal's invariants are stated without plugin effects, and receipts are modelled on their own.
- The mode of a session's record that comes from `RecoverPluginCall`: it re-runs the ordinary finish.
- `any` inside a collection in contract types: the source asks a conversion library for a common type first.
- The declared types of unknown values: the check does not look at them, so completions in `ContractType` range over all values.
- The S3 form of the execution store: it is the same conditional write with an ETag as the revision.
- Subprocess control, signals, terminals, file permissions and advisory file locks: a mutation is an arbitrary outcome, and the lock is held or not.
- Approval levels, diagnostics, reviews and presentation: each is settled by reading one branch.
- Byte-offset and position conversion in the language server.
- 32-bit and 64-bit limits on counters and sizes.
- Protocol.SavedOrder: waits only for direct predecessors that are selected, as the code does; order through omitted nodes is a property of `SelectedLevels` alone.
- Credentials.Scope.Acquire: the renewal worker is not part of this model; what its calls leave in the receipts is in `ReceiptRuns`.
