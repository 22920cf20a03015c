/** The execution journal: what one process that holds the graph lock may do to the store, step by step.

    Plugin calls are left to module Receipts; here a record needs recovery because of its nodes or of
    an unfinished backend preparation. */
module Journal {
  import opened Options
  import opened Outcomes

  type Id = nat
  type PlanId = nat
  type Name = string

  // ---- Records.

  datatype Phase =
    | Pending | Initializing | Preparing | Planned | Applying | Applied | Operating | Reading
    | Completed | Failed | Indeterminate

  datatype Status =
    | PreparingRun | ReadyForNextPlan | WaitingForApply
    | CompletedRun | FailedRun | RecoveryNeeded | Cancelled | Expired | Recovered

  datatype Node = Node(phase: Phase, plan: Option<PlanId>)

  /** The direct predecessors of each node, as fixed by the graph digest. */
  type Deps = map<Name, set<Name>>

  datatype Record = Record(
    saved: bool, status: Status, finishedAt: Option<nat>, recoveryAt: Option<nat>,
    preparation: bool, binding: Option<Deps>, nodes: map<Name, Node>)

  /** The outcome of a mutation in this phase is unknown. */
  predicate Unknown(p: Phase) {
    p == Initializing || p == Applying || p == Operating || p == Indeterminate
  }

  predicate Unsettled(p: Phase) {
    Unknown(p) || p == Applied
  }

  predicate NodeUnsettled(r: Record, n: Name) {
    n in r.nodes && Unsettled(r.nodes[n].phase)
  }

  /** What executionNeedsRecovery decides. */
  ghost predicate NeedsRecovery(r: Record) {
    r.recoveryAt.None? && (r.preparation || exists n :: NodeUnsettled(r, n))
  }

  predicate Open(s: Status) {
    s == PreparingRun || s == ReadyForNextPlan || s == WaitingForApply
  }

  function Upstream(d: Deps, n: Name): set<Name> {
    if n in d then d[n] else {}
  }

  /** transition: sets one node's phase, and its plan when one is given. */
  function SetPhase(r: Record, n: Name, phase: Phase, plan: Option<PlanId>): Record
    requires n in r.nodes
  {
    r.(nodes := r.nodes[n := Node(phase, if plan.Some? then plan else r.nodes[n].plan)])
  }

  /** finish: the record after an ordinary run. */
  ghost function FinishRecord(r: Record, failed: bool, now: nat): Record {
    if NeedsRecovery(r) then r.(status := RecoveryNeeded)
    else r.(status := if failed then FailedRun else CompletedRun, finishedAt := Some(now))
  }

  function BackToPending(nodes: map<Name, Node>): map<Name, Node> {
    map n | n in nodes :: if nodes[n].phase == Preparing then nodes[n].(phase := Pending) else nodes[n]
  }

  /** finishSaved: nodes caught while planning become plannable again. */
  ghost function FinishSavedRecord(r: Record, failed: bool, now: nat): Record {
    var next := r.(nodes := BackToPending(r.nodes), finishedAt := None, status := ReadyForNextPlan);
    if NeedsRecovery(next) then next.(status := RecoveryNeeded)
    else if exists n :: n in next.nodes && next.nodes[n].phase == Planned then next.(status := WaitingForApply)
    else if exists n :: n in next.nodes && next.nodes[n].phase == Pending then next
    else next.(status := if failed then FailedRun else CompletedRun, finishedAt := Some(now))
  }

  /** The closing update of ApplySavedPlans. */
  ghost function SettleRecord(r: Record, now: nat): Record {
    if forall n :: n in r.nodes ==> r.nodes[n].phase == Completed
    then r.(status := CompletedRun, finishedAt := Some(now))
    else r.(status := ReadyForNextPlan)
  }

  // ---- The store.

  datatype Entry = Entry(rev: nat, record: Record)

  datatype Bundle = Bundle(id: Id, node: Name, expiresAt: nat)

  /** The stored objects, and what happened outside them: `unknown` holds the nodes whose mutation may
      have started and whose outcome has not reached the store, `preparing` the executions whose recovery
      may have started a backend initialisation, `issued` the owner of every plan id ever used, and
      `applied` the nodes whose stored phase has ever been applying. */
  datatype Store = Store(
    records: map<Id, Entry>, bundles: map<PlanId, Bundle>, backups: set<Id>,
    nextId: nat, nextRev: nat, nextPlan: nat, now: nat,
    unknown: set<(Id, Name)>, preparing: set<Id>, issued: map<PlanId, (Id, Name)>, applied: set<(Id, Name)>)

  function ApplyingNodes(id: Id, r: Record): set<(Id, Name)> {
    set n | n in r.nodes && r.nodes[n].phase == Applying :: (id, n)
  }

  /** The store after the record of `id` is written under a fresh revision. */
  function Put(st: Store, id: Id, r: Record): Store {
    st.(records := st.records[id := Entry(st.nextRev, r)], nextRev := st.nextRev + 1,
      applied := st.applied + ApplyingNodes(id, r))
  }

  // ---- Processes.

  datatype Job =
    | Run(readOnly: bool)          // apply, destroy, plan and run
    | SaveNew                      // plan --save, first round
    | SaveMore(id: Id)             // plan --continue
    | ApplySaved(id: Id)           // apply --plan
    | Recover(id: Id, replan: bool)
    | Cancel(id: Id)
    | Prune

  predicate Starts(j: Job) { j.Run? || j.SaveNew? }

  predicate Saves(j: Job) { j.SaveNew? || j.SaveMore? }

  predicate Mutates(j: Job) { (j.Run? && !j.readOnly) || j.SaveNew? || j.SaveMore? || j.ApplySaved? }

  /** Jobs that work on the nodes of an execution. */
  predicate Engaged(j: Job) { j.Run? || Saves(j) || j.ApplySaved? }

  datatype Result = Fine | Broken | NotStarted

  /** Where the work on one node stands; a node without a worker has not been touched by this process. */
  datatype Worker =
    | InitRecorded | InitRunning | InitReturned(result: Result)
    | Prepared | Retained(plan: PlanId)
    | MutRecorded | MutRunning | MutReturned(result: Result)
    | Collecting
    | ReadRecorded
    | RecMarked | RecRunning | RecReturned(ok: bool) | RecReady
    | Stopped

  predicate Running(w: Worker) { w.InitRunning? || w.MutRunning? || w.RecRunning? }

  /** Between recording the intent and recording the outcome. */
  predicate Hot(w: Worker) {
    w.InitRecorded? || w.InitRunning? || w.InitReturned? || w.MutRecorded? || w.MutRunning? || w.MutReturned?
  }

  predicate RecHot(w: Worker) { w.RecMarked? || w.RecRunning? || w.RecReturned? }

  datatype Pc =
    | Entered                      // the lock is held, nothing read yet
    | Scan(todo: set<Id>)          // the barrier still has these records to read
    | Sweep(todo: set<Id>)         // pruning still has these records to look at
    | Sweeping(todo: set<Id>)      // pruning has read one record into the session
    | Creating
    | Working
    | Cleaning                     // removing the artifacts of a finished record
    | Leaving

  /** How far a saved execution's session got: opened, its status and binding accepted, its binding
      published, working on its frontier, or past the work. Other jobs start at Going. */
  datatype Stage = Unchecked | Admitted | Bound | Going | Over

  /** One process and its session: the record and revision it last read or wrote. */
  datatype Proc = Proc(
    job: Job, pc: Pc, stage: Stage, id: Id, record: Record, rev: nat,
    workers: map<Name, Worker>, frontier: set<Name>, deps: Deps)

  datatype Config = Config(retention: nat, planTTL: nat)

  /** Steps that only read the store. */
  datatype Look =
    | List | OpenRecord | ScanOne(id: Id) | ScanDone
    | SweepSkip(id: Id) | SweepPick(id: Id) | SweepNext | SweepEnd

  /** Conditional writes of the session's record. */
  datatype Write =
    | Expire(n: Name) | CancelRun
    | Bind | Transition(n: Name, phase: Phase) | Touch(status: Status) | Settle | Finish(failed: bool)
    | Mark(n: Name) | Clear(n: Name) | Acknowledge

  /** Steps of a session at work that do not write its record. */
  datatype Work =
    | Admit(deps: Deps) | Frontier
    | Launch(n: Name) | Return(n: Name, result: Result) | GiveUp(n: Name) | ReadDirectly(n: Name)
    | Retain(n: Name, o: Outcome) | Backup(n: Name, o: Outcome)

  datatype Item = BundleOf(n: Name) | BackupCopy | RecordItself

  datatype Action =
    | Look(look: Look)
    | Publish(write: Write, o: Outcome)
    | Work(work: Work)
    | Remove(item: Item, o: Outcome)
    | Create(names: set<Name>, o: Outcome)
    | Leave

  // ---- Which phase a worker may record next, and where that leaves it.

  predicate ReturnPermits(result: Result, fine: set<Phase>, phase: Phase) {
    match result
    case Fine => phase in fine
    case Broken => phase == Indeterminate
    case NotStarted => phase == Failed
  }

  predicate Permits(pr: Proc, n: Name, phase: Phase)
    requires n in pr.record.nodes
  {
    if n !in pr.workers then
      match pr.job
      case Run(readOnly) => if readOnly then phase == Reading else phase == Initializing || phase == Operating
      case SaveNew | SaveMore(_) | ApplySaved(_) => n in pr.frontier && phase == Initializing
      case _ => false
    else
      match pr.workers[n]
      case InitReturned(result) =>
        ReturnPermits(result, if pr.job.ApplySaved? then {Planned} else if Saves(pr.job) then {Preparing}
          else {Preparing, Completed}, phase)
      case Prepared =>
        (pr.job.Run? && phase in {Completed, Applying, Operating}) || (pr.job.ApplySaved? && phase == Applying)
      case Retained(_) => phase == Planned
      case MutReturned(result) =>
        ReturnPermits(result, if pr.record.nodes[n].phase == Applying then {Applied} else {Completed}, phase)
      case Collecting => phase == Completed
      case ReadRecorded => phase == Completed || phase == Failed
      case RecReady => phase == Completed
      case _ => false
  }

  function PlanOf(pr: Proc, n: Name): Option<PlanId> {
    if n in pr.workers && pr.workers[n].Retained? then Some(pr.workers[n].plan) else None
  }

  function After(job: Job, phase: Phase): Worker {
    match phase
    case Initializing => InitRecorded
    case Applying | Operating => MutRecorded
    case Preparing => Prepared
    case Planned => if Saves(job) then Stopped else Prepared
    case Applied => Collecting
    case Reading => ReadRecorded
    case _ => Stopped
  }

  function Returned(w: Worker, result: Result): Worker {
    match w
    case InitRunning => InitReturned(result)
    case MutRunning => MutReturned(result)
    case _ => RecReturned(result.Fine?)
  }

  /** The outcome of the mutation is known to the worker: recording it settles the question. */
  predicate Definite(w: Worker) {
    (w.InitReturned? || w.MutReturned?) && !w.result.Broken?
  }

  predicate AllStopped(pr: Proc) {
    forall n :: n in pr.workers ==> pr.workers[n].Stopped?
  }

  /** The node may be planned: its selected direct predecessors are done. */
  predicate Ready(r: Record, d: Deps, n: Name) {
    forall p :: p in Upstream(d, n) && p in r.nodes ==> r.nodes[p].phase == Completed
  }

  function FrontierOf(job: Job, r: Record, d: Deps): set<Name> {
    if job.ApplySaved? then set n | n in r.nodes && r.nodes[n].phase == Planned
    else set n | n in r.nodes && r.nodes[n].phase == Pending && Ready(r, d, n)
  }

  /** readPlanBundle accepts the node's bundle. */
  predicate BundleUsable(st: Store, id: Id, r: Record, n: Name)
    requires n in r.nodes
  {
    var plan := r.nodes[n].plan;
    plan.Some? && plan.value in st.bundles && st.bundles[plan.value].id == id && st.bundles[plan.value].node == n
      && st.now < st.bundles[plan.value].expiresAt
  }

  /** frontierExpired finds this node's bundle out of date. */
  predicate BundleExpired(st: Store, id: Id, r: Record, n: Name)
    requires n in r.nodes
  {
    var plan := r.nodes[n].plan;
    plan.Some? && plan.value in st.bundles && st.bundles[plan.value].id == id
      && st.bundles[plan.value].expiresAt <= st.now
  }

  predicate BundlesGone(st: Store, r: Record) {
    forall n :: n in r.nodes && r.nodes[n].plan.Some? ==> r.nodes[n].plan.value !in st.bundles
  }

  // ---- Conditional writes.

  predicate Current(st: Store, pr: Proc) {
    pr.id in st.records && st.records[pr.id].rev == pr.rev
  }

  /** The conditional write took effect. */
  predicate Effective(st: Store, pr: Proc, o: Outcome) {
    Current(st, pr) && !o.Lost?
  }

  predicate Succeeds(st: Store, pr: Proc, o: Outcome) {
    Current(st, pr) && o.Stored?
  }

  // ---- Guards.

  predicate Aged(cfg: Config, st: Store, r: Record) {
    r.finishedAt.Some? && r.finishedAt.value + cfg.retention <= st.now
  }

  predicate WorkerIs(pr: Proc, n: Name, w: Worker) {
    n in pr.workers && pr.workers[n] == w
  }

  ghost predicate OpenGuard(job: Job, r: Record) {
    match job
    case SaveMore(_) | ApplySaved(_) => r.saved && r.recoveryAt.None? && !NeedsRecovery(r)
    case Recover(_, _) => NeedsRecovery(r)
    case Cancel(_) => !NeedsRecovery(r)
    case _ => false
  }

  predicate Opens(job: Job) { job.SaveMore? || job.ApplySaved? || job.Recover? || job.Cancel? }

  ghost predicate CanLook(st: Store, pr: Proc, a: Look) {
    match a
    case List => pr.pc.Entered? && (Starts(pr.job) || pr.job.Prune?)
    case OpenRecord => pr.pc.Entered? && Opens(pr.job) && pr.job.id in st.records
      && OpenGuard(pr.job, st.records[pr.job.id].record)
    case ScanOne(id) =>
      pr.pc.Scan? && id in pr.pc.todo && id in st.records && (NeedsRecovery(st.records[id].record) ==> !Mutates(pr.job))
    case ScanDone => pr.pc == Scan({})
    case SweepSkip(id) => pr.pc.Sweep? && id in pr.pc.todo && id in st.records && NeedsRecovery(st.records[id].record)
    case SweepPick(id) => pr.pc.Sweep? && id in pr.pc.todo && id in st.records && !NeedsRecovery(st.records[id].record)
    case SweepNext => pr.pc.Sweeping?
    case SweepEnd => pr.pc == Sweep({})
  }

  ghost predicate CanWrite(st: Store, pr: Proc, a: Write) {
    if a.Expire? then
      pr.pc.Sweeping? && pr.record.status == WaitingForApply && a.n in pr.record.nodes
        && pr.record.nodes[a.n].phase == Planned
        && BundleExpired(st, pr.id, pr.record, a.n)
    else
      pr.pc.Working? && CanRecord(st, pr, a)
  }

  /** Writes of a session at work. */
  ghost predicate CanRecord(st: Store, pr: Proc, a: Write) {
    match a
    case Expire(_) => false
    case CancelRun => pr.job.Cancel?
    case Bind => pr.stage.Admitted? && Saves(pr.job)
    case Transition(n, phase) =>
      pr.stage.Going? && n in pr.record.nodes && Permits(pr, n, phase)
        && (pr.job.ApplySaved? && n !in pr.workers ==> BundleUsable(st, pr.id, pr.record, n))
    case Touch(status) =>
      !pr.stage.Unchecked? && Engaged(pr.job)
        && (status == pr.record.status || (Saves(pr.job) && pr.stage.Going? && AllStopped(pr)
          && status == WaitingForApply))
    case Settle =>
      pr.job.ApplySaved? && pr.stage.Going? && AllStopped(pr)
        && forall n :: n in pr.frontier && n in pr.record.nodes ==> pr.record.nodes[n].phase == Completed
    case Finish(_) => Engaged(pr.job) && !pr.stage.Unchecked? && AllStopped(pr)
    case Mark(n) =>
      pr.job.Recover? && !pr.job.replan && n in pr.record.nodes && pr.record.nodes[n].phase == Applied
        && n !in pr.workers
        && !pr.record.preparation
    case Clear(n) => pr.job.Recover? && WorkerIs(pr, n, RecReturned(true))
    case Acknowledge =>
      pr.job.Recover? && AllStopped(pr)
        && (pr.job.replan || (!pr.record.preparation && forall n :: !NodeUnsettled(pr.record, n)))
  }

  predicate CanWork(pr: Proc, a: Work) {
    pr.pc.Working? &&
    match a
    case Admit(deps) =>
      pr.stage.Unchecked?
        && ((Saves(pr.job) && (pr.record.status == PreparingRun || pr.record.status == ReadyForNextPlan)
          && (pr.record.binding.None? || pr.record.binding == Some(deps)))
            || (pr.job.ApplySaved? && pr.record.status == WaitingForApply && pr.record.binding == Some(deps)))
    case Frontier => (pr.stage.Bound? && Saves(pr.job)) || (pr.stage.Admitted? && pr.job.ApplySaved?)
    case Launch(n) => n in pr.workers && (pr.workers[n].InitRecorded? || pr.workers[n].MutRecorded?
      || pr.workers[n].RecMarked?)
    case Return(n, _) => n in pr.workers && Running(pr.workers[n])
    case GiveUp(n) => n in pr.workers && !Running(pr.workers[n])
    case ReadDirectly(n) =>
      pr.job.Recover? && !pr.job.replan && n in pr.record.nodes && pr.record.nodes[n].phase == Applied
        && n !in pr.workers
    case Retain(n, _) => WorkerIs(pr, n, Prepared) && (pr.job.Run? || Saves(pr.job))
    case Backup(n, _) => pr.job.Run? && n in pr.workers && pr.workers[n].MutReturned?
  }

  ghost predicate CanRemove(cfg: Config, st: Store, pr: Proc, item: Item) {
    match item
    case BundleOf(n) =>
      (pr.pc.Sweeping? || pr.pc.Cleaning?) && pr.record.finishedAt.Some? && !NeedsRecovery(pr.record)
        && n in pr.record.nodes && pr.record.nodes[n].plan.Some?
    case BackupCopy => pr.pc.Sweeping? && Aged(cfg, st, pr.record)
    case RecordItself =>
      pr.pc.Sweeping? && Aged(cfg, st, pr.record) && BundlesGone(st, pr.record) && pr.id !in st.backups
        && Current(st, pr)
  }

  ghost predicate Can(cfg: Config, st: Store, pr: Proc, a: Action) {
    match a
    case Look(look) => CanLook(st, pr, look)
    case Publish(write, _) => CanWrite(st, pr, write)
    case Work(work) => CanWork(pr, work)
    case Remove(item, _) => CanRemove(cfg, st, pr, item)
    case Create(_, _) => pr.pc.Creating?
    case Leave => pr.pc.Working? ==> AllStopped(pr)
  }

  // ---- Effects.

  /** The record a write asks the store to keep. */
  ghost function Target(st: Store, pr: Proc, a: Write): Record {
    var r := pr.record;
    match a
    case Expire(_) => r.(status := Expired, finishedAt := Some(st.now))
    case CancelRun => r.(status := Cancelled, finishedAt := Some(st.now))
    case Bind => r.(binding := Some(pr.deps))
    case Transition(n, phase) => if n in r.nodes then SetPhase(r, n, phase, PlanOf(pr, n)) else r
    case Touch(status) => r.(status := status)
    case Settle => SettleRecord(r, st.now)
    case Finish(failed) => if pr.job.Run? then FinishRecord(r, failed, st.now) else FinishSavedRecord(r, failed, st.now)
    case Mark(_) => r.(preparation := true)
    case Clear(_) => r.(preparation := false)
    case Acknowledge => r.(status := Recovered, recoveryAt := Some(st.now), finishedAt := Some(st.now))
  }

  /** The mutations whose outcome stays open after the write takes effect. */
  function UnknownAfter(st: Store, pr: Proc, a: Write): set<(Id, Name)> {
    match a
    case Transition(n, _) => if n in pr.workers && Definite(pr.workers[n]) then st.unknown - {(pr.id, n)}
      else st.unknown
    case Acknowledge => set e | e in st.unknown && e.0 != pr.id
    case _ => st.unknown
  }

  function PreparingAfter(st: Store, pr: Proc, a: Write): set<Id> {
    if a.Clear? || a.Acknowledge? then st.preparing - {pr.id} else st.preparing
  }

  /** Where the session stands after its write succeeded or failed. */
  function Moved(pr: Proc, a: Write, ok: bool): Proc {
    match a
    case Expire(_) => if ok then pr else pr.(pc := Leaving)
    case CancelRun => pr.(pc := if ok then Cleaning else Leaving)
    case Bind => pr.(stage := if ok then Bound else Over)
    case Transition(n, phase) => pr.(workers := pr.workers[n := if ok then After(pr.job, phase) else Stopped])
    case Touch(_) => pr
    case Settle => if ok then pr.(pc := Cleaning) else pr.(stage := Over)
    case Finish(_) => pr.(pc := if ok then Cleaning else Leaving)
    case Mark(n) => pr.(workers := pr.workers[n := if ok then RecMarked else Stopped])
    case Clear(n) => pr.(workers := pr.workers[n := if ok then RecReady else Stopped])
    case Acknowledge => pr.(pc := Leaving)
  }

  /** The store after a write of `next` that took effect, and the session that was told so. */
  function Wrote(st: Store, id: Id, next: Record, unknown: set<(Id, Name)>, preparing: set<Id>): Store {
    Put(st, id, next).(unknown := unknown, preparing := preparing)
  }

  function Told(st: Store, pr: Proc, next: Record): Proc {
    pr.(record := next, rev := st.nextRev)
  }

  /** publish. */
  ghost function Published(st: Store, pr: Proc, a: Write, o: Outcome): Store {
    if Effective(st, pr, o) then Wrote(st, pr.id, Target(st, pr, a), UnknownAfter(st, pr, a), PreparingAfter(st, pr, a))
      else st
  }

  ghost function Publisher(st: Store, pr: Proc, a: Write, o: Outcome): Proc {
    if Succeeds(st, pr, o) then Told(st, Moved(pr, a, true), Target(st, pr, a)) else Moved(pr, a, false)
  }

  function Session(pr: Proc, id: Id, e: Entry): Proc {
    pr.(id := id, record := e.record, rev := e.rev, workers := map[], frontier := {}, deps := map[])
  }

  ghost function Looked(st: Store, pr: Proc, a: Look): Proc
    requires CanLook(st, pr, a)
  {
    match a
    case List => pr.(pc := if Starts(pr.job) then Scan(st.records.Keys) else Sweep(st.records.Keys))
    case OpenRecord =>
      var s := Session(pr, pr.job.id, st.records[pr.job.id]);
      (match pr.job
       case Recover(_, _) => s.(pc := Working, stage := Going)
       case Cancel(_) => s.(pc := if s.record.finishedAt.Some? then Cleaning else Working, stage := Going)
       case _ => s.(pc := Scan(st.records.Keys - {pr.job.id}), stage := Unchecked))
    case ScanOne(id) => pr.(pc := Scan(pr.pc.todo - {id}))
    case ScanDone => pr.(pc := if Starts(pr.job) then Sweep(st.records.Keys) else Working)
    case SweepSkip(id) => pr.(pc := Sweep(pr.pc.todo - {id}))
    case SweepPick(id) => Session(pr, id, st.records[id]).(pc := Sweeping(pr.pc.todo - {id}))
    case SweepNext => pr.(pc := Sweep(pr.pc.todo))
    case SweepEnd => pr.(pc := if Starts(pr.job) then Creating else Leaving)
  }

  function WorkedStore(cfg: Config, st: Store, pr: Proc, a: Work): Store
    requires CanWork(pr, a)
  {
    match a
    case Launch(n) =>
      if pr.workers[n].RecMarked? then st.(preparing := st.preparing + {pr.id})
        else st.(unknown := st.unknown + {(pr.id, n)})
    case Retain(n, o) =>
      var issued := st.(nextPlan := st.nextPlan + 1, issued := st.issued[st.nextPlan := (pr.id, n)]);
      if o.Lost? then issued else issued.(bundles := st.bundles[st.nextPlan := Bundle(pr.id, n, st.now + cfg.planTTL)])
    case Backup(_, o) => if o.Lost? then st else st.(backups := st.backups + {pr.id})
    case _ => st
  }

  function Worked(st: Store, pr: Proc, a: Work): Proc
    requires CanWork(pr, a)
  {
    match a
    case Admit(deps) => pr.(stage := Admitted, deps := deps)
    case Frontier => pr.(stage := Going, frontier := FrontierOf(pr.job, pr.record, pr.deps))
    case Launch(n) =>
      pr.(workers := pr.workers[n := if pr.workers[n].InitRecorded? then InitRunning
        else if pr.workers[n].MutRecorded? then MutRunning else RecRunning])
    case Return(n, result) => pr.(workers := pr.workers[n := Returned(pr.workers[n], result)])
    case GiveUp(n) => pr.(workers := pr.workers[n := Stopped])
    case ReadDirectly(n) => pr.(workers := pr.workers[n := RecReady])
    case Retain(n, o) => pr.(workers := pr.workers[n := if o.Stored? then Retained(st.nextPlan) else Stopped])
    case Backup(_, _) => pr
  }

  ghost function RemovedStore(cfg: Config, st: Store, pr: Proc, item: Item, o: Outcome): Store
    requires CanRemove(cfg, st, pr, item)
  {
    if o.Lost? then st else
    match item
    case BundleOf(n) => st.(bundles := st.bundles - {pr.record.nodes[n].plan.value})
    case BackupCopy => st.(backups := st.backups - {pr.id})
    case RecordItself => st.(records := st.records - {pr.id})
  }

  ghost function Removed(cfg: Config, st: Store, pr: Proc, item: Item, o: Outcome): Proc
    requires CanRemove(cfg, st, pr, item)
  {
    if !o.Stored? then pr.(pc := Leaving)
    else if item.RecordItself? then pr.(pc := Sweep(pr.pc.todo))
    else pr
  }

  function FreshRecord(job: Job, names: set<Name>): Record {
    Record(job.SaveNew?, PreparingRun, None, None, false, None, map n | n in names :: Node(Pending, None))
  }

  function CreatedStore(st: Store, pr: Proc, names: set<Name>, o: Outcome): Store {
    if o.Lost? then st.(nextId := st.nextId + 1)
    else Put(st, st.nextId, FreshRecord(pr.job, names)).(nextId := st.nextId + 1)
  }

  function Created(st: Store, pr: Proc, names: set<Name>, o: Outcome): Proc {
    if o.Stored? then
      Session(pr, st.nextId, Entry(st.nextRev, FreshRecord(pr.job, names))).(pc := Working,
        stage := if pr.job.Run? then Going else Unchecked)
    else pr.(pc := Leaving)
  }

  ghost function StoreAfter(cfg: Config, st: Store, pr: Proc, a: Action): Store
    requires Can(cfg, st, pr, a)
  {
    match a
    case Look(_) => st
    case Publish(write, o) => Published(st, pr, write, o)
    case Work(work) => WorkedStore(cfg, st, pr, work)
    case Remove(item, o) => RemovedStore(cfg, st, pr, item, o)
    case Create(names, o) => CreatedStore(st, pr, names, o)
    case Leave => st
  }

  ghost function ProcAfter(cfg: Config, st: Store, pr: Proc, a: Action): Proc
    requires Can(cfg, st, pr, a)
  {
    match a
    case Look(look) => Looked(st, pr, look)
    case Publish(write, o) => Publisher(st, pr, write, o)
    case Work(work) => Worked(st, pr, work)
    case Remove(item, o) => Removed(cfg, st, pr, item, o)
    case Create(names, o) => Created(st, pr, names, o)
    case Leave => pr.(pc := Leaving)
  }

  // ---- Beginnings.

  function EmptyStore(): Store {
    Store(map[], map[], {}, 0, 0, 0, 0, {}, {}, map[], {})
  }

  /** A process that has just taken the lock. */
  function Entering(job: Job): Proc {
    Proc(job, Entered, Unchecked, 0, Record(false, PreparingRun, None, None, false, None, map[]), 0, map[], {}, map[])
  }
}
