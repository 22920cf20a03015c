/** One round of a saved execution: a process plans the whole frontier, and another applies the plans. */
module SavedRound {
  import opened Options
  import opened Outcomes
  import opened Journal
  import opened JournalTrace

  /** Record 0 is the only one in the store, and the session holds it. */
  ghost predicate Alone(t: Trace) {
    && Sound(t) == true && t.pr.id == 0 && t.pr.rev < t.st.nextRev
    && t.st.records == map[0 := Entry(t.pr.rev, t.pr.record)] && Numbered(t.st)
  }

  ghost predicate Numbered(st: Store) {
    forall p :: p in st.bundles ==> p < st.nextPlan
  }

  /** A saved execution that is not finished. */
  predicate Unfinished(r: Record, deps: Deps) {
    r.saved && r.finishedAt.None? && r.recoveryAt.None? && !r.preparation && r.binding == Some(deps)
  }

  ghost predicate AtWork(t: Trace, deps: Deps) {
    Alone(t) == true && t.pr.pc.Working? && t.pr.stage.Going? && Unfinished(t.pr.record, deps)
  }

  function WithNode(r: Record, n: Name, phase: Phase, plan: Option<PlanId>): Record {
    r.(nodes := r.nodes[n := Node(phase, plan)])
  }

  // ---- Steps on one node.

  lemma Move(t: Trace, deps: Deps, n: Name, phase: Phase) returns (t': Trace)
    requires AtWork(t, deps) == true && CanTransition(t.st, t.pr, n, phase)
    ensures AtWork(t', deps) == true && SameJob(t, t')
    ensures t'.pr.workers == t.pr.workers[n := After(t.pr.job, phase)]
    ensures t'.pr.record == WithNode(t.pr.record, n, phase,
      if PlanOf(t.pr, n).Some? then PlanOf(t.pr, n) else t.pr.record.nodes[n].plan)
    ensures t'.st.bundles == t.st.bundles && t'.st.nextPlan == t.st.nextPlan
  {
    var a := Publish(Transition(n, phase), Stored);
    TransitionStep(t, n, phase, Stored);
    t' := Add(t, a);
    assert t'.st.records == map[0 := Entry(t.st.nextRev, t'.pr.record)];
  }

  lemma RunFine(t: Trace, deps: Deps, n: Name) returns (t': Trace)
    requires AtWork(t, deps) == true && (WorkerAt(t.pr, n, InitRecorded) || WorkerAt(t.pr, n, MutRecorded))
    ensures AtWork(t', deps) == true && SameJob(t, t') && t'.pr.record == t.pr.record
    ensures t'.pr.workers ==
      t.pr.workers[n := if t.pr.workers[n].InitRecorded? then InitReturned(Fine) else MutReturned(Fine)]
    ensures t'.st.bundles == t.st.bundles && t'.st.nextPlan == t.st.nextPlan
  {
    MutationStep(t, n, Fine);
    t' := Add(Add(t, Work(Launch(n))), Work(Return(n, Fine)));
  }

  /** The node's bundle is stored. */
  lemma Bundles(t: Trace, deps: Deps, n: Name) returns (t': Trace)
    requires AtWork(t, deps) == true && WorkerAt(t.pr, n, Prepared) && Saves(t.pr.job)
    ensures AtWork(t', deps) == true && SameJob(t, t') && t'.pr.record == t.pr.record
    ensures t'.pr.workers == t.pr.workers[n := Retained(t.st.nextPlan)]
    ensures t'.st.bundles == t.st.bundles[t.st.nextPlan := Bundle(0, n, t.st.now + t.cfg.planTTL)]
      && t'.st.nextPlan == t.st.nextPlan + 1
  {
    RetainStep(t, n, Stored);
    t' := Add(t, Work(Retain(n, Stored)));
  }

  // ---- Planning.

  lemma PlanOne(t: Trace, deps: Deps, n: Name) returns (t': Trace)
    requires AtWork(t, deps) == true && Saves(t.pr.job) && Untouched(t.pr, n) && n in t.pr.frontier
    ensures AtWork(t', deps) == true && SameJob(t, t')
    ensures t'.pr.workers == t.pr.workers[n := Stopped]
    ensures t'.pr.record == WithNode(t.pr.record, n, Planned, Some(t.st.nextPlan))
    ensures t'.st.bundles == t.st.bundles[t.st.nextPlan := Bundle(0, n, t.st.now + t.cfg.planTTL)]
  {
    t' := Prepares(t, deps, n);
    t' := Bundles(t', deps, n);
    t' := Move(t', deps, n, Planned);
  }

  lemma Prepares(t: Trace, deps: Deps, n: Name) returns (t': Trace)
    requires AtWork(t, deps) == true && Saves(t.pr.job) && Untouched(t.pr, n) && n in t.pr.frontier
    ensures AtWork(t', deps) == true && SameJob(t, t')
    ensures t'.pr.workers == t.pr.workers[n := Prepared]
    ensures t'.pr.record == WithNode(t.pr.record, n, Preparing, t.pr.record.nodes[n].plan)
    ensures t'.st.bundles == t.st.bundles && t'.st.nextPlan == t.st.nextPlan
  {
    t' := Move(t, deps, n, Initializing);
    t' := RunFine(t', deps, n);
    t' := Move(t', deps, n, Preparing);
  }

  ghost predicate AllUsable(st: Store, r: Record, names: set<Name>) {
    forall n :: n in names ==> n in r.nodes && r.nodes[n].phase == Planned && BundleUsable(st, 0, r, n)
  }

  /** Nodes outside `names` are as they were. */
  ghost predicate OthersKept(r: Record, r': Record, names: set<Name>) {
    && r'.nodes.Keys == r.nodes.Keys
    && forall n :: n in r.nodes && n !in names ==> r'.nodes[n] == r.nodes[n]
  }

  ghost predicate CanStart(t: Trace, todo: set<Name>) {
    todo <= t.pr.frontier && AllStopped(t.pr) && forall n :: n in todo ==> n in t.pr.record.nodes && n !in t.pr.workers
  }

  lemma {:induction false} PlanAll(t: Trace, deps: Deps, todo: set<Name>, done: set<Name>) returns (t': Trace)
    requires AtWork(t, deps) == true && Saves(t.pr.job) && CanStart(t, todo) == true && t.cfg.planTTL > 0
    requires AllUsable(t.st, t.pr.record, done) == true && todo !! done
    ensures AtWork(t', deps) == true && SameJob(t, t') && AllStopped(t'.pr)
    ensures AllUsable(t'.st, t'.pr.record, todo + done) == true
    ensures OthersKept(t.pr.record, t'.pr.record, todo) && t'.pr.record == t.pr.record.(nodes := t'.pr.record.nodes)
    decreases todo
  {
    t' := t;
    if todo == {} {
      assert todo + done == done;
    } else {
      var n :| n in todo;
      var t1 := PlanOne(t, deps, n);
      OnePlanned(t, t1, n, done);
      t' := PlanAll(t1, deps, todo - {n}, done + {n});
      assert todo - {n} + (done + {n}) == todo + done;
    }
  }

  lemma OnePlanned(t: Trace, t1: Trace, n: Name, done: set<Name>)
    requires Numbered(t.st) && AllUsable(t.st, t.pr.record, done) && n !in done && n in t.pr.record.nodes
    requires SameJob(t, t1) && t.cfg.planTTL > 0
    requires t1.pr.record == WithNode(t.pr.record, n, Planned, Some(t.st.nextPlan))
    requires t1.st.bundles == t.st.bundles[t.st.nextPlan := Bundle(0, n, t.st.now + t.cfg.planTTL)]
    ensures AllUsable(t1.st, t1.pr.record, done + {n}) == true
  {
    forall m | m in done + {n} ensures m in t1.pr.record.nodes && t1.pr.record.nodes[m].phase == Planned
      && BundleUsable(t1.st, 0, t1.pr.record, m)
    {
      assert m in done ==> BundleUsable(t.st, 0, t.pr.record, m);
    }
  }

  // ---- Applying.

  lemma ApplyOne(t: Trace, deps: Deps, n: Name) returns (t': Trace)
    requires AtWork(t, deps) == true && t.pr.job.ApplySaved? && Untouched(t.pr, n) && n in t.pr.frontier
      && BundleUsable(t.st, 0, t.pr.record, n)
    ensures AtWork(t', deps) == true && SameJob(t, t')
    ensures t'.pr.workers == t.pr.workers[n := Stopped]
    ensures t'.pr.record == WithNode(t.pr.record, n, Completed, t.pr.record.nodes[n].plan)
    ensures t'.st.bundles == t.st.bundles
  {
    t' := Reinitialises(t, deps, n);
    t' := Mutates(t', deps, n);
    t' := Finishes(t', deps, n);
  }

  lemma Mutates(t: Trace, deps: Deps, n: Name) returns (t': Trace)
    requires AtWork(t, deps) == true && t.pr.job.ApplySaved? && WorkerAt(t.pr, n, Prepared)
    ensures AtWork(t', deps) == true && SameJob(t, t')
    ensures t'.pr.workers == t.pr.workers[n := MutReturned(Fine)]
    ensures t'.pr.record == WithNode(t.pr.record, n, Applying, t.pr.record.nodes[n].plan)
    ensures t'.st.bundles == t.st.bundles
  {
    t' := Move(t, deps, n, Applying);
    t' := RunFine(t', deps, n);
  }

  lemma Reinitialises(t: Trace, deps: Deps, n: Name) returns (t': Trace)
    requires AtWork(t, deps) == true && t.pr.job.ApplySaved? && Untouched(t.pr, n) && n in t.pr.frontier
      && BundleUsable(t.st, 0, t.pr.record, n)
    ensures AtWork(t', deps) == true && SameJob(t, t')
    ensures t'.pr.workers == t.pr.workers[n := Prepared]
    ensures t'.pr.record == WithNode(t.pr.record, n, Planned, t.pr.record.nodes[n].plan)
    ensures t'.st.bundles == t.st.bundles
  {
    t' := Move(t, deps, n, Initializing);
    t' := RunFine(t', deps, n);
    t' := Move(t', deps, n, Planned);
  }

  lemma Finishes(t: Trace, deps: Deps, n: Name) returns (t': Trace)
    requires AtWork(t, deps) == true && t.pr.job.ApplySaved? && WorkerAt(t.pr, n, MutReturned(Fine))
      && t.pr.record.nodes[n].phase == Applying
    ensures AtWork(t', deps) == true && SameJob(t, t')
    ensures t'.pr.workers == t.pr.workers[n := Stopped]
    ensures t'.pr.record == WithNode(t.pr.record, n, Completed, t.pr.record.nodes[n].plan)
    ensures t'.st.bundles == t.st.bundles
  {
    t' := Move(t, deps, n, Applied);
    t' := Move(t', deps, n, Completed);
  }

  ghost predicate AllCompleted(r: Record, names: set<Name>) {
    forall n :: n in names ==> n in r.nodes && r.nodes[n].phase == Completed
  }

  lemma {:induction false} ApplyAll(t: Trace, deps: Deps, todo: set<Name>, done: set<Name>) returns (t': Trace)
    requires AtWork(t, deps) == true && t.pr.job.ApplySaved? && CanStart(t, todo) == true
    requires AllUsable(t.st, t.pr.record, todo) == true && AllCompleted(t.pr.record, done) == true && todo !! done
    ensures AtWork(t', deps) == true && SameJob(t, t') && AllStopped(t'.pr)
    ensures AllCompleted(t'.pr.record, todo + done) == true
    ensures OthersKept(t.pr.record, t'.pr.record, todo) && t'.pr.record == t.pr.record.(nodes := t'.pr.record.nodes)
    decreases todo
  {
    t' := t;
    if todo == {} {
      assert todo + done == done;
    } else {
      var n :| n in todo;
      var t1 := ApplyOne(t, deps, n);
      OneApplied(t, t1, n, todo, done);
      t' := ApplyAll(t1, deps, todo - {n}, done + {n});
      assert todo - {n} + (done + {n}) == todo + done;
    }
  }

  lemma OneApplied(t: Trace, t1: Trace, n: Name, todo: set<Name>, done: set<Name>)
    requires AllUsable(t.st, t.pr.record, todo) && AllCompleted(t.pr.record, done) && n in todo && n !in done
    requires SameJob(t, t1) && t1.st.bundles == t.st.bundles
    requires t1.pr.record == WithNode(t.pr.record, n, Completed, t.pr.record.nodes[n].plan)
    ensures AllUsable(t1.st, t1.pr.record, todo - {n}) == true && AllCompleted(t1.pr.record, done + {n}) == true
  {
    forall m | m in todo - {n} ensures m in t1.pr.record.nodes && t1.pr.record.nodes[m].phase == Planned
      && BundleUsable(t1.st, 0, t1.pr.record, m)
    {
      assert BundleUsable(t.st, 0, t.pr.record, m);
    }
  }

  // ---- Beginnings and ends of a round.

  /** Some nodes are completed, and the others wait to be planned. */
  predicate Partly(r: Record, names: set<Name>, completed: set<Name>) {
    && completed <= names == r.nodes.Keys
    && forall n :: n in names ==> r.nodes[n].phase == if n in completed then Completed else Pending
  }

  ghost predicate OneRecord(st: Store) {
    st.records.Keys == {0} && st.records[0].rev < st.nextRev && Numbered(st)
  }

  /** Between two rounds. */
  ghost predicate Between(st: Store, deps: Deps, names: set<Name>, completed: set<Name>) {
    && OneRecord(st) && Unfinished(st.records[0].record, deps) && st.records[0].record.status == ReadyForNextPlan
    && Partly(st.records[0].record, names, completed)
  }

  /** The frontier: the nodes that wait and whose predecessors in the execution are completed. */
  ghost predicate IsFrontier(deps: Deps, names: set<Name>, completed: set<Name>, frontier: set<Name>) {
    forall n :: n in frontier <==> n in names && n !in completed && Upstream(deps, n) * names <= completed
  }

  /** The nodes of the frontier are planned and have their bundles, and the others are as before the round. */
  ghost predicate FrontierPlanned(st: Store, r: Record, names: set<Name>, completed: set<Name>, frontier: set<Name>) {
    && completed <= names == r.nodes.Keys && frontier <= names && frontier !! completed
    && AllUsable(st, r, frontier) == true
    && forall n :: n in names && n !in frontier ==> r.nodes[n].phase == if n in completed then Completed else Pending
  }

  ghost predicate Waiting(st: Store, deps: Deps, names: set<Name>, completed: set<Name>, frontier: set<Name>) {
    && OneRecord(st) && Unfinished(st.records[0].record, deps) && st.records[0].record.status == WaitingForApply
    && FrontierPlanned(st, st.records[0].record, names, completed, frontier) == true
  }

  /** The process that planned or applied has nothing left to do. */
  ghost predicate Left(cfg: Config, st0: Store, job: Job, t: Trace) {
    Alone(t) == true && t.cfg == cfg && t.st0 == st0 && t.pr0 == Entering(job) && t.pr.pc.Leaving?
  }

  lemma AloneOneRecord(t: Trace)
    requires Alone(t)
    ensures OneRecord(t.st) == true && t.st.records[0].record == t.pr.record
  {
  }

  /** A write of the session. */
  lemma Write(t: Trace, w: Write) returns (t': Trace)
    requires Alone(t) == true && CanWrite(t.st, t.pr, w) == true
    ensures Alone(t') == true && t'.pr == Told(t.st, Moved(t.pr, w, true), Target(t.st, t.pr, w))
    ensures t'.cfg == t.cfg && t'.st0 == t.st0 && t'.pr0 == t.pr0
    ensures t'.st.bundles == t.st.bundles && t'.st.now == t.st.now
  {
    AddSound(t, Publish(w, Stored));
    t' := Add(t, Publish(w, Stored));
    assert t'.st.records == map[0 := Entry(t.st.nextRev, t'.pr.record)];
  }

  // ---- Planning a round.

  /** A saved execution just created or opened. */
  ghost predicate Opened(t: Trace, deps: Deps, names: set<Name>, completed: set<Name>) {
    var r := t.pr.record;
    && Alone(t) == true && t.pr.pc.Working? && t.pr.stage.Unchecked? && Saves(t.pr.job)
    && t.pr.workers == map[]
    && r.saved && r.finishedAt.None? && r.recoveryAt.None? && !r.preparation
    && (r.status == PreparingRun || r.status == ReadyForNextPlan) && (r.binding.None? || r.binding == Some(deps))
    && Partly(r, names, completed)
  }

  lemma Creates(cfg: Config) returns (t: Trace)
    ensures Sound(t) && t.cfg == cfg && t.st0 == EmptyStore() && t.pr0 == Entering(SaveNew)
    ensures t.st == EmptyStore() && t.pr == Entering(SaveNew).(pc := Creating)
  {
    t := Begin(cfg, EmptyStore(), Entering(SaveNew));
    AddSound(t, Look(List));
    t := Add(t, Look(List));
    AddSound(t, Look(ScanDone));
    t := Add(t, Look(ScanDone));
    AddSound(t, Look(SweepEnd));
    t := Add(t, Look(SweepEnd));
  }

  lemma OpensNew(cfg: Config, deps: Deps, names: set<Name>) returns (t: Trace)
    ensures Opened(t, deps, names, {}) == true
    ensures t.cfg == cfg && t.st0 == EmptyStore() && t.pr0 == Entering(SaveNew)
  {
    t := Creates(cfg);
    AddSound(t, Create(names, Stored));
    t := Add(t, Create(names, Stored));
  }

  /** An execution at rest needs no recovery. */
  lemma Calm(r: Record)
    requires r.recoveryAt.None? && !r.preparation
    requires forall n :: n in r.nodes ==> r.nodes[n].phase in {Pending, Planned, Completed}
    ensures !NeedsRecovery(r)
  {
  }

  lemma OpensMore(cfg: Config, st: Store, deps: Deps, names: set<Name>, completed: set<Name>) returns (t: Trace)
    requires Between(st, deps, names, completed)
    ensures Opened(t, deps, names, completed) == true
    ensures t.cfg == cfg && t.st0 == st && t.pr0 == Entering(SaveMore(0))
  {
    t := Begin(cfg, st, Entering(SaveMore(0)));
    Calm(st.records[0].record);
    AddSound(t, Look(OpenRecord));
    t := Add(t, Look(OpenRecord));
    assert t.pr.pc.todo == {};
    AddSound(t, Look(ScanDone));
    t := Add(t, Look(ScanDone));
    assert t.st.records == map[0 := Entry(t.pr.rev, t.pr.record)];
  }

  /** The binding is checked and published, and the frontier computed. */
  lemma Frontiers(t: Trace, deps: Deps, names: set<Name>, completed: set<Name>, frontier: set<Name>)
    returns (t': Trace)
    requires Opened(t, deps, names, completed) == true && IsFrontier(deps, names, completed, frontier)
    ensures AtWork(t', deps) == true && t'.pr.job == t.pr.job && t'.pr.workers == map[] && t'.pr.frontier == frontier
    ensures t'.cfg == t.cfg && t'.st0 == t.st0 && t'.pr0 == t.pr0 && Partly(t'.pr.record, names, completed)
  {
    AddSound(t, Work(Admit(deps)));
    t' := Add(t, Work(Admit(deps)));
    t' := Write(t', Bind);
    AddSound(t', Work(Frontier));
    t' := Add(t', Work(Frontier));
    assert t'.pr.frontier == frontier;
  }

  /** Nobody waits for a plan any more: the verdict of the round is that its plans wait to be applied. */
  lemma PlanVerdict(r: Record, st: Store, names: set<Name>, completed: set<Name>, frontier: set<Name>, now: nat)
    requires r.saved && r.recoveryAt.None? && !r.preparation && frontier != {}
    requires FrontierPlanned(st, r, names, completed, frontier)
    ensures FinishSavedRecord(r, false, now) == r.(finishedAt := None, status := WaitingForApply)
  {
    assert BackToPending(r.nodes) == r.nodes;
    var next := r.(finishedAt := None, status := ReadyForNextPlan);
    Calm(next);
    var n :| n in frontier;
    assert n in next.nodes && next.nodes[n].phase == Planned;
  }

  lemma PlanEnds(t: Trace, deps: Deps, names: set<Name>, completed: set<Name>, frontier: set<Name>) returns (t': Trace)
    requires AtWork(t, deps) == true && Saves(t.pr.job) && AllStopped(t.pr) && frontier != {}
    requires FrontierPlanned(t.st, t.pr.record, names, completed, frontier) == true
    ensures Alone(t') == true && t'.pr.pc.Leaving? && t'.cfg == t.cfg && t'.st0 == t.st0 && t'.pr0 == t.pr0
    ensures Waiting(t'.st, deps, names, completed, frontier) == true
  {
    t' := Write(t, Touch(WaitingForApply));
    PlanVerdict(t'.pr.record, t.st, names, completed, frontier, t'.st.now);
    t' := Write(t', Finish(false));
    AddSound(t', Leave);
    t' := Add(t', Leave);
    SameUsable(t.st, t.pr.record, t'.st, t'.pr.record, frontier);
    AloneOneRecord(t');
  }

  lemma SameUsable(st: Store, r: Record, st': Store, r': Record, names: set<Name>)
    requires AllUsable(st, r, names) && st'.bundles == st.bundles && st'.now == st.now && r'.nodes == r.nodes
    ensures AllUsable(st', r', names) == true
  {
    forall n | n in names ensures n in r'.nodes && r'.nodes[n].phase == Planned && BundleUsable(st', 0, r', n) {
      assert BundleUsable(st, 0, r, n);
    }
  }

  lemma PlansFrontier(t: Trace, deps: Deps, names: set<Name>, completed: set<Name>, frontier: set<Name>)
    returns (t': Trace)
    requires Opened(t, deps, names, completed) == true && IsFrontier(deps, names, completed, frontier)
    requires frontier != {} && t.cfg.planTTL > 0
    ensures Alone(t') == true && t'.pr.pc.Leaving? && t'.cfg == t.cfg && t'.st0 == t.st0 && t'.pr0 == t.pr0
    ensures Waiting(t'.st, deps, names, completed, frontier) == true
  {
    t' := Frontiers(t, deps, names, completed, frontier);
    t' := PlanAll(t', deps, frontier, {});
    assert frontier + {} == frontier;
    t' := PlanEnds(t', deps, names, completed, frontier);
  }

  /** The first process creates the execution and plans the nodes without predecessors. */
  lemma FirstPlans(cfg: Config, deps: Deps, names: set<Name>, frontier: set<Name>) returns (t: Trace)
    requires IsFrontier(deps, names, {}, frontier) && frontier != {} && cfg.planTTL > 0
    ensures Left(cfg, EmptyStore(), SaveNew, t) == true && Waiting(t.st, deps, names, {}, frontier) == true
  {
    t := OpensNew(cfg, deps, names);
    t := PlansFrontier(t, deps, names, {}, frontier);
  }

  /** A later one plans the nodes that have become ready. */
  lemma MorePlans(cfg: Config, st: Store, deps: Deps, names: set<Name>, completed: set<Name>, frontier: set<Name>)
    returns (t: Trace)
    requires Between(st, deps, names, completed) == true && IsFrontier(deps, names, completed, frontier)
    requires frontier != {} && cfg.planTTL > 0
    ensures Left(cfg, st, SaveMore(0), t) == true && Waiting(t.st, deps, names, completed, frontier) == true
  {
    t := OpensMore(cfg, st, deps, names, completed);
    t := PlansFrontier(t, deps, names, completed, frontier);
  }

  // ---- Applying a round.

  lemma OpensPlanned(cfg: Config, st: Store, deps: Deps, names: set<Name>, completed: set<Name>, frontier: set<Name>)
    returns (t: Trace)
    requires Waiting(st, deps, names, completed, frontier) == true
    ensures AtWork(t, deps) == true && t.pr.job == ApplySaved(0) && t.pr.workers == map[] && t.pr.frontier == frontier
    ensures t.cfg == cfg && t.st0 == st && t.pr0 == Entering(ApplySaved(0))
    ensures FrontierPlanned(t.st, t.pr.record, names, completed, frontier) == true
  {
    t := Begin(cfg, st, Entering(ApplySaved(0)));
    PlannedIsCalm(st, st.records[0].record, names, completed, frontier);
    AddSound(t, Look(OpenRecord));
    t := Add(t, Look(OpenRecord));
    assert t.pr.pc.todo == {};
    AddSound(t, Look(ScanDone));
    t := Add(t, Look(ScanDone));
    assert t.st.records == map[0 := Entry(t.pr.rev, t.pr.record)];
    AddSound(t, Work(Admit(deps)));
    t := Add(t, Work(Admit(deps)));
    AddSound(t, Work(Frontier));
    t := Add(t, Work(Frontier));
  }

  lemma PlannedIsCalm(st: Store, r: Record, names: set<Name>, completed: set<Name>, frontier: set<Name>)
    requires r.recoveryAt.None? && !r.preparation && FrontierPlanned(st, r, names, completed, frontier)
    ensures !NeedsRecovery(r) && frontier == (set n | n in r.nodes && r.nodes[n].phase == Planned)
  {
    Calm(r);
  }

  /** Every node of the execution is completed, and so is the execution. */
  ghost predicate AllDone(st: Store, deps: Deps, names: set<Name>) {
    && OneRecord(st) && st.records[0].record.saved && st.records[0].record.status == CompletedRun
    && st.records[0].record.finishedAt.Some? && st.records[0].record.binding == Some(deps)
    && st.records[0].record.nodes.Keys == names
    && AllCompleted(st.records[0].record, names) == true
  }

  lemma ApplyEnds(t: Trace, deps: Deps, names: set<Name>, completed: set<Name>) returns (t': Trace)
    requires AtWork(t, deps) == true && t.pr.job.ApplySaved? && AllStopped(t.pr) && t.pr.frontier <= completed
    requires Partly(t.pr.record, names, completed)
    ensures Alone(t') == true && t'.pr.pc.Leaving? && t'.cfg == t.cfg && t'.st0 == t.st0 && t'.pr0 == t.pr0
    ensures if completed == names then AllDone(t'.st, deps, names) == true
      else Between(t'.st, deps, names, completed) == true
  {
    t' := Write(t, Settle);
    AddSound(t', Leave);
    t' := Add(t', Leave);
    AloneOneRecord(t');
    if completed != names {
      var n :| n in names && n !in completed;
      assert t.pr.record.nodes[n].phase != Completed;
    }
  }

  /** The planned nodes are applied. */
  lemma Applies(cfg: Config, st: Store, deps: Deps, names: set<Name>, completed: set<Name>, frontier: set<Name>)
    returns (t: Trace)
    requires Waiting(st, deps, names, completed, frontier) == true
    ensures Left(cfg, st, ApplySaved(0), t) == true
    ensures if completed + frontier == names then AllDone(t.st, deps, names) == true
      else Between(t.st, deps, names, completed + frontier) == true
  {
    var t0 := OpensPlanned(cfg, st, deps, names, completed, frontier);
    t := ApplyAll(t0, deps, frontier, {});
    assert frontier + {} == frontier;
    NowCompleted(t0.st, t0.pr.record, t.pr.record, names, completed, frontier);
    t := ApplyEnds(t, deps, names, completed + frontier);
  }

  lemma NowCompleted(st: Store, r: Record, r': Record, names: set<Name>, completed: set<Name>, frontier: set<Name>)
    requires FrontierPlanned(st, r, names, completed, frontier) && OthersKept(r, r', frontier)
      && AllCompleted(r', frontier)
    ensures Partly(r', names, completed + frontier) == true
  {
  }
}
