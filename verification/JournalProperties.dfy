/** What no single step of module Journal ever does. */
module JournalProperties {
  import opened Options
  import opened Outcomes
  import opened Journal
  import opened JournalInvariant
  import opened JournalWrites
  import opened JournalSteps

  /** The stored phase of a node, if its execution is stored. */
  function PhaseAt(st: Store, i: Id, n: Name): Option<Phase> {
    if i in st.records && n in st.records[i].record.nodes then Some(st.records[i].record.nodes[n].phase) else None
  }

  /** How a stored phase may change in one step. */
  predicate PhaseStep(before: Option<Phase>, after: Option<Phase>, wasApplied: bool) {
    && (before == Some(Completed) && after.Some? ==> after == Some(Completed))
    && (after == Some(Applying) && before != Some(Applying) ==> !wasApplied)
  }

  predicate PhasesStep(st: Store, r: Record, next: Record, i: Id) {
    && r.nodes.Keys == next.nodes.Keys
    && forall n :: n in r.nodes ==> PhaseStep(Some(r.nodes[n].phase), Some(next.nodes[n].phase), (i, n) in st.applied)
  }

  lemma FlagPhases(st: Store, r: Record, next: Record, i: Id)
    requires next.nodes == r.nodes || next.nodes == BackToPending(r.nodes)
    ensures PhasesStep(st, r, next, i)
  {
  }

  lemma MovePhases(st: Store, pr: Proc, a: Write)
    requires a.Transition? && MayMove(pr, a.n, a.phase) == true && AppliedIn(st, pr.id, pr.record)
    ensures PhasesStep(st, pr.record, Target(st, pr, a), pr.id)
  {
    TransitionLegal(pr, a.n, a.phase);
  }

  lemma TargetPhases(st: Store, pr: Proc, a: Write)
    requires ProcOk(st, pr) == true && CanWrite(st, pr, a) == true && AppliedIn(st, pr.id, pr.record) == true
    ensures PhasesStep(st, pr.record, Target(st, pr, a), pr.id)
  {
    if a.Transition? {
      PublisherFacts(st, pr, a);
      MovePhases(st, pr, a);
    } else {
      TargetNodes(st, pr, a);
      FlagPhases(st, pr.record, Target(st, pr, a), pr.id);
    }
  }

  lemma TargetNodes(st: Store, pr: Proc, a: Write)
    requires !a.Transition?
    ensures Target(st, pr, a).nodes == pr.record.nodes || Target(st, pr, a).nodes == BackToPending(pr.record.nodes)
  {
    if a.Finish? {
      FinishSavedFields(pr.record, a.failed, st.now);
    }
  }

  /** Completed is never left, applying is entered at most once, and identifiers are not reused. */
  ghost predicate Monotone(st: Store, st': Store) {
    && (forall i: Id, n: Name :: PhaseStep(PhaseAt(st, i, n), PhaseAt(st', i, n), (i, n) in st.applied))
    && st.applied <= st'.applied && st.nextId <= st'.nextId
    && (forall i :: i in st'.records && i !in st.records ==> i >= st.nextId)
    && (forall i :: i in st.records && i in st'.records ==>
      st.records[i].record.nodes.Keys == st'.records[i].record.nodes.Keys)
  }

  lemma SameRecordsMonotone(st: Store, st': Store)
    requires st'.records == st.records && st'.applied == st.applied && st'.nextId >= st.nextId && AppliedTracked(st)
    ensures Monotone(st, st')
  {
  }

  lemma WriteMonotone(st: Store, pr: Proc, a: Write, o: Outcome)
    requires StoreInv(st) == true && ProcOk(st, pr) == true && CanWrite(st, pr, a) == true
    ensures Monotone(st, Published(st, pr, a, o))
  {
    var st' := Published(st, pr, a, o);
    if Effective(st, pr, o) {
      PublisherFacts(st, pr, a);
      CurrentGrounded(st, pr);
      TargetPhases(st, pr, a);
      ReplaceMonotone(st, pr.id, pr.record, Target(st, pr, a), st');
    }
  }

  lemma ReplaceMonotone(st: Store, id: Id, r: Record, next: Record, st': Store)
    requires id in st.records && st.records[id].record == r && PhasesStep(st, r, next, id)
    requires st'.records == st.records[id := Entry(st.nextRev, next)] && st.applied <= st'.applied
      && st'.nextId == st.nextId
    ensures Monotone(st, st')
  {
    forall i: Id, n: Name ensures PhaseStep(PhaseAt(st, i, n), PhaseAt(st', i, n), (i, n) in st.applied) {
    }
  }

  lemma CreateMonotone(st: Store, pr: Proc, names: set<Name>, o: Outcome)
    requires StoreInv(st)
    ensures Monotone(st, CreatedStore(st, pr, names, o))
  {
    var st' := CreatedStore(st, pr, names, o);
    forall i: Id, n: Name ensures PhaseStep(PhaseAt(st, i, n), PhaseAt(st', i, n), (i, n) in st.applied) {
    }
  }

  lemma RemoveMonotone(cfg: Config, st: Store, pr: Proc, item: Item, o: Outcome)
    requires StoreInv(st) && CanRemove(cfg, st, pr, item) == true
    ensures Monotone(st, RemovedStore(cfg, st, pr, item, o))
  {
    var st' := RemovedStore(cfg, st, pr, item, o);
    forall i: Id, n: Name ensures PhaseStep(PhaseAt(st, i, n), PhaseAt(st', i, n), (i, n) in st.applied) {
    }
  }

  lemma WorkMonotone(cfg: Config, st: Store, pr: Proc, a: Work)
    requires AppliedTracked(st) && CanWork(pr, a)
    ensures Monotone(st, WorkedStore(cfg, st, pr, a))
  {
    SameRecordsMonotone(st, WorkedStore(cfg, st, pr, a));
  }

  lemma StepMonotone(cfg: Config, st: Store, pr: Proc, a: Action)
    requires StoreInv(st) == true && ProcOk(st, pr) == true && Can(cfg, st, pr, a) == true
    ensures Monotone(st, StoreAfter(cfg, st, pr, a)) == true
  {
    match a
    case Publish(write, o) => WriteMonotone(st, pr, write, o);
    case Create(names, o) => CreateMonotone(st, pr, names, o);
    case Remove(item, o) => RemoveMonotone(cfg, st, pr, item, o);
    case Work(work) => WorkMonotone(cfg, st, pr, work);
    case _ => SameRecordsMonotone(st, st);
  }

  // ---- Removal.

  /** Whatever disappears belonged to a finished execution that needs no recovery. */
  ghost predicate Disposable(st: Store, i: Id) {
    i in st.records && !NeedsRecovery(st.records[i].record) && st.records[i].record.finishedAt.Some?
  }

  ghost predicate OnlyDisposables(st: Store, st': Store) {
    && (forall p :: p in st.bundles && p !in st'.bundles ==> Disposable(st, st.bundles[p].id))
    && (forall i :: i in st.backups && i !in st'.backups ==> Disposable(st, i))
    && (forall i :: i in st.records && i !in st'.records ==> Disposable(st, i) && i !in st.backups)
  }

  lemma RemoveDisposable(cfg: Config, st: Store, pr: Proc, item: Item, o: Outcome)
    requires StoreInv(st) == true && ProcOk(st, pr) == true && CanRemove(cfg, st, pr, item) == true
    ensures OnlyDisposables(st, RemovedStore(cfg, st, pr, item, o))
  {
    RemoverFacts(cfg, st, pr, item, o);
    assert Disposable(st, pr.id);
    if item.BundleOf? {
      BundleOwner(st, pr, item.n);
    }
  }

  lemma BundleOwner(st: Store, pr: Proc, n: Name)
    requires StoreInv(st) == true && Current(st, pr) && Linked(st, pr) && n in pr.record.nodes
      && pr.record.nodes[n].plan.Some?
    ensures pr.record.nodes[n].plan.value in st.bundles ==> st.bundles[pr.record.nodes[n].plan.value].id == pr.id
  {
    assert PlansKept(st, pr.id, pr.record);
    assert PlanKept(st, pr.id, pr.record, n);
  }

  /** No step removes a plan, a backup or a record of an execution that is unfinished or needs recovery. */
  lemma StepDisposes(cfg: Config, st: Store, pr: Proc, a: Action)
    requires StoreInv(st) == true && ProcOk(st, pr) == true && Can(cfg, st, pr, a) == true
    ensures OnlyDisposables(st, StoreAfter(cfg, st, pr, a)) == true
  {
    match a
    case Remove(item, o) => RemoveDisposable(cfg, st, pr, item, o);
    case _ => OthersRemoveNothing(cfg, st, pr, a);
  }

  lemma OthersRemoveNothing(cfg: Config, st: Store, pr: Proc, a: Action)
    requires Can(cfg, st, pr, a) == true && !a.Remove?
    ensures OnlyDisposables(st, StoreAfter(cfg, st, pr, a)) == true
  {
  }

  // ---- What is known about mutations.

  predicate Definitive(p: Phase) {
    p == Preparing || p == Planned || p == Applied || p == Completed || p == Failed
  }

  /** A mutation stops being unknown only when the stored record names its outcome or was acknowledged. */
  ghost predicate Accounted(st: Store, st': Store) {
    forall i: Id, n: Name :: (i, n) in st.unknown && (i, n) !in st'.unknown ==> Settled(st', i, n)
  }

  ghost predicate Settled(st: Store, i: Id, n: Name) {
    i in st.records && (st.records[i].record.recoveryAt.Some?
      || (PhaseAt(st, i, n).Some? && Definitive(PhaseAt(st, i, n).value)))
  }

  lemma WriteAccounted(st: Store, pr: Proc, a: Write, o: Outcome)
    requires ProcOk(st, pr) == true && CanWrite(st, pr, a) == true
    ensures Accounted(st, Published(st, pr, a, o)) == true
  {
    PublisherFacts(st, pr, a);
    if a.Transition? {
      assert Definitive(a.phase) || UnknownAfter(st, pr, a) == st.unknown by { OutcomePhases(pr, a.n, a.phase); }
    }
  }

  lemma OutcomePhases(pr: Proc, n: Name, phase: Phase)
    requires n in pr.record.nodes && Permits(pr, n, phase)
    ensures n in pr.workers && Definite(pr.workers[n]) ==> Definitive(phase)
  {
  }

  lemma StepAccounted(cfg: Config, st: Store, pr: Proc, a: Action)
    requires ProcOk(st, pr) == true && Can(cfg, st, pr, a) == true
    ensures Accounted(st, StoreAfter(cfg, st, pr, a)) == true
  {
    if a.Publish? {
      WriteAccounted(st, pr, a.write, a.o);
    } else {
      OthersSettleNothing(cfg, st, pr, a);
    }
  }

  /** Only starting a mutation makes one unknown. */
  lemma OnlyLaunchOpens(cfg: Config, st: Store, pr: Proc, a: Action)
    requires Can(cfg, st, pr, a) == true
    ensures forall i, n :: (i, n) in StoreAfter(cfg, st, pr, a).unknown && (i, n) !in st.unknown ==>
      a == Work(Launch(n))
  {
  }

  lemma OthersSettleNothing(cfg: Config, st: Store, pr: Proc, a: Action)
    requires Can(cfg, st, pr, a) == true && !a.Publish?
    ensures st.unknown <= StoreAfter(cfg, st, pr, a).unknown
  {
  }

  // ---- Starting a mutation.

  /** A mutation starts only after its intent is stored, and while no other execution needs recovery. */
  lemma LaunchGuarded(st: Store, pr: Proc, n: Name)
    requires ProcOk(st, pr) == true && CanWork(pr, Launch(n))
    ensures Needy(st, pr.id) && forall j :: Needy(st, j) ==> j == pr.id
  {
    WorkerFacts(st, pr, n);
    assert Mutates(pr.job) || pr.job.Recover?;
    BarrierCalms(st, pr);
    if Hot(pr.workers[n]) {
      assert NodeUnsettled(st.records[pr.id].record, n);
    }
  }
}
