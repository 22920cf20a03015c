/** Every conditional write of a session keeps the invariant, however the write ends. */
module JournalWrites {
  import opened Options
  import opened Outcomes
  import opened Journal
  import opened JournalInvariant

  // ---- A write keeps the store's invariant when the record it writes is acceptable.

  ghost predicate Acceptable(st: Store, id: Id, next: Record, unknown: set<(Id, Name)>, preparing: set<Id>) {
    && Shape(next)
    && (NeedsRecovery(next) ==> forall j :: Needy(st, j) ==> j == id)
    && unknown <= st.unknown && preparing <= st.preparing
    && (forall n :: (id, n) in unknown ==> n in next.nodes && Unknown(next.nodes[n].phase) && next.recoveryAt.None?)
    && (id in preparing ==> next.preparation && next.recoveryAt.None?)
    && PlansKept(st, id, next)
    && (forall n :: (id, n) in st.applied ==> n in next.nodes && PastApply(next.nodes[n].phase))
  }

  lemma PutKeeps(st: Store, id: Id, next: Record, unknown: set<(Id, Name)>, preparing: set<Id>, nextId: nat)
    requires StoreInv(st) == true
    requires id < nextId && st.nextId <= nextId
    requires Acceptable(st, id, next, unknown, preparing) == true
    ensures StoreInv(Put(st, id, next).(unknown := unknown, preparing := preparing, nextId := nextId)) == true
  {
    var st' := Put(st, id, next).(unknown := unknown, preparing := preparing, nextId := nextId);
    PutKeepsEvidence(st, id, next, unknown, preparing, nextId);
    PutKeepsPlans(st, id, next, unknown, preparing, nextId);
    PutKeepsApplied(st, id, next, unknown, preparing, nextId);
    assert Shapes(st');
    assert Numbered(st');
  }

  lemma PutKeepsEvidence(st: Store, id: Id, next: Record, unknown: set<(Id, Name)>, preparing: set<Id>, nextId: nat)
    requires WriteAhead(st) && PreparingStored(st) && AtMostOneNeedy(st)
    requires Acceptable(st, id, next, unknown, preparing)
    ensures var st' := Put(st, id, next).(unknown := unknown, preparing := preparing, nextId := nextId);
            WriteAhead(st') && PreparingStored(st') && AtMostOneNeedy(st')
  {
    var st' := Put(st, id, next).(unknown := unknown, preparing := preparing, nextId := nextId);
    forall i, n | (i, n) in st'.unknown ensures UnknownStored(st', i, n) {
      assert (i, n) in st.unknown;
      assert UnknownStored(st, i, n);
    }
    forall i, j | Needy(st', i) && Needy(st', j) ensures i == j {
      assert i != id ==> Needy(st, i);
      assert j != id ==> Needy(st, j);
    }
  }

  lemma PutKeepsPlans(st: Store, id: Id, next: Record, unknown: set<(Id, Name)>, preparing: set<Id>, nextId: nat)
    requires AllPlansKept(st) && BundlesOwned(st)
    requires PlansKept(st, id, next)
    ensures var st' := Put(st, id, next).(unknown := unknown, preparing := preparing, nextId := nextId);
            AllPlansKept(st') && BundlesOwned(st')
  {
    var st' := Put(st, id, next).(unknown := unknown, preparing := preparing, nextId := nextId);
    forall i | i in st'.records ensures PlansKept(st', i, st'.records[i].record) {
      var r := st'.records[i].record;
      assert PlansKept(st, i, r);
      forall n | n in r.nodes && r.nodes[n].plan.Some? ensures PlanKept(st', i, r, n) {
        assert PlanKept(st, i, r, n);
      }
    }
  }

  lemma PutKeepsApplied(st: Store, id: Id, next: Record, unknown: set<(Id, Name)>, preparing: set<Id>, nextId: nat)
    requires AppliedTracked(st)
    requires forall n :: (id, n) in st.applied ==> n in next.nodes && PastApply(next.nodes[n].phase)
    ensures AppliedTracked(Put(st, id, next).(unknown := unknown, preparing := preparing, nextId := nextId))
  {
    var st' := Put(st, id, next).(unknown := unknown, preparing := preparing, nextId := nextId);
    forall i | i in st'.records ensures AppliedIn(st', i, st'.records[i].record) {
      if i != id {
        assert AppliedIn(st, i, st.records[i].record);
      }
    }
  }

  // ---- What each publishing action writes is acceptable.

  /** What the store's invariant says about the record a current session holds. */
  ghost predicate Grounded(st: Store, pr: Proc) {
    && Shape(pr.record) && PlansKept(st, pr.id, pr.record) && AppliedIn(st, pr.id, pr.record)
    && (forall n :: (pr.id, n) in st.unknown ==>
      n in pr.record.nodes && Unknown(pr.record.nodes[n].phase) && pr.record.recoveryAt.None?)
    && (pr.id in st.preparing ==> pr.record.preparation && pr.record.recoveryAt.None?)
  }

  lemma CurrentGrounded(st: Store, pr: Proc)
    requires StoreInv(st) == true && Current(st, pr) && Linked(st, pr) == true
    ensures Grounded(st, pr) == true
  {
    forall n | (pr.id, n) in st.unknown ensures UnknownStored(st, pr.id, n) {
    }
  }

  ghost predicate OthersCalm(st: Store, id: Id) {
    forall j :: Needy(st, j) ==> j == id
  }

  lemma BarrierCalms(st: Store, pr: Proc)
    requires BarrierHolds(st, pr) && pr.pc.Working? && (Mutates(pr.job) || pr.job.Recover?)
    ensures OthersCalm(st, pr.id)
  {
    forall j | Needy(st, j) ensures j == pr.id {
      assert Checked(pr, j) ==> !Needy(st, j);
    }
  }

  /** The record keeps its nodes and only its flags change. */
  lemma FlagsAcceptable(st: Store, pr: Proc, next: Record, unknown: set<(Id, Name)>, preparing: set<Id>)
    requires Grounded(st, pr)
    requires next.nodes == pr.record.nodes
    requires Ordered(next) && FinishedSettled(next)
    requires next.finishedAt.None? ==> pr.record.finishedAt.None?
    requires NeedsRecovery(next) ==> OthersCalm(st, pr.id)
    requires unknown <= st.unknown && preparing <= st.preparing
    requires next.recoveryAt == pr.record.recoveryAt || forall n :: (pr.id, n) !in unknown
    requires pr.id in preparing ==> next.preparation && next.recoveryAt.None?
    ensures Acceptable(st, pr.id, next, unknown, preparing) == true
  {
    forall n | n in next.nodes && next.nodes[n].plan.Some? ensures PlanKept(st, pr.id, next, n) {
      assert PlanKept(st, pr.id, pr.record, n);
    }
  }

  lemma SameNodesSameNeed(r: Record, next: Record)
    requires next.nodes == r.nodes && next.preparation == r.preparation && next.recoveryAt == r.recoveryAt
    ensures NeedsRecovery(next) == NeedsRecovery(r)
  {
    if NeedsRecovery(r) && !r.preparation {
      var n :| NodeUnsettled(r, n);
      assert NodeUnsettled(next, n);
    }
    if NeedsRecovery(next) && !next.preparation {
      var n :| NodeUnsettled(next, n);
      assert NodeUnsettled(r, n);
    }
  }

  lemma OrderedFlags(r: Record, next: Record)
    requires Ordered(r) && next.nodes == r.nodes && next.saved == r.saved && next.binding == r.binding
    ensures Ordered(next)
  {
    forall n | n in next.nodes && next.nodes[n].phase != Pending && next.saved
      ensures next.binding.Some? && Ready(next, next.binding.value, n) {
      assert Ready(r, r.binding.value, n);
    }
  }

  /** Expiry and cancellation: a record that needs no recovery is closed. */
  lemma CloseTarget(st: Store, pr: Proc, status: Status)
    requires Grounded(st, pr) == true && NeedsRecovery(pr.record) == false && !Open(status)
    ensures
      Acceptable(st, pr.id, pr.record.(status := status, finishedAt := Some(st.now)), st.unknown, st.preparing) == true
    ensures !NeedsRecovery(pr.record.(status := status, finishedAt := Some(st.now)))
  {
    var next := pr.record.(status := status, finishedAt := Some(st.now));
    SameNodesSameNeed(pr.record, next);
    OrderedFlags(pr.record, next);
    FlagsAcceptable(st, pr, next, st.unknown, st.preparing);
  }

  lemma TouchTarget(st: Store, pr: Proc, status: Status)
    requires Grounded(st, pr) == true && pr.record.finishedAt.None?
      && (NeedsRecovery(pr.record) ==> OthersCalm(st, pr.id))
    ensures Acceptable(st, pr.id, pr.record.(status := status), st.unknown, st.preparing) == true
  {
    var next := pr.record.(status := status);
    SameNodesSameNeed(pr.record, next);
    OrderedFlags(pr.record, next);
    FlagsAcceptable(st, pr, next, st.unknown, st.preparing);
  }

  lemma SettleTarget(st: Store, pr: Proc)
    requires Grounded(st, pr) == true && pr.record.finishedAt.None? && OthersCalm(st, pr.id) && !pr.record.preparation
    ensures Acceptable(st, pr.id, SettleRecord(pr.record, st.now), st.unknown, st.preparing) == true
  {
    var next := SettleRecord(pr.record, st.now);
    OrderedFlags(pr.record, next);
    assert next.finishedAt.Some? ==> forall n :: !NodeUnsettled(next, n);
    FlagsAcceptable(st, pr, next, st.unknown, st.preparing);
  }

  lemma FinishTarget(st: Store, pr: Proc, failed: bool)
    requires Grounded(st, pr) == true && pr.record.finishedAt.None?
      && (NeedsRecovery(pr.record) ==> OthersCalm(st, pr.id))
    ensures Acceptable(st, pr.id, FinishRecord(pr.record, failed, st.now), st.unknown, st.preparing) == true
  {
    var next := FinishRecord(pr.record, failed, st.now);
    SameNodesSameNeed(pr.record, next);
    OrderedFlags(pr.record, next);
    FlagsAcceptable(st, pr, next, st.unknown, st.preparing);
  }

  lemma BindTarget(st: Store, pr: Proc)
    requires Grounded(st, pr) == true && pr.record.finishedAt.None? && OthersCalm(st, pr.id)
    requires pr.record.saved && (pr.record.binding.None? || pr.record.binding == Some(pr.deps))
    ensures Acceptable(st, pr.id, pr.record.(binding := Some(pr.deps)), st.unknown, st.preparing) == true
  {
    var next := pr.record.(binding := Some(pr.deps));
    forall n | n in next.nodes && next.nodes[n].phase != Pending ensures Ready(next, pr.deps, n) {
      assert Ready(pr.record, pr.record.binding.value, n);
    }
    FlagsAcceptable(st, pr, next, st.unknown, st.preparing);
  }

  lemma RecoveryTarget(st: Store, pr: Proc, a: Write)
    requires Grounded(st, pr) == true && pr.record.finishedAt.None? && OthersCalm(st, pr.id)
      && pr.record.recoveryAt.None?
    requires a.Mark? || a.Clear? || a.Acknowledge?
    ensures Acceptable(st, pr.id, Target(st, pr, a), UnknownAfter(st, pr, a), PreparingAfter(st, pr, a)) == true
  {
    var next := Target(st, pr, a);
    OrderedFlags(pr.record, next);
    FlagsAcceptable(st, pr, next, UnknownAfter(st, pr, a), PreparingAfter(st, pr, a));
  }

  lemma BackToPendingOrdered(r: Record, next: Record)
    requires Ordered(r) && next.nodes == BackToPending(r.nodes) && next.saved == r.saved && next.binding == r.binding
    ensures Ordered(next)
  {
    forall n | n in next.nodes && next.nodes[n].phase != Pending && next.saved
      ensures next.binding.Some? && Ready(next, next.binding.value, n) {
      assert Ready(r, r.binding.value, n);
    }
  }

  lemma FinishSavedFields(r: Record, failed: bool, now: nat)
    ensures var next := FinishSavedRecord(r, failed, now);
      && next.nodes == BackToPending(r.nodes) && next.saved == r.saved && next.binding == r.binding
      && next.recoveryAt == r.recoveryAt && next.preparation == r.preparation && FinishedSettled(next)
  {
    var base := r.(nodes := BackToPending(r.nodes), finishedAt := None, status := ReadyForNextPlan);
    SameNodesSameNeed(base, FinishSavedRecord(r, failed, now));
  }

  lemma FinishSavedTarget(st: Store, pr: Proc, failed: bool)
    requires Grounded(st, pr) == true && pr.record.finishedAt.None? && OthersCalm(st, pr.id)
    ensures Acceptable(st, pr.id, FinishSavedRecord(pr.record, failed, st.now), st.unknown, st.preparing) == true
  {
    FinishSavedFields(pr.record, failed, st.now);
    BackToPendingAcceptable(st, pr, FinishSavedRecord(pr.record, failed, st.now));
  }

  lemma BackToPendingAcceptable(st: Store, pr: Proc, next: Record)
    requires Grounded(st, pr) == true && pr.record.finishedAt.None? && OthersCalm(st, pr.id)
    requires next.nodes == BackToPending(pr.record.nodes) && next.saved == pr.record.saved
      && next.binding == pr.record.binding
    requires next.recoveryAt == pr.record.recoveryAt && next.preparation == pr.record.preparation
      && FinishedSettled(next) == true
    ensures Acceptable(st, pr.id, next, st.unknown, st.preparing) == true
  {
    BackToPendingOrdered(pr.record, next);
    forall n | n in next.nodes && next.nodes[n].plan.Some? ensures PlanKept(st, pr.id, next, n) {
      assert PlanKept(st, pr.id, pr.record, n);
    }
    assert Shape(next);
  }

  // ---- Phase changes.

  /** Phases a node may pass between when a session records a transition. */
  predicate Legal(from: Phase, to: Phase) {
    && from != Completed && to != Pending
    && (PastApply(from) ==> PastApply(to))
    && (to == Applying ==> !PastApply(from))
  }

  /** The session may record this phase next. */
  ghost predicate MayMove(pr: Proc, n: Name, phase: Phase) {
    pr.stage.Going? && WorkersFit(pr) && FrontierFits(pr) && n in pr.record.nodes && Permits(pr, n, phase)
  }

  lemma TransitionLegal(pr: Proc, n: Name, phase: Phase)
    requires MayMove(pr, n, phase)
    ensures Legal(pr.record.nodes[n].phase, phase)
  {
    if n !in pr.workers {
      assert n in pr.frontier ==> FrontierNode(pr, n);
    }
  }

  lemma PendingReady(pr: Proc, n: Name, phase: Phase)
    requires MayMove(pr, n, phase) && pr.record.nodes[n].phase == Pending && !pr.job.Run?
    ensures pr.record.binding == Some(pr.deps) && Ready(pr.record, pr.deps, n)
  {
    assert n in pr.frontier ==> FrontierNode(pr, n);
  }

  lemma TransitionOrdered(pr: Proc, n: Name, phase: Phase)
    requires MayMove(pr, n, phase) == true
    requires Engaged(pr.job) ==> pr.record.saved == !pr.job.Run?
    requires Ordered(pr.record) == true && n in pr.record.nodes
    ensures Ordered(SetPhase(pr.record, n, phase, PlanOf(pr, n))) == true
  {
    var r, next := pr.record, SetPhase(pr.record, n, phase, PlanOf(pr, n));
    TransitionLegal(pr, n, phase);
    if r.saved {
      if r.nodes[n].phase == Pending {
        PendingReady(pr, n, phase);
      }
      forall m | m in next.nodes && next.nodes[m].phase != Pending
        ensures next.binding.Some? && Ready(next, next.binding.value, m) {
        assert Ready(r, r.binding.value, m);
      }
    }
  }

  lemma TransitionPlans(st: Store, pr: Proc, n: Name, phase: Phase)
    requires MayMove(pr, n, phase) == true && n in pr.record.nodes
    requires RetainedStored(st, pr) == true && PlansKept(st, pr.id, pr.record) == true
      && PlannedHavePlans(pr.record) == true
    ensures PlansKept(st, pr.id, SetPhase(pr.record, n, phase, PlanOf(pr, n))) == true
    ensures PlannedHavePlans(SetPhase(pr.record, n, phase, PlanOf(pr, n))) == true
  {
    var r, next := pr.record, SetPhase(pr.record, n, phase, PlanOf(pr, n));
    forall m | m in next.nodes && next.nodes[m].plan.Some? ensures PlanKept(st, pr.id, next, m) {
      assert r.nodes[m].plan.Some? ==> PlanKept(st, pr.id, r, m);
    }
    if phase == Planned && pr.job.ApplySaved? {
      assert FrontierNode(pr, n);
    }
  }

  lemma TransitionUnknown(st: Store, pr: Proc, n: Name, phase: Phase)
    requires MayMove(pr, n, phase) == true && Engaged(pr.job) && (pr.id, n) in st.unknown
      && UnknownOwned(st, pr) == true
    ensures n in pr.workers && (Definite(pr.workers[n]) || Unknown(phase))
  {
  }

  lemma MovedAcceptable(st: Store, pr: Proc, n: Name, node: Node, unknown: set<(Id, Name)>)
    requires Grounded(st, pr) == true && pr.record.finishedAt.None? && n in pr.record.nodes
    requires Legal(pr.record.nodes[n].phase, node.phase)
    requires var next := pr.record.(nodes := pr.record.nodes[n := node]);
      && Ordered(next) == true && PlansKept(st, pr.id, next) == true && PlannedHavePlans(next) == true
      && (NeedsRecovery(next) ==> OthersCalm(st, pr.id) == true)
    requires unknown <= st.unknown && ((pr.id, n) in unknown ==> Unknown(node.phase))
    ensures Acceptable(st, pr.id, pr.record.(nodes := pr.record.nodes[n := node]), unknown, st.preparing) == true
  {
    var next := pr.record.(nodes := pr.record.nodes[n := node]);
    assert FinishedSettled(next);
    assert Shape(next);
  }

  lemma TransitionTarget(st: Store, pr: Proc, a: Write)
    requires Grounded(st, pr) == true && pr.record.finishedAt.None?
    requires a.Transition? && MayMove(pr, a.n, a.phase) == true && a.n in pr.record.nodes
    requires Engaged(pr.job) ==> pr.record.saved == !pr.job.Run?
    requires Engaged(pr.job) || pr.record.nodes[a.n].phase == Applied
    requires UnknownOwned(st, pr) == true && RetainedStored(st, pr) == true
    requires NeedsRecovery(Target(st, pr, a)) ==> OthersCalm(st, pr.id) == true
    ensures Acceptable(st, pr.id, Target(st, pr, a), UnknownAfter(st, pr, a), st.preparing) == true
  {
    TransitionLegal(pr, a.n, a.phase);
    GroundedShape(st, pr);
    TransitionOrdered(pr, a.n, a.phase);
    TransitionPlans(st, pr, a.n, a.phase);
    if (pr.id, a.n) in st.unknown {
      GroundedUnknown(st, pr, a.n);
      TransitionUnknown(st, pr, a.n, a.phase);
    }
    MovedAcceptable(st, pr, a.n, Target(st, pr, a).nodes[a.n], UnknownAfter(st, pr, a));
  }

  lemma GroundedShape(st: Store, pr: Proc)
    requires Grounded(st, pr)
    ensures Ordered(pr.record) == true && PlannedHavePlans(pr.record) == true && PlansKept(st, pr.id, pr.record) == true
  {
  }

  lemma GroundedUnknown(st: Store, pr: Proc, n: Name)
    requires Grounded(st, pr) && (pr.id, n) in st.unknown && n in pr.record.nodes
    ensures Unknown(pr.record.nodes[n].phase)
  {
  }

  lemma ReadOnlyTarget(pr: Proc, n: Name, phase: Phase)
    requires MayMove(pr, n, phase) && pr.job == Run(true) && ReadOnlyCalm(pr) && !pr.record.preparation
    ensures !NeedsRecovery(SetPhase(pr.record, n, phase, PlanOf(pr, n)))
    ensures Calm(phase)
  {
  }

  lemma RecoverMoves(pr: Proc, n: Name, phase: Phase)
    requires MayMove(pr, n, phase) && pr.job.Recover?
    ensures pr.record.nodes[n].phase == Applied && phase == Completed
  {
  }

  lemma ReadOnlySettled(pr: Proc)
    requires ReadOnlyCalm(pr) && pr.job == Run(true) && !pr.record.preparation
    ensures !NeedsRecovery(pr.record)
  {
  }

  lemma TargetAcceptable(st: Store, pr: Proc, a: Write)
    requires StoreInv(st) == true && ProcOk(st, pr) == true && CanWrite(st, pr, a) == true && Current(st, pr)
    ensures Acceptable(st, pr.id, Target(st, pr, a), UnknownAfter(st, pr, a), PreparingAfter(st, pr, a)) == true
  {
    PublisherFacts(st, pr, a);
    CurrentGrounded(st, pr);
    if a.Expire? {
      CloseTarget(st, pr, Expired);
    } else {
      WorkingAcceptable(st, pr, a);
    }
  }

  lemma PublisherFacts(st: Store, pr: Proc, a: Write)
    requires ProcOk(st, pr) == true && CanWrite(st, pr, a) == true
    ensures Linked(st, pr) == true && BarrierHolds(st, pr) == true
    ensures a.Expire? ==> pr.pc.Sweeping? && NeedsRecovery(pr.record) == false && Current(st, pr)
    ensures !a.Expire? ==> pr.pc.Working? && WorkingOk(st, pr) == true
  {
  }

  lemma WorkingAcceptable(st: Store, pr: Proc, a: Write)
    requires Grounded(st, pr) == true && BarrierHolds(st, pr) == true && WorkingOk(st, pr) == true
      && CanWrite(st, pr, a) == true
    requires !a.Expire?
    ensures Acceptable(st, pr.id, Target(st, pr, a), UnknownAfter(st, pr, a), PreparingAfter(st, pr, a)) == true
  {
    if pr.job == Run(true) {
      ReadOnlySettled(pr);
    } else if !pr.job.Cancel? {
      BarrierCalms(st, pr);
    }
    if a.Transition? {
      MoveAcceptable(st, pr, a);
    } else if pr.job.Recover? {
      RecoveryTarget(st, pr, a);
    } else {
      FlagAcceptable(st, pr, a);
    }
  }

  lemma MoveAcceptable(st: Store, pr: Proc, a: Write)
    requires Grounded(st, pr) == true && WorkingOk(st, pr) && a.Transition? && MayMove(pr, a.n, a.phase) == true
    requires pr.job == Run(true) || OthersCalm(st, pr.id) == true
    ensures Acceptable(st, pr.id, Target(st, pr, a), UnknownAfter(st, pr, a), PreparingAfter(st, pr, a)) == true
  {
    if pr.job.Recover? { RecoverMoves(pr, a.n, a.phase); }
    if pr.job == Run(true) { ReadOnlyTarget(pr, a.n, a.phase); }
    TransitionTarget(st, pr, a);
  }

  lemma FlagAcceptable(st: Store, pr: Proc, a: Write)
    requires Grounded(st, pr) == true && SessionFits(st, pr) == true && FrontierFits(pr) == true
      && CanWrite(st, pr, a) == true
    requires !a.Expire? && !a.Transition? && !pr.job.Recover?
    requires NeedsRecovery(pr.record) || (!pr.job.Run? && !pr.job.Cancel?) ==> OthersCalm(st, pr.id) == true
    requires pr.pc.Working?
    ensures Acceptable(st, pr.id, Target(st, pr, a), UnknownAfter(st, pr, a), PreparingAfter(st, pr, a)) == true
  {
    match a
    case CancelRun => CloseTarget(st, pr, Cancelled);
    case Bind => BindTarget(st, pr);
    case Touch(status) => TouchTarget(st, pr, status);
    case Settle => SettleTarget(st, pr);
    case Finish(failed) =>
      if pr.job.Run? { FinishTarget(st, pr, failed); } else { FinishSavedTarget(st, pr, failed); }
  }

  // ---- The session after a write.

  /** A worker that gives up leaves everything else as it was. */
  lemma StopKeeps(st: Store, pr: Proc, n: Name)
    requires WorkingOk(st, pr) == true && n in pr.record.nodes && (pr.job.ApplySaved? ==> n in pr.frontier)
    requires pr.stage.Going? || pr.stage.Over?
    requires !pr.job.Cancel?
    ensures WorkingOk(st, pr.(workers := pr.workers[n := Stopped])) == true
  {
    var pr' := pr.(workers := pr.workers[n := Stopped]);
    assert SessionFits(st, pr') && ReadOnlyCalm(pr');
    assert WorkersFit(pr');
    assert FrontierFits(pr') by {
      forall m | m in pr'.frontier ensures m in pr'.record.nodes && FrontierNode(pr', m) {
        assert FrontierNode(pr, m);
      }
    }
    assert HotStored(st, pr') && RecHotStored(st, pr') && UnknownOwned(st, pr') && RetainedStored(st, pr');
  }

  lemma OverKeeps(st: Store, pr: Proc)
    requires WorkingOk(st, pr) == true && pr.record.finishedAt.None? && (Saves(pr.job) || pr.job.ApplySaved?)
    ensures WorkingOk(st, pr.(stage := Over)) == true
  {
    var pr' := pr.(stage := Over);
    forall m | m in pr'.frontier ensures m in pr'.record.nodes && FrontierNode(pr', m) {
      assert FrontierNode(pr, m);
    }
  }

  /** What workers still in flight rely on. */
  ghost predicate InFlightKept(pr: Proc, next: Record) {
    && (forall n :: n in pr.workers && Hot(pr.workers[n]) ==>
      n in next.nodes && Unknown(next.nodes[n].phase) && next.recoveryAt.None?)
    && (forall n :: n in pr.workers && RecHot(pr.workers[n]) ==> next.preparation && next.recoveryAt.None?)
  }

  /** A write that reported an error although it was stored leaves the session behind for good. */
  lemma RewriteKeeps(st: Store, pr: Proc, next: Record, unknown: set<(Id, Name)>, preparing: set<Id>)
    requires WorkingOk(st, pr) == true && Current(st, pr) && pr.rev < st.nextRev
    requires unknown <= st.unknown && InFlightKept(pr, next) == true && !pr.stage.Unchecked?
    ensures WorkingOk(Put(st, pr.id, next).(unknown := unknown, preparing := preparing), pr) == true
  {
    var st' := Put(st, pr.id, next).(unknown := unknown, preparing := preparing);
    assert SessionFits(st', pr);
    assert HotStored(st', pr);
    assert RecHotStored(st', pr);
    assert UnknownOwned(st', pr);
    assert RetainedStored(st', pr);
  }

  /** A successful write that leaves the nodes alone. */
  lemma FlagsTold(st: Store, pr: Proc, next: Record, preparing: set<Id>)
    requires WorkingOk(st, pr) == true && Current(st, pr)
    requires next.nodes == pr.record.nodes && next.saved == pr.record.saved && next.recoveryAt == pr.record.recoveryAt
    requires next.finishedAt == pr.record.finishedAt && !pr.stage.Unchecked? && !pr.job.Cancel?
    requires next.preparation == pr.record.preparation
      || (pr.job.Recover? && forall n :: n in pr.workers ==> !RecHot(pr.workers[n]))
    requires next.binding == pr.record.binding || (Saves(pr.job) && pr.stage.Admitted? && next.binding == Some(pr.deps))
    ensures WorkingOk(Wrote(st, pr.id, next, st.unknown, preparing), Told(st, pr, next)) == true
  {
    var st', pr' := Wrote(st, pr.id, next, st.unknown, preparing), Told(st, pr, next);
    assert SessionFits(st', pr') && ReadOnlyCalm(pr') && WorkersFit(pr');
    forall m | m in pr'.frontier ensures m in pr'.record.nodes && FrontierNode(pr', m) {
      assert FrontierNode(pr, m);
      assert Ready(pr.record, pr.deps, m) ==> Ready(next, pr.deps, m);
    }
    assert FrontierFits(pr');
    assert HotStored(st', pr') by {
      HotNodes(st, pr);
    }
    assert RecHotStored(st', pr') && UnknownOwned(st', pr') && RetainedStored(st', pr');
  }

  lemma HotNodes(st: Store, pr: Proc)
    requires WorkersFit(pr) && SessionFits(st, pr)
    ensures forall n :: n in pr.workers && Hot(pr.workers[n]) ==>
      n in pr.record.nodes && Unknown(pr.record.nodes[n].phase) && pr.record.recoveryAt.None?
  {
  }

  /** A recovery session's marker write: the worker of `n` is the only one between marking and clearing. */
  lemma MarkerTold(st: Store, pr: Proc, n: Name, w: Worker, next: Record, preparing: set<Id>)
    requires WorkingOk(st, pr) == true && Current(st, pr) && pr.job.Recover? && pr.stage.Going?
    requires n in pr.record.nodes && pr.record.nodes[n].phase == Applied
    requires forall m :: m in pr.workers && m != n ==> !RecHot(pr.workers[m])
    requires next == pr.record.(preparation := w.RecMarked?) && (w.RecMarked? || w.RecReady?)
    ensures WorkingOk(Wrote(st, pr.id, next, st.unknown, preparing),
      Told(st, pr, next).(workers := pr.workers[n := w])) == true
  {
    var st', pr' := Wrote(st, pr.id, next, st.unknown, preparing), Told(st, pr, next).(workers := pr.workers[n := w]);
    assert SessionFits(st', pr') && ReadOnlyCalm(pr') && WorkersFit(pr');
    forall m | m in pr'.frontier ensures m in pr'.record.nodes && FrontierNode(pr', m) {
    }
    assert FrontierFits(pr');
    assert HotStored(st', pr') && RecHotStored(st', pr') && UnknownOwned(st', pr') && RetainedStored(st', pr');
  }

  // ---- A successful transition.

  lemma NextFits(pr: Proc, n: Name, phase: Phase)
    requires MayMove(pr, n, phase) == true && (Engaged(pr.job) || pr.job.Recover?)
    ensures Fits(pr.job, After(pr.job, phase), phase)
  {
    if n in pr.workers {
      assert Fits(pr.job, pr.workers[n], pr.record.nodes[n].phase);
    }
  }

  lemma ToldFits(pr: Proc, n: Name, phase: Phase, next: Record)
    requires MayMove(pr, n, phase) == true && n in pr.record.nodes
      && next == SetPhase(pr.record, n, phase, PlanOf(pr, n))
    requires Engaged(pr.job) || pr.job.Recover?
    ensures WorkersFit(pr.(record := next, workers := pr.workers[n := After(pr.job, phase)])) == true
  {
    NextFits(pr, n, phase);
    OtherFits(pr, n, Node(phase, next.nodes[n].plan), After(pr.job, phase), next);
  }

  lemma OtherFits(pr: Proc, n: Name, node: Node, w: Worker, next: Record)
    requires WorkersFit(pr) && n in pr.record.nodes && next.nodes == pr.record.nodes[n := node]
      && Fits(pr.job, w, node.phase) == true
    ensures WorkersFit(pr.(record := next, workers := pr.workers[n := w])) == true
  {
  }

  lemma ToldFrontier(pr: Proc, n: Name, phase: Phase, next: Record)
    requires MayMove(pr, n, phase) == true && n in pr.record.nodes
      && next == SetPhase(pr.record, n, phase, PlanOf(pr, n))
    ensures FrontierFits(pr.(record := next, workers := pr.workers[n := After(pr.job, phase)])) == true
  {
    var pr' := pr.(record := next, workers := pr.workers[n := After(pr.job, phase)]);
    TransitionLegal(pr, n, phase);
    forall m | m in pr'.frontier ensures m in pr'.record.nodes && FrontierNode(pr', m) {
      assert FrontierNode(pr, m);
      assert Ready(pr.record, pr.deps, m) ==> Ready(next, pr.deps, m);
    }
  }

  lemma ToldSession(st: Store, pr: Proc, n: Name, phase: Phase, w: Worker, next: Record, unknown: set<(Id, Name)>)
    requires SessionFits(st, pr) && ReadOnlyCalm(pr) && n in pr.record.nodes && pr.stage.Going? && !pr.job.Cancel?
    requires next == SetPhase(pr.record, n, phase, PlanOf(pr, n)) && (pr.job == Run(true) ==> Calm(phase))
    ensures SessionFits(Wrote(st, pr.id, next, unknown, st.preparing),
      Told(st, pr.(workers := pr.workers[n := w]), next)) == true
    ensures ReadOnlyCalm(Told(st, pr.(workers := pr.workers[n := w]), next)) == true
  {
  }

  lemma ToldHot(st: Store, pr: Proc)
    requires SessionFits(st, pr) && WorkersFit(pr) && Current(st, pr)
    ensures HotStored(st, pr) == true
  {
    HotNodes(st, pr);
  }

  lemma MoverKind(pr: Proc, n: Name, phase: Phase)
    requires MayMove(pr, n, phase)
    ensures Engaged(pr.job) || pr.job.Recover?
    ensures pr.job == Run(true) ==> Calm(phase)
  {
  }

  lemma TransitionTold(st: Store, pr: Proc, a: Write)
    requires a.Transition? && MayMove(pr, a.n, a.phase) == true && WorkingOk(st, pr) && Current(st, pr)
      && a.n in pr.record.nodes && pr.stage.Going?
    ensures WorkingOk(Wrote(st, pr.id, Target(st, pr, a), UnknownAfter(st, pr, a), st.preparing),
      Told(st, Moved(pr, a, true), Target(st, pr, a))) == true
  {
    var n, phase, next, w := a.n, a.phase, Target(st, pr, a), After(pr.job, a.phase);
    var st' := Wrote(st, pr.id, next, UnknownAfter(st, pr, a), st.preparing);
    MoverKind(pr, n, phase);
    ToldFits(pr, n, phase, next);
    ToldFrontier(pr, n, phase, next);
    ToldSession(st, pr, n, phase, w, next, st'.unknown);
    AfterKinds(pr.job, phase);
    if Engaged(pr.job) && (pr.id, n) in st.unknown {
      TransitionUnknown(st, pr, n, phase);
    }
    ToldOwned(st, pr, n, w, next, st'.unknown);
    ToldWhole(st', Told(st, pr.(workers := pr.workers[n := w]), next),
      pr.(record := next, workers := pr.workers[n := w]));
  }

  lemma ToldWhole(st: Store, pr: Proc, same: Proc)
    requires SessionFits(st, pr) == true && ReadOnlyCalm(pr) == true && Current(st, pr)
    requires pr == same.(rev := pr.rev) && WorkersFit(same) == true && FrontierFits(same) == true
    requires RecHotStored(st, pr) == true && UnknownOwned(st, pr) == true && RetainedStored(st, pr) == true
    ensures WorkingOk(st, pr) == true
  {
    assert WorkersFit(pr);
    forall n | n in pr.frontier ensures n in pr.record.nodes && FrontierNode(pr, n) {
      assert FrontierNode(same, n);
    }
    assert FrontierFits(pr);
    ToldHot(st, pr);
  }

  lemma AfterKinds(job: Job, phase: Phase)
    ensures !RecHot(After(job, phase)) && !After(job, phase).Retained?
    ensures Unknown(phase) ==> Hot(After(job, phase)) || After(job, phase).Stopped?
  {
  }

  lemma ToldOwned(st: Store, pr: Proc, n: Name, w: Worker, next: Record, unknown: set<(Id, Name)>)
    requires Linked(st, pr) == true && Current(st, pr) && RecHotStored(st, pr) == true && UnknownOwned(st, pr) == true
      && RetainedStored(st, pr) == true
    requires !RecHot(w) && !w.Retained? && next.preparation == pr.record.preparation
      && next.recoveryAt == pr.record.recoveryAt
    requires unknown <= st.unknown && (Engaged(pr.job) && (pr.id, n) in unknown ==> Hot(w) || w.Stopped?)
    ensures var st', pr' := Wrote(st, pr.id, next, unknown, st.preparing),
      Told(st, pr.(workers := pr.workers[n := w]), next);
            RecHotStored(st', pr') == true && UnknownOwned(st', pr') == true && RetainedStored(st', pr') == true
  {
  }

  // ---- Every publishing step.

  /** The session after a failed write, whether or not the store changed. */
  lemma FailedKeeps(st: Store, pr: Proc, a: Write)
    requires WorkingOk(st, pr) == true && CanWrite(st, pr, a) == true && pr.pc.Working?
    requires Moved(pr, a, false).pc.Working?
    ensures WorkingOk(st, Moved(pr, a, false)) == true
  {
    match a
    case Bind => OverKeeps(st, pr);
    case Settle => OverKeeps(st, pr);
    case Transition(n, _) => StopKeeps(st, pr, n);
    case Mark(n) => StopKeeps(st, pr, n);
    case Clear(n) => StopKeeps(st, pr, n);
    case _ =>
  }

  lemma InFlight(st: Store, pr: Proc)
    requires WorkingOk(st, pr) == true
    ensures InFlightKept(pr, pr.record) == true
    ensures forall m, n :: m in pr.workers && n in pr.workers && RecHot(pr.workers[m]) && RecHot(pr.workers[n]) ==>
      m == n
  {
    HotNodes(st, pr);
  }

  /** What workers still in flight rely on is in the record a failed write left behind. */
  lemma FailedRecord(st: Store, pr: Proc, a: Write)
    requires InFlightKept(pr, pr.record) == true && Moved(pr, a, false).pc.Working? && pr.pc.Working?
    requires a.Clear? ==> forall n :: n in pr.workers && RecHot(pr.workers[n]) ==> n == a.n
    ensures InFlightKept(Moved(pr, a, false), Target(st, pr, a)) == true
  {
    if a.Transition? {
      MovedInFlight(pr, a.n, Target(st, pr, a));
    } else {
      FlagsInFlight(pr, Moved(pr, a, false), Target(st, pr, a));
    }
  }

  lemma MovedInFlight(pr: Proc, n: Name, next: Record)
    requires InFlightKept(pr, pr.record) && next.preparation == pr.record.preparation
      && next.recoveryAt == pr.record.recoveryAt
    requires next.nodes.Keys == pr.record.nodes.Keys && forall m :: m in next.nodes && m != n ==>
      next.nodes[m] == pr.record.nodes[m]
    ensures InFlightKept(pr.(workers := pr.workers[n := Stopped]), next) == true
  {
  }

  lemma FlagsInFlight(pr: Proc, pr': Proc, next: Record)
    requires InFlightKept(pr, pr.record) && next.nodes == pr.record.nodes && next.recoveryAt == pr.record.recoveryAt
    requires forall n :: n in pr'.workers && !pr'.workers[n].Stopped? ==>
      n in pr.workers && pr'.workers[n] == pr.workers[n]
    requires next.preparation || next.preparation == pr.record.preparation || forall n :: n in pr'.workers ==>
      !RecHot(pr'.workers[n])
    ensures InFlightKept(pr', next) == true
  {
  }

  lemma ToldKeeps(st: Store, pr: Proc, a: Write)
    requires WorkingOk(st, pr) == true && CanWrite(st, pr, a) == true && pr.pc.Working? && Current(st, pr)
    requires Moved(pr, a, true).pc.Working?
    ensures WorkingOk(Wrote(st, pr.id, Target(st, pr, a), UnknownAfter(st, pr, a), PreparingAfter(st, pr, a)),
                      Told(st, Moved(pr, a, true), Target(st, pr, a))) == true
  {
    match a
    case Bind => FlagTold(st, pr, a);
    case Touch(_) => FlagTold(st, pr, a);
    case Transition(n, phase) => TransitionTold(st, pr, a);
    case _ => RecoveryTold(st, pr, a);
  }

  lemma FlagTold(st: Store, pr: Proc, a: Write)
    requires WorkingOk(st, pr) == true && CanWrite(st, pr, a) == true && pr.pc.Working? && Current(st, pr)
    requires a.Bind? || a.Touch?
    ensures WorkingOk(Wrote(st, pr.id, Target(st, pr, a), UnknownAfter(st, pr, a), PreparingAfter(st, pr, a)),
                      Told(st, Moved(pr, a, true), Target(st, pr, a))) == true
  {
    FlagsTold(st, pr, Target(st, pr, a), st.preparing);
    if a.Bind? {
      BoundKeeps(Wrote(st, pr.id, Target(st, pr, a), st.unknown, st.preparing), Told(st, pr, Target(st, pr, a)));
    }
  }

  lemma RecoveryTold(st: Store, pr: Proc, a: Write)
    requires WorkingOk(st, pr) == true && CanWrite(st, pr, a) == true && pr.pc.Working? && Current(st, pr)
    requires a.Mark? || a.Clear?
    ensures WorkingOk(Wrote(st, pr.id, Target(st, pr, a), UnknownAfter(st, pr, a), PreparingAfter(st, pr, a)),
                      Told(st, Moved(pr, a, true), Target(st, pr, a))) == true
  {
    if a.Mark? {
      MarkerTold(st, pr, a.n, RecMarked, Target(st, pr, a), st.preparing);
    } else {
      MarkerTold(st, pr, a.n, RecReady, Target(st, pr, a), st.preparing - {pr.id});
    }
  }

  lemma BoundKeeps(st: Store, pr: Proc)
    requires WorkingOk(st, pr) == true && pr.stage.Admitted? && pr.record.binding == Some(pr.deps)
    ensures WorkingOk(st, pr.(stage := Bound)) == true
  {
  }

  lemma RecoveryWorker(st: Store, pr: Proc, a: Write)
    requires CanWrite(st, pr, a) == true && SessionFits(st, pr) == true && pr.pc.Working?
    ensures a.Clear? ==> a.n in pr.workers && RecHot(pr.workers[a.n])
    ensures !Moved(pr, a, false).stage.Unchecked?
  {
  }

  lemma FailedWriteKeeps(st: Store, pr: Proc, a: Write)
    requires WorkingOk(st, pr) == true && CanWrite(st, pr, a) == true && pr.pc.Working? && Current(st, pr)
    requires Moved(pr, a, false).pc.Working?
    ensures WorkingOk(Wrote(st, pr.id, Target(st, pr, a), UnknownAfter(st, pr, a), PreparingAfter(st, pr, a)),
      Moved(pr, a, false)) == true
  {
    FailedKeeps(st, pr, a);
    InFlight(st, pr);
    RecoveryWorker(st, pr, a);
    FailedRecord(st, pr, a);
    MovedPc(pr, a, false);
    RevBelow(st, pr);
    RewriteKeeps(st, Moved(pr, a, false), Target(st, pr, a), UnknownAfter(st, pr, a), PreparingAfter(st, pr, a));
  }

  lemma RevBelow(st: Store, pr: Proc)
    requires WorkingOk(st, pr)
    ensures pr.rev < st.nextRev && SessionFits(st, pr) == true
  {
  }

  lemma PublishKeepsWorking(st: Store, pr: Proc, a: Write, o: Outcome)
    requires WorkingOk(st, pr) == true && CanWrite(st, pr, a) == true && pr.pc.Working?
    requires Publisher(st, pr, a, o).pc.Working?
    ensures WorkingOk(Published(st, pr, a, o), Publisher(st, pr, a, o)) == true
  {
    if Succeeds(st, pr, o) {
      ToldKeeps(st, pr, a);
    } else if Effective(st, pr, o) {
      FailedWriteKeeps(st, pr, a);
    } else {
      FailedKeeps(st, pr, a);
    }
  }

  lemma BarrierAcross(st: Store, pr: Proc, st': Store, pr': Proc)
    requires BarrierHolds(st, pr)
    requires forall i :: Checked(pr', i) ==> Checked(pr, i)
    requires forall i :: i != pr.id && Needy(st', i) ==> Needy(st, i)
    requires Checked(pr', pr.id) ==> !Needy(st', pr.id)
    ensures BarrierHolds(st', pr') == true
  {
  }

  lemma WroteOthers(st: Store, id: Id, next: Record, unknown: set<(Id, Name)>, preparing: set<Id>)
    ensures forall i :: i != id && Needy(Wrote(st, id, next, unknown, preparing), i) ==> Needy(st, i)
  {
  }

  lemma ExpireKeeps(st: Store, pr: Proc, a: Write)
    requires a.Expire? && pr.pc.Sweeping? && BarrierHolds(st, pr) && Placed(st, pr)
    ensures var st', pr' := Wrote(st, pr.id, Target(st, pr, a), st.unknown, st.preparing),
      Told(st, pr, Target(st, pr, a));
            ProcOk(st', pr') == true && BarrierHolds(st', pr.(pc := Leaving)) == true
  {
    SameNodesSameNeed(pr.record, Target(st, pr, a));
    WroteOthers(st, pr.id, Target(st, pr, a), st.unknown, st.preparing);
    BarrierAcross(st, pr, Wrote(st, pr.id, Target(st, pr, a), st.unknown, st.preparing),
      Told(st, pr, Target(st, pr, a)));
  }

  lemma MovedPc(pr: Proc, a: Write, ok: bool)
    requires pr.pc.Working?
    ensures Moved(pr, a, ok).pc.Working? || Moved(pr, a, ok).pc.Leaving? || (ok && Moved(pr, a, ok).pc.Cleaning?)
    ensures Moved(pr, a, ok).id == pr.id && Moved(pr, a, ok).job == pr.job && Moved(pr, a, ok).rev == pr.rev
  {
  }

  lemma WorkingPublishKeeps(st: Store, pr: Proc, a: Write, o: Outcome)
    requires ProcOk(st, pr) == true && CanWrite(st, pr, a) == true && pr.pc.Working?
    ensures ProcOk(Published(st, pr, a, o), Publisher(st, pr, a, o)) == true
  {
    var st', pr' := Published(st, pr, a, o), Publisher(st, pr, a, o);
    MovedPc(pr, a, Succeeds(st, pr, o));
    WroteOthers(st, pr.id, Target(st, pr, a), UnknownAfter(st, pr, a), PreparingAfter(st, pr, a));
    BarrierAcross(st, pr, st', pr');
    if pr'.pc.Working? {
      PublishKeepsWorking(st, pr, a, o);
    }
  }

  lemma Below(st: Store, id: Id)
    requires StoreInv(st) && id in st.records
    ensures id < st.nextId
  {
  }

  lemma PublishKeepsStore(st: Store, pr: Proc, a: Write, o: Outcome)
    requires StoreInv(st) == true && ProcOk(st, pr) == true && CanWrite(st, pr, a) == true
    ensures StoreInv(Published(st, pr, a, o)) == true
  {
    if Effective(st, pr, o) {
      TargetAcceptable(st, pr, a);
      Below(st, pr.id);
      PutKeeps(st, pr.id, Target(st, pr, a), UnknownAfter(st, pr, a), PreparingAfter(st, pr, a), st.nextId);
    }
  }

  lemma PublishKeepsProc(st: Store, pr: Proc, a: Write, o: Outcome)
    requires ProcOk(st, pr) == true && CanWrite(st, pr, a) == true
    ensures ProcOk(Published(st, pr, a, o), Publisher(st, pr, a, o)) == true
  {
    PublisherFacts(st, pr, a);
    if a.Expire? {
      ExpireKeeps(st, pr, a);
    } else {
      WorkingPublishKeeps(st, pr, a, o);
    }
  }
}
