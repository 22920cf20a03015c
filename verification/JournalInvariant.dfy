/** What holds of the store and of the process that holds the lock, between any two steps of module Journal. */
module JournalInvariant {
  import opened Options
  import opened Outcomes
  import opened Journal

  // ---- The store.

  /** A mutation that may have started and has no recorded outcome is visible in the stored record. */
  ghost predicate WriteAhead(st: Store) {
    forall i, n :: (i, n) in st.unknown ==> UnknownStored(st, i, n)
  }

  ghost predicate UnknownStored(st: Store, i: Id, n: Name) {
    i in st.records && n in st.records[i].record.nodes && Unknown(st.records[i].record.nodes[n].phase)
      && st.records[i].record.recoveryAt.None?
  }

  ghost predicate PreparingStored(st: Store) {
    forall i :: i in st.preparing ==>
      i in st.records && st.records[i].record.preparation && st.records[i].record.recoveryAt.None?
  }

  ghost predicate Needy(st: Store, i: Id) {
    i in st.records && NeedsRecovery(st.records[i].record)
  }

  ghost predicate AtMostOneNeedy(st: Store) {
    forall i, j :: Needy(st, i) && Needy(st, j) ==> i == j
  }

  /** The saved frontier order, over the graph the record is bound to. */
  ghost predicate Ordered(r: Record) {
    r.saved ==>
      forall n :: n in r.nodes && r.nodes[n].phase != Pending ==> r.binding.Some? && Ready(r, r.binding.value, n)
  }

  predicate PlannedHavePlans(r: Record) {
    forall n :: n in r.nodes && r.nodes[n].phase == Planned ==> r.nodes[n].plan.Some?
  }

  ghost predicate FinishedSettled(r: Record) {
    r.finishedAt.Some? ==> !NeedsRecovery(r) && !Open(r.status)
  }

  ghost predicate Shape(r: Record) {
    Ordered(r) && PlannedHavePlans(r) && FinishedSettled(r)
  }

  ghost predicate Shapes(st: Store) {
    forall i :: i in st.records ==> Shape(st.records[i].record)
  }

  /** Plans belong to the node they were issued for, and unfinished records keep theirs. */
  ghost predicate PlanKept(st: Store, i: Id, r: Record, n: Name)
    requires n in r.nodes && r.nodes[n].plan.Some?
  {
    var p := r.nodes[n].plan.value;
    p in st.issued && st.issued[p] == (i, n) && (r.finishedAt.None? ==> p in st.bundles)
  }

  ghost predicate PlansKept(st: Store, i: Id, r: Record) {
    forall n :: n in r.nodes && r.nodes[n].plan.Some? ==> PlanKept(st, i, r, n)
  }

  ghost predicate AllPlansKept(st: Store) {
    forall i :: i in st.records ==> PlansKept(st, i, st.records[i].record)
  }

  ghost predicate BundlesOwned(st: Store) {
    && (forall p :: p in st.bundles ==> p in st.issued && st.issued[p] == (st.bundles[p].id, st.bundles[p].node))
    && (forall p :: p in st.issued ==> p < st.nextPlan)
  }

  predicate PastApply(p: Phase) {
    p == Applying || p == Applied || p == Completed || p == Failed || p == Indeterminate
  }

  ghost predicate AppliedIn(st: Store, i: Id, r: Record) {
    && (forall n :: (i, n) in st.applied ==> n in r.nodes && PastApply(r.nodes[n].phase))
    && (forall n :: n in r.nodes && r.nodes[n].phase == Applying ==> (i, n) in st.applied)
  }

  ghost predicate AppliedTracked(st: Store) {
    forall i :: i in st.records ==> AppliedIn(st, i, st.records[i].record)
  }

  ghost predicate Numbered(st: Store) {
    && (forall i :: i in st.records ==> i < st.nextId && st.records[i].rev < st.nextRev)
    && (forall i :: i in st.backups ==> i in st.records)
    && (forall e :: e in st.applied ==> e.0 < st.nextId)
  }

  ghost predicate StoreInv(st: Store) {
    && WriteAhead(st) && PreparingStored(st) && AtMostOneNeedy(st) && Shapes(st)
    && AllPlansKept(st) && BundlesOwned(st) && AppliedTracked(st) && Numbered(st)
  }

  // ---- The process that holds the lock.

  /** The session's copy is the stored record as long as its revision is current. */
  ghost predicate Linked(st: Store, pr: Proc) {
    pr.rev < st.nextRev && (Current(st, pr) ==> st.records[pr.id].record == pr.record)
  }

  /** The barrier has ruled out that record `i` needs recovery. */
  predicate Checked(pr: Proc, i: Id) {
    match pr.pc
    case Scan(todo) => Mutates(pr.job) && i !in todo && (Starts(pr.job) || i != pr.id)
    case Sweep(_) | Sweeping(_) | Creating => Mutates(pr.job)
    case Working => (Mutates(pr.job) || pr.job.Recover?) && i != pr.id
    case _ => false
  }

  ghost predicate BarrierHolds(st: Store, pr: Proc) {
    forall i :: Checked(pr, i) ==> !Needy(st, i)
  }

  ghost predicate Placed(st: Store, pr: Proc) {
    match pr.pc
    case Scan(_) => Starts(pr.job) || (Resumable(st, pr) && pr.workers == map[] && pr.stage.Unchecked?)
    case Sweep(_) => Starts(pr.job) || pr.job.Prune?
    case Creating => Starts(pr.job)
    case Sweeping(_) => (Starts(pr.job) || pr.job.Prune?) && Linked(st, pr) && Current(st, pr)
      && !NeedsRecovery(pr.record)
    case Cleaning => Linked(st, pr) && Current(st, pr)
    case _ => true
  }

  /** An opened saved execution before its barrier is passed. */
  ghost predicate Resumable(st: Store, pr: Proc) {
    && (pr.job.SaveMore? || pr.job.ApplySaved?) && Current(st, pr) && Linked(st, pr)
    && pr.record.saved && pr.record.recoveryAt.None? && !NeedsRecovery(pr.record) && pr.frontier == {}
  }

  ghost predicate SessionFits(st: Store, pr: Proc) {
    && Linked(st, pr) && pr.id in st.records
    && (pr.stage.Unchecked? || pr.record.finishedAt.None?)
    && (pr.job.Run? || pr.job.Recover? || pr.job.Cancel? ==> pr.stage.Going?)
    && (Engaged(pr.job) ==> pr.record.recoveryAt.None? && !pr.record.preparation && pr.record.saved == !pr.job.Run?)
    && (pr.job.Recover? ==> pr.record.recoveryAt.None?)
    && (pr.job.Cancel? ==> !NeedsRecovery(pr.record) && pr.workers == map[])
    && !pr.job.Prune?
    && (pr.stage.Unchecked? ==> !NeedsRecovery(pr.record) && Current(st, pr))
    && (!pr.stage.Going? && !pr.stage.Over? ==> pr.workers == map[])
  }

  predicate Calm(p: Phase) { p == Pending || p == Reading || p == Completed || p == Failed }

  predicate ReadOnlyCalm(pr: Proc) {
    pr.job == Run(true) ==> forall n :: n in pr.record.nodes ==> Calm(pr.record.nodes[n].phase)
  }

  /** Which stored phase goes with which place in a worker. */
  predicate Fits(job: Job, w: Worker, p: Phase) {
    match w
    case InitRecorded | InitRunning | InitReturned(_) => Mutates(job) && p == Initializing
    case Prepared => Mutates(job) && (if job.ApplySaved? then p == Planned
      else p == Preparing || (job.Run? && p == Planned))
    case Retained(_) => Mutates(job) && !job.ApplySaved? && (p == Preparing || (job.Run? && p == Planned))
    case MutRecorded | MutRunning | MutReturned(_) => (job == Run(false) && (p == Applying || p == Operating))
      || (job.ApplySaved? && p == Applying)
    case Collecting => Mutates(job) && p == Applied
    case ReadRecorded => job == Run(true) && p == Reading
    case RecMarked | RecRunning | RecReturned(_) | RecReady => job.Recover? && p == Applied
    case Stopped => true
  }

  predicate WorkersFit(pr: Proc) {
    && (forall n :: n in pr.workers ==> n in pr.record.nodes && Fits(pr.job, pr.workers[n], pr.record.nodes[n].phase))
    && (pr.job.Run? ==> forall n :: n in pr.record.nodes && n !in pr.workers ==> pr.record.nodes[n].phase == Pending)
  }

  /** What the frontier was computed for still holds. */
  ghost predicate FrontierFits(pr: Proc) {
    && (pr.stage.Going? || pr.stage.Over? || pr.frontier == {})
    && (pr.job.ApplySaved? ==> forall n :: n in pr.workers ==> n in pr.frontier)
    && (Saves(pr.job) && (pr.stage.Bound? || pr.stage.Going?) ==> pr.record.binding == Some(pr.deps))
    && (Saves(pr.job) && pr.stage.Admitted? ==> pr.record.binding.None? || pr.record.binding == Some(pr.deps))
    && (pr.stage.Admitted? || pr.stage.Bound? ==> PlannedHavePlans(pr.record))
    && (forall n :: n in pr.frontier ==> n in pr.record.nodes && FrontierNode(pr, n))
  }

  ghost predicate FrontierNode(pr: Proc, n: Name)
    requires n in pr.record.nodes
  {
    && (Saves(pr.job) && pr.stage.Going? ==>
      Ready(pr.record, pr.deps, n) && (n !in pr.workers ==> pr.record.nodes[n].phase == Pending))
    && (pr.job.ApplySaved? ==>
      pr.record.nodes[n].plan.Some? && (n !in pr.workers ==> pr.record.nodes[n].phase == Planned))
  }

  ghost predicate HotStored(st: Store, pr: Proc) {
    forall n :: n in pr.workers && Hot(pr.workers[n]) ==> UnknownStored(st, pr.id, n)
  }

  ghost predicate RecHotStored(st: Store, pr: Proc) {
    && (forall n :: n in pr.workers && RecHot(pr.workers[n]) ==>
        pr.id in st.records && st.records[pr.id].record.preparation && st.records[pr.id].record.recoveryAt.None?
          && pr.record.preparation)
    && (forall m, n :: m in pr.workers && n in pr.workers && RecHot(pr.workers[m]) && RecHot(pr.workers[n]) ==> m == n)
  }

  /** Only this session's own workers can have left a mutation unknown in its record. */
  ghost predicate UnknownOwned(st: Store, pr: Proc) {
    Engaged(pr.job) ==> forall n :: (pr.id, n) in st.unknown ==>
      n in pr.workers && (Hot(pr.workers[n]) || pr.workers[n].Stopped?)
  }

  ghost predicate RetainedStored(st: Store, pr: Proc) {
    forall n :: n in pr.workers && pr.workers[n].Retained? ==>
      pr.workers[n].plan in st.issued && st.issued[pr.workers[n].plan] == (pr.id, n) && pr.workers[n].plan in st.bundles
  }

  ghost predicate WorkingOk(st: Store, pr: Proc) {
    && SessionFits(st, pr) && ReadOnlyCalm(pr) && WorkersFit(pr) && FrontierFits(pr) && HotStored(st, pr)
      && RecHotStored(st, pr)
    && UnknownOwned(st, pr) && RetainedStored(st, pr)
  }

  ghost predicate ProcOk(st: Store, pr: Proc) {
    && BarrierHolds(st, pr) && Placed(st, pr) && (pr.pc.Working? ==> WorkingOk(st, pr))
  }
}
