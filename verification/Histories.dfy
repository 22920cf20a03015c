/** What earlier events of a run say about later ones. */
module Histories {
  import opened Options
  import opened Outcomes
  import opened Protocol
  import J = Journal
  import Inv = JournalInvariant

  // ---- Events of one process on one node.

  predicate Launches(e: Event, pid: Pid, n: J.Name) {
    e == Step(pid, J.Work(J.Launch(n)))
  }

  predicate Returns(e: Event, pid: Pid, n: J.Name, result: J.Result) {
    e == Step(pid, J.Work(J.Return(n, result)))
  }

  /** The process writes this phase of the node, however the write ends. */
  predicate Records(e: Event, pid: Pid, n: J.Name, phase: J.Phase) {
    e.Step? && e.pid == pid && e.a.Publish? && e.a.write == J.Transition(n, phase)
  }

  /** The process holds the lock from before event `j` to before event `k`. */
  predicate Stays(run: seq<Sys>, pid: Pid, j: nat, k: nat) {
    forall l: nat :: j <= l <= k && l < |run| ==> Holds(run[l], pid)
  }

  predicate Holds(s: Sys, pid: Pid) { pid in s.actors && s.actors[pid].Holding? }

  /** An event either is a step of the process or leaves it as it is. */
  lemma ProcNext(cfg: J.Config, run: seq<Sys>, events: seq<Event>, k: nat, pid: Pid)
    requires IsRun(cfg, run, events) && k < |events| && Holds(run[k], pid) && Holds(run[k + 1], pid)
    ensures var pr := run[k].actors[pid].proc;
      if events[k].Step? && events[k].pid == pid
      then J.Can(cfg, run[k].store, pr, events[k].a)
        && run[k + 1].actors[pid].proc == J.ProcAfter(cfg, run[k].store, pr, events[k].a)
      else run[k + 1].actors[pid].proc == pr
  {
    assert Goes(cfg, run, events, k);
  }

  // ---- A mutation that did not end well is not followed by success.

  /** Since its launch the mutation has not returned well. */
  predicate Unproven(w: J.Worker) {
    match w
    case InitRunning | MutRunning | RecRunning | Stopped => true
    case InitReturned(r) => !r.Fine?
    case MutReturned(r) => !r.Fine?
    case RecReturned(ok) => !ok
    case _ => false
  }

  predicate AtUnproven(pr: J.Proc, n: J.Name) {
    (pr.pc.Working? || pr.pc.Cleaning? || pr.pc.Leaving?) && n in pr.workers && Unproven(pr.workers[n])
  }

  lemma UnprovenPublish(st: J.Store, pr: J.Proc, w: J.Write, o: Outcome, n: J.Name)
    requires J.CanWrite(st, pr, w) && AtUnproven(pr, n)
    ensures AtUnproven(J.Publisher(st, pr, w, o), n) && w != J.Transition(n, J.Completed)
  {
  }

  lemma UnprovenWork(st: J.Store, pr: J.Proc, w: J.Work, n: J.Name)
    requires J.CanWork(pr, w) && AtUnproven(pr, n) && w != J.Return(n, J.Fine)
    ensures AtUnproven(J.Worked(st, pr, w), n) && w != J.Launch(n)
  {
  }

  lemma UnprovenStays(cfg: J.Config, st: J.Store, pr: J.Proc, a: J.Action, n: J.Name)
    requires J.Can(cfg, st, pr, a) && AtUnproven(pr, n) && a != J.Work(J.Return(n, J.Fine))
    ensures AtUnproven(J.ProcAfter(cfg, st, pr, a), n) && a != J.Work(J.Launch(n))
    ensures !(a.Publish? && a.write == J.Transition(n, J.Completed))
  {
    match a
    case Publish(w, o) => UnprovenPublish(st, pr, w, o, n);
    case Work(w) => UnprovenWork(st, pr, w, n);
    case _ =>
  }

  lemma LaunchUnproven(cfg: J.Config, st: J.Store, pr: J.Proc, n: J.Name)
    requires J.Can(cfg, st, pr, J.Work(J.Launch(n)))
    ensures AtUnproven(J.ProcAfter(cfg, st, pr, J.Work(J.Launch(n))), n)
  {
  }

  predicate ReturnedWell(events: seq<Event>, pid: Pid, n: J.Name, j: nat, m: nat) {
    j < m < |events| && Returns(events[m], pid, n, J.Fine)
      && forall l: nat :: j < l < m ==> !Launches(events[l], pid, n)
  }

  lemma {:induction false} SinceLaunch(cfg: J.Config, run: seq<Sys>, events: seq<Event>, pid: Pid, n: J.Name, j: nat,
      k: nat)
    requires IsRun(cfg, run, events) && j < k < |run| && Stays(run, pid, j, k) && Launches(events[j], pid, n)
    ensures
      || (AtUnproven(run[k].actors[pid].proc, n) && forall l: nat :: j < l < k ==> !Launches(events[l], pid, n))
      || exists m: nat :: m < k && ReturnedWell(events, pid, n, j, m)
    decreases k
  {
    assert Holds(run[k - 1], pid) && Holds(run[k], pid);
    ProcNext(cfg, run, events, k - 1, pid);
    var pr := run[k - 1].actors[pid].proc;
    if k == j + 1 {
      LaunchUnproven(cfg, run[j].store, pr, n);
    } else {
      SinceLaunch(cfg, run, events, pid, n, j, k - 1);
      if AtUnproven(pr, n) && (forall l: nat :: j < l < k - 1 ==> !Launches(events[l], pid, n)) {
        if Returns(events[k - 1], pid, n, J.Fine) {
          assert ReturnedWell(events, pid, n, j, k - 1);
        } else if events[k - 1].Step? && events[k - 1].pid == pid {
          UnprovenStays(cfg, run[k - 1].store, pr, events[k - 1].a, n);
        }
      }
    }
  }

  /** A node is recorded as completed after a launch only if that launch returned well. */
  lemma CompletedAfterFine(cfg: J.Config, run: seq<Sys>, events: seq<Event>, pid: Pid, n: J.Name, j: nat, k: nat)
    returns (m: nat)
    requires IsRun(cfg, run, events) && j < k < |events| && Stays(run, pid, j, k + 1)
    requires Launches(events[j], pid, n) && Records(events[k], pid, n, J.Completed)
    ensures j < m < k && Returns(events[m], pid, n, J.Fine)
    ensures forall l: nat :: j < l < m ==> !Launches(events[l], pid, n)
  {
    assert Stays(run, pid, j, k);
    SinceLaunch(cfg, run, events, pid, n, j, k);
    assert Holds(run[k], pid) && Holds(run[k + 1], pid);
    ProcNext(cfg, run, events, k, pid);
    var pr := run[k].actors[pid].proc;
    if AtUnproven(pr, n) {
      UnprovenStays(cfg, run[k].store, pr, events[k].a, n);
    }
    m :| m < k && ReturnedWell(events, pid, n, j, m);
  }

  // ---- The phase recorded after a return.

  /** The worker still knows how the mutation ended, or has given up. */
  predicate Knows(w: J.Worker, result: J.Result) {
    match w
    case InitReturned(r) => r == result
    case MutReturned(r) => r == result
    case RecReturned(ok) => ok == result.Fine?
    case RecReady => result.Fine?
    case Stopped => true
    case _ => false
  }

  predicate AtKnown(pr: J.Proc, n: J.Name, result: J.Result) {
    (pr.pc.Working? || pr.pc.Cleaning? || pr.pc.Leaving?) && n in pr.workers && Knows(pr.workers[n], result)
  }

  lemma KnownPublish(st: J.Store, pr: J.Proc, w: J.Write, o: Outcome, n: J.Name, result: J.Result)
    requires J.CanWrite(st, pr, w) && AtKnown(pr, n, result)
    ensures w.Transition? && w.n == n ==>
      && (result.NotStarted? ==> w.phase == J.Failed)
      && (result.Broken? ==> w.phase == J.Indeterminate)
      && (result.Fine? ==> w.phase in {J.Preparing, J.Planned, J.Applied, J.Completed})
    ensures !(w.Transition? && w.n == n) ==> AtKnown(J.Publisher(st, pr, w, o), n, result)
  {
  }

  lemma KnownWork(st: J.Store, pr: J.Proc, w: J.Work, n: J.Name, result: J.Result)
    requires J.CanWork(pr, w) && AtKnown(pr, n, result)
    ensures AtKnown(J.Worked(st, pr, w), n, result)
  {
  }

  lemma KnownStays(cfg: J.Config, st: J.Store, pr: J.Proc, a: J.Action, n: J.Name, result: J.Result)
    requires J.Can(cfg, st, pr, a) && AtKnown(pr, n, result)
    ensures a.Publish? && a.write.Transition? && a.write.n == n ==>
      && (result.NotStarted? ==> a.write.phase == J.Failed)
      && (result.Broken? ==> a.write.phase == J.Indeterminate)
      && (result.Fine? ==> a.write.phase in {J.Preparing, J.Planned, J.Applied, J.Completed})
    ensures !(a.Publish? && a.write.Transition? && a.write.n == n) ==>
      AtKnown(J.ProcAfter(cfg, st, pr, a), n, result)
  {
    match a
    case Publish(w, o) => KnownPublish(st, pr, w, o, n, result);
    case Work(w) => KnownWork(st, pr, w, n, result);
    case _ =>
  }

  lemma ReturnKnown(cfg: J.Config, st: J.Store, pr: J.Proc, n: J.Name, result: J.Result)
    requires J.Can(cfg, st, pr, J.Work(J.Return(n, result)))
    ensures AtKnown(J.ProcAfter(cfg, st, pr, J.Work(J.Return(n, result))), n, result)
  {
  }

  predicate Tells(e: Event, pid: Pid, n: J.Name) {
    e.Step? && e.pid == pid && e.a.Publish? && e.a.write.Transition? && e.a.write.n == n
  }

  /** Between the two events the process writes no phase of the node. */
  predicate Untold(events: seq<Event>, pid: Pid, n: J.Name, m: nat, k: nat) {
    forall l: nat :: m < l < k && l < |events| ==> !Tells(events[l], pid, n)
  }

  lemma {:induction false} SinceReturn(cfg: J.Config, run: seq<Sys>, events: seq<Event>, pid: Pid, n: J.Name,
      result: J.Result, m: nat, k: nat)
    requires IsRun(cfg, run, events) && m < k < |run| && Stays(run, pid, m, k) && Returns(events[m], pid, n, result)
    requires Untold(events, pid, n, m, k)
    ensures AtKnown(run[k].actors[pid].proc, n, result)
    decreases k
  {
    assert Holds(run[k - 1], pid) && Holds(run[k], pid);
    ProcNext(cfg, run, events, k - 1, pid);
    var pr := run[k - 1].actors[pid].proc;
    if k == m + 1 {
      ReturnKnown(cfg, run[m].store, pr, n, result);
    } else {
      SinceReturn(cfg, run, events, pid, n, result, m, k - 1);
      if events[k - 1].Step? && events[k - 1].pid == pid {
        KnownStays(cfg, run[k - 1].store, pr, events[k - 1].a, n, result);
      }
    }
  }

  /** The first phase recorded after a mutation returned says how it ended: failed if it never started,
      indeterminate if it broke, and neither if it ended well. */
  lemma OutcomeRecorded(cfg: J.Config, run: seq<Sys>, events: seq<Event>, pid: Pid, n: J.Name, result: J.Result, m: nat,
      k: nat, phase: J.Phase)
    requires IsRun(cfg, run, events) && m < k < |events| && Stays(run, pid, m, k + 1)
    requires Returns(events[m], pid, n, result) && Untold(events, pid, n, m, k) && Records(events[k], pid, n, phase)
    ensures result.NotStarted? ==> phase == J.Failed
    ensures result.Broken? ==> phase == J.Indeterminate
    ensures result.Fine? ==> phase in {J.Preparing, J.Planned, J.Applied, J.Completed}
  {
    assert Stays(run, pid, m, k);
    SinceReturn(cfg, run, events, pid, n, result, m, k);
    assert Holds(run[k], pid) && Holds(run[k + 1], pid);
    ProcNext(cfg, run, events, k, pid);
    KnownStays(cfg, run[k].store, run[k].actors[pid].proc, events[k].a, n, result);
  }

  // ---- Plans are used in time.

  /** Event `m` stored the bundle of plan `p` for this node of this execution. */
  ghost predicate Bundled(cfg: J.Config, run: seq<Sys>, events: seq<Event>, m: nat, p: J.PlanId, b: J.Bundle)
    requires |run| == |events| + 1
  {
    && m < |events| && events[m].Step? && Holds(run[m], events[m].pid)
    && (exists o :: events[m].a == J.Work(J.Retain(b.node, o)) && !o.Lost?)
    && run[m].actors[events[m].pid].proc.id == b.id && run[m].store.nextPlan == p
    && b.expiresAt == run[m].store.now + cfg.planTTL
  }

  lemma BundleStep(cfg: J.Config, run: seq<Sys>, events: seq<Event>, k: nat, p: J.PlanId)
    requires IsRun(cfg, run, events) && k < |events| && p in run[k + 1].store.bundles
    ensures (p in run[k].store.bundles && run[k].store.bundles[p] == run[k + 1].store.bundles[p])
      || Bundled(cfg, run, events, k, p, run[k + 1].store.bundles[p])
  {
    assert Goes(cfg, run, events, k);
    if events[k].Step? {
      BundlesFrom(cfg, run[k].store, run[k].actors[events[k].pid].proc, events[k].a, p);
    }
  }

  lemma BundlesFrom(cfg: J.Config, st: J.Store, pr: J.Proc, a: J.Action, p: J.PlanId)
    requires J.Can(cfg, st, pr, a) && p in J.StoreAfter(cfg, st, pr, a).bundles
    ensures var b := J.StoreAfter(cfg, st, pr, a).bundles[p];
      || (p in st.bundles && st.bundles[p] == b)
      || (b.id == pr.id && st.nextPlan == p && b.expiresAt == st.now + cfg.planTTL
          && exists o :: a == J.Work(J.Retain(b.node, o)) && !o.Lost?)
  {
    if a.Work? && a.work.Retain? {
      assert a == J.Work(J.Retain(a.work.n, a.work.o));
    }
  }

  /** Every stored bundle was stored by a planning process, and expires a plan's lifetime later. */
  lemma {:induction false} BundleOrigin(cfg: J.Config, run: seq<Sys>, events: seq<Event>, k: nat, p: J.PlanId)
    returns (m: nat)
    requires IsRun(cfg, run, events) && k < |run| && p in run[k].store.bundles
    ensures m < k && Bundled(cfg, run, events, m, p, run[k].store.bundles[p])
  {
    BundleStep(cfg, run, events, k - 1, p);
    m := k - 1;
    if p in run[k - 1].store.bundles && run[k - 1].store.bundles[p] == run[k].store.bundles[p] {
      m := BundleOrigin(cfg, run, events, k - 1, p);
    }
  }

  /** A process that applies a saved execution starts a node only while the plan it was given for that node is in
      the store and less than a plan's lifetime old. */
  lemma StartsInTime(cfg: J.Config, run: seq<Sys>, events: seq<Event>, k: nat, n: J.Name) returns (m: nat)
    requires IsRun(cfg, run, events) && k < |events| && events[k].Step? && Holds(run[k], events[k].pid)
    requires run[k].actors[events[k].pid].proc.job.ApplySaved? && Records(events[k], events[k].pid, n, J.Initializing)
    ensures var pr, st := run[k].actors[events[k].pid].proc, run[k].store;
      && n in pr.record.nodes && pr.record.nodes[n].plan.Some?
      && var p := pr.record.nodes[n].plan.value;
      && p in st.bundles && st.bundles[p].id == pr.id && st.bundles[p].node == n && st.now < st.bundles[p].expiresAt
      && m < k && Bundled(cfg, run, events, m, p, st.bundles[p]) && st.now < run[m].store.now + cfg.planTTL
  {
    assert Goes(cfg, run, events, k);
    var pr := run[k].actors[events[k].pid].proc;
    InitializingUnworked(pr, n);
    m := BundleOrigin(cfg, run, events, k, pr.record.nodes[n].plan.value);
  }

  /** The first thing recorded of a node is the intent to initialise it. */
  lemma InitializingUnworked(pr: J.Proc, n: J.Name)
    requires n in pr.record.nodes && J.Permits(pr, n, J.Initializing)
    ensures n !in pr.workers
  {
  }

  // ---- An apply comes after an initialisation that ended well.

  /** Some earlier event of the process is the good return of a mutation of the node. */
  ghost predicate ReturnedFine(run: seq<Sys>, events: seq<Event>, pid: Pid, n: J.Name, k: nat) {
    exists m: nat :: m < k && m < |events| && Returns(events[m], pid, n, J.Fine) && Stays(run, pid, m, k)
  }

  predicate Initialised(w: J.Worker) {
    w.Prepared? || w.Retained? || w == J.InitReturned(J.Fine)
  }

  lemma InitialisedByWrite(st: J.Store, pr: J.Proc, w: J.Write, o: Outcome, n: J.Name)
    requires J.CanWrite(st, pr, w)
    requires var pr' := J.Publisher(st, pr, w, o); n in pr'.workers && Initialised(pr'.workers[n])
    ensures n in pr.workers && Initialised(pr.workers[n])
  {
  }

  lemma InitialisedByWork(st: J.Store, pr: J.Proc, w: J.Work, n: J.Name)
    requires J.CanWork(pr, w)
    requires var pr' := J.Worked(st, pr, w); n in pr'.workers && Initialised(pr'.workers[n])
    ensures w == J.Return(n, J.Fine) || (n in pr.workers && Initialised(pr.workers[n]))
  {
  }

  lemma InitialisedFrom(cfg: J.Config, st: J.Store, pr: J.Proc, a: J.Action, n: J.Name)
    requires J.Can(cfg, st, pr, a)
    requires var pr' := J.ProcAfter(cfg, st, pr, a); n in pr'.workers && Initialised(pr'.workers[n])
    ensures a == J.Work(J.Return(n, J.Fine)) || (n in pr.workers && Initialised(pr.workers[n]))
  {
    match a
    case Publish(w, o) => InitialisedByWrite(st, pr, w, o, n);
    case Work(w) => InitialisedByWork(st, pr, w, n);
    case _ =>
  }

  lemma {:induction false} InitialisedHistory(cfg: J.Config, run: seq<Sys>, events: seq<Event>, pid: Pid, n: J.Name,
      k: nat)
    requires IsRun(cfg, run, events) && k < |run| && Holds(run[k], pid)
    requires n in run[k].actors[pid].proc.workers && Initialised(run[k].actors[pid].proc.workers[n])
    ensures ReturnedFine(run, events, pid, n, k)
  {
    assert Goes(cfg, run, events, k - 1);
    assert Holds(run[k - 1], pid);
    ProcNext(cfg, run, events, k - 1, pid);
    var pr := run[k - 1].actors[pid].proc;
    if events[k - 1].Step? && events[k - 1].pid == pid {
      InitialisedFrom(cfg, run[k - 1].store, pr, events[k - 1].a, n);
      if events[k - 1].a == J.Work(J.Return(n, J.Fine)) {
        assert Returns(events[k - 1], pid, n, J.Fine) && Stays(run, pid, k - 1, k);
      } else {
        InitialisedHistory(cfg, run, events, pid, n, k - 1);
      }
    } else {
      InitialisedHistory(cfg, run, events, pid, n, k - 1);
    }
  }

  /** No node enters applying before the same process has initialised it and the initialisation ended well. */
  lemma AppliesAfterInit(cfg: J.Config, run: seq<Sys>, events: seq<Event>, pid: Pid, n: J.Name, k: nat)
    requires IsRun(cfg, run, events) && k < |events| && Holds(run[k], pid) && Records(events[k], pid, n, J.Applying)
    ensures ReturnedFine(run, events, pid, n, k)
  {
    assert Goes(cfg, run, events, k);
    ApplyingPrepared(run[k].actors[pid].proc, n);
    InitialisedHistory(cfg, run, events, pid, n, k);
  }

  lemma ApplyingPrepared(pr: J.Proc, n: J.Name)
    requires n in pr.record.nodes && J.Permits(pr, n, J.Applying)
    ensures n in pr.workers && Initialised(pr.workers[n])
  {
  }

  // ---- What is removed has been kept long enough.

  /** Backups and records go only when their execution finished a retention period ago; a record goes last. */
  lemma RetentionKept(cfg: J.Config, run: seq<Sys>, events: seq<Event>, k: nat, i: J.Id)
    requires IsRun(cfg, run, events) && k < |events|
    requires var st, st' := run[k].store, run[k + 1].store;
      (i in st.records && i !in st'.records) || (i in st.backups && i !in st'.backups)
    ensures i in run[k].store.records
    ensures var st, r := run[k].store, run[k].store.records[i].record;
      && r.finishedAt.Some? && r.finishedAt.value + cfg.retention <= st.now && !J.NeedsRecovery(r)
      && (i !in run[k + 1].store.records ==>
            && i !in st.backups
            && forall n :: n in r.nodes && r.nodes[n].plan.Some? ==> r.nodes[n].plan.value !in st.bundles)
  {
    RunInv(cfg, run, events, k);
    assert Goes(cfg, run, events, k);
    if events[k].Step? {
      var pr := run[k].actors[events[k].pid].proc;
      assert Inv.ProcOk(run[k].store, pr);
      RemovedLate(cfg, run[k].store, pr, events[k].a, i);
    }
  }

  lemma RemovedLate(cfg: J.Config, st: J.Store, pr: J.Proc, a: J.Action, i: J.Id)
    requires J.Can(cfg, st, pr, a) && Inv.ProcOk(st, pr) == true
    requires var st' := J.StoreAfter(cfg, st, pr, a);
      (i in st.records && i !in st'.records) || (i in st.backups && i !in st'.backups)
    ensures a.Remove? && i == pr.id && J.CanRemove(cfg, st, pr, a.item) && (a.item.BackupCopy? || a.item.RecordItself?)
    ensures i in st.records && st.records[i].record == pr.record && !J.NeedsRecovery(pr.record)
    ensures i !in J.StoreAfter(cfg, st, pr, a).records ==> a.item.RecordItself?
  {
  }

  // ---- Verdicts.

  /** The new status of a record says what is so. */
  ghost predicate Earned(st: J.Store, pr: J.Proc, r: J.Record, r': J.Record) {
    match r'.status
    case RecoveryNeeded => J.NeedsRecovery(r')
    case CompletedRun | FailedRun =>
      && !J.NeedsRecovery(r') && r'.finishedAt == Some(st.now)
      && (r.saved ==> forall n :: n in r'.nodes ==> r'.nodes[n].phase !in {J.Pending, J.Preparing, J.Planned})
    case Expired =>
      && r.status == J.WaitingForApply && r'.nodes == r.nodes
      && exists n :: n in r.nodes && r.nodes[n].phase == J.Planned && Late(st, pr.id, r.nodes[n].plan)
    case Cancelled => pr.job.Cancel? && !J.NeedsRecovery(r) && r'.nodes == r.nodes
    case Recovered =>
      && pr.job.Recover? && r'.nodes == r.nodes && r'.recoveryAt == Some(st.now)
      && (pr.job.replan || (!r.preparation && forall n :: n in r.nodes ==>
            r.nodes[n].phase !in {J.Initializing, J.Applying, J.Operating, J.Indeterminate, J.Applied}))
    case ReadyForNextPlan => r'.finishedAt.None?
    case WaitingForApply => r'.finishedAt.None?
    case PreparingRun => false
  }

  /** The plan's bundle is there and out of date. */
  predicate Late(st: J.Store, id: J.Id, plan: Option<J.PlanId>) {
    plan.Some? && plan.value in st.bundles && st.bundles[plan.value].id == id
      && st.bundles[plan.value].expiresAt <= st.now
  }

  lemma SameNeeds(r: J.Record, r': J.Record)
    requires r'.nodes == r.nodes && r'.preparation == r.preparation && r'.recoveryAt == r.recoveryAt
    ensures J.NeedsRecovery(r') <==> J.NeedsRecovery(r)
  {
    assert forall n :: J.NodeUnsettled(r', n) <==> J.NodeUnsettled(r, n);
  }

  lemma TargetEarned(st: J.Store, pr: J.Proc, w: J.Write)
    requires J.CanWrite(st, pr, w) && Inv.ProcOk(st, pr) == true && J.Current(st, pr)
    requires J.Target(st, pr, w).status != pr.record.status
    ensures Earned(st, pr, pr.record, J.Target(st, pr, w)) == true
  {
    var r := pr.record;
    match w
    case Expire(n) => assert Late(st, pr.id, r.nodes[n].plan);
    case Finish(failed) => if pr.job.Run? { FinishEarned(st, pr, failed); } else { SavedFinishEarned(st, pr, failed); }
    case Settle => SettleEarned(st, pr);
    case CancelRun => assert Inv.SessionFits(st, pr);
    case Touch(_) => assert Inv.SessionFits(st, pr);
    case Acknowledge => RetireEarned(st, pr);
    case _ =>
  }

  lemma RetireEarned(st: J.Store, pr: J.Proc)
    requires J.CanWrite(st, pr, J.Acknowledge)
    ensures Earned(st, pr, pr.record, J.Target(st, pr, J.Acknowledge)) == true
  {
    var r := pr.record;
    if !pr.job.replan {
      forall n | n in r.nodes
        ensures r.nodes[n].phase !in {J.Initializing, J.Applying, J.Operating, J.Indeterminate, J.Applied}
      {
        assert !J.NodeUnsettled(r, n);
      }
    }
  }

  lemma FinishEarned(st: J.Store, pr: J.Proc, failed: bool)
    requires Inv.ProcOk(st, pr) && pr.pc.Working? && pr.job.Run?
    ensures Earned(st, pr, pr.record, J.FinishRecord(pr.record, failed, st.now)) == true
  {
    assert Inv.SessionFits(st, pr);
    SameNeeds(pr.record, J.FinishRecord(pr.record, failed, st.now));
  }

  lemma SettleEarned(st: J.Store, pr: J.Proc)
    requires Inv.ProcOk(st, pr) && pr.pc.Working? && pr.job.ApplySaved? && !pr.stage.Unchecked?
    ensures Earned(st, pr, pr.record, J.SettleRecord(pr.record, st.now)) == true
  {
    assert Inv.SessionFits(st, pr);
    var r' := J.SettleRecord(pr.record, st.now);
    if r'.status.CompletedRun? {
      assert forall n :: !J.NodeUnsettled(r', n);
    }
  }

  lemma SavedFinishEarned(st: J.Store, pr: J.Proc, failed: bool)
    ensures Earned(st, pr, pr.record, J.FinishSavedRecord(pr.record, failed, st.now)) == true
  {
    var r := pr.record;
    var r' := J.FinishSavedRecord(r, failed, st.now);
    var next := r.(nodes := J.BackToPending(r.nodes), finishedAt := None, status := J.ReadyForNextPlan);
    SameNeeds(next, r');
    if r'.status.CompletedRun? || r'.status.FailedRun? {
      assert forall n :: n in r'.nodes ==> r'.nodes[n].phase !in {J.Pending, J.Preparing, J.Planned};
    }
  }

  /** Only a write changes a stored record. */
  lemma OthersKeep(cfg: J.Config, st: J.Store, pr: J.Proc, a: J.Action, i: J.Id)
    requires J.Can(cfg, st, pr, a) && !a.Publish? && Inv.Numbered(st)
    requires i in st.records && i in J.StoreAfter(cfg, st, pr, a).records
    ensures J.StoreAfter(cfg, st, pr, a).records[i] == st.records[i]
  {
  }

  lemma StatusStep(cfg: J.Config, st: J.Store, pr: J.Proc, a: J.Action, i: J.Id)
    requires J.Can(cfg, st, pr, a) && Inv.ProcOk(st, pr) == true && Inv.StoreInv(st) == true
    requires var st' := J.StoreAfter(cfg, st, pr, a);
      i in st.records && i in st'.records && st'.records[i].record.status != st.records[i].record.status
    ensures a.Publish? && J.Effective(st, pr, a.o) && i == pr.id && st.records[i].record == pr.record
    ensures J.StoreAfter(cfg, st, pr, a).records[i].record == J.Target(st, pr, a.write)
  {
    if !a.Publish? {
      OthersKeep(cfg, st, pr, a, i);
    }
  }

  /** Whenever the status of a stored record changes, the new one is earned: completed and failed executions have
      nothing open, recovery is claimed only where it is needed, plans expire only when one is out of date, and only
      an operator cancels or retires. */
  lemma VerdictsEarned(cfg: J.Config, run: seq<Sys>, events: seq<Event>, k: nat, i: J.Id)
    requires IsRun(cfg, run, events) && k < |events| && i in run[k].store.records && i in run[k + 1].store.records
    requires run[k + 1].store.records[i].record.status != run[k].store.records[i].record.status
    ensures events[k].Step? && Holds(run[k], events[k].pid) && run[k].actors[events[k].pid].proc.id == i
    ensures Earned(run[k].store, run[k].actors[events[k].pid].proc, run[k].store.records[i].record,
                   run[k + 1].store.records[i].record)
  {
    RunInv(cfg, run, events, k);
    assert Goes(cfg, run, events, k);
    var pr := run[k].actors[events[k].pid].proc;
    assert Inv.ProcOk(run[k].store, pr);
    StatusStep(cfg, run[k].store, pr, events[k].a, i);
    TargetEarned(run[k].store, pr, events[k].a.write);
  }

  // ---- Rounds work on the graph the execution is bound to.

  /** The execution is saved, and bound to the predecessors the process sees in its graph. */
  predicate Bound(pr: J.Proc) {
    pr.job.ApplySaved? && !pr.stage.Unchecked? ==>
      (pr.pc.Working? || pr.pc.Cleaning? || pr.pc.Leaving?) && pr.record.binding == Some(pr.deps)
  }

  lemma BoundByWrite(st: J.Store, pr: J.Proc, w: J.Write, o: Outcome)
    requires J.CanWrite(st, pr, w) && Bound(pr)
    ensures Bound(J.Publisher(st, pr, w, o)) == true
  {
  }

  lemma BoundStays(cfg: J.Config, st: J.Store, pr: J.Proc, a: J.Action)
    requires J.Can(cfg, st, pr, a) && Bound(pr)
    ensures Bound(J.ProcAfter(cfg, st, pr, a)) == true
  {
    match a
    case Publish(w, o) => BoundByWrite(st, pr, w, o);
    case _ =>
  }

  lemma {:induction false} BoundAlways(cfg: J.Config, run: seq<Sys>, events: seq<Event>, k: nat, pid: Pid)
    requires IsRun(cfg, run, events) && k < |run| && Holds(run[k], pid)
    ensures Bound(run[k].actors[pid].proc)
  {
    assert Goes(cfg, run, events, k - 1);
    if Holds(run[k - 1], pid) {
      BoundAlways(cfg, run, events, k - 1, pid);
      ProcNext(cfg, run, events, k - 1, pid);
      if events[k - 1].Step? && events[k - 1].pid == pid {
        BoundStays(cfg, run[k - 1].store, run[k - 1].actors[pid].proc, events[k - 1].a);
      }
    }
  }

  /** A node of a saved execution is only worked on by a process whose graph has the predecessors that the execution
      is bound to; and what it plans or applies waits for that. */
  lemma WorksOnBoundGraph(cfg: J.Config, run: seq<Sys>, events: seq<Event>, pid: Pid, n: J.Name, k: nat, phase: J.Phase)
    requires IsRun(cfg, run, events) && k < |events| && Holds(run[k], pid) && Records(events[k], pid, n, phase)
    requires var job := run[k].actors[pid].proc.job; job.SaveNew? || job.SaveMore? || job.ApplySaved?
    ensures var pr := run[k].actors[pid].proc; pr.record.saved && pr.record.binding == Some(pr.deps)
  {
    assert Goes(cfg, run, events, k);
    RunInv(cfg, run, events, k);
    var pr := run[k].actors[pid].proc;
    assert Inv.ProcOk(run[k].store, pr);
    assert Inv.SessionFits(run[k].store, pr) && Inv.FrontierFits(pr);
    BoundAlways(cfg, run, events, k, pid);
  }

  /** A round of a saved execution is admitted only in the status that waits for it. */
  lemma AdmittedInTurn(cfg: J.Config, run: seq<Sys>, events: seq<Event>, pid: Pid, deps: J.Deps, k: nat)
    requires IsRun(cfg, run, events) && k < |events| && Holds(run[k], pid)
      && events[k] == Step(pid, J.Work(J.Admit(deps)))
    ensures var pr, st := run[k].actors[pid].proc, run[k].store;
      && pr.id in st.records && st.records[pr.id].record == pr.record && !J.NeedsRecovery(pr.record)
      && (pr.job.ApplySaved? ==> pr.record.status == J.WaitingForApply && pr.record.binding == Some(deps))
      && (!pr.job.ApplySaved? ==>
            && (pr.record.status == J.PreparingRun || pr.record.status == J.ReadyForNextPlan)
            && (pr.record.binding == None || pr.record.binding == Some(deps)))
  {
    assert Goes(cfg, run, events, k);
    RunInv(cfg, run, events, k);
    var pr := run[k].actors[pid].proc;
    assert Inv.ProcOk(run[k].store, pr);
    assert Inv.SessionFits(run[k].store, pr);
  }
}
