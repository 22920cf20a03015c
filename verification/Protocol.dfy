/** Any number of processes stepping under the graph lock, with crashes, lost writes and forced releases. */
module Protocol {
  import opened Options
  import opened Outcomes
  import opened GraphLock
  import J = Journal
  import Inv = JournalInvariant
  import Steps = JournalSteps
  import Props = JournalProperties

  type Pid = nat

  /** A live process: before the lock, after a lock write that returned no ETag, or holding the lock. */
  datatype Actor = Waiting(job: J.Job) | Unsure(tag: Tag) | Holding(tag: Tag, proc: J.Proc)

  datatype Sys = Sys(store: J.Store, lock: Option<Tag>, nextTag: Tag, actors: map<Pid, Actor>)

  datatype Event =
    | Spawn(pid: Pid, job: J.Job)
    | Acquire(pid: Pid, put: Put)
    | Undo(pid: Pid, del: Delete)          // the delete after a write without an ETag
    | Step(pid: Pid, a: J.Action)
    | Close(pid: Pid, del: Delete)
    | Crash(pid: Pid)
    | ForceRelease(del: Delete)
    | Tick

  predicate Owns(a: Actor) { a.Unsure? || a.Holding? }

  /** The lock's writer is gone, so that an operator may release it. */
  predicate HolderGone(s: Sys) {
    forall p :: p in s.actors && Owns(s.actors[p]) ==> s.lock != Some(s.actors[p].tag)
  }

  ghost predicate Enabled(cfg: J.Config, s: Sys, e: Event) {
    match e
    case Spawn(pid, _) => pid !in s.actors
    case Acquire(pid, _) => pid in s.actors && s.actors[pid].Waiting?
    case Undo(pid, _) => pid in s.actors && s.actors[pid].Unsure?
    case Step(pid, a) => pid in s.actors && s.actors[pid].Holding? && J.Can(cfg, s.store, s.actors[pid].proc, a)
    case Close(pid, _) => pid in s.actors && s.actors[pid].Holding? && s.actors[pid].proc.pc.Leaving?
    case Crash(pid) => pid in s.actors
    case ForceRelease(_) => HolderGone(s)
    case Tick => true
  }

  ghost function Next(cfg: J.Config, s: Sys, e: Event): Sys
    requires Enabled(cfg, s, e)
  {
    match e
    case Spawn(pid, job) => s.(actors := s.actors[pid := Waiting(job)])
    case Acquire(pid, put) =>
      var locked := s.(lock := PutIfAbsent(s.lock, s.nextTag, put), nextTag := s.nextTag + 1);
      if s.lock.Some? || put.Errored? then locked.(actors := s.actors - {pid})
      else if put.tagged then locked.(actors := s.actors[pid := Holding(s.nextTag, J.Entering(s.actors[pid].job))])
      else locked.(actors := s.actors[pid := Unsure(s.nextTag)])
    case Undo(pid, del) => s.(lock := DeleteAny(s.lock, del), actors := s.actors - {pid})
    case Step(pid, a) =>
      var h := s.actors[pid];
      s.(store := J.StoreAfter(cfg, s.store, h.proc, a),
        actors := s.actors[pid := Holding(h.tag, J.ProcAfter(cfg, s.store, h.proc, a))])
    case Close(pid, del) => s.(lock := DeleteMatching(s.lock, s.actors[pid].tag, del), actors := s.actors - {pid})
    case Crash(pid) => s.(actors := s.actors - {pid})
    case ForceRelease(del) => s.(lock := DeleteAny(s.lock, del))
    case Tick => s.(store := s.store.(now := s.store.now + 1))
  }

  function Start(): Sys {
    Sys(J.EmptyStore(), None, 0, map[])
  }

  // ---- What every reachable state satisfies.

  /** A live owner's tag is the lock's. */
  predicate Locked(s: Sys) {
    && (forall p :: p in s.actors && Owns(s.actors[p]) ==>
      s.lock == Some(s.actors[p].tag) && s.actors[p].tag < s.nextTag)
    && (forall p, q ::
      (p in s.actors && q in s.actors && Owns(s.actors[p]) && Owns(s.actors[q])
       && s.actors[p].tag == s.actors[q].tag) ==> p == q)
  }

  ghost predicate HolderOk(s: Sys) {
    forall p :: p in s.actors && s.actors[p].Holding? ==> Inv.ProcOk(s.store, s.actors[p].proc)
  }

  ghost predicate SysInv(s: Sys) {
    Locked(s) && Inv.StoreInv(s.store) && HolderOk(s)
  }

  /** Mutual exclusion: at most one process is inside. */
  lemma Exclusive(s: Sys, p: Pid, q: Pid)
    requires Locked(s) && p in s.actors && q in s.actors && Owns(s.actors[p]) && Owns(s.actors[q])
    ensures p == q
  {
  }

  lemma StartInv()
    ensures SysInv(Start())
  {
  }

  lemma LockedKept(cfg: J.Config, s: Sys, e: Event)
    requires Locked(s) && Enabled(cfg, s, e) == true
    ensures Locked(Next(cfg, s, e))
  {
  }

  lemma TickKeeps(st: J.Store, pr: J.Proc)
    requires Inv.StoreInv(st)
    ensures Inv.StoreInv(st.(now := st.now + 1)) == true
    ensures Inv.ProcOk(st, pr) ==> Inv.ProcOk(st.(now := st.now + 1), pr) == true
  {
    var st' := st.(now := st.now + 1);
    Steps.SameRecords(st, st');
    Steps.SamePlans(st, st');
    if Inv.ProcOk(st, pr) {
      TickKeepsProc(st, pr);
    }
  }

  lemma TickKeepsProc(st: J.Store, pr: J.Proc)
    requires Inv.ProcOk(st, pr) == true
    ensures Inv.ProcOk(st.(now := st.now + 1), pr) == true
  {
    var st' := st.(now := st.now + 1);
    forall i | Inv.Checked(pr, i) ensures !Inv.Needy(st', i) {
      assert !Inv.Needy(st, i);
    }
    if pr.pc.Working? {
      Steps.ArtifactsKeep(st, pr, st');
    }
  }

  lemma StoreInvKept(cfg: J.Config, s: Sys, e: Event)
    requires SysInv(s) == true && Enabled(cfg, s, e) == true
    ensures Inv.StoreInv(Next(cfg, s, e).store) == true
  {
    match e
    case Step(pid, a) => Steps.StepKeeps(cfg, s.store, s.actors[pid].proc, a);
    case Tick => TickKeeps(s.store, J.Entering(J.Prune));
    case _ =>
  }

  lemma HolderOkKept(cfg: J.Config, s: Sys, e: Event)
    requires SysInv(s) == true && Enabled(cfg, s, e) == true
    ensures HolderOk(Next(cfg, s, e)) == true
  {
    var s' := Next(cfg, s, e);
    forall p | p in s'.actors && s'.actors[p].Holding? ensures Inv.ProcOk(s'.store, s'.actors[p].proc) {
      HolderStays(cfg, s, e, p);
    }
  }

  lemma StepperStays(cfg: J.Config, s: Sys, pid: Pid, a: J.Action, p: Pid)
    requires SysInv(s) == true && Enabled(cfg, s, Step(pid, a)) == true
    requires var s' := Next(cfg, s, Step(pid, a)); p in s'.actors && s'.actors[p].Holding?
    ensures var s' := Next(cfg, s, Step(pid, a)); Inv.ProcOk(s'.store, s'.actors[p].proc) == true
  {
    Exclusive(s, pid, p);
    Steps.StepKeeps(cfg, s.store, s.actors[pid].proc, a);
  }

  lemma HolderStays(cfg: J.Config, s: Sys, e: Event, p: Pid)
    requires SysInv(s) == true && Enabled(cfg, s, e) == true
    requires p in Next(cfg, s, e).actors && Next(cfg, s, e).actors[p].Holding?
    ensures Inv.ProcOk(Next(cfg, s, e).store, Next(cfg, s, e).actors[p].proc) == true
  {
    match e
    case Step(pid, a) => StepperStays(cfg, s, pid, a, p);
    case Tick => TickKeeps(s.store, s.actors[p].proc);
    case Acquire(pid, _) =>
      if p == pid { EnteringOk(s.store, s.actors[pid].job); }
    case _ =>
  }

  lemma EnteringOk(st: J.Store, job: J.Job)
    ensures Inv.ProcOk(st, J.Entering(job)) == true
  {
  }

  lemma SysInvKept(cfg: J.Config, s: Sys, e: Event)
    requires SysInv(s) == true && Enabled(cfg, s, e) == true
    ensures SysInv(Next(cfg, s, e)) == true
  {
    LockedKept(cfg, s, e);
    StoreInvKept(cfg, s, e);
    HolderOkKept(cfg, s, e);
  }

  // ---- Whole runs.

  /** A run from the empty store: the states before, between and after the events. */
  ghost predicate IsRun(cfg: J.Config, run: seq<Sys>, events: seq<Event>) {
    && |run| == |events| + 1 && run[0] == Start()
    && forall k: nat :: k < |events| ==> Goes(cfg, run, events, k)
  }

  ghost predicate Goes(cfg: J.Config, run: seq<Sys>, events: seq<Event>, k: nat)
    requires k < |events| && |run| == |events| + 1
  {
    Enabled(cfg, run[k], events[k]) && run[k + 1] == Next(cfg, run[k], events[k])
  }

  lemma {:induction false} RunInv(cfg: J.Config, run: seq<Sys>, events: seq<Event>, k: nat)
    requires IsRun(cfg, run, events) && k < |run|
    ensures SysInv(run[k]) == true
  {
    if k == 0 {
      StartInv();
    } else {
      RunInv(cfg, run, events, k - 1);
      assert Goes(cfg, run, events, k - 1);
      SysInvKept(cfg, run[k - 1], events[k - 1]);
    }
  }

  /** Whenever a mutation or a backend preparation may have started and its outcome is not recorded, the
      stored record needs recovery. */
  lemma WriteAheadAlways(cfg: J.Config, run: seq<Sys>, events: seq<Event>, k: nat)
    requires IsRun(cfg, run, events) && k < |run|
    ensures forall i, n :: (i, n) in run[k].store.unknown ==>
      i in run[k].store.records && J.NeedsRecovery(run[k].store.records[i].record)
    ensures forall i :: i in run[k].store.preparing ==>
      i in run[k].store.records && J.NeedsRecovery(run[k].store.records[i].record)
  {
    RunInv(cfg, run, events, k);
    var st := run[k].store;
    assert Inv.WriteAhead(st) && Inv.PreparingStored(st);
    forall i, n | (i, n) in st.unknown ensures i in st.records && J.NeedsRecovery(st.records[i].record) {
      assert Inv.UnknownStored(st, i, n);
      assert J.NodeUnsettled(st.records[i].record, n);
    }
  }

  /** A mutation stops counting as unknown only when the store says how it ended. */
  lemma OutcomesAccounted(cfg: J.Config, run: seq<Sys>, events: seq<Event>, k: nat)
    requires IsRun(cfg, run, events) && k < |events|
    ensures Props.Accounted(run[k].store, run[k + 1].store)
    ensures forall i, n :: (i, n) in run[k + 1].store.unknown && (i, n) !in run[k].store.unknown ==>
      events[k].Step? && events[k].a == J.Work(J.Launch(n))
  {
    RunInv(cfg, run, events, k);
    assert Goes(cfg, run, events, k);
    if events[k].Step? {
      var pr := run[k].actors[events[k].pid].proc;
      assert Inv.ProcOk(run[k].store, pr);
      Props.StepAccounted(cfg, run[k].store, pr, events[k].a);
      Props.OnlyLaunchOpens(cfg, run[k].store, pr, events[k].a);
    }
  }

  /** At most one stored record needs recovery, and at most one process holds the lock. */
  lemma OneNeedsRecovery(cfg: J.Config, run: seq<Sys>, events: seq<Event>, k: nat, i: J.Id, j: J.Id)
    requires IsRun(cfg, run, events) && k < |run|
    requires i in run[k].store.records && J.NeedsRecovery(run[k].store.records[i].record)
    requires j in run[k].store.records && J.NeedsRecovery(run[k].store.records[j].record)
    ensures i == j
  {
    RunInv(cfg, run, events, k);
    assert Inv.Needy(run[k].store, i) && Inv.Needy(run[k].store, j);
  }

  lemma MutualExclusion(cfg: J.Config, run: seq<Sys>, events: seq<Event>, k: nat, p: Pid, q: Pid)
    requires IsRun(cfg, run, events) && k < |run|
    requires p in run[k].actors && q in run[k].actors && run[k].actors[p].Holding? && run[k].actors[q].Holding?
    ensures p == q && run[k].lock == Some(run[k].actors[p].tag)
  {
    RunInv(cfg, run, events, k);
    Exclusive(run[k], p, q);
  }

  /** While a mutating execution is created, resumed or at work, no other one needs recovery. */
  lemma MutatorsWorkAlone(cfg: J.Config, run: seq<Sys>, events: seq<Event>, k: nat, p: Pid, j: J.Id)
    requires IsRun(cfg, run, events) && k < |run| && p in run[k].actors && run[k].actors[p].Holding?
    requires var pr := run[k].actors[p].proc;
      J.Mutates(pr.job) && (pr.pc.Creating? || pr.pc.Working?) && (pr.pc.Working? ==> j != pr.id)
    ensures j in run[k].store.records ==> !J.NeedsRecovery(run[k].store.records[j].record)
  {
    RunInv(cfg, run, events, k);
    var pr := run[k].actors[p].proc;
    assert Inv.ProcOk(run[k].store, pr);
    assert Inv.Checked(pr, j) && !Inv.Needy(run[k].store, j);
  }

  /** When a mutation is started, its own execution is already marked and no other one is. */
  lemma LaunchesAreMarked(cfg: J.Config, run: seq<Sys>, events: seq<Event>, k: nat, j: J.Id)
    requires IsRun(cfg, run, events) && k < |events| && events[k].Step? && events[k].a.Work? && events[k].a.work.Launch?
    requires events[k].pid in run[k].actors && run[k].actors[events[k].pid].Holding?
    ensures Inv.Needy(run[k].store, j) <==> j == run[k].actors[events[k].pid].proc.id
  {
    RunInv(cfg, run, events, k);
    assert Goes(cfg, run, events, k);
    var pr := run[k].actors[events[k].pid].proc;
    assert Inv.ProcOk(run[k].store, pr);
    Props.LaunchGuarded(run[k].store, pr, events[k].a.work.n);
  }

  // ---- Saved executions.

  /** A node of a saved execution that has left pending has all its selected direct predecessors completed. */
  lemma SavedOrder(cfg: J.Config, run: seq<Sys>, events: seq<Event>, k: nat, i: J.Id, n: J.Name, p: J.Name)
    requires IsRun(cfg, run, events) && k < |run| && i in run[k].store.records
    requires var r := run[k].store.records[i].record;
      && r.saved && n in r.nodes && r.nodes[n].phase != J.Pending && p in r.nodes
      && (r.binding.Some? ==> n in r.binding.value && p in r.binding.value[n])
    ensures var r := run[k].store.records[i].record; r.binding.Some? && r.nodes[p].phase == J.Completed
  {
    RunInv(cfg, run, events, k);
    var r := run[k].store.records[i].record;
    assert Inv.Shape(r) && Inv.Ordered(r);
    assert J.Ready(r, r.binding.value, n);
  }

  lemma EventMonotone(cfg: J.Config, run: seq<Sys>, events: seq<Event>, k: nat)
    requires IsRun(cfg, run, events) && k < |events|
    ensures Props.Monotone(run[k].store, run[k + 1].store) == true
  {
    RunInv(cfg, run, events, k);
    assert Goes(cfg, run, events, k);
    if events[k].Step? {
      var pr := run[k].actors[events[k].pid].proc;
      assert Inv.ProcOk(run[k].store, pr);
      Props.StepMonotone(cfg, run[k].store, pr, events[k].a);
    } else {
      Props.SameRecordsMonotone(run[k].store, run[k + 1].store);
    }
  }

  /** Identifiers only grow and removed executions stay removed. */
  lemma {:induction false} RemovedForGood(cfg: J.Config, run: seq<Sys>, events: seq<Event>, k: nat, m: nat, i: J.Id)
    requires IsRun(cfg, run, events) && k <= m < |run| && i < run[k].store.nextId && i !in run[k].store.records
    ensures i !in run[m].store.records && i < run[m].store.nextId
  {
    if k < m {
      RemovedForGood(cfg, run, events, k, m - 1, i);
      EventMonotone(cfg, run, events, m - 1);
    }
  }

  lemma KeptThroughout(cfg: J.Config, run: seq<Sys>, events: seq<Event>, k: nat, l: nat, m: nat, i: J.Id)
    requires IsRun(cfg, run, events) && k <= l <= m < |run| && i in run[k].store.records && i in run[m].store.records
    ensures i in run[l].store.records
  {
    if i !in run[l].store.records {
      IdsGrow(cfg, run, events, k, l);
      RunInv(cfg, run, events, k);
      assert Inv.Numbered(run[k].store);
      RemovedForGood(cfg, run, events, l, m, i);
    }
  }

  lemma {:induction false} IdsGrow(cfg: J.Config, run: seq<Sys>, events: seq<Event>, k: nat, m: nat)
    requires IsRun(cfg, run, events) && k <= m < |run|
    ensures run[k].store.nextId <= run[m].store.nextId && run[k].store.applied <= run[m].store.applied
  {
    if k < m {
      IdsGrow(cfg, run, events, k, m - 1);
      EventMonotone(cfg, run, events, m - 1);
    }
  }

  /** A completed node stays completed as long as its record is stored. */
  lemma {:induction false} CompletedForever(cfg: J.Config, run: seq<Sys>, events: seq<Event>, k: nat, m: nat, i: J.Id,
      n: J.Name)
    requires IsRun(cfg, run, events) && k <= m < |run| && i in run[m].store.records
    requires Props.PhaseAt(run[k].store, i, n) == Some(J.Completed)
    ensures Props.PhaseAt(run[m].store, i, n) == Some(J.Completed)
  {
    if k < m {
      KeptThroughout(cfg, run, events, k, m - 1, m, i);
      CompletedForever(cfg, run, events, k, m - 1, i, n);
      EventMonotone(cfg, run, events, m - 1);
      PhaseKept(run[m - 1].store, run[m].store, i, n);
    }
  }

  lemma PhaseKept(st: J.Store, st': J.Store, i: J.Id, n: J.Name)
    requires Props.Monotone(st, st') == true && i in st'.records && Props.PhaseAt(st, i, n) == Some(J.Completed)
    ensures Props.PhaseAt(st', i, n) == Some(J.Completed)
  {
    assert Props.PhaseStep(Props.PhaseAt(st, i, n), Props.PhaseAt(st', i, n), (i, n) in st.applied);
  }

  /** The event after which the stored phase is applying and before which it was not. */
  predicate EntersApplying(run: seq<Sys>, k: nat, i: J.Id, n: J.Name)
    requires k + 1 < |run|
  {
    Props.PhaseAt(run[k].store, i, n) != Some(J.Applying) && Props.PhaseAt(run[k + 1].store, i, n) == Some(J.Applying)
  }

  /** No node enters applying twice, across any number of rounds and crashes. */
  lemma AppliesOnce(cfg: J.Config, run: seq<Sys>, events: seq<Event>, k: nat, m: nat, i: J.Id, n: J.Name)
    requires IsRun(cfg, run, events) && k <= m && m + 1 < |run|
    requires EntersApplying(run, k, i, n) && EntersApplying(run, m, i, n)
    ensures k == m
  {
    if k < m {
      RunInv(cfg, run, events, k + 1);
      assert Inv.AppliedTracked(run[k + 1].store);
      assert Inv.AppliedIn(run[k + 1].store, i, run[k + 1].store.records[i].record);
      IdsGrow(cfg, run, events, k + 1, m);
      EventMonotone(cfg, run, events, m);
      NotAgain(run[m].store, run[m + 1].store, i, n);
    }
  }

  lemma NotAgain(st: J.Store, st': J.Store, i: J.Id, n: J.Name)
    requires Props.Monotone(st, st') == true && (i, n) in st.applied
    ensures Props.PhaseAt(st', i, n) == Some(J.Applying) ==> Props.PhaseAt(st, i, n) == Some(J.Applying)
  {
    assert Props.PhaseStep(Props.PhaseAt(st, i, n), Props.PhaseAt(st', i, n), (i, n) in st.applied);
  }

  // ---- Artifacts.

  /** Every planned node of an unfinished record has its own bundle in the store. */
  lemma PlannedHasBundle(cfg: J.Config, run: seq<Sys>, events: seq<Event>, k: nat, i: J.Id, n: J.Name)
    requires IsRun(cfg, run, events) && k < |run|
    requires Props.PhaseAt(run[k].store, i, n) == Some(J.Planned) && run[k].store.records[i].record.finishedAt.None?
    ensures var st := run[k].store; var plan := st.records[i].record.nodes[n].plan;
      plan.Some? && plan.value in st.bundles && st.bundles[plan.value].id == i && st.bundles[plan.value].node == n
  {
    RunInv(cfg, run, events, k);
    var st := run[k].store;
    var r := st.records[i].record;
    assert Inv.Shape(r) && Inv.PlannedHavePlans(r);
    assert Inv.PlansKept(st, i, r);
    assert Inv.PlanKept(st, i, r, n);
    assert Inv.BundlesOwned(st);
  }

  /** No event removes a plan, a backup or a record of an execution that is unfinished or needs recovery. */
  lemma EvidenceKept(cfg: J.Config, run: seq<Sys>, events: seq<Event>, k: nat)
    requires IsRun(cfg, run, events) && k < |events|
    ensures Props.OnlyDisposables(run[k].store, run[k + 1].store)
  {
    RunInv(cfg, run, events, k);
    assert Goes(cfg, run, events, k);
    if events[k].Step? {
      var pr := run[k].actors[events[k].pid].proc;
      assert Inv.ProcOk(run[k].store, pr);
      Props.StepDisposes(cfg, run[k].store, pr, events[k].a);
    }
  }
}
