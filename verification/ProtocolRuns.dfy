/** Runs that exist: a crash that leaves evidence, a saved execution from plan to completion, and recovery from
    every reachable state. */
module ProtocolRuns {
  import opened Options
  import opened Outcomes
  import opened GraphLock
  import opened Protocol
  import J = Journal
  import Inv = JournalInvariant
  import T = JournalTrace
  import SavedRound

  // ---- A crash that matters.

  lemma Extend(cfg: J.Config, run: seq<Sys>, events: seq<Event>, e: Event)
    requires IsRun(cfg, run, events) && Enabled(cfg, run[|events|], e)
    ensures IsRun(cfg, run + [Next(cfg, run[|events|], e)], events + [e])
  {
    var run', events' := run + [Next(cfg, run[|events|], e)], events + [e];
    forall k: nat | k < |events'| ensures Goes(cfg, run', events', k) {
      assert k < |events| ==> Goes(cfg, run, events, k);
    }
  }

  /** A process that applies one node, in a given phase. */
  function Applying(n: J.Name, phase: J.Phase, rev: nat, workers: map<J.Name, J.Worker>): J.Proc {
    var r := J.Record(false, J.PreparingRun, None, None, false, None, map[n := J.Node(phase, None)]);
    J.Proc(J.Run(false), J.Working, J.Going, 0, r, rev, workers, {}, map[])
  }

  ghost predicate Alone(s: Sys, p: J.Proc) {
    s.actors == map[0 := Holding(0, p)] && s.lock == Some(0) && s.store.records == map[0 := J.Entry(p.rev, p.record)]
      && s.store.nextRev == p.rev + 1
  }

  lemma CreatingRun(cfg: J.Config) returns (run: seq<Sys>, events: seq<Event>)
    ensures IsRun(cfg, run, events)
    ensures var s := run[|events|];
      && s.actors.Keys == {0} && s.actors[0].Holding? && s.actors[0].tag == 0 && s.lock == Some(0)
      && s.actors[0].proc == J.Entering(J.Run(false)).(pc := J.Creating) && s.store == Start().store
  {
    run, events := [Start()], [];
    run, events := Go(cfg, run, events, Spawn(0, J.Run(false)));
    run, events := Go(cfg, run, events, Acquire(0, Accepted(true)));
    run, events := Go(cfg, run, events, Step(0, J.Look(J.List)));
    run, events := Go(cfg, run, events, Step(0, J.Look(J.ScanDone)));
    run, events := Go(cfg, run, events, Step(0, J.Look(J.SweepEnd)));
  }

  lemma CreatedRun(cfg: J.Config, n: J.Name) returns (run: seq<Sys>, events: seq<Event>)
    ensures IsRun(cfg, run, events) && Alone(run[|events|], Applying(n, J.Pending, 0, map[]))
  {
    run, events := CreatingRun(cfg);
    run, events := Go(cfg, run, events, Step(0, J.Create({n}, Stored)));
    var p := run[|events|].actors[0].proc;
    assert p.record.nodes == map[n := J.Node(J.Pending, None)];
    assert p == Applying(n, J.Pending, 0, map[]);
  }

  /** The intent to initialise the node is journaled. */
  lemma IntentRun(cfg: J.Config, n: J.Name) returns (run: seq<Sys>, events: seq<Event>)
    ensures IsRun(cfg, run, events) && Alone(run[|events|], Applying(n, J.Initializing, 1, map[n := J.InitRecorded]))
  {
    run, events := CreatedRun(cfg, n);
    run, events := Go(cfg, run, events, Step(0, J.Publish(J.Transition(n, J.Initializing), Stored)));
    var p := run[|events|].actors[0].proc;
    assert p.workers == map[n := J.InitRecorded] && p.record.nodes == map[n := J.Node(J.Initializing, None)];
    assert p == Applying(n, J.Initializing, 1, map[n := J.InitRecorded]);
  }

  lemma Go(cfg: J.Config, run: seq<Sys>, events: seq<Event>, e: Event) returns (run': seq<Sys>, events': seq<Event>)
    requires IsRun(cfg, run, events) && Enabled(cfg, run[|events|], e)
    ensures IsRun(cfg, run', events') && run'[|events'|] == Next(cfg, run[|events|], e)
    ensures events' == events + [e] && run <= run'
  {
    Extend(cfg, run, events, e);
    run', events' := run + [Next(cfg, run[|events|], e)], events + [e];
  }

  /** A crash right after a launch: the lock is left behind, and the record says that recovery is needed. */
  lemma CrashLeavesEvidence(cfg: J.Config, n: J.Name) returns (run: seq<Sys>, events: seq<Event>)
    ensures IsRun(cfg, run, events)
    ensures var s := run[|events|];
      && s.actors == map[] && s.lock.Some? && (0, n) in s.store.unknown
      && 0 in s.store.records && J.NeedsRecovery(s.store.records[0].record)
  {
    run, events := IntentRun(cfg, n);
    run, events := Go(cfg, run, events, Step(0, J.Work(J.Launch(n))));
    run, events := Go(cfg, run, events, Crash(0));
    WriteAheadAlways(cfg, run, events, |events|);
  }

  // ---- The steps of a process that holds the lock, as part of a run.

  /** The process `pid` goes from `pr0` to `pr`, and the store with it. */
  ghost predicate Played(s: Sys, s': Sys, pid: Pid, st: J.Store, pr: J.Proc) {
    && pid in s.actors && s.actors[pid].Holding?
    && s' == s.(store := st, actors := s.actors[pid := Holding(s.actors[pid].tag, pr)])
  }

  /** What a process may do on its own, it may do in any run that has brought it there: every result about
      runs holds of what follows. */
  lemma {:induction false} PlayLog(cfg: J.Config, run: seq<Sys>, events: seq<Event>, pid: Pid, log: T.Log, st: J.Store,
      pr: J.Proc)
    returns (run': seq<Sys>, events': seq<Event>)
    requires IsRun(cfg, run, events) && pid in run[|events|].actors && run[|events|].actors[pid].Holding?
    requires T.Leads(cfg, run[|events|].store, run[|events|].actors[pid].proc, log, st, pr)
    ensures IsRun(cfg, run', events') && events <= events' && run <= run'
      && Played(run[|events|], run'[|events'|], pid, st, pr)
  {
    if log.Start? {
      run', events' := run, events;
      assert run[|events|].actors[pid := run[|events|].actors[pid]] == run[|events|].actors;
    } else {
      run', events' := PlayLog(cfg, run, events, pid, log.prev, log.st, log.pr);
      run', events' := Go(cfg, run', events', Step(pid, log.action));
      var s, s' := run[|events|], run'[|events'|];
      assert s'.actors == s.actors[pid := Holding(s.actors[pid].tag, pr)];
    }
  }

  lemma Play(cfg: J.Config, run: seq<Sys>, events: seq<Event>, pid: Pid, t: T.Trace)
    returns (run': seq<Sys>, events': seq<Event>)
    requires IsRun(cfg, run, events) && pid in run[|events|].actors && run[|events|].actors[pid].Holding?
    requires T.Sound(t) && t.cfg == cfg && t.st0 == run[|events|].store && t.pr0 == run[|events|].actors[pid].proc
    ensures IsRun(cfg, run', events') && events <= events' && run <= run'
      && Played(run[|events|], run'[|events'|], pid, t.st, t.pr)
  {
    T.SoundLeads(t);
    run', events' := PlayLog(cfg, run, events, pid, t.log, t.st, t.pr);
  }

  /** A new process takes a free lock. */
  lemma Enters(cfg: J.Config, run: seq<Sys>, events: seq<Event>, pid: Pid, job: J.Job)
    returns (run': seq<Sys>, events': seq<Event>)
    requires IsRun(cfg, run, events) && pid !in run[|events|].actors && run[|events|].lock.None?
    ensures IsRun(cfg, run', events') && events <= events' && run <= run'
    ensures var s, s' := run[|events|], run'[|events'|];
      && s'.store == s.store && s'.lock == Some(s.nextTag)
        && s'.actors == s.actors[pid := Holding(s.nextTag, J.Entering(job))]
  {
    run', events' := Go(cfg, run, events, Spawn(pid, job));
    run', events' := Go(cfg, run', events', Acquire(pid, Accepted(true)));
    var s, s' := run[|events|], run'[|events'|];
    assert s'.actors == s.actors[pid := Holding(s.nextTag, J.Entering(job))];
  }

  // ---- A saved execution.

  /** Nobody holds the lock. */
  ghost predicate Quiet(s: Sys) { s.actors == map[] && s.lock.None? }

  /** A process comes, takes the steps of a trace, and goes. */
  lemma Visit(cfg: J.Config, run: seq<Sys>, events: seq<Event>, job: J.Job, t: T.Trace)
    returns (run': seq<Sys>, events': seq<Event>)
    requires IsRun(cfg, run, events) && Quiet(run[|events|])
    requires SavedRound.Left(cfg, run[|events|].store, job, t) == true
    ensures IsRun(cfg, run', events') && events <= events' && run <= run'
    ensures Quiet(run'[|events'|]) && run'[|events'|].store == t.st
  {
    run', events' := Enters(cfg, run, events, 0, job);
    run', events' := Play(cfg, run', events', 0, t);
    run', events' := Go(cfg, run', events', Close(0, Deleted));
    assert run'[|events'|].actors == map[];
  }

  /** No node of the execution depends on itself, even through others: predecessors rank lower. */
  ghost predicate Ranked(deps: J.Deps, names: set<J.Name>, rank: map<J.Name, nat>) {
    && names <= rank.Keys
    && forall n, p :: n in names && p in names && p in J.Upstream(deps, n) ==> rank[p] < rank[n]
  }

  /** As long as a node is left, some node is ready. */
  lemma FrontierFound(deps: J.Deps, names: set<J.Name>, completed: set<J.Name>, rank: map<J.Name, nat>)
    returns (frontier: set<J.Name>)
    requires Ranked(deps, names, rank) && completed <= names && completed != names
    ensures SavedRound.IsFrontier(deps, names, completed, frontier) && frontier != {}
  {
    frontier := set n | n in names && n !in completed && J.Upstream(deps, n) * names <= completed;
    assert names == completed + (names - completed);
    var n :| n in names - completed;
    var low := Lowest(names - completed, rank, n);
    forall p | p in J.Upstream(deps, low) * names ensures p in completed {
      assert rank[p] < rank[low];
    }
    assert low in frontier;
  }

  lemma {:induction false} Lowest(rest: set<J.Name>, rank: map<J.Name, nat>, n: J.Name) returns (low: J.Name)
    requires n in rest && rest <= rank.Keys
    ensures low in rest && forall m :: m in rest ==> rank[low] <= rank[m]
    decreases rank[n]
  {
    if m :| m in rest && rank[m] < rank[n] {
      low := Lowest(rest, rank, m);
    } else {
      low := n;
    }
  }

  lemma FrontierGrows(deps: J.Deps, names: set<J.Name>, completed: set<J.Name>, frontier: set<J.Name>)
    requires SavedRound.IsFrontier(deps, names, completed, frontier) && frontier != {} && completed <= names
    ensures completed + frontier <= names && names - (completed + frontier) < names - completed
  {
    var n :| n in frontier;
    assert n in names - completed && n !in names - (completed + frontier);
  }

  /** Planned nodes are applied, then the nodes that became ready are planned, until none is left. */
  lemma {:induction false} Rounds(cfg: J.Config, run: seq<Sys>, events: seq<Event>, deps: J.Deps, names: set<J.Name>,
      completed: set<J.Name>, frontier: set<J.Name>, rank: map<J.Name, nat>)
    returns (run': seq<Sys>, events': seq<Event>)
    requires cfg.planTTL > 0 && Ranked(deps, names, rank) == true && completed <= names
    requires SavedRound.IsFrontier(deps, names, completed, frontier) && frontier != {}
    requires IsRun(cfg, run, events) && Quiet(run[|events|])
    requires SavedRound.Waiting(run[|events|].store, deps, names, completed, frontier) == true
    ensures IsRun(cfg, run', events') && SavedRound.AllDone(run'[|events'|].store, deps, names) == true
    decreases names - completed
  {
    FrontierGrows(deps, names, completed, frontier);
    var t := SavedRound.Applies(cfg, run[|events|].store, deps, names, completed, frontier);
    run', events' := Visit(cfg, run, events, J.ApplySaved(0), t);
    var done := completed + frontier;
    if done != names {
      var next := FrontierFound(deps, names, done, rank);
      t := SavedRound.MorePlans(cfg, run'[|events'|].store, deps, names, done, next);
      run', events' := Visit(cfg, run', events', J.SaveMore(0), t);
      run', events' := Rounds(cfg, run', events', deps, names, done, next, rank);
    }
  }

  /** For all nodes and all predecessors without a cycle there is a run of planning and applying rounds, each by
      a process of its own, at whose end every node and the saved execution are completed. */
  lemma SavedLifetime(cfg: J.Config, deps: J.Deps, names: set<J.Name>, rank: map<J.Name, nat>)
    returns (run: seq<Sys>, events: seq<Event>)
    requires cfg.planTTL > 0 && names != {} && Ranked(deps, names, rank)
    ensures IsRun(cfg, run, events)
    ensures var st := run[|events|].store;
      && 0 in st.records && st.records[0].record.saved && st.records[0].record.status == J.CompletedRun
      && st.records[0].record.binding == Some(deps) && st.records[0].record.nodes.Keys == names
      && forall n :: n in names ==> st.records[0].record.nodes[n].phase == J.Completed
  {
    var frontier := FrontierFound(deps, names, {}, rank);
    var t := SavedRound.FirstPlans(cfg, deps, names, frontier);
    run, events := Visit(cfg, [Start()], [], J.SaveNew, t);
    run, events := Rounds(cfg, run, events, deps, names, {}, frontier, rank);
    assert SavedRound.AllCompleted(run[|events|].store.records[0].record, names);
  }

  // ---- Recovery is always possible.

  lemma {:induction false} Above(pids: set<Pid>) returns (pid: Pid)
    ensures forall p :: p in pids ==> p < pid
    decreases pids
  {
    pid := 0;
    if pids != {} {
      var p :| p in pids;
      var rest := Above(pids - {p});
      pid := if p < rest then rest else p + 1;
      assert forall q :: q in pids ==> q == p || q in pids - {p};
    }
  }

  /** The steps of an operator who has reviewed the state and retires the execution. */
  lemma Retires(cfg: J.Config, st: J.Store, id: J.Id) returns (t: T.Trace)
    requires Inv.Needy(st, id)
    ensures T.Sound(t) && t.cfg == cfg && t.st0 == st && t.pr0 == J.Entering(J.Recover(id, true)) && t.pr.pc.Leaving?
    ensures t.st.records.Keys == st.records.Keys && forall i :: i in st.records && i != id ==>
      t.st.records[i] == st.records[i]
    ensures t.st.records[id].record.recoveryAt.Some? && t.st.records[id].record.nodes == st.records[id].record.nodes
  {
    t := T.Begin(cfg, st, J.Entering(J.Recover(id, true)));
    T.AddSound(t, J.Look(J.OpenRecord));
    t := T.Add(t, J.Look(J.OpenRecord));
    T.AddSound(t, J.Publish(J.Acknowledge, Stored));
    t := T.Add(t, J.Publish(J.Acknowledge, Stored));
  }

  /** From every reachable state without a live owner of the lock in which an execution needs recovery, some
      continuation leads to one in which none does and no node was relabelled. */
  lemma RecoveryPossible(cfg: J.Config, run: seq<Sys>, events: seq<Event>, id: J.Id)
    returns (run': seq<Sys>, events': seq<Event>)
    requires IsRun(cfg, run, events) && Inv.Needy(run[|events|].store, id)
    requires forall p :: p in run[|events|].actors ==> !Owns(run[|events|].actors[p])
    ensures IsRun(cfg, run', events') && events <= events' && run <= run'
    ensures run'[|events'|].lock.None? && forall i :: !Inv.Needy(run'[|events'|].store, i)
    ensures id in run'[|events'|].store.records
      && run'[|events'|].store.records[id].record.nodes == run[|events|].store.records[id].record.nodes
  {
    var s := run[|events|];
    var pid := Above(s.actors.Keys);
    RunInv(cfg, run, events, |events|);
    var t := Retires(cfg, s.store, id);
    run', events' := Go(cfg, run, events, ForceRelease(Deleted));
    run', events' := Enters(cfg, run', events', pid, J.Recover(id, true));
    run', events' := Play(cfg, run', events', pid, t);
    run', events' := Go(cfg, run', events', Close(pid, Deleted));
    OthersNeedNothing(s.store, t.st, id);
  }

  lemma OthersNeedNothing(st: J.Store, st': J.Store, id: J.Id)
    requires Inv.StoreInv(st) && Inv.Needy(st, id) && st'.records.Keys == st.records.Keys
    requires forall i :: i in st.records && i != id ==> st'.records[i] == st.records[i]
    requires st'.records[id].record.recoveryAt.Some?
    ensures forall i :: !Inv.Needy(st', i)
  {
    forall i ensures !Inv.Needy(st', i) {
      assert i != id ==> (Inv.Needy(st', i) ==> Inv.Needy(st, i));
    }
  }

  // ---- Finished executions can be pruned, and waiting ones cancelled.

  /** Time passes. */
  lemma {:induction false} Waits(cfg: J.Config, run: seq<Sys>, events: seq<Event>, ticks: nat)
    returns (run': seq<Sys>, events': seq<Event>)
    requires IsRun(cfg, run, events)
    ensures IsRun(cfg, run', events') && events <= events' && run <= run'
    ensures var s := run[|events|];
      run'[|events'|] == s.(store := s.store.(now := s.store.now + ticks))
  {
    run', events' := run, events;
    if ticks > 0 {
      run', events' := Waits(cfg, run, events, ticks - 1);
      run', events' := Go(cfg, run', events', Tick);
    }
  }

  /** The pruning process has the record in its hands. */
  ghost predicate Picked(t: T.Trace, st: J.Store, id: J.Id) {
    && T.Sound(t) == true && t.pr.pc.Sweeping? && t.pr.id == id && id in t.st.records
    && t.st.records[id] == J.Entry(t.pr.rev, t.pr.record)
    && t.st.records == st.records && t.st.now == st.now && t.pr.job.Prune?
  }

  lemma Picks(cfg: J.Config, st: J.Store, id: J.Id) returns (t: T.Trace)
    requires id in st.records && !J.NeedsRecovery(st.records[id].record)
    ensures Picked(t, st, id) && t.cfg == cfg && t.st0 == st && t.pr0 == J.Entering(J.Prune) && t.st == st
  {
    t := T.Begin(cfg, st, J.Entering(J.Prune));
    T.AddSound(t, J.Look(J.List));
    t := T.Add(t, J.Look(J.List));
    T.AddSound(t, J.Look(J.SweepPick(id)));
    t := T.Add(t, J.Look(J.SweepPick(id)));
  }

  /** The plans of these nodes are removed. */
  lemma {:induction false} DropsBundles(t: T.Trace, st: J.Store, id: J.Id, names: set<J.Name>) returns (t': T.Trace)
    requires Picked(t, st, id) == true && t.pr.record.finishedAt.Some? && !J.NeedsRecovery(t.pr.record)
    requires forall n :: n in names ==> n in t.pr.record.nodes && t.pr.record.nodes[n].plan.Some?
    ensures Picked(t', st, id) == true && t'.pr == t.pr && t'.cfg == t.cfg && t'.st0 == t.st0 && t'.pr0 == t.pr0
    ensures t'.st.backups == t.st.backups && t'.st.bundles.Keys <= t.st.bundles.Keys
    ensures forall n :: n in names ==> t.pr.record.nodes[n].plan.value !in t'.st.bundles
    decreases names
  {
    t' := t;
    if names != {} {
      var n :| n in names;
      var a := J.Remove(J.BundleOf(n), Stored);
      T.AddSound(t, a);
      t' := DropsBundles(T.Add(t, a), st, id, names - {n});
    }
  }

  lemma DropsBackup(t: T.Trace, st: J.Store, id: J.Id) returns (t': T.Trace)
    requires Picked(t, st, id) == true && J.Aged(t.cfg, t.st, t.pr.record)
    ensures Picked(t', st, id) == true && t'.pr == t.pr && t'.cfg == t.cfg && t'.st0 == t.st0 && t'.pr0 == t.pr0
    ensures id !in t'.st.backups && t'.st.bundles == t.st.bundles
  {
    T.AddSound(t, J.Remove(J.BackupCopy, Stored));
    t' := T.Add(t, J.Remove(J.BackupCopy, Stored));
  }

  lemma DropsRecord(t: T.Trace, st: J.Store, id: J.Id) returns (t': T.Trace)
    requires Picked(t, st, id) == true && J.Aged(t.cfg, t.st, t.pr.record) && J.BundlesGone(t.st, t.pr.record)
      && id !in t.st.backups
    ensures T.Sound(t') && t'.cfg == t.cfg && t'.st0 == t.st0 && t'.pr0 == t.pr0 && t'.pr.pc.Leaving?
    ensures t'.st.records == st.records - {id}
  {
    T.AddSound(t, J.Remove(J.RecordItself, Stored));
    t' := T.Add(t, J.Remove(J.RecordItself, Stored));
    T.AddSound(t', J.Leave);
    t' := T.Add(t', J.Leave);
  }

  lemma Prunes(cfg: J.Config, st: J.Store, id: J.Id) returns (t: T.Trace)
    requires id in st.records && !J.NeedsRecovery(st.records[id].record) && J.Aged(cfg, st, st.records[id].record)
    ensures T.Sound(t) && t.cfg == cfg && t.st0 == st && t.pr0 == J.Entering(J.Prune) && t.pr.pc.Leaving?
    ensures t.st.records == st.records - {id}
  {
    t := Picks(cfg, st, id);
    var r := t.pr.record;
    var planned := set n | n in r.nodes && r.nodes[n].plan.Some?;
    t := DropsBundles(t, st, id, planned);
    t := DropsBackup(t, st, id);
    assert J.BundlesGone(t.st, t.pr.record);
    t := DropsRecord(t, st, id);
  }

  /** From every reachable state without a live owner of the lock, some continuation removes an execution that is
      finished and needs no recovery, and no other. */
  lemma PruningPossible(cfg: J.Config, run: seq<Sys>, events: seq<Event>, id: J.Id)
    returns (run': seq<Sys>, events': seq<Event>)
    requires IsRun(cfg, run, events) && id in run[|events|].store.records
    requires var r := run[|events|].store.records[id].record; r.finishedAt.Some? && !J.NeedsRecovery(r)
    requires forall p :: p in run[|events|].actors ==> !Owns(run[|events|].actors[p])
    ensures IsRun(cfg, run', events') && events <= events' && run <= run'
    ensures run'[|events'|].store.records == run[|events|].store.records - {id}
  {
    var s := run[|events|];
    var pid := Above(s.actors.Keys);
    run', events' := Go(cfg, run, events, ForceRelease(Deleted));
    run', events' := Waits(cfg, run', events', s.store.records[id].record.finishedAt.value + cfg.retention);
    var t := Prunes(cfg, run'[|events'|].store, id);
    run', events' := Enters(cfg, run', events', pid, J.Prune);
    run', events' := Play(cfg, run', events', pid, t);
  }

  lemma Cancels(cfg: J.Config, st: J.Store, id: J.Id) returns (t: T.Trace)
    requires id in st.records && st.records[id].record.finishedAt.None? && !J.NeedsRecovery(st.records[id].record)
    ensures T.Sound(t) && t.cfg == cfg && t.st0 == st && t.pr0 == J.Entering(J.Cancel(id))
    ensures id in t.st.records && t.st.records[id].record.status == J.Cancelled
      && t.st.records[id].record.finishedAt.Some? && t.st.records[id].record.nodes == st.records[id].record.nodes
  {
    t := T.Begin(cfg, st, J.Entering(J.Cancel(id)));
    T.AddSound(t, J.Look(J.OpenRecord));
    t := T.Add(t, J.Look(J.OpenRecord));
    T.AddSound(t, J.Publish(J.CancelRun, Stored));
    t := T.Add(t, J.Publish(J.CancelRun, Stored));
  }

  /** From every such state, some continuation cancels an unfinished execution that needs no recovery. */
  lemma CancelPossible(cfg: J.Config, run: seq<Sys>, events: seq<Event>, id: J.Id)
    returns (run': seq<Sys>, events': seq<Event>)
    requires IsRun(cfg, run, events) && id in run[|events|].store.records
    requires var r := run[|events|].store.records[id].record; r.finishedAt.None? && !J.NeedsRecovery(r)
    requires forall p :: p in run[|events|].actors ==> !Owns(run[|events|].actors[p])
    ensures IsRun(cfg, run', events') && events <= events' && run <= run'
    ensures var st := run'[|events'|].store;
      && id in st.records && st.records[id].record.status == J.Cancelled
      && st.records[id].record.nodes == run[|events|].store.records[id].record.nodes
  {
    var s := run[|events|];
    var pid := Above(s.actors.Keys);
    var t := Cancels(cfg, s.store, id);
    run', events' := Go(cfg, run, events, ForceRelease(Deleted));
    run', events' := Enters(cfg, run', events', pid, J.Cancel(id));
    run', events' := Play(cfg, run', events', pid, t);
  }
}
