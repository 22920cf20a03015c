/** Sequences of steps of one process, as module Journal enables them. */
module JournalTrace {
  import opened Options
  import opened Outcomes
  import opened Journal

  /** The steps taken, each with the store and the process before it. */
  datatype Log = Start | Then(prev: Log, st: Store, pr: Proc, action: Action)

  /** Every logged step was enabled, and together they lead from the first store and process to the last. */
  ghost predicate Leads(cfg: Config, st0: Store, pr0: Proc, log: Log, st: Store, pr: Proc) {
    match log
    case Start => st == st0 && pr == pr0
    case Then(prev, st1, pr1, a) =>
      && Leads(cfg, st0, pr0, prev, st1, pr1)
      && Can(cfg, st1, pr1, a) && st == StoreAfter(cfg, st1, pr1, a) && pr == ProcAfter(cfg, st1, pr1, a)
  }

  /** Steps from `st0` and `pr0` that have led to `st` and `pr`. */
  datatype Trace = Trace(cfg: Config, st0: Store, pr0: Proc, log: Log, st: Store, pr: Proc)

  /** A mark for the logs a proof looks into. */
  predicate Named(log: Log) { true }

  /** The trace's log leads from its beginning to its end.  The quantifier says no more than that; it keeps the
      verifier from unfolding a log that a proof does not name. */
  ghost predicate Sound(t: Trace) {
    forall log {:trigger Named(log)} :: Named(log) && log == t.log ==> Leads(t.cfg, t.st0, t.pr0, log, t.st, t.pr)
  }

  lemma SoundLeads(t: Trace)
    requires Sound(t)
    ensures Leads(t.cfg, t.st0, t.pr0, t.log, t.st, t.pr)
  {
    assert Named(t.log);
  }

  function Begin(cfg: Config, st: Store, pr: Proc): Trace {
    Trace(cfg, st, pr, Start, st, pr)
  }

  ghost function Add(t: Trace, a: Action): Trace
    requires Can(t.cfg, t.st, t.pr, a)
  {
    t.(log := Then(t.log, t.st, t.pr, a), st := StoreAfter(t.cfg, t.st, t.pr, a), pr := ProcAfter(t.cfg, t.st, t.pr, a))
  }

  lemma AddSound(t: Trace, a: Action)
    requires Sound(t) && Can(t.cfg, t.st, t.pr, a)
    ensures Sound(Add(t, a)) == true
  {
    SoundLeads(t);
  }

  // ---- The same as a list of actions.

  function Actions(log: Log): seq<Action> {
    match log
    case Start => []
    case Then(prev, _, _, a) => Actions(prev) + [a]
  }

  /** The actions are enabled one after the other and end in `st` and `pr`. */
  ghost predicate Performs(cfg: Config, st0: Store, pr0: Proc, actions: seq<Action>, st: Store, pr: Proc) {
    if actions == [] then st == st0 && pr == pr0
    else
      var last := |actions| - 1;
      exists st1, pr1 ::
        Performs(cfg, st0, pr0, actions[..last], st1, pr1) && Can(cfg, st1, pr1, actions[last])
        && st == StoreAfter(cfg, st1, pr1, actions[last]) && pr == ProcAfter(cfg, st1, pr1, actions[last])
  }

  lemma {:induction false} LogPerforms(cfg: Config, st0: Store, pr0: Proc, log: Log, st: Store, pr: Proc)
    requires Leads(cfg, st0, pr0, log, st, pr)
    ensures Performs(cfg, st0, pr0, Actions(log), st, pr)
  {
    if log.Then? {
      LogPerforms(cfg, st0, pr0, log.prev, log.st, log.pr);
      var actions := Actions(log);
      assert actions[..|actions| - 1] == Actions(log.prev);
    }
  }

  // ---- What single steps of a node's worker do.

  /** The worker of `n` has reached `w`, in a session at work. */
  predicate WorkerAt(pr: Proc, n: Name, w: Worker) {
    pr.pc.Working? && pr.stage.Going? && n in pr.record.nodes && n in pr.workers && pr.workers[n] == w
  }

  /** No worker has touched the node yet. */
  predicate Untouched(pr: Proc, n: Name) {
    pr.pc.Working? && pr.stage.Going? && n in pr.record.nodes && n !in pr.workers
  }

  /** The process goes on with the same job. */
  predicate SameJob(t: Trace, t': Trace) {
    && t'.cfg == t.cfg && t'.st0 == t.st0 && t'.pr0 == t.pr0
    && t'.pr.job == t.pr.job && t'.pr.id == t.pr.id && t'.pr.frontier == t.pr.frontier && t'.st.now == t.st.now
  }

  ghost predicate CanTransition(st: Store, pr: Proc, n: Name, phase: Phase) {
    && pr.pc.Working? && pr.stage.Going? && n in pr.record.nodes && Permits(pr, n, phase)
    && (pr.job.ApplySaved? && n !in pr.workers ==> BundleUsable(st, pr.id, pr.record, n))
  }

  lemma TransitionStep(t: Trace, n: Name, phase: Phase, o: Outcome)
    requires Sound(t) == true && CanTransition(t.st, t.pr, n, phase)
    ensures var a := Publish(Transition(n, phase), o); Can(t.cfg, t.st, t.pr, a) && Sound(Add(t, a)) == true
    ensures var a := Publish(Transition(n, phase), o);
      var t', next := Add(t, a), SetPhase(t.pr.record, n, phase, PlanOf(t.pr, n));
      && t'.log == Then(t.log, t.st, t.pr, a) && SameJob(t, t')
      && WorkerAt(t'.pr, n, if Succeeds(t.st, t.pr, o) then After(t.pr.job, phase) else Stopped)
      && t'.pr.record == (if Succeeds(t.st, t.pr, o) then next else t.pr.record)
      && t'.pr.rev == (if Succeeds(t.st, t.pr, o) then t.st.nextRev else t.pr.rev)
      && t'.st.bundles == t.st.bundles && t'.st.nextPlan == t.st.nextPlan
      && t'.st.records == (if Effective(t.st, t.pr, o) then t.st.records[t.pr.id := Entry(t.st.nextRev, next)]
        else t.st.records)
      && t'.st.nextRev == t.st.nextRev + (if Effective(t.st, t.pr, o) then 1 else 0)
  {
    AddSound(t, Publish(Transition(n, phase), o));
  }

  /** A mutation that returns: launched, then back with a result. */
  lemma MutationStep(t: Trace, n: Name, result: Result)
    requires Sound(t) == true && (WorkerAt(t.pr, n, InitRecorded) || WorkerAt(t.pr, n, MutRecorded))
    ensures Can(t.cfg, t.st, t.pr, Work(Launch(n)))
      && Can(t.cfg, Add(t, Work(Launch(n))).st, Add(t, Work(Launch(n))).pr, Work(Return(n, result)))
    ensures var t1 := Add(t, Work(Launch(n))); var t' := Add(t1, Work(Return(n, result)));
      && Sound(t') == true && SameJob(t, t')
      && WorkerAt(t'.pr, n, if t.pr.workers[n].InitRecorded? then InitReturned(result) else MutReturned(result))
      && t'.pr.record == t.pr.record && t'.pr.rev == t.pr.rev
      && t'.st == t.st.(unknown := t'.st.unknown)
  {
    AddSound(t, Work(Launch(n)));
    AddSound(Add(t, Work(Launch(n))), Work(Return(n, result)));
  }

  lemma RetainStep(t: Trace, n: Name, o: Outcome)
    requires Sound(t) == true && WorkerAt(t.pr, n, Prepared) && (t.pr.job.Run? || Saves(t.pr.job))
    ensures var a := Work(Retain(n, o)); Can(t.cfg, t.st, t.pr, a) && Sound(Add(t, a)) == true
    ensures var a := Work(Retain(n, o)); var t' := Add(t, a);
      && t'.log == Then(t.log, t.st, t.pr, a) && SameJob(t, t')
      && WorkerAt(t'.pr, n, if o.Stored? then Retained(t.st.nextPlan) else Stopped)
      && t'.pr.record == t.pr.record && t'.pr.rev == t.pr.rev
      && t'.st.records == t.st.records && t'.st.nextRev == t.st.nextRev && t'.st.nextPlan == t.st.nextPlan + 1
      && t'.st.bundles == (if o.Lost? then t.st.bundles
        else t.st.bundles[t.st.nextPlan := Bundle(t.pr.id, n, t.st.now + t.cfg.planTTL)])
  {
    AddSound(t, Work(Retain(n, o)));
  }

  /** A backup leaves the session as it is. */
  lemma BackupStep(t: Trace, n: Name, o: Outcome)
    requires Sound(t) == true && t.pr.pc.Working? && t.pr.job.Run? && n in t.pr.workers && t.pr.workers[n].MutReturned?
    ensures var a := Work(Backup(n, o)); Can(t.cfg, t.st, t.pr, a) && Sound(Add(t, a)) == true
    ensures var a := Work(Backup(n, o)); var t' := Add(t, a);
      && SameJob(t, t') && t'.pr == t.pr && t'.st == t.st.(backups := t'.st.backups)
      && t'.st.backups == (if o.Lost? then t.st.backups else t.st.backups + {t.pr.id})
  {
    AddSound(t, Work(Backup(n, o)));
  }
}
