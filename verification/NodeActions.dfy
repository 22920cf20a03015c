/** What apply, plan, destroy, run and the saved-plan commands do for one node, in the order they do it.

    Each body is run against the real store and, beside it, as steps of module Journal: every journal write,
    every mutation and every bundle is a step that the journal enables at that point, and the session stays
    linked to the journal's store and process.  What is proved about runs of the journal therefore holds of
    runs made of these bodies. */
module NodeActions {
  import opened Options
  import opened Outcomes
  import opened ExecutionStore
  import opened Sessions
  import opened JournalTrace
  import Links
  import J = Journal

  /** The backup file that a native command leaves. */
  datatype BackupFile = NoBackup | Unusable | Usable

  /** What the outside answers, in the order it is asked: are the inputs there, how does initialisation end, is
      a plan made, does it pass inspection, does it change anything, is the mutation permitted, how does it end,
      are its outputs read, checked and published; which backup a native command leaves; and is the store well. */
  datatype Outside = Outside(
    inputs: bool, init: J.Result, planned: bool, inspected: bool, changed: bool, permitted: bool,
    mutation: J.Result, outputs: bool, backup: BackupFile, healthy: bool)

  predicate AllWell(o: Outside) {
    && o.inputs && o.init.Fine? && o.planned && o.inspected && o.permitted && o.mutation.Fine? && o.outputs
    && o.healthy
  }

  ghost predicate BackedUp(s: Session)
    requires s.Valid()
    reads s, s.store
  {
    BackupKey(s.key) in s.store.objects
  }

  /** A backup file, if there is one, can be stored: no backup of the execution is in the way. */
  ghost predicate Archivable(s: Session, backup: BackupFile)
    requires s.Valid()
    reads s, s.store
  {
    !backup.Unusable? && (backup.Usable? ==> !BackedUp(s))
  }

  /** The session stands for the trace, which continues `t0`. */
  ghost predicate Follows(s: Session, t0: Trace, t: Trace)
    reads s, s.store
  {
    Links.Linked(s, t) == true && SameJob(t0, t)
  }

  ghost predicate At(s: Session, t: Trace, n: Name, w: J.Worker)
    reads s, s.store
  {
    Links.Linked(s, t) == true && WorkerAt(t.pr, n, w)
  }

  /** The node's phase in the record is stored. */
  ghost predicate Recorded(t: Trace, n: Name, phase: J.Phase) {
    J.Current(t.st, t.pr) && n in t.pr.record.nodes && t.pr.record.nodes[n].phase == phase
  }

  /** The node's phase in the store. */
  ghost predicate StoredAs(t: Trace, n: Name, phase: J.Phase) {
    var id := t.pr.id;
    id in t.st.records && n in t.st.records[id].record.nodes && t.st.records[id].record.nodes[n].phase == phase
  }

  /** The last step tried to record this phase. */
  predicate LastRecords(log: Log, n: Name, phase: J.Phase) {
    log.Then? && log.action.Publish? && log.action.write == J.Transition(n, phase)
  }

  // ---- The kinds of steps.

  method Record(s: Session, ghost t: Trace, n: Name, phase: J.Phase, plan: Option<J.PlanId>, healthy: bool)
    returns (ok: bool, ghost t': Trace)
    requires Links.Linked(s, t) == true && CanTransition(t.st, t.pr, n, phase) && plan == J.PlanOf(t.pr, n)
    modifies s`record, s`revision, s.store
    ensures Follows(s, t, t') == true && WorkerAt(t'.pr, n, if ok then J.After(t.pr.job, phase) else J.Stopped)
    ensures LastRecords(t'.log, n, phase) && t'.log.prev == t.log
      && t'.log.action.o == (if ok then Stored else t'.log.action.o)
    ensures ok ==> Recorded(t', n, phase) && (plan.Some? ==> t'.pr.record.nodes[n].plan == plan)
    ensures !ok ==> t'.pr.record == t.pr.record
    ensures healthy && J.Current(t.st, t.pr) ==> ok
    ensures t'.st.bundles == t.st.bundles && t'.st.nextPlan == t.st.nextPlan
    ensures BackedUp(s) == old(BackedUp(s))
  {
    var fault := Chance(healthy);
    ghost var before := s.store.objects;
    ok, t' := Links.Transition(s, t, n, phase, plan, fault);
    BackupKeyApart(s.key);
    var backup := BackupKey(s.key);
    assert backup in s.store.objects <==> backup in s.store.objects - {s.key};
    assert backup in before <==> backup in before - {s.key};
  }

  /** A mutation: the runtime is called and returns with a result. */
  method Mutate(s: Session, ghost t: Trace, n: Name, result: J.Result) returns (ghost t': Trace)
    requires At(s, t, n, J.InitRecorded) == true || At(s, t, n, J.MutRecorded)
    ensures Follows(s, t, t') == true && t'.pr.record == t.pr.record
      && (J.Current(t'.st, t'.pr) <==> J.Current(t.st, t.pr))
    ensures WorkerAt(t'.pr, n, if t.pr.workers[n].InitRecorded? then J.InitReturned(result) else J.MutReturned(result))
    ensures t'.log.Then? && t'.log.action == J.Work(J.Return(n, result))
    ensures t'.log.prev.Then? && t'.log.prev.action == J.Work(J.Launch(n)) && t'.log.prev.prev == t.log
    ensures t'.st.bundles == t.st.bundles && t'.st.nextPlan == t.st.nextPlan
  {
    MutationStep(t, n, result);
    t' := Add(Add(t, J.Work(J.Launch(n))), J.Work(J.Return(n, result)));
    Links.SameStoreLinked(s, t, t');
  }

  /** fail: an unknown end is recorded as indeterminate, a mutation that never started as failed. */
  method Fail(s: Session, ghost t: Trace, n: Name, result: J.Result, healthy: bool) returns (ghost t': Trace)
    requires !result.Fine? && (At(s, t, n, J.InitReturned(result)) || At(s, t, n, J.MutReturned(result)))
    modifies s`record, s`revision, s.store
    ensures Follows(s, t, t') == true && t'.log.Then? && t'.log.prev == t.log
    ensures t'.st.bundles == t.st.bundles && t'.st.nextPlan == t.st.nextPlan
    ensures BackedUp(s) == old(BackedUp(s))
    ensures result.NotStarted? ==> LastRecords(t'.log, n, J.Failed)
    ensures result.Broken? ==> LastRecords(t'.log, n, J.Indeterminate)
    ensures healthy && J.Current(t.st, t.pr) ==>
      Recorded(t', n, if result.NotStarted? then J.Failed else J.Indeterminate)
  {
    var ok;
    ok, t' := Record(s, t, n, if result.NotStarted? then J.Failed else J.Indeterminate, None, healthy);
  }

  /** retainPlan: the bundle is in the store before the node is recorded as planned. */
  method Retain(s: Session, ghost t: Trace, n: Name, plan: J.PlanId, bundle: J.Bundle, healthy: bool)
    returns (ok: bool, ghost t': Trace)
    requires At(s, t, n, J.Prepared) == true && (t.pr.job == J.Run(false) || J.Saves(t.pr.job))
    requires plan == t.st.nextPlan && bundle == J.Bundle(t.pr.id, n, t.st.now + t.cfg.planTTL)
    modifies s`record, s`revision, s.store
    ensures Follows(s, t, t') == true
    ensures ok ==> WorkerAt(t'.pr, n, if J.Saves(t.pr.job) then J.Stopped else J.Prepared) && Recorded(t', n, J.Planned)
    ensures ok ==> t'.pr.record.nodes[n].plan == Some(plan)
    ensures ok ==> PlanKey(plan) in s.store.objects && s.store.objects[PlanKey(plan)].data == BundleBlob(bundle)
    ensures ok ==> BundledThenPlanned(t.log, t'.log, n)
    ensures healthy && J.Current(t.st, t.pr) ==> ok
  {
    var fault := Chance(healthy);
    ok, t' := Links.Retain(s, t, n, plan, bundle, fault);
    if !ok {
      return;
    }
    ok, t' := PlanRetained(s, t', n, plan, bundle, healthy);
  }

  /** The bundle is stored: the node is recorded as planned. */
  method PlanRetained(s: Session, ghost t: Trace, n: Name, plan: J.PlanId, bundle: J.Bundle, healthy: bool)
    returns (ok: bool, ghost t': Trace)
    requires At(s, t, n, J.Retained(plan)) == true && (t.pr.job == J.Run(false) || J.Saves(t.pr.job))
    requires plan in t.st.bundles && t.st.bundles[plan] == bundle
    modifies s`record, s`revision, s.store
    ensures Follows(s, t, t') == true
    ensures ok ==> WorkerAt(t'.pr, n, if J.Saves(t.pr.job) then J.Stopped else J.Prepared) && Recorded(t', n, J.Planned)
    ensures ok ==> t'.pr.record.nodes[n].plan == Some(plan)
    ensures ok ==> PlanKey(plan) in s.store.objects && s.store.objects[PlanKey(plan)].data == BundleBlob(bundle)
    ensures LastRecords(t'.log, n, J.Planned) && t'.log.prev == t.log
    ensures healthy && J.Current(t.st, t.pr) ==> ok
  {
    ok, t' := Record(s, t, n, J.Planned, Some(plan), healthy);
    if ok {
      PlannedKeepsBundle(s, t, t', plan, bundle);
    }
  }

  /** The log goes on with the bundle's write and then the node's. */
  predicate BundledThenPlanned(before: Log, after: Log, n: Name) {
    && LastRecords(after, n, J.Planned) && after.prev.Then?
    && after.prev.action == J.Work(J.Retain(n, Stored)) && after.prev.prev == before
  }

  lemma PlannedKeepsBundle(s: Session, t: Trace, t': Trace, plan: J.PlanId, bundle: J.Bundle)
    requires Links.Linked(s, t') && plan in t.st.bundles && t.st.bundles[plan] == bundle
      && t'.st.bundles == t.st.bundles
    ensures PlanKey(plan) in s.store.objects && s.store.objects[PlanKey(plan)].data == BundleBlob(bundle)
  {
    assert Links.BundleAt(s.store.objects, plan, bundle);
  }

  // ---- What a log tells.

  /** A mutation was launched and came back well. */
  predicate RanFine(log: Log, n: Name) {
    && log.Then? && log.action == J.Work(J.Return(n, J.Fine))
    && log.prev.Then? && log.prev.action == J.Work(J.Launch(n))
  }

  /** The log goes on with the intent, the launched and returned initialisation, and the phase after it. */
  predicate InitialisedThen(before: Log, after: Log, n: Name, phase: J.Phase) {
    && LastRecords(after, n, phase) && RanFine(after.prev, n)
    && LastRecords(after.prev.prev.prev, n, J.Initializing) && after.prev.prev.prev.prev == before
  }

  /** The log goes on with the intent, the launched and returned apply, applied, and completed. */
  predicate AppliedThen(before: Log, after: Log, n: Name) {
    && LastRecords(after, n, J.Completed) && LastRecords(after.prev, n, J.Applied) && RanFine(after.prev.prev, n)
    && LastRecords(after.prev.prev.prev.prev, n, J.Applying) && after.prev.prev.prev.prev.prev == before
  }

  /** The log goes on with the intent, the launched and returned command, and completed. */
  predicate OperatedThen(before: Log, after: Log, n: Name) {
    && LastRecords(after, n, J.Completed) && RanFine(after.prev, n)
    && LastRecords(after.prev.prev.prev, n, J.Operating) && after.prev.prev.prev.prev == before
  }

  // ---- Preparing a node.

  /** The intent, the initialisation and what came of it. */
  method Initialise(s: Session, ghost t: Trace, n: Name, after: J.Phase, o: Outside) returns (ok: bool, ghost t': Trace)
    requires Links.Linked(s, t) == true && Untouched(t.pr, n)
    requires (t.pr.job == J.Run(false) && (after == J.Preparing || after == J.Completed))
      || (J.Saves(t.pr.job) && n in t.pr.frontier && after == J.Preparing)
      || (t.pr.job.ApplySaved? && n in t.pr.frontier && after == J.Planned
        && J.BundleUsable(t.st, t.pr.id, t.pr.record, n))
    modifies s`record, s`revision, s.store
    ensures Follows(s, t, t') == true && t'.st.bundles == t.st.bundles && t'.st.nextPlan == t.st.nextPlan
    ensures BackedUp(s) == old(BackedUp(s))
    ensures ok ==> WorkerAt(t'.pr, n, J.After(t.pr.job, after)) && Recorded(t', n, after)
    ensures ok ==> o.init.Fine? && InitialisedThen(t.log, t'.log, n, after)
    ensures o.init.Fine? && o.healthy && J.Current(t.st, t.pr) ==> ok
    ensures o.init.NotStarted? && o.healthy && J.Current(t.st, t.pr) ==> Recorded(t', n, J.Failed)
    ensures o.init.Broken? && o.healthy && J.Current(t.st, t.pr) ==> Recorded(t', n, J.Indeterminate)
  {
    ok, t' := Record(s, t, n, J.Initializing, None, o.healthy);
    if !ok {
      return;
    }
    t' := Mutate(s, t', n, o.init);
    ok, t' := Initialised(s, t', n, after, o);
  }

  method Initialised(s: Session, ghost t: Trace, n: Name, after: J.Phase, o: Outside)
    returns (ok: bool, ghost t': Trace)
    requires At(s, t, n, J.InitReturned(o.init)) == true
    requires (t.pr.job == J.Run(false) && (after == J.Preparing || after == J.Completed))
      || (J.Saves(t.pr.job) && after == J.Preparing)
      || (t.pr.job.ApplySaved? && after == J.Planned)
    modifies s`record, s`revision, s.store
    ensures Follows(s, t, t') == true && t'.st.bundles == t.st.bundles && t'.st.nextPlan == t.st.nextPlan
    ensures BackedUp(s) == old(BackedUp(s))
    ensures ok ==> WorkerAt(t'.pr, n, J.After(t.pr.job, after)) && Recorded(t', n, after)
    ensures ok ==> o.init.Fine? && LastRecords(t'.log, n, after) && t'.log.prev == t.log
    ensures o.init.Fine? && o.healthy && J.Current(t.st, t.pr) ==> ok
    ensures o.init.NotStarted? && o.healthy && J.Current(t.st, t.pr) ==> Recorded(t', n, J.Failed)
    ensures o.init.Broken? && o.healthy && J.Current(t.st, t.pr) ==> Recorded(t', n, J.Indeterminate)
  {
    if o.init.Fine? {
      ok, t' := Record(s, t, n, after, None, o.healthy);
    } else {
      ok := false;
      t' := Fail(s, t, n, o.init, o.healthy);
    }
  }

  // ---- Mutating it.

  /** The backup of a native command is stored and noted in the record.  If any of that fails, the outcome of
      the command stays unrecorded. */
  method Archive(s: Session, ghost t: Trace, n: Name, backup: BackupFile, healthy: bool)
    returns (ok: bool, ghost t': Trace)
    requires t.pr.job == J.Run(false) && n in t.pr.workers && t.pr.workers[n].MutReturned?
      && At(s, t, n, t.pr.workers[n]) == true
    modifies s`record, s`revision, s.store
    ensures Follows(s, t, t') == true && WorkerAt(t'.pr, n, t.pr.workers[n]) && t'.pr.record == t.pr.record
    ensures backup.NoBackup? ==> ok && t' == t
    ensures ok ==> !backup.Unusable? && (J.Current(t.st, t.pr) ==> J.Current(t'.st, t'.pr))
    ensures ok && backup.Usable? ==> s.record.backup
    ensures J.Current(t.st, t.pr) ==> t.pr.id in t'.st.records && t'.st.records[t.pr.id].record == t.pr.record
    ensures healthy && J.Current(t.st, t.pr) && old(Archivable(s, backup)) ==> ok
  {
    t' := t;
    if !backup.Usable? {
      return backup.NoBackup?, t';
    }
    var fault := Chance(healthy);
    ok, t' := Links.StoreBackup(s, t, n, fault);
    if ok {
      fault := Chance(healthy);
      ok, t' := Links.MarkBackup(s, t', fault);
    }
    var removed := Ask(healthy);
    ok := ok && removed;
  }

  /** What follows a recorded intent.  A backup that cannot be archived leaves the outcome unrecorded; an
      unknown end is recorded as indeterminate, one that never started as failed. */
  method RunRecorded(s: Session, ghost t: Trace, n: Name, intent: J.Phase, o: Outside)
    returns (ok: bool, archived: bool, ghost t': Trace)
    requires (intent == J.Applying || intent == J.Operating) && At(s, t, n, J.MutRecorded)
      && t.pr.record.nodes[n].phase == intent
    requires t.pr.job == J.Run(false) || (t.pr.job.ApplySaved? && intent == J.Applying)
    modifies s`record, s`revision, s.store
    ensures Follows(s, t, t') == true
    ensures ok ==> Recorded(t', n, J.Completed) && o.mutation.Fine? && archived && (intent == J.Applying ==> o.outputs)
    ensures ok && intent == J.Applying ==>
      LastRecords(t'.log, n, J.Completed) && LastRecords(t'.log.prev, n, J.Applied) && RanFine(t'.log.prev.prev, n)
        && t'.log.prev.prev.prev.prev == t.log
    ensures ok && intent == J.Operating && o.backup.NoBackup? ==>
      LastRecords(t'.log, n, J.Completed) && RanFine(t'.log.prev, n) && t'.log.prev.prev.prev == t.log
    ensures intent == J.Applying ==> archived
    ensures o.backup.Unusable? && intent == J.Operating ==> !archived
    ensures !archived ==> !ok && t'.pr.record == t.pr.record && (J.Current(t.st, t.pr) ==> StoredAs(t', n, intent))
    ensures archived && o.mutation.NotStarted? ==> LastRecords(t'.log, n, J.Failed)
    ensures archived && o.mutation.Broken? ==> LastRecords(t'.log, n, J.Indeterminate)
    ensures archived && o.mutation.NotStarted? && o.healthy && J.Current(t.st, t.pr) ==> Recorded(t', n, J.Failed)
    ensures archived && o.mutation.Broken? && o.healthy && J.Current(t.st, t.pr) ==> Recorded(t', n, J.Indeterminate)
    ensures intent == J.Applying && o.mutation.Fine? && !o.outputs && o.healthy && J.Current(t.st, t.pr) ==>
      Recorded(t', n, J.Applied)
    ensures o.healthy && J.Current(t.st, t.pr) && old(Archivable(s, o.backup)) ==> archived
    ensures archived && o.mutation.Fine? && o.outputs && o.healthy && J.Current(t.st, t.pr) ==> ok
  {
    t' := Mutate(s, t, n, o.mutation);
    archived := true;
    if intent == J.Operating {
      archived, t' := Archive(s, t', n, o.backup, o.healthy);
    }
    if !archived {
      ok := false;
      return;
    }
    ok, t' := Conclude(s, t', n, intent, o);
  }

  /** The mutation has returned, and its backup, if any, is kept: its end is recorded. */
  method Conclude(s: Session, ghost t: Trace, n: Name, intent: J.Phase, o: Outside)
    returns (ok: bool, ghost t': Trace)
    requires (intent == J.Applying || intent == J.Operating) && At(s, t, n, J.MutReturned(o.mutation))
      && t.pr.record.nodes[n].phase == intent
    modifies s`record, s`revision, s.store
    ensures Follows(s, t, t') == true
    ensures ok ==> Recorded(t', n, J.Completed) && o.mutation.Fine? && LastRecords(t'.log, n, J.Completed)
    ensures ok && intent == J.Operating ==> t'.log.prev == t.log
    ensures ok && intent == J.Applying ==>
      && o.outputs && LastRecords(t'.log.prev, n, J.Applied)
      && t'.log.prev.prev == t.log
    ensures o.mutation.NotStarted? ==> LastRecords(t'.log, n, J.Failed)
    ensures o.mutation.Broken? ==> LastRecords(t'.log, n, J.Indeterminate)
    ensures o.mutation.NotStarted? && o.healthy && J.Current(t.st, t.pr) ==> Recorded(t', n, J.Failed)
    ensures o.mutation.Broken? && o.healthy && J.Current(t.st, t.pr) ==> Recorded(t', n, J.Indeterminate)
    ensures intent == J.Applying && o.mutation.Fine? && !o.outputs && o.healthy && J.Current(t.st, t.pr) ==>
      Recorded(t', n, J.Applied)
    ensures o.mutation.Fine? && (intent == J.Operating || o.outputs) && o.healthy && J.Current(t.st, t.pr) ==> ok
  {
    if o.mutation.Fine? {
      ok, t' := Succeed(s, t, n, intent, o);
    } else {
      ok := false;
      t' := Fail(s, t, n, o.mutation, o.healthy);
    }
  }

  /** The mutation ended well: a native operation is done, an apply still has outputs to read. */
  method Succeed(s: Session, ghost t: Trace, n: Name, intent: J.Phase, o: Outside)
    returns (ok: bool, ghost t': Trace)
    requires (intent == J.Applying || intent == J.Operating) && At(s, t, n, J.MutReturned(J.Fine))
      && t.pr.record.nodes[n].phase == intent
    modifies s`record, s`revision, s.store
    ensures Follows(s, t, t') == true
    ensures ok ==> Recorded(t', n, J.Completed) && LastRecords(t'.log, n, J.Completed)
    ensures ok && intent == J.Operating ==> t'.log.prev == t.log
    ensures ok && intent == J.Applying ==>
      && o.outputs && LastRecords(t'.log.prev, n, J.Applied)
      && t'.log.prev.prev == t.log
    ensures intent == J.Applying && !o.outputs && o.healthy && J.Current(t.st, t.pr) ==> Recorded(t', n, J.Applied)
    ensures (intent == J.Operating || o.outputs) && o.healthy && J.Current(t.st, t.pr) ==> ok
  {
    if intent == J.Operating {
      ok, t' := Record(s, t, n, J.Completed, None, o.healthy);
      return;
    }
    ok, t' := Record(s, t, n, J.Applied, None, o.healthy);
    if !ok {
      return;
    }
    if !o.outputs {
      return false, t';
    }
    ok, t' := Record(s, t', n, J.Completed, None, o.healthy);
  }

  /** The intent and what follows it. */
  method MutateAndCollect(s: Session, ghost t: Trace, n: Name, intent: J.Phase, o: Outside)
    returns (ok: bool, ghost t': Trace)
    requires (intent == J.Applying || intent == J.Operating) && Links.Linked(s, t) == true
    requires (t.pr.job == J.Run(false) && (WorkerAt(t.pr, n, J.Prepared)
      || (intent == J.Operating && Untouched(t.pr, n))))
      || (t.pr.job.ApplySaved? && intent == J.Applying && WorkerAt(t.pr, n, J.Prepared))
    modifies s`record, s`revision, s.store
    ensures Follows(s, t, t') == true
    ensures ok ==> Recorded(t', n, J.Completed) && o.mutation.Fine? && (intent == J.Applying ==> o.outputs)
    ensures ok && intent == J.Applying ==> AppliedThen(t.log, t'.log, n)
    ensures ok && intent == J.Operating && o.backup.NoBackup? ==> OperatedThen(t.log, t'.log, n)
    ensures intent == J.Operating && o.backup.Unusable? && o.healthy && J.Current(t.st, t.pr) ==>
      !ok && StoredAs(t', n, J.Operating)
    ensures o.mutation.NotStarted? && o.healthy && old(Archivable(s, o.backup)) && J.Current(t.st, t.pr) ==>
      !ok && Recorded(t', n, J.Failed)
    ensures o.mutation.Broken? && o.healthy && old(Archivable(s, o.backup)) && J.Current(t.st, t.pr) ==>
      !ok && Recorded(t', n, J.Indeterminate)
    ensures intent == J.Applying && o.mutation.Fine? && !o.outputs && o.healthy && J.Current(t.st, t.pr) ==>
      !ok && Recorded(t', n, J.Applied)
    ensures o.mutation.Fine? && o.outputs && o.healthy && old(Archivable(s, o.backup)) && J.Current(t.st, t.pr) ==> ok
  {
    ok, t' := RecordIntent(s, t, n, intent, o.healthy);
    if ok {
      var archived;
      ok, archived, t' := RunRecorded(s, t', n, intent, o);
    }
  }

  method RecordIntent(s: Session, ghost t: Trace, n: Name, intent: J.Phase, healthy: bool)
    returns (ok: bool, ghost t': Trace)
    requires (intent == J.Applying || intent == J.Operating) && Links.Linked(s, t) == true
    requires (t.pr.job == J.Run(false) && (WorkerAt(t.pr, n, J.Prepared)
      || (intent == J.Operating && Untouched(t.pr, n))))
      || (t.pr.job.ApplySaved? && intent == J.Applying && WorkerAt(t.pr, n, J.Prepared))
    modifies s`record, s`revision, s.store
    ensures Follows(s, t, t') == true && LastRecords(t'.log, n, intent) && t'.log.prev == t.log
    ensures ok ==> WorkerAt(t'.pr, n, J.MutRecorded) && Recorded(t', n, intent)
    ensures BackedUp(s) == old(BackedUp(s))
    ensures healthy && J.Current(t.st, t.pr) ==> ok
  {
    ok, t' := Record(s, t, n, intent, None, healthy);
  }

  // ---- Applying a prepared plan.

  /** applyPreparedPlan: inspection, policy and confirmation, intent, mutation, outcome, outputs, completion.  A
      plan that fails inspection or is not permitted leaves no mark and starts nothing. */
  method ApplyPreparedPlan(s: Session, ghost t: Trace, n: Name, verifyUnchanged: bool, o: Outside)
    returns (ok: bool, ghost t': Trace)
    requires At(s, t, n, J.Prepared) == true && (t.pr.job == J.Run(false) || (t.pr.job.ApplySaved? && verifyUnchanged))
    modifies s`record, s`revision, s.store
    ensures Follows(s, t, t') == true
    ensures ok ==> Recorded(t', n, J.Completed) && o.inspected && o.outputs
    ensures !o.inspected || ((o.changed || verifyUnchanged) && !o.permitted) ==>
      !ok && t' == t && s.store.objects == old(s.store.objects)
    ensures !o.changed && !verifyUnchanged ==> t' == t || (LastRecords(t'.log, n, J.Completed) && t'.log.prev == t.log)
    ensures !o.changed && !verifyUnchanged && !o.outputs ==> !ok && t' == t
    ensures ok && (o.changed || verifyUnchanged) ==> o.permitted && o.mutation.Fine? && AppliedThen(t.log, t'.log, n)
    ensures var runs := o.inspected && (o.changed || verifyUnchanged) && o.permitted && o.healthy;
      && (runs && J.Current(t.st, t.pr) && o.mutation.NotStarted? ==> Recorded(t', n, J.Failed))
      && (runs && J.Current(t.st, t.pr) && o.mutation.Broken? ==> Recorded(t', n, J.Indeterminate))
      && (runs && J.Current(t.st, t.pr) && o.mutation.Fine? && !o.outputs ==> Recorded(t', n, J.Applied))
    ensures o.inspected && o.permitted && o.mutation.Fine? && o.outputs && o.healthy && J.Current(t.st, t.pr) ==> ok
  {
    t' := t;
    if !o.inspected {
      return false, t';
    }
    if !o.changed && !verifyUnchanged {
      if !o.outputs {
        return false, t';
      }
      ok, t' := Record(s, t, n, J.Completed, None, o.healthy);
      return;
    }
    if !o.permitted {
      return false, t';
    }
    ok, t' := MutateAndCollect(s, t, n, J.Applying, o.(backup := NoBackup));
  }

  // ---- The commands.

  /** Apply's node action. */
  method ApplyNode(s: Session, ghost t: Trace, n: Name, retain: bool, plan: J.PlanId, bundle: J.Bundle, o: Outside)
    returns (ok: bool, ghost t': Trace)
    requires Links.Linked(s, t) == true && Untouched(t.pr, n) && t.pr.job == J.Run(false)
    requires plan == t.st.nextPlan && bundle == J.Bundle(t.pr.id, n, t.st.now + t.cfg.planTTL)
    modifies s`record, s`revision, s.store
    ensures Follows(s, t, t') == true
    ensures ok ==>
      && Recorded(t', n, J.Completed) && o.inputs && o.init.Fine? && o.planned && o.inspected && o.outputs
      && (o.changed ==> o.permitted && o.mutation.Fine?)
    ensures ok && o.changed && !retain ==>
      exists ready :: InitialisedThen(t.log, ready, n, J.Preparing) && AppliedThen(ready, t'.log, n)
    ensures ok && o.changed && retain ==>
      exists ready, kept :: InitialisedThen(t.log, ready, n, J.Preparing) && BundledThenPlanned(ready, kept, n)
        && AppliedThen(kept, t'.log, n)
    ensures !o.inputs ==> t' == t && s.store.objects == old(s.store.objects)
    ensures var begun := o.inputs && o.healthy && J.Current(t.st, t.pr);
      && (begun && o.init.NotStarted? ==> Recorded(t', n, J.Failed))
      && (begun && o.init.Broken? ==> Recorded(t', n, J.Indeterminate))
      && (begun && o.init.Fine? && !o.planned ==> Recorded(t', n, J.Preparing))
    ensures var ready := o.inputs && o.init.Fine? && o.planned && o.healthy && J.Current(t.st, t.pr);
      && (ready && (!o.inspected || (o.changed && !o.permitted)) ==>
          Recorded(t', n, if retain then J.Planned else J.Preparing))
      && (ready && o.inspected && o.changed && o.permitted && o.mutation.NotStarted? ==> Recorded(t', n, J.Failed))
      && (ready && o.inspected && o.changed && o.permitted && o.mutation.Broken? ==> Recorded(t', n, J.Indeterminate))
    ensures AllWell(o) && J.Current(t.st, t.pr) ==> ok
  {
    if !o.inputs {
      return false, t;
    }
    ok, t' := Initialise(s, t, n, J.Preparing, o);
    if !ok {
      return;
    }
    if !o.planned {
      return false, t';
    }
    ok, t' := RetainAndApply(s, t', n, retain, plan, bundle, o);
  }

  method RetainAndApply(s: Session, ghost t: Trace, n: Name, retain: bool, plan: J.PlanId, bundle: J.Bundle, o: Outside)
    returns (ok: bool, ghost t': Trace)
    requires At(s, t, n, J.Prepared) == true && t.pr.job == J.Run(false) && t.pr.record.nodes[n].phase == J.Preparing
    requires plan == t.st.nextPlan && bundle == J.Bundle(t.pr.id, n, t.st.now + t.cfg.planTTL)
    modifies s`record, s`revision, s.store
    ensures Follows(s, t, t') == true
    ensures ok ==>
      && Recorded(t', n, J.Completed) && o.inspected && o.outputs
      && (o.changed ==> o.permitted && o.mutation.Fine?)
    ensures ok && o.changed && !retain ==> AppliedThen(t.log, t'.log, n)
    ensures ok && o.changed && retain ==> exists kept ::
      BundledThenPlanned(t.log, kept, n) && AppliedThen(kept, t'.log, n)
    ensures var ready := o.healthy && J.Current(t.st, t.pr);
      && (ready && (!o.inspected || (o.changed && !o.permitted)) ==>
          Recorded(t', n, if retain then J.Planned else J.Preparing))
      && (ready && o.inspected && o.changed && o.permitted && o.mutation.NotStarted? ==> Recorded(t', n, J.Failed))
      && (ready && o.inspected && o.changed && o.permitted && o.mutation.Broken? ==> Recorded(t', n, J.Indeterminate))
    ensures o.inspected && o.permitted && o.mutation.Fine? && o.outputs && o.healthy && J.Current(t.st, t.pr) ==> ok
  {
    t' := t;
    if retain {
      ok, t' := Retain(s, t, n, plan, bundle, o.healthy);
      if !ok {
        return;
      }
    }
    ok, t' := ApplyPreparedPlan(s, t', n, false, o);
  }

  /** Plan's node action: initialises, plans and records completion; nothing else is mutated. */
  method PlanNode(s: Session, ghost t: Trace, n: Name, o: Outside) returns (ok: bool, ghost t': Trace)
    requires Links.Linked(s, t) == true && Untouched(t.pr, n) && t.pr.job == J.Run(false)
    modifies s`record, s`revision, s.store
    ensures Follows(s, t, t') == true
    ensures ok ==> Recorded(t', n, J.Completed) && o.inputs && o.init.Fine? && o.planned
    ensures ok ==> LastRecords(t'.log, n, J.Completed) && InitialisedThen(t.log, t'.log.prev, n, J.Preparing)
    ensures !o.inputs ==> t' == t && s.store.objects == old(s.store.objects)
    ensures var begun := o.inputs && o.healthy && J.Current(t.st, t.pr);
      && (begun && o.init.NotStarted? ==> Recorded(t', n, J.Failed))
      && (begun && o.init.Broken? ==> Recorded(t', n, J.Indeterminate))
      && (begun && o.init.Fine? && !o.planned ==> Recorded(t', n, J.Preparing))
    ensures o.inputs && o.init.Fine? && o.planned && o.healthy && J.Current(t.st, t.pr) ==> ok
  {
    if !o.inputs {
      return false, t;
    }
    ok, t' := Initialise(s, t, n, J.Preparing, o);
    if !ok {
      return;
    }
    if !o.planned {
      return false, t';
    }
    ok, t' := Record(s, t', n, J.Completed, None, o.healthy);
  }

  /** Destroy's node action: the native form, or the planned form that contracts require. */
  method DestroyNode(s: Session, ghost t: Trace, n: Name, planned: bool, o: Outside) returns (ok: bool, ghost t': Trace)
    requires Links.Linked(s, t) == true && Untouched(t.pr, n) && t.pr.job == J.Run(false)
    modifies s`record, s`revision, s.store
    ensures Follows(s, t, t') == true
    ensures ok ==>
      && Recorded(t', n, J.Completed) && o.inputs && o.permitted && o.mutation.Fine?
      && (planned ==> o.init.Fine? && o.planned)
    ensures ok && !planned ==> OperatedThen(t.log, t'.log, n)
    ensures ok && planned ==>
      exists ready :: InitialisedThen(t.log, ready, n, J.Preparing) && OperatedThen(ready, t'.log, n)
    ensures !o.inputs || (!planned && !o.permitted) ==> !ok && t' == t && s.store.objects == old(s.store.objects)
    ensures var begun := planned && o.inputs && o.healthy && J.Current(t.st, t.pr);
      && (begun && o.init.NotStarted? ==> Recorded(t', n, J.Failed))
      && (begun && o.init.Broken? ==> Recorded(t', n, J.Indeterminate))
      && (begun && o.init.Fine? && !(o.planned && o.permitted) ==> Recorded(t', n, J.Preparing))
    ensures var begun := o.inputs && (planned ==> o.init.Fine? && o.planned) && o.permitted && o.healthy
        && J.Current(t.st, t.pr);
      && (begun && o.mutation.NotStarted? ==> Recorded(t', n, J.Failed))
      && (begun && o.mutation.Broken? ==> Recorded(t', n, J.Indeterminate))
    ensures AllWell(o) && J.Current(t.st, t.pr) ==> ok
  {
    t' := t;
    if !o.inputs {
      return false, t';
    }
    if planned {
      ok, t' := Initialise(s, t, n, J.Preparing, o);
      if !ok {
        return;
      }
      if !o.planned {
        return false, t';
      }
    }
    ok, t' := Operate(s, t', n, o);
  }

  /** The admission of a destroy, and the destroy itself; its outputs are nobody's business. */
  method Operate(s: Session, ghost t: Trace, n: Name, o: Outside) returns (ok: bool, ghost t': Trace)
    requires Links.Linked(s, t) == true && (Untouched(t.pr, n) || WorkerAt(t.pr, n, J.Prepared))
      && t.pr.job == J.Run(false)
    modifies s`record, s`revision, s.store
    ensures Follows(s, t, t') == true
    ensures ok ==> Recorded(t', n, J.Completed) && o.permitted && o.mutation.Fine? && OperatedThen(t.log, t'.log, n)
    ensures !o.permitted ==> !ok && t' == t && s.store.objects == old(s.store.objects)
    ensures var begun := o.permitted && o.healthy && J.Current(t.st, t.pr);
      && (begun && o.mutation.NotStarted? ==> Recorded(t', n, J.Failed))
      && (begun && o.mutation.Broken? ==> Recorded(t', n, J.Indeterminate))
      && (begun && o.mutation.Fine? ==> ok)
  {
    if !o.permitted {
      return false, t;
    }
    ok, t' := MutateAndCollect(s, t, n, J.Operating, o.(backup := NoBackup, outputs := true));
  }

  /** RunNode: an init command or a mutating native command. */
  method RunNode(s: Session, ghost t: Trace, n: Name, init: bool, o: Outside) returns (ok: bool, ghost t': Trace)
    requires Links.Linked(s, t) == true && Untouched(t.pr, n) && t.pr.job == J.Run(false)
    modifies s`record, s`revision, s.store
    ensures Follows(s, t, t') == true
    ensures ok ==>
      && Recorded(t', n, J.Completed) && o.inputs
      && (if init then o.init.Fine? else o.permitted && o.mutation.Fine?)
    ensures ok && init ==> InitialisedThen(t.log, t'.log, n, J.Completed)
    ensures ok && !init && o.backup.NoBackup? ==> OperatedThen(t.log, t'.log, n)
    ensures !o.inputs || (!init && !o.permitted) ==> !ok && t' == t && s.store.objects == old(s.store.objects)
    ensures var begun := init && o.inputs && o.healthy && J.Current(t.st, t.pr);
      && (begun && o.init.NotStarted? ==> !ok && Recorded(t', n, J.Failed))
      && (begun && o.init.Broken? ==> !ok && Recorded(t', n, J.Indeterminate))
    ensures var begun := !init && o.inputs && o.permitted && o.healthy && J.Current(t.st, t.pr);
      && (begun && o.backup.Unusable? ==> !ok && StoredAs(t', n, J.Operating))
      && (begun && old(Archivable(s, o.backup)) && o.mutation.NotStarted? ==> !ok && Recorded(t', n, J.Failed))
      && (begun && old(Archivable(s, o.backup)) && o.mutation.Broken? ==> !ok && Recorded(t', n, J.Indeterminate))
    ensures AllWell(o) && old(Archivable(s, o.backup)) && J.Current(t.st, t.pr) ==> ok
  {
    if !o.inputs || (!init && !o.permitted) {
      return false, t;
    }
    if init {
      ok, t' := Initialise(s, t, n, J.Completed, o);
    } else {
      ok, t' := MutateAndCollect(s, t, n, J.Operating, o.(outputs := true));
    }
  }

  /** RunNode for a command that only reads: no intent is recorded. */
  method ReadNode(s: Session, ghost t: Trace, n: Name, read: bool, healthy: bool) returns (ok: bool, ghost t': Trace)
    requires Links.Linked(s, t) == true && Untouched(t.pr, n) && t.pr.job == J.Run(true)
    modifies s`record, s`revision, s.store
    ensures Follows(s, t, t') == true
    ensures ok ==> read && Recorded(t', n, J.Completed)
    ensures ok ==>
      && LastRecords(t'.log, n, J.Completed) && LastRecords(t'.log.prev, n, J.Reading)
      && t'.log.prev.prev == t.log
    ensures healthy && J.Current(t.st, t.pr) ==> ok == read && Recorded(t', n, if read then J.Completed else J.Failed)
  {
    ok, t' := Record(s, t, n, J.Reading, None, healthy);
    if ok {
      ok, t' := FinishRead(s, t', n, read, healthy);
    }
  }

  method FinishRead(s: Session, ghost t: Trace, n: Name, read: bool, healthy: bool) returns (ok: bool, ghost t': Trace)
    requires At(s, t, n, J.ReadRecorded) == true && t.pr.job == J.Run(true)
    modifies s`record, s`revision, s.store
    ensures Follows(s, t, t') == true
    ensures ok ==> read && Recorded(t', n, J.Completed) && LastRecords(t'.log, n, J.Completed) && t'.log.prev == t.log
    ensures healthy && J.Current(t.st, t.pr) ==> ok == read && Recorded(t', n, if read then J.Completed else J.Failed)
  {
    ok, t' := Record(s, t, n, if read then J.Completed else J.Failed, None, healthy);
    ok := ok && read;
  }

  /** saveFrontierNode: plans a ready node, stores its bundle and stops. */
  method SaveFrontierNode(s: Session, ghost t: Trace, n: Name, plan: J.PlanId, bundle: J.Bundle, o: Outside)
    returns (ok: bool, ghost t': Trace)
    requires Links.Linked(s, t) == true && Untouched(t.pr, n) && J.Saves(t.pr.job) && n in t.pr.frontier
    requires plan == t.st.nextPlan && bundle == J.Bundle(t.pr.id, n, t.st.now + t.cfg.planTTL)
    modifies s`record, s`revision, s.store
    ensures Follows(s, t, t') == true
    ensures ok ==>
      && Recorded(t', n, J.Planned) && t'.pr.record.nodes[n].plan == Some(plan)
      && o.inputs && o.init.Fine? && o.planned && o.inspected
    ensures ok ==> PlanKey(plan) in s.store.objects && s.store.objects[PlanKey(plan)].data == BundleBlob(bundle)
    ensures ok ==>
      exists ready :: InitialisedThen(t.log, ready, n, J.Preparing) && BundledThenPlanned(ready, t'.log, n)
    ensures !o.inputs ==> t' == t && s.store.objects == old(s.store.objects)
    ensures var begun := o.inputs && o.healthy && J.Current(t.st, t.pr);
      && (begun && o.init.NotStarted? ==> Recorded(t', n, J.Failed))
      && (begun && o.init.Broken? ==> Recorded(t', n, J.Indeterminate))
      && (begun && o.init.Fine? && !(o.planned && o.inspected) ==> Recorded(t', n, J.Preparing))
      && (begun && o.init.Fine? && o.planned && o.inspected ==> ok)
  {
    if !o.inputs {
      return false, t;
    }
    ok, t' := Initialise(s, t, n, J.Preparing, o);
    if !ok {
      return;
    }
    if !o.planned || !o.inspected {
      return false, t';
    }
    ok, t' := Retain(s, t', n, plan, bundle, o.healthy);
  }

  /** applySavedNode: applies the stored plan of a planned node, if its bundle is there, its own and current. */
  method ApplySavedNode(s: Session, ghost t: Trace, n: Name, id: J.Id, plan: Option<J.PlanId>, now: nat, o: Outside)
    returns (ok: bool, ghost t': Trace)
    requires Links.Linked(s, t) == true && Untouched(t.pr, n) && t.pr.job.ApplySaved? && n in t.pr.frontier
    requires id == t.pr.id && plan == t.pr.record.nodes[n].plan && now == t.st.now
    modifies s`record, s`revision, s.store
    ensures Follows(s, t, t') == true
    ensures ok ==>
      && Recorded(t', n, J.Completed) && o.inputs && o.init.Fine? && o.planned && o.inspected && o.permitted
      && o.mutation.Fine? && o.outputs
    ensures ok ==> exists ready :: InitialisedThen(t.log, ready, n, J.Planned) && AppliedThen(ready, t'.log, n)
    ensures var usable := plan.Some? && plan.value in t.st.bundles && t.st.bundles[plan.value].id == id
        && t.st.bundles[plan.value].node == n && now < t.st.bundles[plan.value].expiresAt;
      && (!usable || !o.inputs ==> !ok && t' == t && s.store.objects == old(s.store.objects))
      && (usable && AllWell(o) && J.Current(t.st, t.pr) ==> ok)
    ensures !ok && o.healthy && J.Current(t.st, t.pr) && t' != t ==>
      && (o.init.NotStarted? ==> Recorded(t', n, J.Failed))
      && (o.init.Broken? ==> Recorded(t', n, J.Indeterminate))
      && (o.init.Fine? && !(o.planned && o.inspected && o.permitted) ==> Recorded(t', n, J.Planned))
      && (o.init.Fine? && o.planned && o.inspected && o.permitted && o.mutation.NotStarted? ==>
          Recorded(t', n, J.Failed))
      && (o.init.Fine? && o.planned && o.inspected && o.permitted && o.mutation.Broken? ==>
          Recorded(t', n, J.Indeterminate))
  {
    var fault := Chance(o.healthy);
    var usable := Links.ReadPlanBundle(s, t, n, id, plan, now, fault);
    if !usable || !o.inputs {
      return false, t;
    }
    ok, t' := ApplyUsable(s, t, n, o);
  }

  /** The bundle is the node's own and current. */
  method ApplyUsable(s: Session, ghost t: Trace, n: Name, o: Outside) returns (ok: bool, ghost t': Trace)
    requires Links.Linked(s, t) == true && Untouched(t.pr, n) && t.pr.job.ApplySaved? && n in t.pr.frontier
    requires J.BundleUsable(t.st, t.pr.id, t.pr.record, n) == true
    modifies s`record, s`revision, s.store
    ensures Follows(s, t, t') == true
    ensures ok ==>
      && Recorded(t', n, J.Completed) && o.init.Fine? && o.planned && o.inspected && o.permitted
      && o.mutation.Fine? && o.outputs
    ensures ok ==> exists ready :: InitialisedThen(t.log, ready, n, J.Planned) && AppliedThen(ready, t'.log, n)
    ensures var begun := o.healthy && J.Current(t.st, t.pr);
      && (begun && o.init.NotStarted? ==> Recorded(t', n, J.Failed))
      && (begun && o.init.Broken? ==> Recorded(t', n, J.Indeterminate))
      && (begun && o.init.Fine? && !(o.planned && o.inspected && o.permitted) ==> Recorded(t', n, J.Planned))
      && (begun && o.init.Fine? && o.planned && o.inspected && o.permitted && o.mutation.NotStarted? ==>
          Recorded(t', n, J.Failed))
      && (begun && o.init.Fine? && o.planned && o.inspected && o.permitted && o.mutation.Broken? ==>
          Recorded(t', n, J.Indeterminate))
      && (begun && o.init.Fine? && o.planned && o.inspected && o.permitted && o.mutation.Fine? && o.outputs ==> ok)
  {
    ok, t' := Initialise(s, t, n, J.Planned, o);
    if !ok {
      return;
    }
    if !o.planned {
      return false, t';
    }
    ok, t' := ApplyPreparedPlan(s, t', n, true, o);
  }
}
