/** How a session over the real store stands for a process of module Journal. */
module Links {
  import opened Options
  import opened Outcomes
  import opened ExecutionStore
  import opened Sessions
  import opened JournalTrace
  import J = Journal

  /** What a store fault means to the journal. */
  function OutcomeOf(f: Fault): Outcome {
    match f
    case NoFault => Stored
    case NotSynced => StoredButFailed
    case _ => Lost
  }

  /** The stored record and the session's copy of it. */
  ghost predicate RecordLinked(objects: Objects<Blob>, key: Key, record: Doc, revision: Revision, st: J.Store,
      pr: J.Proc) {
    && pr.record == Abs(record) && pr.rev < st.nextRev
    && (J.Current(st, pr) <==> key in objects && objects[key].revision == revision)
    && (pr.id in st.records <==> key in objects)
    && (key in objects ==> objects[key].data.RunBlob? && st.records[pr.id].record == Abs(objects[key].data.doc))
  }

  /** Every stored bundle, and nothing else under a plan's key. */
  ghost predicate BundlesLinked(objects: Objects<Blob>, st: J.Store) {
    && (forall p :: p in st.bundles ==> p < st.nextPlan && BundleAt(objects, p, st.bundles[p]))
    && (forall p :: PlanKey(p) in objects ==> p in st.bundles)
  }

  predicate BundleAt(objects: Objects<Blob>, p: J.PlanId, b: J.Bundle) {
    PlanKey(p) in objects && objects[PlanKey(p)].data == BundleBlob(b)
  }

  ghost predicate Linked(s: Session, t: Trace)
    reads s, s.store
  {
    && s.Valid() && Sound(t) == true
    && RecordLinked(s.store.objects, s.key, s.record, s.revision, t.st, t.pr) == true
    && BundlesLinked(s.store.objects, t.st) == true
  }

  // ---- Writes of the record.

  /** One key of the objects was rewritten, or none. */
  lemma BundlesApart(key: Key, before: Objects<Blob>, after: Objects<Blob>, st: J.Store, st': J.Store)
    requires BundlesLinked(before, st) && IsRunKey(key) && after - {key} == before - {key}
    requires st'.bundles == st.bundles && st'.nextPlan == st.nextPlan
    ensures BundlesLinked(after, st') == true
  {
    forall p ensures PlanKey(p) in after <==> PlanKey(p) in before
      ensures PlanKey(p) in after ==> after[PlanKey(p)] == before[PlanKey(p)]
    {
      KeysApart(key, p);
      assert PlanKey(p) in after <==> PlanKey(p) in after - {key};
      assert PlanKey(p) in before <==> PlanKey(p) in before - {key};
    }
    forall p | p in st'.bundles ensures p < st'.nextPlan && BundleAt(after, p, st'.bundles[p]) {
      assert BundleAt(before, p, st.bundles[p]);
    }
  }

  /** The journal's view of a write: what is stored and what the process holds afterwards. */
  ghost predicate Writes(st: J.Store, pr: J.Proc, next: J.Record, o: Outcome, st': J.Store, pr': J.Proc) {
    && pr'.id == pr.id
    && pr'.record == (if J.Succeeds(st, pr, o) then next else pr.record)
    && pr'.rev == (if J.Succeeds(st, pr, o) then st.nextRev else pr.rev)
    && st'.records == (if J.Effective(st, pr, o) then st.records[pr.id := J.Entry(st.nextRev, next)] else st.records)
    && st'.nextRev == st.nextRev + (if J.Effective(st, pr, o) then 1 else 0)
    && st'.bundles == st.bundles && st'.nextPlan == st.nextPlan
  }

  /** A session's write and the journal's agree, whatever fault there is. */
  lemma WriteLinked(
      key: Key, before: Objects<Blob>, record: Doc, revision: Revision, after: Objects<Blob>, record': Doc,
        revision': Revision,
      fault: Fault, next: Doc, st: J.Store, pr: J.Proc, st': J.Store, pr': J.Proc)
    requires RecordLinked(before, key, record, revision, st, pr)
      && Writes(st, pr, Abs(next), OutcomeOf(fault), st', pr')
    requires var current := key in before && before[key].revision == revision;
      && (current && fault.NoFault? ==>
            record' == next && key in after && after[key] == Object(revision', RunBlob(next)))
      && (!(current && fault.NoFault?) ==> record' == record && revision' == revision)
      && (!(current && Lands(fault)) ==> after == before)
      && (current && fault.NotSynced? ==>
        key in after && after[key].data == RunBlob(next) && after[key].revision != revision)
    ensures RecordLinked(after, key, record', revision', st', pr') == true
  {
  }

  /** Publishing through the session is publishing in the journal. */
  method Publish(s: Session, ghost t: Trace, ghost w: J.Write, next: Doc, fault: Fault)
    returns (ok: bool, ghost t': Trace)
    requires Linked(s, t) == true && J.CanWrite(t.st, t.pr, w) && Distinct(next.rows)
      && Abs(next) == J.Target(t.st, t.pr, w)
    modifies s`record, s`revision, s.store
    ensures t' == Add(t, J.Publish(w, OutcomeOf(fault))) && Linked(s, t') == true
    ensures t'.st == J.Published(t.st, t.pr, w, OutcomeOf(fault))
      && t'.pr == J.Publisher(t.st, t.pr, w, OutcomeOf(fault))
    ensures ok <==> J.Succeeds(t.st, t.pr, OutcomeOf(fault))
    ensures ok ==> s.record == next
    ensures s.store.objects - {s.key} == old(s.store.objects) - {s.key}
  {
    ghost var before, record, revision := s.store.objects, s.record, s.revision;
    ok := s.Publish(next, fault);
    t' := Add(t, J.Publish(w, OutcomeOf(fault)));
    AddSound(t, J.Publish(w, OutcomeOf(fault)));
    PublishWrites(t.st, t.pr, w, OutcomeOf(fault));
    WriteLinked(s.key, before, record, revision, s.store.objects, s.record, s.revision, fault, next, t.st, t.pr, t'.st,
      t'.pr);
    BundlesApart(s.key, before, s.store.objects, t.st, t'.st);
  }

  lemma PublishWrites(st: J.Store, pr: J.Proc, w: J.Write, o: Outcome)
    ensures Writes(st, pr, J.Target(st, pr, w), o, J.Published(st, pr, w, o), J.Publisher(st, pr, w, o)) == true
  {
  }

  /** Recording a transition through the session is recording it in the journal. */
  method Transition(s: Session, ghost t: Trace, n: Name, phase: J.Phase, plan: Option<J.PlanId>, fault: Fault)
    returns (ok: bool, ghost t': Trace)
    requires Linked(s, t) == true && CanTransition(t.st, t.pr, n, phase) && plan == J.PlanOf(t.pr, n)
    modifies s`record, s`revision, s.store
    ensures t'.log == Then(t.log, t.st, t.pr, J.Publish(J.Transition(n, phase), OutcomeOf(fault)))
      && Linked(s, t') == true && SameJob(t, t')
    ensures ok <==> J.Current(t.st, t.pr) && fault.NoFault?
    ensures s.store.objects - {s.key} == old(s.store.objects) - {s.key}
    ensures WorkerAt(t'.pr, n, if ok then J.After(t.pr.job, phase) else J.Stopped)
    ensures ok ==> J.Current(t'.st, t'.pr) && t'.pr.record.nodes[n].phase == phase
    ensures ok && plan.Some? ==> t'.pr.record.nodes[n].plan == plan
    ensures !ok ==> t'.pr.record == t.pr.record
    ensures t'.st.bundles == t.st.bundles && t'.st.nextPlan == t.st.nextPlan
  {
    ghost var before, record, revision := s.store.objects, s.record, s.revision;
    ghost var next := s.record.(rows := MoveRows(s.record.rows, n, phase, plan));
    MoveRowsAbs(s.record, n, phase, plan);
    ok := s.Transition(n, phase, plan, fault);
    t' := Add(t, J.Publish(J.Transition(n, phase), OutcomeOf(fault)));
    TransitionStep(t, n, phase, OutcomeOf(fault));
    WriteLinked(s.key, before, record, revision, s.store.objects, s.record, s.revision, fault, next, t.st, t.pr, t'.st,
      t'.pr);
    BundlesApart(s.key, before, s.store.objects, t.st, t'.st);
  }

  /** Steps that only record what is known of a mutation. */
  lemma SameStoreLinked(s: Session, t: Trace, t': Trace)
    requires Linked(s, t) == true && Sound(t') == true && t'.st == t.st.(unknown := t'.st.unknown)
    requires t'.pr.record == t.pr.record && t'.pr.rev == t.pr.rev && t'.pr.id == t.pr.id
    ensures Linked(s, t') == true
  {
    forall p | p in t'.st.bundles ensures p < t'.st.nextPlan && BundleAt(s.store.objects, p, t'.st.bundles[p]) {
      assert BundleAt(s.store.objects, p, t.st.bundles[p]);
    }
  }

  /** Another key was written, or none. */
  lemma RecordStays(key: Key, before: Objects<Blob>, after: Objects<Blob>, record: Doc, revision: Revision,
      st: J.Store, st': J.Store, pr: J.Proc, pr': J.Proc)
    requires RecordLinked(before, key, record, revision, st, pr)
    requires (key in after <==> key in before) && (key in before ==> after[key] == before[key])
    requires st'.records == st.records && st'.nextRev == st.nextRev && pr'.record == pr.record && pr'.rev == pr.rev
      && pr'.id == pr.id
    ensures RecordLinked(after, key, record, revision, st', pr') == true
  {
  }

  // ---- Backups.

  /** Writing the backup of the execution, in the store and in the journal. */
  method StoreBackup(s: Session, ghost t: Trace, n: Name, fault: Fault) returns (ok: bool, ghost t': Trace)
    requires Linked(s, t) == true && t.pr.job.Run? && n in t.pr.workers && WorkerAt(t.pr, n, t.pr.workers[n])
      && t.pr.workers[n].MutReturned?
    modifies s.store
    ensures Linked(s, t') == true && SameJob(t, t') && t'.pr == t.pr && t'.st == t.st.(backups := t'.st.backups)
    ensures t'.log.Then? && t'.log.prev == t.log && t'.log.action.Work? && t'.log.action.work.Backup?
    ensures ok <==> BackupKey(s.key) !in old(s.store.objects) && fault.NoFault?
    ensures ok ==> BackupKey(s.key) in s.store.objects && s.store.objects[BackupKey(s.key)].data == BackupBlob
  {
    ghost var before := s.store.objects;
    BackupKeyApart(s.key);
    var r := s.store.Write(BackupKey(s.key), BackupBlob, None, fault);
    ok := r.Ok?;
    ghost var o := if ok then Stored else if s.store.objects == before then Lost else StoredButFailed;
    t' := Add(t, J.Work(J.Backup(n, o)));
    BackupStep(t, n, o);
    ElsewhereLinked(BackupKey(s.key), before, s.store.objects, t.st, t'.st);
  }

  /** A key that belongs to no plan was written, or nothing. */
  lemma ElsewhereLinked(key: Key, before: Objects<Blob>, after: Objects<Blob>, st: J.Store, st': J.Store)
    requires BundlesLinked(before, st) && (forall p :: key != PlanKey(p))
      && (after == before || (key in after && after == before[key := after[key]]))
    requires st'.bundles == st.bundles && st'.nextPlan == st.nextPlan
    ensures BundlesLinked(after, st') == true
  {
    forall p | p in st'.bundles ensures p < st'.nextPlan && BundleAt(after, p, st'.bundles[p]) {
      assert BundleAt(before, p, st.bundles[p]);
    }
  }

  /** The record says that there is a backup. */
  method MarkBackup(s: Session, ghost t: Trace, fault: Fault) returns (ok: bool, ghost t': Trace)
    requires Linked(s, t) == true && t.pr.pc.Working? && !t.pr.stage.Unchecked? && J.Engaged(t.pr.job)
    modifies s`record, s`revision, s.store
    ensures Linked(s, t') == true && SameJob(t, t') && t'.pr.record == t.pr.record
    ensures t'.pr == t.pr.(rev := t'.pr.rev) && t'.st == t.st.(records := t'.st.records, nextRev := t'.st.nextRev,
      applied := t'.st.applied)
    ensures J.Current(t.st, t.pr) ==> t.pr.id in t'.st.records && t'.st.records[t.pr.id].record == t.pr.record
    ensures ok <==> J.Current(t.st, t.pr) && fault.NoFault?
    ensures ok ==> s.record.backup && J.Current(t'.st, t'.pr)
    ensures s.store.objects - {s.key} == old(s.store.objects) - {s.key}
  {
    assert t.pr.record.(status := t.pr.record.status) == t.pr.record;
    ok, t' := Publish(s, t, J.Touch(t.pr.record.status), s.record.(backup := true), fault);
  }

  // ---- Bundles.

  /** Writing a bundle under a fresh plan's key, in the store and in the journal. */
  method Retain(s: Session, ghost t: Trace, n: Name, plan: J.PlanId, bundle: J.Bundle, fault: Fault)
    returns (ok: bool, ghost t': Trace)
    requires Linked(s, t) == true && WorkerAt(t.pr, n, J.Prepared) && (t.pr.job.Run? || J.Saves(t.pr.job))
    requires plan == t.st.nextPlan && bundle == J.Bundle(t.pr.id, n, t.st.now + t.cfg.planTTL)
    modifies s.store
    ensures t'.log == Then(t.log, t.st, t.pr, J.Work(J.Retain(n, OutcomeOf(fault)))) && Linked(s, t') == true
      && SameJob(t, t')
    ensures ok <==> fault.NoFault?
    ensures WorkerAt(t'.pr, n, if ok then J.Retained(plan) else J.Stopped)
    ensures ok ==> BundleAt(s.store.objects, plan, bundle) && plan in t'.st.bundles && t'.st.bundles[plan] == bundle
    ensures t'.pr.record == t.pr.record && (J.Current(t'.st, t'.pr) <==> J.Current(t.st, t.pr))
  {
    ghost var before := s.store.objects;
    KeysApart(s.key, plan);
    assert PlanKey(plan) !in before;
    var r := s.store.Write(PlanKey(plan), BundleBlob(bundle), None, fault);
    ok := r.Ok?;
    t' := Add(t, J.Work(J.Retain(n, OutcomeOf(fault))));
    RetainStep(t, n, OutcomeOf(fault));
    RecordStays(s.key, before, s.store.objects, s.record, s.revision, t.st, t'.st, t.pr, t'.pr);
    BundleWritten(before, s.store.objects, plan, bundle, t.st, t'.st);
  }

  lemma BundleWritten(before: Objects<Blob>, after: Objects<Blob>, plan: J.PlanId, bundle: J.Bundle, st: J.Store,
      st': J.Store)
    requires BundlesLinked(before, st) && st'.nextPlan == plan + 1 && plan == st.nextPlan
    requires (after == before && st'.bundles == st.bundles)
      || (PlanKey(plan) in after && after == before[PlanKey(plan) := after[PlanKey(plan)]]
        && after[PlanKey(plan)].data == BundleBlob(bundle)
          && st'.bundles == st.bundles[plan := bundle])
    ensures BundlesLinked(after, st') == true
  {
    forall p | p in st'.bundles ensures p < st'.nextPlan && BundleAt(after, p, st'.bundles[p]) {
      assert p in st.bundles ==> BundleAt(before, p, st.bundles[p]);
      if PlanKey(p) == PlanKey(plan) { PlanKeyInjective(p, plan); }
    }
    forall p | PlanKey(p) in after ensures p in st'.bundles {
      if PlanKey(p) == PlanKey(plan) { PlanKeyInjective(p, plan); }
    }
  }

  /** readPlanBundle: the bundle named by the record, if it is there, belongs to the node and has not expired. */
  method ReadPlanBundle(s: Session, ghost t: Trace, n: Name, id: J.Id, plan: Option<J.PlanId>, now: nat, fault: Fault)
    returns (usable: bool)
    requires Linked(s, t) == true && n in t.pr.record.nodes && plan == t.pr.record.nodes[n].plan && id == t.pr.id
      && now == t.st.now
    ensures usable <==> !fault.Unreadable? && J.BundleUsable(t.st, t.pr.id, t.pr.record, n)
    ensures usable <==>
      && !fault.Unreadable? && plan.Some? && plan.value in t.st.bundles
      && t.st.bundles[plan.value].id == id && t.st.bundles[plan.value].node == n
      && now < t.st.bundles[plan.value].expiresAt
  {
    if plan.None? {
      return false;
    }
    var r := s.store.Read(PlanKey(plan.value), fault);
    assert plan.value in t.st.bundles <==> PlanKey(plan.value) in s.store.objects;
    if r.Err? {
      return false;
    }
    assert BundleAt(s.store.objects, plan.value, t.st.bundles[plan.value]);
    var bundle := r.value.data.bundle;
    return bundle.id == id && bundle.node == n && now < bundle.expiresAt;
  }
}
