/** Every step of module Journal keeps the invariant. */
module JournalSteps {
  import opened Options
  import opened Outcomes
  import opened Journal
  import opened JournalInvariant
  import opened JournalWrites

  // ---- Steps that leave the store alone.

  lemma NoUnknownWhenSettled(st: Store, i: Id)
    requires WriteAhead(st) && i in st.records && !NeedsRecovery(st.records[i].record)
    ensures forall n :: (i, n) !in st.unknown
  {
    forall n ensures (i, n) !in st.unknown {
      if (i, n) in st.unknown {
        assert UnknownStored(st, i, n);
        assert NodeUnsettled(st.records[i].record, n);
      }
    }
  }

  lemma OpenKeeps(st: Store, pr: Proc)
    requires StoreInv(st) == true && CanLook(st, pr, OpenRecord) == true
    ensures ProcOk(st, Looked(st, pr, OpenRecord)) == true
  {
    var pr' := Looked(st, pr, OpenRecord);
    OpenFacts(st, pr.job);
    assert pr'.pc.Working? ==> WorkingOk(st, pr');
    forall i | Checked(pr', i) ensures !Needy(st, i) {
      assert pr.job.Recover? ==> Needy(st, pr.job.id);
    }
  }

  lemma OpenFacts(st: Store, job: Job)
    requires StoreInv(st) && Opens(job) && job.id in st.records
    ensures var e := st.records[job.id]; e.rev < st.nextRev && (e.record.finishedAt.Some? ==> !NeedsRecovery(e.record))
    ensures AtMostOneNeedy(st) == true
  {
    assert Shape(st.records[job.id].record);
  }

  lemma ScanKeeps(st: Store, pr: Proc, a: Look)
    requires StoreInv(st) == true && ProcOk(st, pr) == true && CanLook(st, pr, a) == true
    requires a.List? || a.ScanOne? || a.ScanDone?
    ensures ProcOk(st, Looked(st, pr, a)) == true
  {
    var pr' := Looked(st, pr, a);
    if pr'.pc.Working? {
      NoUnknownWhenSettled(st, pr.id);
      assert WorkingOk(st, pr');
    }
    forall i | Checked(pr', i) ensures !Needy(st, i) {
      assert Checked(pr, i) ==> !Needy(st, i);
    }
  }

  lemma SweepKeeps(st: Store, pr: Proc, a: Look)
    requires StoreInv(st) == true && ProcOk(st, pr) == true && CanLook(st, pr, a) == true
    requires a.SweepSkip? || a.SweepPick? || a.SweepNext? || a.SweepEnd?
    ensures ProcOk(st, Looked(st, pr, a)) == true
  {
    var pr' := Looked(st, pr, a);
    forall i | Checked(pr', i) ensures !Needy(st, i) {
      assert Checked(pr, i) ==> !Needy(st, i);
    }
  }

  lemma PlanStageKeeps(st: Store, pr: Proc, a: Work)
    requires StoreInv(st) == true && WorkingOk(st, pr) == true && CanWork(pr, a) == true
    requires a.Admit? || a.Frontier?
    ensures WorkingOk(st, Worked(st, pr, a)) == true
  {
    if a.Frontier? {
      FrontierStarts(st, pr);
    } else {
      AdmitKeeps(st, pr, a.deps);
    }
  }

  lemma AdmitKeeps(st: Store, pr: Proc, deps: Deps)
    requires StoreInv(st) == true && WorkingOk(st, pr) == true && pr.stage.Unchecked? && Open(pr.record.status)
    requires Saves(pr.job) ==> pr.record.binding.None? || pr.record.binding == Some(deps)
    ensures WorkingOk(st, pr.(stage := Admitted, deps := deps)) == true
  {
    CurrentGrounded(st, pr);
    assert Shape(pr.record);
    var pr' := pr.(stage := Admitted, deps := deps);
    assert SessionFits(st, pr') && FrontierFits(pr') && WorkersFit(pr');
  }

  lemma FrontierStarts(st: Store, pr: Proc)
    requires WorkingOk(st, pr) == true && pr.workers == map[]
    requires (pr.stage.Bound? && Saves(pr.job)) || (pr.stage.Admitted? && pr.job.ApplySaved?)
    ensures WorkingOk(st, pr.(stage := Going, frontier := FrontierOf(pr.job, pr.record, pr.deps))) == true
  {
    var pr' := pr.(stage := Going, frontier := FrontierOf(pr.job, pr.record, pr.deps));
    assert SessionFits(st, pr');
    forall n | n in pr'.frontier ensures n in pr'.record.nodes && FrontierNode(pr', n) {
    }
  }

  // ---- Steps of one worker that publish nothing.

  lemma FrontierStays(pr: Proc, n: Name, w: Worker)
    requires FrontierFits(pr) == true && (pr.job.ApplySaved? ==> n in pr.frontier)
    ensures FrontierFits(pr.(workers := pr.workers[n := w])) == true
  {
    var pr' := pr.(workers := pr.workers[n := w]);
    forall m | m in pr'.frontier ensures m in pr'.record.nodes && FrontierNode(pr', m) {
      assert FrontierNode(pr, m);
    }
  }

  lemma ReworkKeeps(st: Store, pr: Proc, n: Name, w: Worker)
    requires WorkingOk(st, pr) == true && n in pr.workers && n in pr.record.nodes
    requires Fits(pr.job, w, pr.record.nodes[n].phase) == true && !w.Retained?
    requires Hot(w) == Hot(pr.workers[n]) && (RecHot(w) ==> RecHot(pr.workers[n]))
    requires (pr.id, n) in st.unknown && Engaged(pr.job) ==> Hot(w) || w.Stopped?
    ensures WorkingOk(st, pr.(workers := pr.workers[n := w])) == true
  {
    var pr' := pr.(workers := pr.workers[n := w]);
    assert SessionFits(st, pr') && ReadOnlyCalm(pr') && WorkersFit(pr');
    FrontierStays(pr, n, w);
    assert HotStored(st, pr') && RecHotStored(st, pr') && UnknownOwned(st, pr') && RetainedStored(st, pr');
  }

  lemma WorkerFacts(st: Store, pr: Proc, n: Name)
    requires WorkingOk(st, pr) == true && n in pr.workers
    ensures n in pr.record.nodes && Fits(pr.job, pr.workers[n], pr.record.nodes[n].phase) == true
    ensures Hot(pr.workers[n]) ==> UnknownStored(st, pr.id, n) == true
    ensures RecHot(pr.workers[n]) ==>
      pr.id in st.records && st.records[pr.id].record.preparation && st.records[pr.id].record.recoveryAt.None?
    ensures !pr.job.Cancel? && (pr.stage.Going? || pr.stage.Over?) && (pr.job.ApplySaved? ==> n in pr.frontier)
    ensures Engaged(pr.job) && (pr.id, n) in st.unknown ==> Hot(pr.workers[n]) || pr.workers[n].Stopped?
  {
  }

  lemma ReturnKeeps(st: Store, pr: Proc, n: Name, result: Result)
    requires WorkingOk(st, pr) == true && n in pr.workers && Running(pr.workers[n])
    ensures WorkingOk(st, pr.(workers := pr.workers[n := Returned(pr.workers[n], result)])) == true
  {
    WorkerFacts(st, pr, n);
    ReworkKeeps(st, pr, n, Returned(pr.workers[n], result));
  }

  lemma ReadDirectlyKeeps(st: Store, pr: Proc, n: Name)
    requires WorkingOk(st, pr) == true && pr.job.Recover? && n in pr.record.nodes && pr.record.nodes[n].phase == Applied
      && n !in pr.workers
    ensures WorkingOk(st, pr.(workers := pr.workers[n := RecReady])) == true
  {
    var pr' := pr.(workers := pr.workers[n := RecReady]);
    assert SessionFits(st, pr') && ReadOnlyCalm(pr') && WorkersFit(pr');
    FrontierStays(pr, n, RecReady);
    assert HotStored(st, pr') && RecHotStored(st, pr') && UnknownOwned(st, pr') && RetainedStored(st, pr');
  }

  // ---- Starting a mutation: the intent is in the store first.

  lemma LaunchKeepsStore(cfg: Config, st: Store, pr: Proc, n: Name)
    requires StoreInv(st) == true && WorkingOk(st, pr) == true && CanWork(pr, Launch(n))
    ensures StoreInv(WorkedStore(cfg, st, pr, Launch(n))) == true
  {
    WorkerFacts(st, pr, n);
    if pr.workers[n].RecMarked? {
      MorePreparing(st, pr.id);
    } else {
      MoreUnknown(st, pr.id, n);
    }
  }

  lemma MoreUnknown(st: Store, id: Id, n: Name)
    requires StoreInv(st) && UnknownStored(st, id, n)
    ensures StoreInv(st.(unknown := st.unknown + {(id, n)})) == true
  {
    var st' := st.(unknown := st.unknown + {(id, n)});
    forall i, m | (i, m) in st'.unknown ensures UnknownStored(st', i, m) {
      assert UnknownStored(st, i, m);
    }
    assert AtMostOneNeedy(st') by {
      forall i, j | Needy(st', i) && Needy(st', j) ensures i == j {
        assert Needy(st, i) && Needy(st, j);
      }
    }
    SamePlans(st, st');
    assert AppliedTracked(st') by {
      forall i | i in st'.records ensures AppliedIn(st', i, st'.records[i].record) {
        assert AppliedIn(st, i, st.records[i].record);
      }
    }
  }

  lemma MorePreparing(st: Store, id: Id)
    requires StoreInv(st) && id in st.records && st.records[id].record.preparation
      && st.records[id].record.recoveryAt.None?
    ensures StoreInv(st.(preparing := st.preparing + {id})) == true
  {
    var st' := st.(preparing := st.preparing + {id});
    forall i, m | (i, m) in st'.unknown ensures UnknownStored(st', i, m) {
      assert UnknownStored(st, i, m);
    }
    assert AtMostOneNeedy(st') by {
      forall i, j | Needy(st', i) && Needy(st', j) ensures i == j {
        assert Needy(st, i) && Needy(st, j);
      }
    }
    SamePlans(st, st');
    assert AppliedTracked(st') by {
      forall i | i in st'.records ensures AppliedIn(st', i, st'.records[i].record) {
        assert AppliedIn(st, i, st.records[i].record);
      }
    }
  }

  lemma SamePlans(st: Store, st': Store)
    requires AllPlansKept(st) && st'.records == st.records && st'.issued == st.issued && st'.bundles == st.bundles
    ensures AllPlansKept(st') == true
  {
    forall i | i in st'.records ensures PlansKept(st', i, st'.records[i].record) {
      var r := st'.records[i].record;
      assert PlansKept(st, i, r);
      forall n | n in r.nodes && r.nodes[n].plan.Some? ensures PlanKept(st', i, r, n) {
        assert PlanKept(st, i, r, n);
      }
    }
  }

  lemma LaunchKeepsProc(cfg: Config, st: Store, pr: Proc, n: Name)
    requires WorkingOk(st, pr) == true && CanWork(pr, Launch(n))
    ensures WorkingOk(WorkedStore(cfg, st, pr, Launch(n)), Worked(st, pr, Launch(n))) == true
  {
    var st', pr' := WorkedStore(cfg, st, pr, Launch(n)), Worked(st, pr, Launch(n));
    WorkerFacts(st, pr, n);
    ReworkKeeps(st, pr, n, pr'.workers[n]);
    GhostKeeps(st, pr', st');
  }

  /** Only what is known about mutations changes, and only for workers in flight. */
  lemma GhostKeeps(st: Store, pr: Proc, st': Store)
    requires WorkingOk(st, pr) == true && st' == st.(unknown := st'.unknown, preparing := st'.preparing)
    requires Engaged(pr.job) ==> forall n :: (pr.id, n) in st'.unknown && (pr.id, n) !in st.unknown ==>
      n in pr.workers && Hot(pr.workers[n])
    ensures WorkingOk(st', pr) == true
  {
    assert SessionFits(st', pr);
    assert HotStored(st', pr) by {
      forall n | n in pr.workers && Hot(pr.workers[n]) ensures UnknownStored(st', pr.id, n) {
        assert UnknownStored(st, pr.id, n);
      }
    }
    assert UnknownOwned(st', pr);
  }

  // ---- Artifacts.

  lemma RetainKeepsStore(cfg: Config, st: Store, pr: Proc, n: Name, o: Outcome)
    requires StoreInv(st) && CanWork(pr, Retain(n, o)) == true
    ensures StoreInv(WorkedStore(cfg, st, pr, Retain(n, o))) == true
  {
    var st' := WorkedStore(cfg, st, pr, Retain(n, o));
    SameRecords(st, st');
    assert BundlesOwned(st');
    forall i | i in st'.records ensures PlansKept(st', i, st'.records[i].record) {
      var r := st'.records[i].record;
      assert PlansKept(st, i, r);
      forall m | m in r.nodes && r.nodes[m].plan.Some? ensures PlanKept(st', i, r, m) {
        assert PlanKept(st, i, r, m);
      }
    }
  }

  /** Changes to plans and backups do not touch what the records say. */
  lemma SameRecords(st: Store, st': Store)
    requires StoreInv(st)
    requires st'.records == st.records && st'.unknown == st.unknown && st'.preparing == st.preparing
      && st'.applied == st.applied
    ensures WriteAhead(st') == true && PreparingStored(st') == true && AtMostOneNeedy(st') == true
      && Shapes(st') == true && AppliedTracked(st') == true
  {
    forall i, m | (i, m) in st'.unknown ensures UnknownStored(st', i, m) {
      assert UnknownStored(st, i, m);
    }
    forall i, j | Needy(st', i) && Needy(st', j) ensures i == j {
      assert Needy(st, i) && Needy(st, j);
    }
    forall i | i in st'.records ensures AppliedIn(st', i, st'.records[i].record) {
      assert AppliedIn(st, i, st.records[i].record);
    }
  }

  /** New artifacts do not disturb the session. */
  lemma ArtifactsKeep(st: Store, pr: Proc, st': Store)
    requires WorkingOk(st, pr) == true && st'.records == st.records && st'.nextRev == st.nextRev
      && st'.unknown == st.unknown
    requires forall p :: p in st.issued ==> p in st'.issued && st'.issued[p] == st.issued[p]
    requires st.bundles.Keys <= st'.bundles.Keys
    ensures WorkingOk(st', pr) == true
  {
    assert SessionFits(st', pr);
    assert HotStored(st', pr) by {
      forall n | n in pr.workers && Hot(pr.workers[n]) ensures UnknownStored(st', pr.id, n) {
        assert UnknownStored(st, pr.id, n);
      }
    }
    assert RetainedStored(st', pr);
  }

  lemma RetainedKeeps(st: Store, pr: Proc, n: Name, p: PlanId)
    requires WorkingOk(st, pr) == true && WorkerIs(pr, n, Prepared) && !pr.job.ApplySaved?
    requires p in st.issued && st.issued[p] == (pr.id, n) && p in st.bundles
    ensures WorkingOk(st, pr.(workers := pr.workers[n := Retained(p)])) == true
  {
    var pr' := pr.(workers := pr.workers[n := Retained(p)]);
    WorkerFacts(st, pr, n);
    assert SessionFits(st, pr') && ReadOnlyCalm(pr') && WorkersFit(pr');
    FrontierStays(pr, n, Retained(p));
    assert HotStored(st, pr') && RecHotStored(st, pr') && UnknownOwned(st, pr') && RetainedStored(st, pr');
  }

  lemma RetainKeepsProc(cfg: Config, st: Store, pr: Proc, n: Name, o: Outcome)
    requires StoreInv(st) == true && WorkingOk(st, pr) == true && CanWork(pr, Retain(n, o))
    ensures WorkingOk(WorkedStore(cfg, st, pr, Retain(n, o)), Worked(st, pr, Retain(n, o))) == true
  {
    var st' := WorkedStore(cfg, st, pr, Retain(n, o));
    PlanIdFresh(st);
    ArtifactsKeep(st, pr, st');
    if o.Stored? {
      RetainedKeeps(st', pr, n, st.nextPlan);
    } else {
      WorkerFacts(st, pr, n);
      StopKeeps(st', pr, n);
    }
  }

  lemma PlanIdFresh(st: Store)
    requires StoreInv(st)
    ensures st.nextPlan !in st.issued
  {
  }

  /** Removing a finished record's bundle leaves every unfinished record its own. */
  lemma RemoveBundleKeepsStore(cfg: Config, st: Store, pr: Proc, n: Name, o: Outcome)
    requires StoreInv(st) && CanRemove(cfg, st, pr, BundleOf(n)) == true && Current(st, pr) && Linked(st, pr)
    ensures StoreInv(RemovedStore(cfg, st, pr, BundleOf(n), o)) == true
  {
    var st' := RemovedStore(cfg, st, pr, BundleOf(n), o);
    SameRecords(st, st');
    var p := pr.record.nodes[n].plan.value;
    assert PlansKept(st, pr.id, pr.record);
    assert PlanKept(st, pr.id, pr.record, n);
    forall i | i in st'.records ensures PlansKept(st', i, st'.records[i].record) {
      var r := st'.records[i].record;
      assert PlansKept(st, i, r);
      forall m | m in r.nodes && r.nodes[m].plan.Some? ensures PlanKept(st', i, r, m) {
        assert PlanKept(st, i, r, m);
      }
    }
  }

  lemma BackupsKeep(st: Store, st': Store)
    requires StoreInv(st) && st' == st.(backups := st'.backups) && forall i :: i in st'.backups ==> i in st.records
    ensures StoreInv(st') == true
  {
    SameRecords(st, st');
    SamePlans(st, st');
  }

  lemma RemoveRecordKeepsStore(st: Store, id: Id)
    requires StoreInv(st) && id in st.records && !NeedsRecovery(st.records[id].record) && id !in st.backups
    ensures StoreInv(st.(records := st.records - {id})) == true
  {
    var st' := st.(records := st.records - {id});
    NoUnknownWhenSettled(st, id);
    forall i, m | (i, m) in st'.unknown ensures UnknownStored(st', i, m) {
      assert UnknownStored(st, i, m);
    }
    assert AtMostOneNeedy(st') by {
      forall i, j | Needy(st', i) && Needy(st', j) ensures i == j {
        assert Needy(st, i) && Needy(st, j);
      }
    }
    assert AllPlansKept(st') by {
      forall i | i in st'.records ensures PlansKept(st', i, st'.records[i].record) {
        var r := st'.records[i].record;
        assert PlansKept(st, i, r);
        forall n | n in r.nodes && r.nodes[n].plan.Some? ensures PlanKept(st', i, r, n) {
          assert PlanKept(st, i, r, n);
        }
      }
    }
    assert AppliedTracked(st') by {
      forall i | i in st'.records ensures AppliedIn(st', i, st'.records[i].record) {
        assert AppliedIn(st, i, st.records[i].record);
      }
    }
  }

  /** Pruning and cleanup: the session's record stays current and needs no recovery. */
  lemma RemovalKeeps(cfg: Config, st: Store, pr: Proc, item: Item, o: Outcome)
    requires StoreInv(st) == true && ProcOk(st, pr) == true && CanRemove(cfg, st, pr, item) == true
    ensures StoreInv(RemovedStore(cfg, st, pr, item, o)) == true
      && ProcOk(RemovedStore(cfg, st, pr, item, o), Removed(cfg, st, pr, item, o)) == true
  {
    RemoverFacts(cfg, st, pr, item, o);
    RemovalKeepsStore(cfg, st, pr, item, o);
    RemovalKeepsProc(cfg, st, pr, item, o);
  }

  lemma RemoverFacts(cfg: Config, st: Store, pr: Proc, item: Item, o: Outcome)
    requires ProcOk(st, pr) == true && CanRemove(cfg, st, pr, item) == true
    ensures Linked(st, pr) == true && Current(st, pr) && !NeedsRecovery(pr.record) && pr.record.finishedAt.Some?
    ensures pr.pc.Sweeping? || pr.pc.Cleaning?
  {
  }

  lemma RemovalKeepsStore(cfg: Config, st: Store, pr: Proc, item: Item, o: Outcome)
    requires StoreInv(st) == true && CanRemove(cfg, st, pr, item) == true
    requires Linked(st, pr) == true && Current(st, pr) && !NeedsRecovery(pr.record)
    ensures StoreInv(RemovedStore(cfg, st, pr, item, o)) == true
  {
    match item
    case BundleOf(n) => RemoveBundleKeepsStore(cfg, st, pr, n, o);
    case BackupCopy => BackupsKeep(st, RemovedStore(cfg, st, pr, item, o));
    case RecordItself => RemoveRecordKeepsStore(st, pr.id);
  }

  lemma RemovalKeepsProc(cfg: Config, st: Store, pr: Proc, item: Item, o: Outcome)
    requires ProcOk(st, pr) == true && CanRemove(cfg, st, pr, item) == true && !pr.pc.Working?
    ensures ProcOk(RemovedStore(cfg, st, pr, item, o), Removed(cfg, st, pr, item, o)) == true
  {
    var st', pr' := RemovedStore(cfg, st, pr, item, o), Removed(cfg, st, pr, item, o);
    forall i | Checked(pr', i) ensures !Needy(st', i) {
      assert Checked(pr, i);
      assert Needy(st', i) ==> Needy(st, i);
    }
  }

  // ---- Starting an execution.

  lemma CreateKeepsStore(st: Store, pr: Proc, names: set<Name>, o: Outcome)
    requires StoreInv(st) == true && pr.pc.Creating?
    ensures StoreInv(CreatedStore(st, pr, names, o)) == true
  {
    var r := FreshRecord(pr.job, names);
    assert forall n :: !NodeUnsettled(r, n);
    FreshAcceptable(st, r);
    PutKeeps(st, st.nextId, r, st.unknown, st.preparing, st.nextId + 1);
    if o.Lost? {
      IdSkipped(st);
    }
  }

  lemma IdSkipped(st: Store)
    requires StoreInv(st)
    ensures StoreInv(st.(nextId := st.nextId + 1)) == true
  {
    var st' := st.(nextId := st.nextId + 1);
    SameRecords(st, st');
    SamePlans(st, st');
  }

  lemma FreshAcceptable(st: Store, r: Record)
    requires StoreInv(st) && (forall n :: n in r.nodes ==> r.nodes[n] == Node(Pending, None)) && r.finishedAt.None?
      && !NeedsRecovery(r)
    ensures Acceptable(st, st.nextId, r, st.unknown, st.preparing) == true
  {
    forall n ensures (st.nextId, n) !in st.unknown && (st.nextId, n) !in st.applied {
      assert (st.nextId, n) in st.unknown ==> UnknownStored(st, st.nextId, n);
    }
  }

  lemma CreateKeepsProc(st: Store, pr: Proc, names: set<Name>, o: Outcome)
    requires StoreInv(st) == true && ProcOk(st, pr) == true && pr.pc.Creating?
    ensures ProcOk(CreatedStore(st, pr, names, o), Created(st, pr, names, o)) == true
  {
    var st', pr' := CreatedStore(st, pr, names, o), Created(st, pr, names, o);
    assert forall n :: !NodeUnsettled(FreshRecord(pr.job, names), n);
    forall i | Checked(pr', i) ensures !Needy(st', i) {
      assert Checked(pr, i);
      assert Needy(st', i) ==> Needy(st, i);
    }
    if pr'.pc.Working? {
      FreshAcceptable(st, pr'.record);
      assert Starts(pr.job);
      FreshWorking(st', pr');
    }
  }

  lemma FreshWorking(st: Store, pr: Proc)
    requires pr.workers == map[] && pr.frontier == {} && Starts(pr.job) && Linked(st, pr) && Current(st, pr)
    requires exists names :: pr.record == FreshRecord(pr.job, names)
    requires pr.stage == if pr.job.Run? then Going else Unchecked
    requires forall n :: (pr.id, n) !in st.unknown
    ensures WorkingOk(st, pr) == true
  {
    assert forall n :: !NodeUnsettled(pr.record, n);
  }

  // ---- All steps.

  lemma LookKeeps(st: Store, pr: Proc, a: Look)
    requires StoreInv(st) == true && ProcOk(st, pr) == true && CanLook(st, pr, a) == true
    ensures ProcOk(st, Looked(st, pr, a)) == true
  {
    match a
    case OpenRecord => OpenKeeps(st, pr);
    case List => ScanKeeps(st, pr, a);
    case ScanOne(_) => ScanKeeps(st, pr, a);
    case ScanDone => ScanKeeps(st, pr, a);
    case _ => SweepKeeps(st, pr, a);
  }

  lemma WorkFacts(st: Store, pr: Proc, a: Work)
    requires ProcOk(st, pr) == true && CanWork(pr, a) == true
    ensures pr.pc.Working? && WorkingOk(st, pr) == true && BarrierHolds(st, pr) == true
  {
  }

  /** Work leaves the stored records and the place of the session alone. */
  lemma WorkFrame(cfg: Config, st: Store, pr: Proc, a: Work)
    requires CanWork(pr, a)
    ensures WorkedStore(cfg, st, pr, a).records == st.records
    ensures var pr' := Worked(st, pr, a); pr'.pc == pr.pc && pr'.job == pr.job && pr'.id == pr.id
  {
  }

  lemma BarrierStays(st: Store, pr: Proc, st': Store, pr': Proc)
    requires BarrierHolds(st, pr) && st'.records == st.records && pr'.pc == pr.pc && pr'.job == pr.job
      && pr'.id == pr.id
    ensures BarrierHolds(st', pr') == true
  {
    forall i | Checked(pr', i) ensures !Needy(st', i) {
      assert Checked(pr, i) ==> !Needy(st, i);
    }
  }

  lemma WorkKeepsSession(cfg: Config, st: Store, pr: Proc, a: Work)
    requires StoreInv(st) == true && WorkingOk(st, pr) == true && CanWork(pr, a) == true
    ensures WorkingOk(WorkedStore(cfg, st, pr, a), Worked(st, pr, a)) == true
  {
    match a
    case Backup(_, _) => SessionStageKeeps(cfg, st, pr, a);
    case Admit(_) => SessionStageKeeps(cfg, st, pr, a);
    case Frontier => SessionStageKeeps(cfg, st, pr, a);
    case _ => WorkerKeepsSession(cfg, st, pr, a);
  }

  lemma SessionStageKeeps(cfg: Config, st: Store, pr: Proc, a: Work)
    requires StoreInv(st) == true && WorkingOk(st, pr) == true && CanWork(pr, a) == true
    requires a.Backup? || a.Admit? || a.Frontier?
    ensures WorkingOk(WorkedStore(cfg, st, pr, a), Worked(st, pr, a)) == true
  {
    if a.Backup? {
      ArtifactsKeep(st, pr, WorkedStore(cfg, st, pr, a));
    } else {
      PlanStageKeeps(st, pr, a);
    }
  }

  lemma WorkerKeepsSession(cfg: Config, st: Store, pr: Proc, a: Work)
    requires StoreInv(st) == true && WorkingOk(st, pr) == true && CanWork(pr, a) == true
    requires !a.Backup? && !a.Admit? && !a.Frontier?
    ensures WorkingOk(WorkedStore(cfg, st, pr, a), Worked(st, pr, a)) == true
  {
    match a
    case Launch(n) => LaunchKeepsProc(cfg, st, pr, n);
    case Return(n, result) => ReturnKeeps(st, pr, n, result);
    case Retain(n, o) => RetainKeepsProc(cfg, st, pr, n, o);
    case GiveUp(n) =>
      WorkerFacts(st, pr, n);
      StopKeeps(st, pr, n);
    case ReadDirectly(n) => ReadDirectlyKeeps(st, pr, n);
  }

  lemma WorkKeepsStore(cfg: Config, st: Store, pr: Proc, a: Work)
    requires StoreInv(st) == true && WorkingOk(st, pr) == true && CanWork(pr, a) == true
    ensures StoreInv(WorkedStore(cfg, st, pr, a)) == true
  {
    match a
    case Launch(n) => LaunchKeepsStore(cfg, st, pr, n);
    case Retain(n, o) => RetainKeepsStore(cfg, st, pr, n, o);
    case Backup(_, _) => BackupsKeep(st, WorkedStore(cfg, st, pr, a));
    case _ =>
  }

  lemma WorkingIsOk(st: Store, pr: Proc)
    requires pr.pc.Working? && BarrierHolds(st, pr) == true && WorkingOk(st, pr) == true
    ensures ProcOk(st, pr) == true
  {
  }

  lemma WorkKeeps(cfg: Config, st: Store, pr: Proc, a: Work)
    requires StoreInv(st) == true && ProcOk(st, pr) == true && CanWork(pr, a) == true
    ensures StoreInv(WorkedStore(cfg, st, pr, a)) == true
      && ProcOk(WorkedStore(cfg, st, pr, a), Worked(st, pr, a)) == true
  {
    WorkFacts(st, pr, a);
    WorkFrame(cfg, st, pr, a);
    WorkKeepsStore(cfg, st, pr, a);
    WorkKeepsSession(cfg, st, pr, a);
    BarrierStays(st, pr, WorkedStore(cfg, st, pr, a), Worked(st, pr, a));
    WorkingIsOk(WorkedStore(cfg, st, pr, a), Worked(st, pr, a));
  }

  /** Every step of the process that holds the lock keeps the store's invariant and its own. */
  lemma StepKeeps(cfg: Config, st: Store, pr: Proc, a: Action)
    requires StoreInv(st) == true && ProcOk(st, pr) == true && Can(cfg, st, pr, a) == true
    ensures StoreInv(StoreAfter(cfg, st, pr, a)) == true
      && ProcOk(StoreAfter(cfg, st, pr, a), ProcAfter(cfg, st, pr, a)) == true
  {
    match a
    case Publish(write, o) =>
      PublishKeepsStore(st, pr, write, o);
      PublishKeepsProc(st, pr, write, o);
    case Look(look) => LookKeeps(st, pr, look);
    case Work(work) => WorkKeeps(cfg, st, pr, work);
    case Create(names, o) =>
      CreateKeepsStore(st, pr, names, o);
      CreateKeepsProc(st, pr, names, o);
    case Remove(item, o) => RemovalKeeps(cfg, st, pr, item, o);
    case Leave => LeaveKeeps(st, pr);
  }

  lemma LeaveKeeps(st: Store, pr: Proc)
    ensures ProcOk(st, pr.(pc := Leaving)) == true
  {
  }
}
