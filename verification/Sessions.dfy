/** An execution session over the store: the record as the node list it is kept in, and the operations
    that rewrite it.  Each one is tied to the functions on records that module Journal steps through. */
module Sessions {
  import opened Options
  import opened ExecutionStore
  import J = Journal

  type Name = J.Name

  datatype Row = Row(name: Name, phase: J.Phase, plan: Option<J.PlanId>)

  datatype Doc = Doc(
    saved: bool, status: J.Status, finishedAt: Option<nat>, recoveryAt: Option<nat>,
    preparation: bool, binding: Option<J.Deps>, backup: bool, rows: seq<Row>)

  /** The store holds records, plan bundles and backups. */
  datatype Blob = RunBlob(doc: Doc) | BundleBlob(bundle: J.Bundle) | BackupBlob

  // ---- The node list as a map.

  ghost predicate Distinct(rows: seq<Row>) {
    forall i, j :: 0 <= i < j < |rows| ==> rows[i].name != rows[j].name
  }

  function NodeOf(row: Row): J.Node {
    J.Node(row.phase, row.plan)
  }

  function Nodes(rows: seq<Row>): map<Name, J.Node> {
    if rows == [] then map[] else Nodes(rows[..|rows| - 1])[rows[|rows| - 1].name := NodeOf(rows[|rows| - 1])]
  }

  function Abs(d: Doc): J.Record {
    J.Record(d.saved, d.status, d.finishedAt, d.recoveryAt, d.preparation, d.binding, Nodes(d.rows))
  }

  lemma {:induction false} NodesAt(rows: seq<Row>, i: nat)
    requires Distinct(rows) && i < |rows|
    ensures rows[i].name in Nodes(rows) && Nodes(rows)[rows[i].name] == NodeOf(rows[i])
  {
    if i < |rows| - 1 {
      var init := rows[..|rows| - 1];
      assert init[i] == rows[i];
      NodesAt(init, i);
    }
  }

  /** Every node comes from a row. */
  lemma {:induction false} NodeIndex(rows: seq<Row>, n: Name) returns (i: nat)
    requires n in Nodes(rows)
    ensures i < |rows| && rows[i].name == n && Nodes(rows)[n] == NodeOf(rows[i])
  {
    i := |rows| - 1;
    if rows[i].name != n {
      i := NodeIndex(rows[..i], n);
    }
  }

  lemma NameAbsent(rows: seq<Row>, n: Name)
    requires forall k :: 0 <= k < |rows| ==> rows[k].name != n
    ensures n !in Nodes(rows)
  {
    if n in Nodes(rows) {
      var i := NodeIndex(rows, n);
    }
  }

  function MoveRow(row: Row, name: Name, phase: J.Phase, plan: Option<J.PlanId>): Row {
    if row.name == name then Row(name, phase, if plan.Some? then plan else row.plan) else row
  }

  function MoveRows(rows: seq<Row>, name: Name, phase: J.Phase, plan: Option<J.PlanId>): seq<Row> {
    seq(|rows|, i requires 0 <= i < |rows| => MoveRow(rows[i], name, phase, plan))
  }

  function MoveNode(m: map<Name, J.Node>, name: Name, phase: J.Phase, plan: Option<J.PlanId>): map<Name, J.Node> {
    if name in m then m[name := J.Node(phase, if plan.Some? then plan else m[name].plan)] else m
  }

  lemma MoveNodeLast(m: map<Name, J.Node>, row: Row, name: Name, phase: J.Phase, plan: Option<J.PlanId>)
    ensures MoveNode(m[row.name := NodeOf(row)], name, phase, plan)
      == MoveNode(m, name, phase, plan)[row.name := NodeOf(MoveRow(row, name, phase, plan))]
  {
  }

  /** Rewriting a row is rewriting a node. */
  lemma {:induction false} MoveNodes(rows: seq<Row>, name: Name, phase: J.Phase, plan: Option<J.PlanId>)
    ensures Nodes(MoveRows(rows, name, phase, plan)) == MoveNode(Nodes(rows), name, phase, plan)
  {
    if rows != [] {
      var last := |rows| - 1;
      var init, moved := rows[..last], MoveRows(rows, name, phase, plan);
      MoveNodes(init, name, phase, plan);
      assert moved[..last] == MoveRows(init, name, phase, plan)
        && moved[last] == MoveRow(rows[last], name, phase, plan);
      MoveNodeLast(Nodes(init), rows[last], name, phase, plan);
    }
  }

  lemma MoveRowsAbs(d: Doc, name: Name, phase: J.Phase, plan: Option<J.PlanId>)
    requires name in Nodes(d.rows)
    ensures Abs(d.(rows := MoveRows(d.rows, name, phase, plan))) == J.SetPhase(Abs(d), name, phase, plan)
  {
    MoveNodes(d.rows, name, phase, plan);
  }

  // ---- executionNeedsRecovery on the node list.

  predicate RowsUnsettled(rows: seq<Row>) {
    exists i :: 0 <= i < |rows| && J.Unsettled(rows[i].phase)
  }

  predicate Needs(d: Doc) {
    d.recoveryAt.None? && (d.preparation || RowsUnsettled(d.rows))
  }

  lemma NeedsAbs(d: Doc)
    requires Distinct(d.rows)
    ensures Needs(d) <==> J.NeedsRecovery(Abs(d))
  {
    if RowsUnsettled(d.rows) {
      var i :| 0 <= i < |d.rows| && J.Unsettled(d.rows[i].phase);
      NodesAt(d.rows, i);
      assert J.NodeUnsettled(Abs(d), d.rows[i].name);
    }
    if n :| J.NodeUnsettled(Abs(d), n) {
      var i := NodeIndex(d.rows, n);
      assert J.Unsettled(d.rows[i].phase);
    }
  }

  method NeedsRecovery(d: Doc) returns (needs: bool)
    requires Distinct(d.rows)
    ensures needs <==>
      && d.recoveryAt.None?
      && (d.preparation || exists i ::
            0 <= i < |d.rows|
            && d.rows[i].phase in {J.Initializing, J.Applying, J.Operating, J.Indeterminate, J.Applied})
    ensures needs <==> J.NeedsRecovery(Abs(d))
    ensures needs <==> Needs(d)
  {
    NeedsAbs(d);
    if d.recoveryAt.Some? {
      return false;
    }
    if d.preparation {
      return true;
    }
    for i := 0 to |d.rows|
      invariant forall k :: 0 <= k < i ==> !J.Unsettled(d.rows[k].phase)
    {
      match d.rows[i].phase
      case Initializing | Applying | Operating | Indeterminate | Applied =>
        assert J.Unsettled(d.rows[i].phase);
        return true;
      case _ =>
    }
    return false;
  }

  // ---- The next frontier.

  /** Row `i` waits to be planned, and every row of one of its direct predecessors is completed. */
  predicate RowReady(rows: seq<Row>, deps: J.Deps, i: nat)
    requires i < |rows|
  {
    var n := rows[i].name;
    && rows[i].phase == J.Pending
    && forall j :: 0 <= j < |rows| && n in deps && rows[j].name in deps[n] ==> rows[j].phase == J.Completed
  }

  lemma RowReadyAbs(d: Doc, deps: J.Deps, i: nat)
    requires Distinct(d.rows) && i < |d.rows|
    ensures var n, nodes := d.rows[i].name, Nodes(d.rows);
      && (RowReady(d.rows, deps, i) <==>
          && d.rows[i].phase == J.Pending
          && forall p :: p in J.Upstream(deps, n) && p in nodes ==> nodes[p].phase == J.Completed)
    ensures RowReady(d.rows, deps, i) <==> d.rows[i].name in J.FrontierOf(J.SaveNew, Abs(d), deps)
  {
    NodesAt(d.rows, i);
    forall p | RowReady(d.rows, deps, i) && p in J.Upstream(deps, d.rows[i].name) && p in Nodes(d.rows)
      ensures Nodes(d.rows)[p].phase == J.Completed
    {
      var j := NodeIndex(d.rows, p);
    }
    forall j | 0 <= j < |d.rows| ensures d.rows[j].name in Nodes(d.rows)
      && Nodes(d.rows)[d.rows[j].name] == NodeOf(d.rows[j])
    {
      NodesAt(d.rows, j);
    }
  }

  /** The node loop of SavePlans: exactly the pending nodes whose selected direct predecessors are completed. */
  method Frontier(d: Doc, deps: J.Deps) returns (ready: set<Name>)
    requires Distinct(d.rows)
    ensures forall n :: n in ready <==>
      exists i :: 0 <= i < |d.rows| && d.rows[i].name == n && d.rows[i].phase == J.Pending &&
        forall j :: 0 <= j < |d.rows| && n in deps && d.rows[j].name in deps[n] ==> d.rows[j].phase == J.Completed
    ensures ready == J.FrontierOf(J.SaveNew, Abs(d), deps)
  {
    var phases := Nodes(d.rows);
    ready := {};
    for i := 0 to |d.rows|
      invariant forall n :: n in ready <==> exists k :: 0 <= k < i && d.rows[k].name == n && RowReady(d.rows, deps, k)
    {
      var row := d.rows[i];
      RowReadyAbs(d, deps, i);
      if row.phase == J.Pending {
        var ok := AllCompleted(phases, J.Upstream(deps, row.name));
        if ok {
          ready := ready + {row.name};
        }
      }
    }
    forall n ensures n in ready <==> n in J.FrontierOf(J.SaveNew, Abs(d), deps) {
      if n in J.FrontierOf(J.SaveNew, Abs(d), deps) {
        var i := NodeIndex(d.rows, n);
        RowReadyAbs(d, deps, i);
      }
      if n in ready {
        var k :| 0 <= k < |d.rows| && d.rows[k].name == n && RowReady(d.rows, deps, k);
        RowReadyAbs(d, deps, k);
      }
    }
  }

  method AllCompleted(phases: map<Name, J.Node>, upstream: set<Name>) returns (ok: bool)
    ensures ok <==> forall p :: p in upstream && p in phases ==> phases[p].phase == J.Completed
  {
    var todo := upstream;
    ok := true;
    while todo != {}
      invariant todo <= upstream
      invariant ok <==> forall p :: p in upstream - todo && p in phases ==> phases[p].phase == J.Completed
      decreases todo
    {
      var p :| p in todo;
      if p in phases && phases[p].phase != J.Completed {
        ok := false;
      }
      todo := todo - {p};
    }
  }

  // ---- finishSaved on the node list.

  function Requeued(row: Row): Row {
    if row.phase == J.Preparing then row.(phase := J.Pending) else row
  }

  /** The rewriting loop of finishSaved. */
  method Requeue(old_: seq<Row>) returns (rows: seq<Row>, planned: bool, pending: bool)
    ensures |rows| == |old_| && forall k :: 0 <= k < |rows| ==> rows[k] == Requeued(old_[k])
    ensures planned <==> exists k :: 0 <= k < |rows| && rows[k].phase == J.Planned
    ensures pending <==> exists k :: 0 <= k < |rows| && rows[k].phase == J.Pending
  {
    rows, planned, pending := old_, false, false;
    for i := 0 to |old_|
      invariant |rows| == |old_|
      invariant forall k :: 0 <= k < i ==> rows[k] == Requeued(old_[k])
      invariant forall k :: i <= k < |old_| ==> rows[k] == old_[k]
      invariant planned <==> exists k :: 0 <= k < i && rows[k].phase == J.Planned
      invariant pending <==> exists k :: 0 <= k < i && rows[k].phase == J.Pending
    {
      if rows[i].phase == J.Preparing {
        rows := rows[i := rows[i].(phase := J.Pending)];
      }
      planned := planned || rows[i].phase == J.Planned;
      pending := pending || rows[i].phase == J.Pending;
    }
  }

  /** Nodes caught while planning become pending; then recovery, planned, pending or done decide. */
  method FinishSavedDoc(d: Doc, failed: bool, now: nat) returns (next: Doc)
    requires Distinct(d.rows)
    ensures |next.rows| == |d.rows|
    ensures forall i :: 0 <= i < |d.rows| ==>
      next.rows[i] == if d.rows[i].phase == J.Preparing then d.rows[i].(phase := J.Pending) else d.rows[i]
    ensures next == d.(rows := next.rows, status := next.status, finishedAt := next.finishedAt)
    ensures next.status ==
      if Needs(d) then J.RecoveryNeeded
      else if exists i :: 0 <= i < |d.rows| && d.rows[i].phase == J.Planned then J.WaitingForApply
      else if exists i :: 0 <= i < |d.rows| && d.rows[i].phase in {J.Pending, J.Preparing} then J.ReadyForNextPlan
      else if failed then J.FailedRun else J.CompletedRun
    ensures next.finishedAt == if next.status in {J.FailedRun, J.CompletedRun} then Some(now) else None
    ensures Distinct(next.rows) && Abs(next) == J.FinishSavedRecord(Abs(d), failed, now)
  {
    var rows, planned, pending := Requeue(d.rows);
    RequeuedVerdict(d.rows, rows);
    RequeuedNodes(d.rows, rows);
    next := d.(rows := rows, finishedAt := None, status := J.ReadyForNextPlan);
    FinishSavedAbs(d, next, planned, pending, failed, now);
    var needs := NeedsRecovery(next);
    if needs {
      next := next.(status := J.RecoveryNeeded);
    } else if planned {
      next := next.(status := J.WaitingForApply);
    } else if !pending {
      next := next.(status := if failed then J.FailedRun else J.CompletedRun, finishedAt := Some(now));
    }
  }

  lemma FinishSavedAbs(d: Doc, next: Doc, planned: bool, pending: bool, failed: bool, now: nat)
    requires Distinct(next.rows) && Nodes(next.rows) == J.BackToPending(Nodes(d.rows))
    requires next == d.(rows := next.rows, finishedAt := None, status := J.ReadyForNextPlan)
    requires planned <==> exists k :: 0 <= k < |next.rows| && next.rows[k].phase == J.Planned
    requires pending <==> exists k :: 0 <= k < |next.rows| && next.rows[k].phase == J.Pending
    ensures J.FinishSavedRecord(Abs(d), failed, now) ==
      if Needs(next) then Abs(next.(status := J.RecoveryNeeded))
      else if planned then Abs(next.(status := J.WaitingForApply))
      else if pending then Abs(next)
      else Abs(next.(status := if failed then J.FailedRun else J.CompletedRun, finishedAt := Some(now)))
  {
    NeedsAbs(next);
    PhasePresent(next.rows, J.Planned);
    PhasePresent(next.rows, J.Pending);
  }

  lemma {:induction false} RequeuedNodes(old_: seq<Row>, rows: seq<Row>)
    requires |rows| == |old_| && forall k :: 0 <= k < |rows| ==> rows[k] == Requeued(old_[k])
    ensures Nodes(rows) == J.BackToPending(Nodes(old_))
    ensures Distinct(old_) ==> Distinct(rows)
  {
    if rows != [] {
      RequeuedNodes(old_[..|old_| - 1], rows[..|rows| - 1]);
    }
  }

  /** Putting rows back changes what is pending and nothing else. */
  lemma RequeuedVerdict(old_: seq<Row>, rows: seq<Row>)
    requires |rows| == |old_| && forall k :: 0 <= k < |rows| ==> rows[k] == Requeued(old_[k])
    ensures RowsUnsettled(rows) <==> RowsUnsettled(old_)
    ensures (exists k :: 0 <= k < |rows| && rows[k].phase == J.Planned) <==>
      exists k :: 0 <= k < |old_| && old_[k].phase == J.Planned
    ensures (exists k :: 0 <= k < |rows| && rows[k].phase == J.Pending) <==>
      exists k :: 0 <= k < |old_| && old_[k].phase in {J.Pending, J.Preparing}
  {
    if k :| 0 <= k < |rows| && J.Unsettled(rows[k].phase) { assert J.Unsettled(old_[k].phase); }
    if k :| 0 <= k < |old_| && J.Unsettled(old_[k].phase) { assert J.Unsettled(rows[k].phase); }
    if k :| 0 <= k < |rows| && rows[k].phase == J.Planned { assert old_[k].phase == J.Planned; }
    if k :| 0 <= k < |old_| && old_[k].phase == J.Planned { assert rows[k].phase == J.Planned; }
    if k :| 0 <= k < |rows| && rows[k].phase == J.Pending { assert old_[k].phase in {J.Pending, J.Preparing}; }
    if k :| 0 <= k < |old_| && old_[k].phase in {J.Pending, J.Preparing} { assert rows[k].phase == J.Pending; }
  }

  lemma PhasePresent(rows: seq<Row>, p: J.Phase)
    requires Distinct(rows)
    ensures (exists n :: n in Nodes(rows) && Nodes(rows)[n].phase == p) <==>
      exists k :: 0 <= k < |rows| && rows[k].phase == p
  {
    if n :| n in Nodes(rows) && Nodes(rows)[n].phase == p {
      var i := NodeIndex(rows, n);
      assert rows[i].phase == p;
    }
    if k :| 0 <= k < |rows| && rows[k].phase == p {
      NodesAt(rows, k);
    }
  }

  lemma SettleAbs(d: Doc, now: nat)
    requires Distinct(d.rows)
    ensures J.SettleRecord(Abs(d), now) ==
      if forall i :: 0 <= i < |d.rows| ==> d.rows[i].phase == J.Completed
        then Abs(d.(status := J.CompletedRun, finishedAt := Some(now)))
        else Abs(d.(status := J.ReadyForNextPlan))
  {
    if i :| 0 <= i < |d.rows| && d.rows[i].phase != J.Completed {
      NodesAt(d.rows, i);
      assert d.rows[i].name in Abs(d).nodes && Abs(d).nodes[d.rows[i].name].phase != J.Completed;
    } else {
      forall n | n in Abs(d).nodes ensures Abs(d).nodes[n].phase == J.Completed {
        var i := NodeIndex(d.rows, n);
      }
    }
  }

  // ---- Keys.

  function Digits(p: nat): string {
    if p < 10 then [('0' as int + p) as char] else Digits(p / 10) + [('0' as int + p % 10) as char]
  }

  function PlanKey(p: J.PlanId): Key { "plan-" + Digits(p) + ".bin" }

  lemma {:induction false} DigitsInjective(p: nat, q: nat)
    requires Digits(p) == Digits(q)
    ensures p == q
  {
    DigitsLast(p);
    DigitsLast(q);
    if p >= 10 && q >= 10 {
      assert Digits(p / 10) == Digits(p)[..|Digits(p)| - 1] && Digits(q / 10) == Digits(q)[..|Digits(q)| - 1];
      DigitsInjective(p / 10, q / 10);
    }
  }

  lemma DigitsLast(p: nat)
    ensures Digits(p) != [] && Digits(p)[|Digits(p)| - 1] as int == '0' as int + p % 10
    ensures p < 10 <==> |Digits(p)| == 1
  {
    assert p >= 10 ==> |Digits(p / 10)| >= 1;
  }

  /** Different plans are kept under different keys. */
  lemma PlanKeyInjective(p: J.PlanId, q: J.PlanId)
    requires PlanKey(p) == PlanKey(q)
    ensures p == q
  {
    var k := PlanKey(p);
    assert k == "plan-" + (Digits(p) + ".bin") && k == "plan-" + (Digits(q) + ".bin");
    assert k[5..] == Digits(p) + ".bin" && k[5..] == Digits(q) + ".bin";
    assert k[5..][..|k| - 9] == Digits(p) && k[5..][..|k| - 9] == Digits(q);
    DigitsInjective(p, q);
  }

  predicate IsRunKey(key: Key) { |key| > 4 && key[..4] == "run-" }

  lemma KeysApart(key: Key, p: J.PlanId)
    requires IsRunKey(key)
    ensures key != PlanKey(p)
  {
    assert key[..4][0] == key[0] && PlanKey(p)[0] == 'p';
  }

  /** The backup of an execution is stored beside its record, under the same name with another ending. */
  function BackupKey(key: Key): Key
    requires IsRunKey(key)
  {
    key[..|key| - 5] + ".bin"
  }

  lemma BackupKeyApart(key: Key)
    requires IsRunKey(key)
    ensures BackupKey(key) != key && forall p :: BackupKey(key) != PlanKey(p)
  {
    assert |BackupKey(key)| == |key| - 1;
    assert |key| > 5 ==> BackupKey(key)[0] == key[..4][0];
    forall p ensures BackupKey(key) != PlanKey(p) {
      assert PlanKey(p)[0] == 'p';
    }
  }

  // ---- The session.

  /** Only the row found is rewritten. */
  lemma MoveRowsAt(rows: seq<Row>, i: nat, phase: J.Phase, plan: Option<J.PlanId>)
    requires Distinct(rows) && i < |rows|
    ensures var row := rows[i];
      && row.name in Nodes(rows)
      && MoveRows(rows, row.name, phase, plan) == rows[i := Row(row.name, phase, if plan.Some? then plan else row.plan)]
    ensures Distinct(MoveRows(rows, rows[i].name, phase, plan)) == true
  {
    var row := rows[i];
    NodesAt(rows, i);
    assert forall k :: 0 <= k < |rows| && k != i ==> rows[k].name != row.name;
    assert MoveRows(rows, row.name, phase, plan)
        == rows[i := Row(row.name, phase, if plan.Some? then plan else row.plan)];
  }

  /** Any fault, unless all is well. */
  method Chance(healthy: bool) returns (f: Fault)
    ensures healthy ==> f.NoFault?
  {
    f := *;
    if healthy {
      f := NoFault;
    }
  }

  /** Any answer, unless all is well. */
  method Ask(healthy: bool) returns (yes: bool)
    ensures healthy ==> yes
  {
    yes := *;
    yes := yes || healthy;
  }

  /** Reads an object and removes the version read; an object already gone is no failure. */
  method Discard(store: LocalStore<Blob>, key: Key, healthy: bool) returns (ok: bool)
    requires store.Valid()
    modifies store
    ensures store.Valid() && store.next == old(store.next)
    ensures store.objects == old(store.objects) || store.objects == old(store.objects) - {key}
    ensures ok ==> key !in store.objects
    ensures healthy ==> ok
  {
    var fault := Chance(healthy);
    var obj := store.Read(key, fault);
    if obj.Err? {
      return obj.error == Missing;
    }
    fault := Chance(healthy);
    var gone := store.Remove(key, obj.value.revision, fault);
    return gone.Ok? || gone.error == Missing;
  }

  class Session {
    const store: LocalStore<Blob>
    const key: Key
    var record: Doc
    var revision: Revision

    ghost predicate Current()
      reads this, store
    {
      key in store.objects && store.objects[key].revision == revision
    }

    /** As long as its revision is current, the session's copy is the stored record. */
    ghost predicate Valid()
      reads this, store
    {
      store.Valid() && IsRunKey(key) && Distinct(record.rows) && revision < store.next
        && (Current() ==> store.objects[key].data == RunBlob(record))
    }

    ghost predicate Stores(d: Doc)
      reads this, store
    {
      key in store.objects && store.objects[key].data == RunBlob(d)
    }

    /** Opening reads the record it will later replace. */
    constructor (store: LocalStore<Blob>, key: Key, doc: Doc, revision: Revision)
      requires store.Valid() && key in store.objects && store.objects[key] == Object(revision, RunBlob(doc))
        && Distinct(doc.rows) && IsRunKey(key)
      ensures this.store == store && this.key == key && record == doc && this.revision == revision && Valid()
        && Current()
    {
      this.store, this.key, record, this.revision := store, key, doc, revision;
    }

    /** The session's copy follows the store only on a reported success; a write that landed and reported an
        error leaves the session behind. */
    method Publish(next: Doc, fault: Fault) returns (ok: bool)
      requires Valid() && Distinct(next.rows)
      modifies this`record, this`revision, store
      ensures Valid()
      ensures ok <==> old(Current()) && fault.NoFault?
      ensures ok ==> Current() && record == next && Stores(next)
      ensures !ok ==> record == old(record) && revision == old(revision)
      ensures !ok && !(old(Current()) && Lands(fault)) ==> store.objects == old(store.objects)
      ensures !ok && old(Current()) && Lands(fault) ==> !Current() && Stores(next)
      ensures store.objects - {key} == old(store.objects) - {key}
    {
      var r := store.Write(key, RunBlob(next), Some(revision), fault);
      if r.Err? {
        return false;
      }
      record, revision := next, r.value;
      return true;
    }

    /** transition: the row of that name gets the phase, and the plan when one is given. */
    method Transition(name: Name, phase: J.Phase, plan: Option<J.PlanId>, fault: Fault) returns (ok: bool)
      requires Valid()
      modifies this`record, this`revision, store
      ensures Valid()
      ensures ok <==> name in Nodes(old(record.rows)) && old(Current()) && fault.NoFault?
      ensures ok ==> Current() && record == old(record).(rows := MoveRows(old(record.rows), name, phase, plan))
      ensures !ok ==> record == old(record) && revision == old(revision)
      ensures !ok && !(name in Nodes(record.rows) && old(Current()) && Lands(fault)) ==>
        store.objects == old(store.objects)
      ensures !ok && name in Nodes(record.rows) && old(Current()) && Lands(fault) ==>
        !Current() && Stores(record.(rows := MoveRows(record.rows, name, phase, plan)))
      ensures store.objects - {key} == old(store.objects) - {key}
    {
      for i := 0 to |record.rows|
        invariant record == old(record) && revision == old(revision) && store.objects == old(store.objects) && Valid()
        invariant forall k :: 0 <= k < i ==> record.rows[k].name != name
      {
        if record.rows[i].name == name {
          var row := record.rows[i];
          MoveRowsAt(record.rows, i, phase, plan);
          var rows := record.rows[i := Row(name, phase, if plan.Some? then plan else row.plan)];
          ok := Publish(record.(rows := rows), fault);
          return;
        }
      }
      NameAbsent(record.rows, name);
      return false;
    }

    ghost predicate OwnPlan(k: Key)
      reads this
    {
      exists i :: 0 <= i < |record.rows| && record.rows[i].plan.Some? && k == PlanKey(record.rows[i].plan.value)
    }

    /** cleanupExecution: only the plans of a finished record that needs no recovery are removed. */
    method Cleanup(healthy: bool) returns (ok: bool)
      requires Valid()
      modifies store
      ensures Valid() && store.next == old(store.next) && (old(Current()) ==> Current())
      ensures record.finishedAt.None? || Needs(record) ==> ok && store.objects == old(store.objects)
      ensures forall k :: k in store.objects ==> k in old(store.objects) && store.objects[k] == old(store.objects)[k]
      ensures forall k :: k in old(store.objects) && k !in store.objects ==> OwnPlan(k)
      ensures ok && record.finishedAt.Some? && !Needs(record) ==> forall k :: OwnPlan(k) ==> k !in store.objects
      ensures healthy ==> ok
    {
      var needs := NeedsRecovery(record);
      if record.finishedAt.None? || needs {
        return true;
      }
      for i := 0 to |record.rows|
        invariant Valid() && store.next == old(store.next) && (old(Current()) ==> Current())
        invariant forall k :: k in store.objects ==>
          k in old(store.objects) && store.objects[k] == old(store.objects)[k]
        invariant forall k :: k in old(store.objects) && k !in store.objects ==> OwnPlan(k)
        invariant forall j :: 0 <= j < i && record.rows[j].plan.Some? ==>
          PlanKey(record.rows[j].plan.value) !in store.objects
      {
        if record.rows[i].plan.Some? {
          var k := PlanKey(record.rows[i].plan.value);
          KeysApart(key, record.rows[i].plan.value);
          assert OwnPlan(k);
          ok := Discard(store, k, healthy);
          if !ok {
            return;
          }
        }
      }
      return true;
    }

    /** finish, without plugins; what cannot be cleaned up is left for pruning. */
    method Finish(failed: bool, now: nat, fault: Fault, healthy: bool) returns (ok: bool)
      requires Valid()
      modifies this`record, this`revision, store
      ensures Valid()
      ensures ok <==> old(Current()) && fault.NoFault?
      ensures ok ==> Current() && Abs(record) == J.FinishRecord(Abs(old(record)), failed, now)
      ensures ok ==> record == if Needs(old(record)) then old(record).(status := J.RecoveryNeeded)
        else old(record).(status := if failed then J.FailedRun else J.CompletedRun, finishedAt := Some(now))
      ensures !ok ==> record == old(record)
      ensures ok && healthy && !Needs(record) ==> forall k :: OwnPlan(k) ==> k !in store.objects
    {
      var next := record.(status := if failed then J.FailedRun else J.CompletedRun);
      var needs := NeedsRecovery(next);
      NeedsAbs(record);
      if needs {
        next := next.(status := J.RecoveryNeeded);
      } else {
        next := next.(finishedAt := Some(now));
      }
      ok := Publish(next, fault);
      if ok {
        var cleaned := Cleanup(healthy);
      }
    }

    /** The closing update of ApplySavedPlans: the execution is completed when every node is. */
    method Settle(now: nat, fault: Fault) returns (ok: bool)
      requires Valid()
      modifies this`record, this`revision, store
      ensures Valid()
      ensures ok <==> old(Current()) && fault.NoFault?
      ensures ok ==> Current() && Abs(record) == J.SettleRecord(Abs(old(record)), now)
      ensures var before := old(record); ok ==>
        record == if forall i :: 0 <= i < |before.rows| ==> before.rows[i].phase == J.Completed
          then before.(status := J.CompletedRun, finishedAt := Some(now))
          else before.(status := J.ReadyForNextPlan)
      ensures !ok ==> record == old(record)
    {
      var next := record.(status := J.CompletedRun);
      for i := 0 to |record.rows|
        invariant record == old(record) && store.objects == old(store.objects) && Valid() && Current() == old(Current())
        invariant next == record.(status := next.status)
        invariant next.status ==
          if forall k :: 0 <= k < i ==> record.rows[k].phase == J.Completed then J.CompletedRun else J.ReadyForNextPlan
      {
        if next.rows[i].phase != J.Completed {
          next := next.(status := J.ReadyForNextPlan);
        }
      }
      SettleAbs(record, now);
      if next.status == J.CompletedRun {
        next := next.(finishedAt := Some(now));
      }
      ok := Publish(next, fault);
    }

    /** finishSaved: a record that is already finished and needs no recovery is left alone. */
    method FinishSaved(failed: bool, now: nat, fault: Fault) returns (ok: bool)
      requires Valid()
      modifies this`record, this`revision, store
      ensures Valid()
      ensures var done := old(record).finishedAt.Some? && !Needs(old(record));
        && (done ==> ok && record == old(record) && store.objects == old(store.objects))
        && (!done ==> (ok <==> old(Current()) && fault.NoFault?))
        && (!done && ok ==> Current() && Abs(record) == J.FinishSavedRecord(Abs(old(record)), failed, now))
      ensures var before := old(record); ok && (before.finishedAt.None? || Needs(before)) ==>
        record.status == if Needs(before) then J.RecoveryNeeded
          else if exists i :: 0 <= i < |before.rows| && before.rows[i].phase == J.Planned then J.WaitingForApply
          else if exists i :: 0 <= i < |before.rows| && before.rows[i].phase in {J.Pending, J.Preparing}
            then J.ReadyForNextPlan
          else if failed then J.FailedRun else J.CompletedRun
      ensures !ok ==> record == old(record)
    {
      var needs := NeedsRecovery(record);
      if record.finishedAt.Some? && !needs {
        return true;
      }
      var next := FinishSavedDoc(record, failed, now);
      ok := Publish(next, fault);
    }
  }
}
