/** RecoverExecution: retries output collection or retires an uncertain attempt; it never replays a mutation. */
module Recovery {
  import opened Options
  import opened ExecutionStore
  import opened Sessions
  import J = Journal

  datatype Ending = Refused | NotNeeded | Unresolved | WriteFailed | Recovered

  /** What is found out about a node: does its backend still have the recorded target, are its directory and
      settings known, is the backend read without preparing it, does the isolated initialisation end well, and
      are the outputs read, checked and published. */
  datatype Answers = Answers(
    sameTarget: bool, known: bool, readOnly: bool, directory: bool, initialised: bool, outputs: bool)

  /** The outputs of the node can be read again. */
  predicate Readable(a: Answers, allowInit: bool) {
    a.sameTarget && a.known && (a.readOnly || allowInit) && a.directory && a.initialised && a.outputs
  }

  /** A row is as it was, or it went from applied to completed after its outputs were read. */
  ghost predicate OnlyCompleted(before: seq<Row>, after: seq<Row>, read: set<Name>) {
    |before| == |after| &&
    forall i :: 0 <= i < |after| ==> RowCompleted(before[i], after[i], read)
  }

  predicate RowCompleted(before: Row, after: Row, read: set<Name>) {
    after == before || (before.phase == J.Applied && after == before.(phase := J.Completed) && before.name in read)
  }

  /** The stored record is the session's, up to the preparation marker. */
  ghost predicate Tracks(s: Session)
    reads s, s.store
  {
    s.Stores(s.record.(preparation := true)) || s.Stores(s.record.(preparation := false))
  }

  /** The isolated initialisation of a backend: it may change things unless it is read-only, and then the
      stored record already says so. */
  method InitRead(s: Session, a: Answers) returns (ok: bool)
    requires a.readOnly || (s.Stores(s.record) && s.record.preparation)
    ensures ok == a.initialised
  {
    return a.initialised;
  }

  /** The preparation marker around the initialisation of a backend that is not read-only.  `healthy` says
      that the store takes every write. */
  method RecoverNodeOutputs(s: Session, a: Answers, allowInit: bool, healthy: bool) returns (ok: bool)
    requires s.Valid() && Tracks(s)
    modifies s`record, s`revision, s.store
    ensures s.Valid() && Tracks(s)
    ensures s.record == old(s.record).(preparation := s.record.preparation)
    ensures old(s.record).preparation ==> s.record.preparation && s.store.objects == old(s.store.objects)
    ensures ok && old(s.Current()) ==> s.Current()
    ensures ok ==> s.record.preparation == old(s.record).preparation
    ensures ok ==> a.known && (a.readOnly || allowInit) && a.directory && a.initialised && a.outputs
    ensures healthy && old(s.Current()) && !old(s.record).preparation ==>
      (ok <==> a.known && (a.readOnly || allowInit) && a.directory && a.initialised && a.outputs)
  {
    if !a.known || (!a.readOnly && !allowInit) || (!a.readOnly && s.record.preparation) {
      return false;
    }
    if !a.directory {
      return false;
    }
    if !a.readOnly {
      ghost var was := s.record;
      var fault := Chance(healthy);
      var marked := s.Publish(s.record.(preparation := true), fault);
      if !marked {
        assert s.Stores(was.(preparation := true)) || s.store.objects == old(s.store.objects);
        return false;
      }
      assert s.record == was.(preparation := true);
    }
    assert s.Stores(s.record) ==> s.Stores(s.record.(preparation := s.record.preparation));
    var initialised := InitRead(s, a);
    if !initialised {
      return false;
    }
    if !a.readOnly {
      ghost var was := s.record;
      var fault := Chance(healthy);
      var cleared := s.Publish(s.record.(preparation := false), fault);
      assert s.Stores(was) || s.Stores(was.(preparation := false));
      assert was == was.(preparation := true);
      if !cleared {
        return false;
      }
    }
    return a.outputs;
  }

  /** What the store may hold for this execution while it is being recovered. */
  ghost predicate StoredFrom(s: Session, before: seq<Row>, read: set<Name>)
    reads s, s.store
  {
    s.key in s.store.objects && s.store.objects[s.key].data.RunBlob?
      && OnlyCompleted(before, s.store.objects[s.key].data.doc.rows, read)
  }

  ghost predicate StoredNeeds(s: Session)
    reads s, s.store
  {
    s.key in s.store.objects && s.store.objects[s.key].data.RunBlob? && Needs(s.store.objects[s.key].data.doc)
  }

  predicate UnsettledBefore(rows: seq<Row>, i: nat) {
    exists k :: 0 <= k < i && k < |rows| && J.Unsettled(rows[k].phase)
  }

  /** The node loop has treated the rows before `i` and met `issues` problems. */
  ghost predicate Progress(s: Session, start: Doc, read: set<Name>, i: nat, issues: nat)
    reads s, s.store
  {
    && s.Valid() && Tracks(s) && Distinct(start.rows)
    && s.record == start.(preparation := s.record.preparation, rows := s.record.rows)
    && OnlyCompleted(start.rows, s.record.rows, read)
    && (forall k :: i <= k < |start.rows| ==> s.record.rows[k] == start.rows[k])
    && (start.preparation ==> s.Stores(s.record) && s.record.preparation)
    && (issues > 0 ==> start.preparation || UnsettledBefore(s.record.rows, i))
    && (issues == 0 ==> s.Current() && !s.record.preparation && !UnsettledBefore(s.record.rows, i))
  }

  /** A row whose outcome stays open is one more issue. */
  lemma OneMoreIssue(s: Session, start: Doc, read: set<Name>, i: nat, issues: nat)
    requires Progress(s, start, read, i, issues) == true && i < |start.rows| && J.Unsettled(start.rows[i].phase)
    ensures Progress(s, start, read, i + 1, issues + 1) == true
  {
    assert J.Unsettled(s.record.rows[i].phase);
  }

  lemma SettledRow(s: Session, start: Doc, read: set<Name>, i: nat, issues: nat)
    requires Progress(s, start, read, i, issues) == true && i < |start.rows| && !J.Unsettled(start.rows[i].phase)
    ensures Progress(s, start, read, i + 1, issues) == true
  {
    if issues > 0 && UnsettledBefore(s.record.rows, i) {
      var k :| 0 <= k < i && k < |s.record.rows| && J.Unsettled(s.record.rows[k].phase);
    }
  }

  /** A failed attempt to read outputs changes at most the marker. */
  lemma MarkerOnly(before: Doc, s: Session, start: Doc, read: set<Name>, i: nat, issues: nat)
    requires s.Valid() && Tracks(s) && Distinct(start.rows)
    requires s.record == before.(preparation := s.record.preparation)
      && before == start.(preparation := before.preparation, rows := before.rows)
    requires OnlyCompleted(start.rows, before.rows, read)
      && (forall k :: i <= k < |start.rows| ==> before.rows[k] == start.rows[k])
    requires start.preparation ==> s.Stores(s.record) && s.record.preparation
    requires i < |start.rows| && J.Unsettled(start.rows[i].phase)
    ensures Progress(s, start, read, i + 1, issues + 1) == true
  {
    assert J.Unsettled(s.record.rows[i].phase);
    assert UnsettledBefore(s.record.rows, i + 1);
  }

  /** What the loop's end means. */
  lemma LoopDone(s: Session, start: Doc, read: set<Name>, issues: nat)
    requires Progress(s, start, read, |start.rows|, issues) == true && start.recoveryAt.None?
    ensures OnlyCompleted(start.rows, s.record.rows, read) && StoredFrom(s, start.rows, read)
    ensures issues > 0 ==> Needs(s.record) && StoredNeeds(s)
    ensures issues == 0 ==> s.Current() && !s.record.preparation && !RowsUnsettled(s.record.rows)
  {
    if UnsettledBefore(s.record.rows, |start.rows|) {
      assert RowsUnsettled(s.record.rows);
    }
  }

  datatype Attempt = Collected | Issue | Unrecorded

  method RecoverRow(s: Session, ghost start: Doc, ghost read: set<Name>, i: nat, ghost issues: nat, name: Name,
      answers: Answers, allowInit: bool, healthy: bool)
    returns (a: Attempt, ghost read': set<Name>)
    requires Progress(s, start, read, i, issues) == true && i < |start.rows| && start.rows[i].phase == J.Applied
      && start.rows[i].name == name
    modifies s`record, s`revision, s.store
    ensures a.Collected? ==> Progress(s, start, read', i + 1, issues) == true
    ensures a.Issue? ==> Progress(s, start, read', i + 1, issues + 1) == true
    ensures s.Valid() && OnlyCompleted(start.rows, s.record.rows, read') && StoredFrom(s, start.rows, read')
    ensures read' == read || (read' == read + {name} && Readable(answers, allowInit))
    ensures a.Collected? ==> Readable(answers, allowInit)
    ensures healthy && issues == 0 ==> (a.Collected? <==> Readable(answers, allowInit))
  {
    read' := read;
    RowPresent(s, start, read, i, issues);
    if !answers.sameTarget {
      OneMoreIssue(s, start, read, i, issues);
      return Issue, read;
    }
    ghost var before := s.record;
    var ok := RecoverNodeOutputs(s, answers, allowInit, healthy);
    if !ok {
      MarkerOnly(before, s, start, read, i, issues);
      return Issue, read;
    }
    read' := read + {name};
    var fault := Chance(healthy);
    ok := CompleteRow(s, start, read, i, issues, name, fault);
    return if ok then Collected else Unrecorded, read';
  }

  lemma RowPresent(s: Session, start: Doc, read: set<Name>, i: nat, issues: nat)
    requires Progress(s, start, read, i, issues) == true && i < |start.rows| && start.rows[i].phase == J.Applied
    ensures s.Valid() && Tracks(s) && s.record == start.(preparation := s.record.preparation, rows := s.record.rows)
    ensures OnlyCompleted(start.rows, s.record.rows, read) == true && Distinct(start.rows) == true
      && StoredFrom(s, start.rows, read) == true
    ensures forall k :: i <= k < |start.rows| ==> s.record.rows[k] == start.rows[k]
    ensures start.preparation ==> s.Stores(s.record) && s.record.preparation
    ensures issues == 0 ==> s.Current() && !s.record.preparation
  {
  }

  /** The outputs of row `i` were read: its completion is recorded, or the store may hold it alone. */
  method CompleteRow(s: Session, ghost start: Doc, ghost read: set<Name>, i: nat, ghost issues: nat, name: Name,
      fault: Fault) returns (ok: bool)
    requires Collecting(s, start, read, i, issues) == true && start.rows[i].name == name
    modifies s`record, s`revision, s.store
    ensures ok <==> old(s.Current()) && fault.NoFault?
    ensures ok ==> Progress(s, start, read + {name}, i + 1, issues) == true
    ensures s.Valid() && OnlyCompleted(start.rows, s.record.rows, read + {name}) == true
      && StoredFrom(s, start.rows, read + {name}) == true
  {
    MoveOne(start.rows, s.record.rows, read, i, name);
    NodesAt(s.record.rows, i);
    ok := s.Transition(name, J.Completed, None, fault);
  }

  /** Before the completion of row `i` is recorded. */
  ghost predicate Collecting(s: Session, start: Doc, read: set<Name>, i: nat, issues: nat)
    reads s, s.store
  {
    && s.Valid() && Tracks(s) && Distinct(start.rows) && i < |start.rows| && start.rows[i].phase == J.Applied
    && s.record == start.(preparation := s.record.preparation, rows := s.record.rows)
    && OnlyCompleted(start.rows, s.record.rows, read)
    && (forall k :: i <= k < |start.rows| ==> s.record.rows[k] == start.rows[k])
    && (start.preparation ==> s.Stores(s.record) && s.record.preparation)
    && (issues > 0 ==> start.preparation || UnsettledBefore(s.record.rows, i))
    && (issues == 0 ==> s.Current() && !s.record.preparation && !UnsettledBefore(s.record.rows, i))
  }

  /** Completing the row of an applied node. */
  lemma MoveOne(start: seq<Row>, rows: seq<Row>, read: set<Name>, i: nat, name: Name)
    requires Distinct(start) && OnlyCompleted(start, rows, read) && i < |rows| && rows[i] == start[i]
      && start[i].name == name && start[i].phase == J.Applied
    ensures OnlyCompleted(start, rows, read + {name}) == true
    ensures OnlyCompleted(start, MoveRows(rows, name, J.Completed, None), read + {name}) == true
    ensures forall k :: i < k < |rows| ==> MoveRows(rows, name, J.Completed, None)[k] == rows[k]
    ensures UnsettledBefore(MoveRows(rows, name, J.Completed, None), i + 1) == UnsettledBefore(rows, i)
  {
    forall k | 0 <= k < |rows| ensures RowCompleted(start[k], rows[k], read + {name}) {
      assert RowCompleted(start[k], rows[k], read);
    }
    var moved := MoveRows(rows, name, J.Completed, None);
    forall k | 0 <= k < |rows| ensures RowCompleted(start[k], moved[k], read + {name})
      && (k != i ==> moved[k] == rows[k]) {
      assert RowCompleted(start[k], rows[k], read);
    }
    if UnsettledBefore(rows, i) {
      var k :| 0 <= k < i && k < |rows| && J.Unsettled(rows[k].phase);
      assert moved[k] == rows[k];
    }
  }

  /** The acknowledgement: the record is retired without relabelling any node. */
  method Retire(s: Session, now: nat, fault: Fault) returns (r: Ending)
    requires s.Valid() && s.Current()
    modifies s`record, s`revision, s.store
    ensures s.Valid() && s.record.rows == old(s.record.rows) && s.record.preparation == old(s.record.preparation)
    ensures r == if fault.NoFault? then Recovered else WriteFailed
    ensures r.Recovered? ==>
      s.record.status == J.Recovered && s.record.recoveryAt == Some(now) && s.record.finishedAt == Some(now)
    ensures r.Recovered? ==> s.Current() && s.Stores(s.record) && !Needs(s.record)
    ensures s.key in s.store.objects && s.store.objects[s.key].data.RunBlob?
      && s.store.objects[s.key].data.doc.rows == s.record.rows
  {
    var ok := s.Publish(s.record.(status := J.Recovered, recoveryAt := Some(now), finishedAt := Some(now)), fault);
    return if ok then Recovered else WriteFailed;
  }

  /** Nothing is unknown: only outputs are missing, and they can be read. */
  predicate Collectable(d: Doc, answers: Name -> Answers, allowInit: bool) {
    !d.preparation && CollectableTo(d.rows, |d.rows|, answers, allowInit) == true
  }

  predicate CollectableTo(rows: seq<Row>, i: nat, answers: Name -> Answers, allowInit: bool) {
    forall k :: 0 <= k < i && k < |rows| ==> CollectableRow(rows[k], answers, allowInit)
  }

  lemma CollectableMore(rows: seq<Row>, i: nat, answers: Name -> Answers, allowInit: bool)
    requires i < |rows|
    ensures CollectableTo(rows, i + 1, answers, allowInit) <==>
      CollectableTo(rows, i, answers, allowInit) && CollectableRow(rows[i], answers, allowInit)
    ensures CollectableTo(rows, |rows|, answers, allowInit) ==> CollectableRow(rows[i], answers, allowInit)
  {
  }

  predicate CollectableRow(row: Row, answers: Name -> Answers, allowInit: bool) {
    SettledOrRead(row, answers(row.name), allowInit)
  }

  predicate SettledOrRead(row: Row, a: Answers, allowInit: bool) {
    && row.phase !in {J.Initializing, J.Applying, J.Operating, J.Indeterminate}
    && (row.phase == J.Applied ==> Readable(a, allowInit))
  }

  /** The node loop of RecoverExecution over the record as it was read. */
  method RecoverRows(s: Session, record: Doc, answers: Name -> Answers, allowInit: bool, healthy: bool)
    returns (done: bool, issues: nat, ghost read: set<Name>)
    requires s.Valid() && s.Current() && s.record == record
    modifies s`record, s`revision, s.store
    ensures s.Valid()
    ensures done ==> Progress(s, record, read, |record.rows|, issues) == true
    ensures !done ==> OnlyCompleted(record.rows, s.record.rows, read) && StoredFrom(s, record.rows, read)
    ensures forall n :: n in read ==> Readable(answers(n), allowInit)
    ensures done && issues == 0 ==> Collectable(record, answers, allowInit)
    ensures healthy && Collectable(record, answers, allowInit) ==> done && issues == 0
  {
    read := {};
    issues := if record.preparation then 1 else 0;
    LoopStarts(s, record, issues);
    for i := 0 to |record.rows|
      invariant Progress(s, record, read, i, issues) == true
      invariant forall n :: n in read ==> Readable(answers(n), allowInit)
      invariant issues == 0 ==> !record.preparation && CollectableTo(record.rows, i, answers, allowInit) == true
      invariant healthy && Collectable(record, answers, allowInit) ==> issues == 0
    {
      CollectableMore(record.rows, i, answers, allowInit);
      var row := record.rows[i];
      var more;
      done, more, read := TreatRow(s, record, read, i, issues, row, answers(row.name), allowInit, healthy);
      if !done {
        return false, issues, read;
      }
      issues := issues + more;
    }
    ProgressValid(s, record, read, |record.rows|, issues);
    return true, issues, read;
  }

  /** One row: an unknown outcome is an issue, an applied node has its outputs read again, the rest is settled. */
  method TreatRow(s: Session, ghost start: Doc, ghost read: set<Name>, i: nat, ghost issues: nat, row: Row,
      answers: Answers, allowInit: bool, healthy: bool)
    returns (done: bool, more: nat, ghost read': set<Name>)
    requires Progress(s, start, read, i, issues) == true && i < |start.rows| && row == start.rows[i]
    modifies s`record, s`revision, s.store
    ensures s.Valid()
    ensures done ==> Progress(s, start, read', i + 1, issues + more) == true
    ensures !done ==> OnlyCompleted(start.rows, s.record.rows, read') && StoredFrom(s, start.rows, read')
    ensures read' == read || (read' == read + {row.name} && Readable(answers, allowInit))
    ensures done && more == 0 ==> SettledOrRead(row, answers, allowInit)
    ensures healthy && issues == 0 && SettledOrRead(row, answers, allowInit) ==> done && more == 0
  {
    ProgressValid(s, start, read, i, issues);
    match row.phase
    case Initializing | Applying | Operating | Indeterminate =>
      OneMoreIssue(s, start, read, i, issues);
      return true, 1, read;
    case Applied =>
      var a;
      a, read' := RecoverRow(s, start, read, i, issues, row.name, answers, allowInit, healthy);
      return !a.Unrecorded?, if a.Issue? then 1 else 0, read';
    case _ =>
      SettledRow(s, start, read, i, issues);
      return true, 0, read;
  }

  lemma LoopStarts(s: Session, record: Doc, issues: nat)
    requires s.Valid() && s.Current() && s.record == record && issues == if record.preparation then 1 else 0
    ensures Progress(s, record, {}, 0, issues) == true
  {
  }

  lemma ProgressValid(s: Session, start: Doc, read: set<Name>, i: nat, issues: nat)
    requires Progress(s, start, read, i, issues)
    ensures s.Valid()
  {
  }

  /** RecoverExecution, after the operator's confirmations. */
  method RecoverExecution(s: Session, confirmStopped: bool, stateReviewed: bool, replan: bool,
      answers: Name -> Answers, allowInit: bool, now: nat, healthy: bool)
    returns (r: Ending, ghost read: set<Name>)
    requires s.Valid() && s.Current()
    modifies s`record, s`revision, s.store
    ensures s.Valid()
    ensures r.Refused? <==> !confirmStopped || (replan && !stateReviewed)
    ensures r.NotNeeded? <==> confirmStopped && (replan ==> stateReviewed) && !Needs(old(s.record))
    ensures r.Refused? || r.NotNeeded? ==> s.record == old(s.record) && s.store.objects == old(s.store.objects)
    ensures OnlyCompleted(old(s.record.rows), s.record.rows, read) && StoredFrom(s, old(s.record.rows), read)
    ensures replan ==> read == {}
    ensures forall n :: n in read ==> Readable(answers(n), allowInit)
    ensures r.Recovered? ==> s.Current() && s.Stores(s.record) && !Needs(s.record)
    ensures r.Recovered? && !replan ==> !s.record.preparation && !RowsUnsettled(s.record.rows)
    ensures r.Unresolved? ==> Needs(s.record) && StoredNeeds(s)
    ensures r.Recovered? ==>
      s.record.status == J.Recovered && s.record.recoveryAt == Some(now) && s.record.finishedAt == Some(now)
    ensures r.Recovered? && !replan ==> Collectable(old(s.record), answers, allowInit)
    ensures
      var collectable := Collectable(old(s.record), answers, allowInit);
      healthy && confirmStopped && (replan ==> stateReviewed) && Needs(old(s.record)) ==>
        (r.Recovered? <==> replan || collectable)
  {
    read := {};
    if !confirmStopped || (replan && !stateReviewed) {
      return Refused, read;
    }
    var record := s.record;
    var needs := NeedsRecovery(record);
    if !needs {
      return NotNeeded, read;
    }
    if replan {
      var fault := Chance(healthy);
      r := Retire(s, now, fault);
      return;
    }
    var done, issues;
    done, issues, read := RecoverRows(s, record, answers, allowInit, healthy);
    if !done {
      return WriteFailed, read;
    }
    LoopDone(s, record, read, issues);
    if issues > 0 {
      return Unresolved, read;
    }
    var fault := Chance(healthy);
    r := Retire(s, now, fault);
  }
}
