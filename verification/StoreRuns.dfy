/** Sessions of any number of processes on one store, interleaved without a lock. */
module StoreRuns {
  import opened Options
  import opened Outcomes
  import opened ExecutionStore

  type Sid = nat

  /** Object contents. */
  type Data = seq<nat>

  /** What a session last read or wrote. */
  datatype Session = Session(key: Key, seen: Revision, data: Data)

  /** A change that took effect: the version its author last saw, and the new one (None for a removal). */
  datatype Commit = Commit(key: Key, base: Option<Data>, now: Option<Data>)

  datatype World = World(objects: Objects<Data>, next: Revision, used: set<Key>, sessions: map<Sid, Session>,
    log: seq<Commit>)

  datatype Op =
    | Create(sid: Sid, key: Key, data: Data, fate: Outcome)
    | Open(sid: Sid, key: Key)
    | Publish(sid: Sid, data: Data, fate: Outcome)
    | Remove(sid: Sid, fate: Outcome)
    | Close(sid: Sid)

  predicate Current(w: World, s: Session) {
    Matches(w.objects, s.key, Some(s.seen))
  }

  /** New keys are random, so a key is created once. */
  predicate Enabled(w: World, op: Op) {
    match op
    case Create(sid, key, _, _) => sid !in w.sessions && key !in w.used
    case Open(sid, key) => sid !in w.sessions && key in w.objects
    case Publish(sid, _, _) => sid in w.sessions
    case Remove(sid, _) => sid in w.sessions
    case Close(sid) => sid in w.sessions
  }

  function Written(w: World, key: Key, base: Option<Data>, data: Data): World {
    w.(objects := w.objects[key := Object(w.next, data)], next := w.next + 1,
      log := w.log + [Commit(key, base, Some(data))])
  }

  function Next(w: World, op: Op): World
    requires Enabled(w, op)
  {
    match op
    case Create(sid, key, data, fate) =>
      var u := w.(used := w.used + {key});
      if fate.Lost? || !Matches(w.objects, key, None) then u
      else if fate.Stored? then Written(u, key, None, data).(sessions := w.sessions[sid := Session(key, w.next, data)])
      else Written(u, key, None, data)
    case Open(sid, key) => w.(sessions := w.sessions[sid := Session(key, w.objects[key].revision, w.objects[key].data)])
    case Publish(sid, data, fate) =>
      var s := w.sessions[sid];
      if fate.Lost? || !Current(w, s) then w
      else if fate.Stored? then Written(w, s.key, Some(s.data),
        data).(sessions := w.sessions[sid := Session(s.key, w.next, data)])
      else Written(w, s.key, Some(s.data), data)
    case Remove(sid, fate) =>
      var s := w.sessions[sid];
      if fate.Lost? || !Current(w, s) then w
      else w.(objects := w.objects - {s.key}, log := w.log + [Commit(s.key, Some(s.data), None)])
    case Close(sid) => w.(sessions := w.sessions - {sid})
  }

  // ---- The log against an independent reading of it.

  /** The content of a key after a log of changes. */
  function Latest(log: seq<Commit>, key: Key): Option<Data> {
    if log == [] then None
    else if log[|log| - 1].key == key then log[|log| - 1].now
    else Latest(log[..|log| - 1], key)
  }

  lemma LatestSnoc(log: seq<Commit>, c: Commit, key: Key)
    ensures Latest(log + [c], key) == if c.key == key then c.now else Latest(log, key)
  {
    assert (log + [c])[..|log|] == log;
  }

  /** Every change was made on exactly the content its author last saw. */
  ghost predicate Chained(log: seq<Commit>) {
    forall j :: 0 <= j < |log| ==> log[j].base == Latest(log[..j], log[j].key)
  }

  /** A removed key never changes again, and a key is created at most once. */
  ghost predicate Final(log: seq<Commit>) {
    forall i, j :: 0 <= i < j < |log| && log[i].key == log[j].key ==> log[i].now.Some? && log[j].base.Some?
  }

  function Content(w: World, key: Key): Option<Data> {
    if key in w.objects then Some(w.objects[key].data) else None
  }

  ghost predicate Coherent(w: World) {
    && (forall k :: Content(w, k) == Latest(w.log, k))
    && (forall k :: k in w.objects ==> k in w.used && w.objects[k].revision < w.next)
    && (forall sid :: sid in w.sessions ==> SessionOk(w, w.sessions[sid]))
    && (forall j :: 0 <= j < |w.log| ==> w.log[j].key in w.used)
  }

  ghost predicate SessionOk(w: World, s: Session) {
    s.seen < w.next && s.key in w.used && (Current(w, s) ==> Content(w, s.key) == Some(s.data))
  }

  ghost predicate Inv(w: World) {
    Coherent(w) && Chained(w.log) && Final(w.log)
  }

  lemma AppendKeeps(w: World, c: Commit)
    requires Chained(w.log) && Final(w.log) && c.base == Latest(w.log, c.key)
    requires forall j :: 0 <= j < |w.log| && w.log[j].key == c.key ==> w.log[j].now.Some? && c.base.Some?
    ensures Chained(w.log + [c]) && Final(w.log + [c])
  {
    var log := w.log + [c];
    forall j | 0 <= j < |log| ensures log[j].base == Latest(log[..j], log[j].key) {
      assert log[..j] == if j < |w.log| then w.log[..j] else w.log;
    }
  }

  /** A key whose latest content exists has never been removed. */
  lemma {:induction false} LiveNeverRemoved(log: seq<Commit>, key: Key)
    requires Final(log) && Latest(log, key).Some?
    ensures forall j :: 0 <= j < |log| && log[j].key == key ==> log[j].now.Some?
  {
    var n := |log| - 1;
    if log[n].key != key {
      assert Final(log[..n]);
      LiveNeverRemoved(log[..n], key);
      forall j | 0 <= j < |log| && log[j].key == key ensures log[j].now.Some? {
        assert j < n && log[..n][j] == log[j];
      }
    }
  }

  lemma WrittenKeeps(w: World, key: Key, base: Option<Data>, data: Data)
    requires Inv(w) && key in w.used && base == Content(w, key)
    requires base.None? ==> forall j :: 0 <= j < |w.log| ==> w.log[j].key != key
    ensures Inv(Written(w, key, base, data))
  {
    var c := Commit(key, base, Some(data));
    var w' := Written(w, key, base, data);
    if base.Some? {
      LiveNeverRemoved(w.log, key);
    }
    AppendKeeps(w, c);
    forall k ensures Content(w', k) == Latest(w'.log, k) {
      LatestSnoc(w.log, c, k);
    }
    forall sid | sid in w'.sessions ensures SessionOk(w', w'.sessions[sid]) {
      assert SessionOk(w, w.sessions[sid]);
    }
  }

  lemma RemovedKeeps(w: World, s: Session)
    requires Inv(w) && SessionOk(w, s) && Current(w, s)
    ensures Inv(w.(objects := w.objects - {s.key}, log := w.log + [Commit(s.key, Some(s.data), None)]))
  {
    var c := Commit(s.key, Some(s.data), None);
    var w' := w.(objects := w.objects - {s.key}, log := w.log + [c]);
    LiveNeverRemoved(w.log, s.key);
    AppendKeeps(w, c);
    forall k ensures Content(w', k) == Latest(w'.log, k) {
      LatestSnoc(w.log, c, k);
    }
    forall sid | sid in w'.sessions ensures SessionOk(w', w'.sessions[sid]) {
      assert SessionOk(w, w.sessions[sid]);
    }
  }

  lemma SessionsKeep(w: World, w': World)
    requires Inv(w) && w'.objects == w.objects && w'.next == w.next && w'.log == w.log && w.used <= w'.used
    requires forall sid :: sid in w'.sessions ==> SessionOk(w, w'.sessions[sid])
    ensures Inv(w')
  {
    forall k ensures Content(w', k) == Latest(w'.log, k) {
      assert Content(w, k) == Latest(w.log, k);
    }
    forall sid | sid in w'.sessions ensures SessionOk(w', w'.sessions[sid]) {
      assert SessionOk(w, w'.sessions[sid]);
    }
  }

  lemma StepKeeps(w: World, op: Op)
    requires Inv(w) && Enabled(w, op)
    ensures Inv(Next(w, op))
  {
    match op
    case Create(sid, key, data, fate) =>
      var u := w.(used := w.used + {key});
      SessionsKeep(w, u);
      if !fate.Lost? {
        WrittenKeeps(u, key, None, data);
        if fate.Stored? {
          SessionsKeep(Written(u, key, None, data), Next(w, op));
        }
      }
    case Open(_, _) => SessionsKeep(w, Next(w, op));
    case Publish(sid, data, fate) =>
      var s := w.sessions[sid];
      if Current(w, s) && !fate.Lost? {
        WrittenKeeps(w, s.key, Some(s.data), data);
        if fate.Stored? {
          SessionsKeep(Written(w, s.key, Some(s.data), data), Next(w, op));
        }
      }
    case Remove(sid, fate) =>
      if Current(w, w.sessions[sid]) && !fate.Lost? {
        RemovedKeeps(w, w.sessions[sid]);
      }
    case Close(_) => SessionsKeep(w, Next(w, op));
  }

  // ---- Any interleaving.

  function Empty(): World {
    World(map[], 0, {}, map[], [])
  }

  ghost predicate IsRun(run: seq<World>, ops: seq<Op>) {
    && |run| == |ops| + 1 && run[0] == Empty()
    && forall k: nat :: k < |ops| ==> Goes(run, ops, k)
  }

  ghost predicate Goes(run: seq<World>, ops: seq<Op>, k: nat)
    requires k < |ops| && |run| == |ops| + 1
  {
    Enabled(run[k], ops[k]) && run[k + 1] == Next(run[k], ops[k])
  }

  /** Every change in any run was made on the version its author last saw, and nothing removed comes back. */
  lemma {:induction false} RunChained(run: seq<World>, ops: seq<Op>, k: nat)
    requires IsRun(run, ops) && k < |run|
    ensures Inv(run[k])
  {
    if k > 0 {
      RunChained(run, ops, k - 1);
      assert Goes(run, ops, k - 1);
      StepKeeps(run[k - 1], ops[k - 1]);
    }
  }

  /** A session that no longer holds the current revision. */
  predicate Behind(w: World, key: Key, seen: Revision) {
    seen < w.next && !Matches(w.objects, key, Some(seen))
  }

  /** After a failed write the session still holds the current revision, and the store is unchanged, or it
      is behind. */
  lemma FailedWrite(w: World, sid: Sid, data: Data, fate: Outcome)
    requires Inv(w) && sid in w.sessions && (!fate.Stored? || !Current(w, w.sessions[sid]))
    ensures var w' := Next(w, Publish(sid, data, fate)); var s := w.sessions[sid];
      && w'.sessions == w.sessions
      && ((w' == w && Current(w', s)) || Behind(w', s.key, s.seen))
  {
    assert SessionOk(w, w.sessions[sid]);
  }

  /** A session that is behind stays behind: it can never overwrite or remove anything again. */
  lemma {:induction false} BehindForever(run: seq<World>, ops: seq<Op>, k: nat, m: nat, key: Key, seen: Revision)
    requires IsRun(run, ops) && k <= m < |run| && Behind(run[k], key, seen)
    ensures Behind(run[m], key, seen)
  {
    if k < m {
      BehindForever(run, ops, k, m - 1, key, seen);
      assert Goes(run, ops, m - 1);
    }
  }

  /** What a session that is behind attempts leaves no trace. */
  lemma BehindIsHarmless(w: World, sid: Sid, data: Data, fate: Outcome)
    requires sid in w.sessions && Behind(w, w.sessions[sid].key, w.sessions[sid].seen)
    ensures Next(w, Publish(sid, data, fate)) == w && Next(w, Remove(sid, fate)) == w
  {
  }

  /** A removed object is never resurrected. */
  lemma {:induction false} RemovedForGood(run: seq<World>, ops: seq<Op>, k: nat, m: nat, key: Key)
    requires IsRun(run, ops) && k <= m < |run| && key in run[k].used && key !in run[k].objects
    ensures key in run[m].used && key !in run[m].objects
  {
    if k < m {
      RemovedForGood(run, ops, k, m - 1, key);
      assert Goes(run, ops, m - 1);
    }
  }
}
