/** Levels and TopoSort: Kahn's algorithm, one layer at a time. */
module Topo {
  import opened Names
  import opened Graphs
  import Tarjan

  datatype LevelsResult = Levels(levels: seq<seq<string>>) | Cycle(nodes: seq<string>)

  /** How many entries of `s` lie in `within`; In lists repeat a name once per edge. */
  function CountIn(s: seq<string>, within: set<string>): nat {
    if s == [] then 0 else CountIn(s[..|s| - 1], within) + (if s[|s| - 1] in within then 1 else 0)
  }

  lemma {:induction false} CountInRemove(s: seq<string>, within: set<string>, n: string)
    requires n in within
    ensures CountIn(s, within) == CountIn(s, within - {n}) + multiset(s)[n]
  {
    if s != [] {
      CountInRemove(s[..|s| - 1], within, n);
      assert s == s[..|s| - 1] + [s[|s| - 1]];
    }
  }

  lemma {:induction false} CountInZero(s: seq<string>, within: set<string>)
    ensures CountIn(s, within) == 0 <==> forall x :: x in s ==> x !in within
  {
    if s != [] {
      CountInZero(s[..|s| - 1], within);
      assert s == s[..|s| - 1] + [s[|s| - 1]];
    }
  }

  lemma {:induction false} CountInAll(s: seq<string>, within: set<string>)
    requires forall x :: x in s ==> x in within
    ensures CountIn(s, within) == |s|
  {
    if s != [] {
      assert forall x :: x in s[..|s| - 1] ==> x in s;
      CountInAll(s[..|s| - 1], within);
    }
  }

  // ---- What a list of levels must satisfy.

  ghost predicate InSome(levels: seq<seq<string>>, n: string) {
    exists k :: 0 <= k < |levels| && n in levels[k]
  }

  /** `k` predecessors in a row lead to `n`. */
  ghost predicate ChainTo(g: Graph, p: seq<string>, n: string) {
    Path(g, p) && p[|p| - 1] == n
  }

  /** The number of levels below `n` is the length of the longest chain of predecessors of `n`. */
  ghost predicate LongestChain(g: Graph, n: string, k: nat) {
    && (exists p :: ChainTo(g, p, n) && |p| == k + 1)
    && (forall p :: ChainTo(g, p, n) ==> |p| <= k + 1)
  }

  ghost predicate LevelsCorrect(g: Graph, levels: seq<seq<string>>) {
    && (forall k :: 0 <= k < |levels| ==> levels[k] != [] && StrictlySorted(levels[k]))
    && (forall n {:trigger InSome(levels, n)} :: n in g.nodes <==> InSome(levels, n))
    && (forall j, k, n {:trigger n in levels[j], n in levels[k]} ::
          0 <= j < |levels| && 0 <= k < |levels| && n in levels[j] && n in levels[k] ==> j == k)
    && (forall k, n {:trigger LongestChain(g, n, k)} :: 0 <= k < |levels| && n in levels[k] ==> LongestChain(g, n, k))
  }

  // ---- What the outer loop keeps: the levels so far are placed, `rest` is not.

  ghost predicate HasPred(g: Graph, n: string, within: set<string>) {
    exists p :: p in In(g, n) && p in within
  }

  ghost predicate Partition(g: Graph, levels: seq<seq<string>>, rest: set<string>) {
    && rest <= g.nodes
    && (forall k :: 0 <= k < |levels| ==> levels[k] != [] && StrictlySorted(levels[k]))
    && (forall n {:trigger InSome(levels, n)} :: InSome(levels, n) <==> n in g.nodes && n !in rest)
    && (forall j, k, n {:trigger n in levels[j], n in levels[k]} ::
          0 <= j < |levels| && 0 <= k < |levels| && n in levels[j] && n in levels[k] ==> j == k)
  }

  /** Predecessors sit on lower levels. */
  ghost predicate PredsBelow(g: Graph, levels: seq<seq<string>>) {
    forall k, n, p {:trigger n in levels[k], p in In(g, n)} ::
      0 <= k < |levels| && n in levels[k] && p in In(g, n) ==> InSome(levels[..k], p)
  }

  ghost predicate HasPredOnLevel(g: Graph, n: string, level: seq<string>) {
    exists p :: p in In(g, n) && p in level
  }

  /** Above the first level, some predecessor sits on the level just below. */
  ghost predicate PredJustBelow(g: Graph, levels: seq<seq<string>>) {
    forall k, j, n {:trigger HasPredOnLevel(g, n, levels[j]), n in levels[k]} ::
      0 <= j < |levels| && k == j + 1 && k < |levels| && n in levels[k] ==> HasPredOnLevel(g, n, levels[j])
  }

  ghost predicate RestWaits(g: Graph, levels: seq<seq<string>>, rest: set<string>) {
    levels != [] ==>
      forall n {:trigger HasPred(g, n, Elems(levels[|levels| - 1]) + rest)} ::
        n in rest ==> HasPred(g, n, Elems(levels[|levels| - 1]) + rest)
  }

  ghost predicate Placed(g: Graph, levels: seq<seq<string>>, rest: set<string>) {
    Partition(g, levels, rest) && PredsBelow(g, levels) && PredJustBelow(g, levels) && RestWaits(g, levels, rest)
  }

  lemma InSomePrefix(levels: seq<seq<string>>, k: nat, n: string)
    requires k <= |levels| && InSome(levels[..k], n)
    ensures exists j :: 0 <= j < k && n in levels[j]
  {
    var j :| 0 <= j < |levels[..k]| && n in levels[..k][j];
    assert n in levels[j];
  }

  lemma InSomeAppend(levels: seq<seq<string>>, level: seq<string>, n: string)
    ensures InSome(levels + [level], n) <==> InSome(levels, n) || n in level
  {
    if InSome(levels, n) {
      var j :| 0 <= j < |levels| && n in levels[j];
      assert (levels + [level])[j] == levels[j];
    }
    if n in level { assert (levels + [level])[|levels|] == level; }
    if InSome(levels + [level], n) {
      var j :| 0 <= j < |levels + [level]| && n in (levels + [level])[j];
      assert j < |levels| ==> n in levels[j];
    }
  }

  /** `level` lists the nodes of `rest` with no predecessor left. */
  ghost predicate IsReady(g: Graph, rest: set<string>, level: seq<string>) {
    forall n {:trigger HasPred(g, n, rest)} {:trigger n in level} :: n in level <==> n in rest && !HasPred(g, n, rest)
  }

  lemma NextPartition(g: Graph, levels: seq<seq<string>>, rest: set<string>, level: seq<string>)
    requires Partition(g, levels, rest) && level != [] && StrictlySorted(level)
    requires forall n :: n in level ==> n in rest
    ensures Partition(g, levels + [level], rest - Elems(level))
  {
    var levels', rest' := levels + [level], rest - Elems(level);
    forall n ensures InSome(levels', n) <==> n in g.nodes && n !in rest' {
      InSomeAppend(levels, level, n);
      assert InSome(levels, n) <==> n in g.nodes && n !in rest;
    }
    forall j, k, n | 0 <= j < |levels'| && 0 <= k < |levels'| && n in levels'[j] && n in levels'[k] ensures j == k {
      OnOneLevel(g, levels, rest, level, n, j, k);
    }
  }

  lemma OnOneLevel(g: Graph, levels: seq<seq<string>>, rest: set<string>, level: seq<string>, n: string, j: nat, k: nat)
    requires Partition(g, levels, rest) && (forall m :: m in level ==> m in rest)
    requires j <= |levels| && k <= |levels| && n in (levels + [level])[j] && n in (levels + [level])[k]
    ensures j == k
  {
    assert j < |levels| ==> n in levels[j] && InSome(levels, n);
    assert k < |levels| ==> n in levels[k] && InSome(levels, n);
  }

  lemma NextPredsBelow(g: Graph, levels: seq<seq<string>>, rest: set<string>, level: seq<string>)
    requires WellFormed(g) && Partition(g, levels, rest) && PredsBelow(g, levels) && IsReady(g, rest, level)
    ensures PredsBelow(g, levels + [level])
  {
    var levels' := levels + [level];
    forall k, n, p | 0 <= k < |levels'| && n in levels'[k] && p in In(g, n) ensures InSome(levels'[..k], p) {
      if k < |levels| {
        assert n in levels[k];
        assert levels'[..k] == levels[..k];
      } else {
        assert levels'[..k] == levels;
        EdgeSymmetry(g, p, n);
        assert n in level && !HasPred(g, n, rest);
        assert InSome(levels, p);
      }
    }
  }

  lemma NextJustBelow(g: Graph, levels: seq<seq<string>>, rest: set<string>, level: seq<string>)
    requires PredJustBelow(g, levels) && RestWaits(g, levels, rest) && IsReady(g, rest, level)
    ensures PredJustBelow(g, levels + [level])
  {
    var levels' := levels + [level];
    forall j, n | 0 <= j && j + 1 < |levels'| && n in levels'[j + 1] ensures HasPredOnLevel(g, n, levels'[j]) {
      if j + 1 < |levels| {
        assert n in levels[j + 1];
        assert HasPredOnLevel(g, n, levels[j]);
      } else {
        assert n in level && !HasPred(g, n, rest);
        assert HasPred(g, n, Elems(levels[|levels| - 1]) + rest);
        var p :| p in In(g, n) && p in Elems(levels[|levels| - 1]) + rest;
        assert p in levels'[j];
      }
    }
  }

  lemma NextRestWaits(g: Graph, levels: seq<seq<string>>, rest: set<string>, level: seq<string>)
    requires IsReady(g, rest, level)
    ensures RestWaits(g, levels + [level], rest - Elems(level))
  {
    forall n | n in rest - Elems(level) ensures HasPred(g, n, Elems(level) + (rest - Elems(level))) {
      assert n !in level;
      assert HasPred(g, n, rest);
      var p :| p in In(g, n) && p in rest;
      assert p in Elems(level) + (rest - Elems(level));
    }
  }

  lemma NextLevel(g: Graph, levels: seq<seq<string>>, rest: set<string>, level: seq<string>)
    requires WellFormed(g) && Placed(g, levels, rest) && level != [] && StrictlySorted(level) && IsReady(g, rest, level)
    ensures Placed(g, levels + [level], rest - Elems(level))
  {
    NextPartition(g, levels, rest, level);
    NextPredsBelow(g, levels, rest, level);
    NextJustBelow(g, levels, rest, level);
    NextRestWaits(g, levels, rest, level);
  }

  // ---- Level number and longest chain.

  lemma {:induction false} ChainIsShort(g: Graph, levels: seq<seq<string>>, k: nat, n: string, p: seq<string>)
    requires WellFormed(g) && PredsBelow(g, levels) && k < |levels| && n in levels[k] && ChainTo(g, p, n)
    ensures |p| <= k + 1
    decreases k
  {
    if |p| > 1 {
      var q := p[|p| - 2];
      PathStep(g, p, |p| - 2);
      EdgeSymmetry(g, q, n);
      InSomePrefix(levels, k, q);
      var j :| 0 <= j < k && q in levels[j];
      PathPrefix(g, p, |p| - 2);
      ChainIsShort(g, levels, j, q, p[..|p| - 1]);
    }
  }

  lemma {:induction false} ChainExists(g: Graph, levels: seq<seq<string>>, k: nat, n: string) returns (p: seq<string>)
    requires WellFormed(g) && PredJustBelow(g, levels) && k < |levels| && n in levels[k]
    ensures ChainTo(g, p, n) && |p| == k + 1
    decreases k
  {
    if k == 0 {
      p := [n];
    } else {
      assert HasPredOnLevel(g, n, levels[k - 1]);
      var q :| q in In(g, n) && q in levels[k - 1];
      p := ChainExists(g, levels, k - 1, q);
      EdgeSymmetry(g, q, n);
      PathConcat(g, p, [n]);
      p := p + [n];
    }
  }

  lemma PlacedAllCorrect(g: Graph, levels: seq<seq<string>>)
    requires WellFormed(g) && Placed(g, levels, {})
    ensures LevelsCorrect(g, levels)
  {
    forall k, n | 0 <= k < |levels| && n in levels[k] ensures LongestChain(g, n, k) {
      var p := ChainExists(g, levels, k, n);
      forall q | ChainTo(g, q, n) ensures |q| <= k + 1 {
        ChainIsShort(g, levels, k, n, q);
      }
    }
  }

  // ---- Cycles.

  ghost predicate AllWait(g: Graph, rest: set<string>) {
    forall n {:trigger HasPred(g, n, rest)} :: n in rest ==> HasPred(g, n, rest)
  }

  lemma {:induction false} ChainThroughRest(g: Graph, rest: set<string>, m: nat) returns (p: seq<string>)
    requires WellFormed(g) && rest != {} && m > 0 && AllWait(g, rest)
    ensures Path(g, p) && |p| == m && forall i :: 0 <= i < m ==> p[i] in rest
  {
    if m == 1 {
      var n :| n in rest;
      p := [n];
    } else {
      var tail := ChainThroughRest(g, rest, m - 1);
      assert HasPred(g, tail[0], rest);
      var q :| q in In(g, tail[0]) && q in rest;
      EdgeSymmetry(g, q, tail[0]);
      p := [q] + tail;
      assert p[1..] == tail;
    }
  }

  lemma {:induction false} Pigeonhole(p: seq<string>, within: set<string>) returns (i: nat, j: nat)
    requires |p| > |within| && forall k :: 0 <= k < |p| ==> p[k] in within
    ensures i < j < |p| && p[i] == p[j]
    decreases |p|
  {
    var init, last := p[..|p| - 1], p[|p| - 1];
    if k :| 0 <= k < |init| && init[k] == last {
      i, j := k, |p| - 1;
    } else {
      assert |within - {last}| == |within| - 1;
      i, j := Pigeonhole(init, within - {last});
    }
  }

  /** If every remaining node waits for a remaining node, some of them wait for themselves. */
  lemma RestHasCycle(g: Graph, rest: set<string>)
    requires WellFormed(g) && rest != {} && AllWait(g, rest)
    ensures !Acyclic(g)
  {
    var p := ChainThroughRest(g, rest, |rest| + 1);
    var i, j := Pigeonhole(p, rest);
    PathStep(g, p, i);
    ReachAlong(g, p, i + 1, j);
    assert ReachPlus(g, p[i], p[i]);
  }

  /** A node on a cycle has chains of any length. */
  lemma NotOnCycle(g: Graph, n: string, k: nat)
    requires WellFormed(g) && LongestChain(g, n, k)
    ensures !ReachPlus(g, n, n)
  {
    if ReachPlus(g, n, n) {
      var c :| c in Out(g, n) && Reach(g, c, n);
      var p :| ChainTo(g, p, n) && |p| == k + 1;
      var q :| PathFromTo(g, q, c, n);
      PathConcat(g, p, q);
      assert ChainTo(g, p + q, n);
    }
  }

  /** So a graph with levels has none. */
  lemma LevelsImplyAcyclic(g: Graph, levels: seq<seq<string>>)
    requires WellFormed(g) && LevelsCorrect(g, levels)
    ensures Acyclic(g)
  {
    forall n ensures !ReachPlus(g, n, n) {
      if n in g.nodes {
        assert InSome(levels, n);
        var k :| 0 <= k < |levels| && n in levels[k];
        NotOnCycle(g, n, k);
      } else {
        OutsideReachesNothing(g, n);
      }
    }
  }

  lemma OutsideReachesNothing(g: Graph, n: string)
    requires WellFormed(g) && n !in g.nodes
    ensures !ReachPlus(g, n, n)
  {
    if c :| c in Out(g, n) && Reach(g, c, n) {
      EdgeSymmetry(g, n, c);
    }
  }

  // ---- The algorithm.

  ghost predicate DegreesRight(g: Graph, degree: map<string, int>) {
    forall n {:trigger degree[n]} :: n in degree ==> degree[n] == CountIn(In(g, n), degree.Keys)
  }

  /** Deletes one placed node and decrements its successors, once per edge. */
  method Release(g: Graph, degree: map<string, int>, n: string) returns (r: map<string, int>)
    requires WellFormed(g) && n in degree && DegreesRight(g, degree)
    ensures r.Keys == degree.Keys - {n} && DegreesRight(g, r)
  {
    r := Decrement(degree - {n}, Out(g, n));
    forall m | m in r ensures r[m] == CountIn(In(g, m), r.Keys) {
      EdgeSymmetry(g, n, m);
      CountInRemove(In(g, m), degree.Keys, n);
    }
  }

  method Decrement(degree: map<string, int>, next: seq<string>) returns (r: map<string, int>)
    ensures r.Keys == degree.Keys
    ensures forall m {:trigger r[m]} :: m in r ==> r[m] == degree[m] - multiset(next)[m]
  {
    r := degree;
    for i := 0 to |next|
      invariant r.Keys == degree.Keys
      invariant forall m {:trigger r[m]} :: m in r ==> r[m] == degree[m] - multiset(next[..i])[m]
    {
      assert multiset(next[..i + 1]) == multiset(next[..i]) + multiset{next[i]} by { assert next[..i + 1] ==
        next[..i] + [next[i]]; }
      if next[i] in r {
        r := r[next[i] := r[next[i]] - 1];
      }
    }
    assert next[..|next|] == next;
  }

  /** The names whose in-degree is zero, sorted. */
  method ReadyNames(degree: map<string, int>) returns (level: seq<string>)
    ensures StrictlySorted(level)
    ensures forall n :: n in level <==> n in degree && degree[n] == 0
  {
    var ready := set n | n in degree && degree[n] == 0;
    level := SortSet(ready);
    forall n ensures n in level <==> n in ready { assert n in Elems(level) <==> n in level; }
  }

  lemma ReadyIsReady(g: Graph, degree: map<string, int>, level: seq<string>)
    requires DegreesRight(g, degree) && forall n :: n in level <==> n in degree && degree[n] == 0
    ensures IsReady(g, degree.Keys, level)
  {
    forall n ensures n in level <==> n in degree.Keys && !HasPred(g, n, degree.Keys) {
      CountInZero(In(g, n), degree.Keys);
    }
  }

  method ReleaseAll(g: Graph, degree: map<string, int>, level: seq<string>) returns (r: map<string, int>)
    requires WellFormed(g) && StrictlySorted(level) && DegreesRight(g, degree) && forall n :: n in level ==> n in degree
    ensures r.Keys == degree.Keys - Elems(level) && DegreesRight(g, r)
  {
    r := degree;
    for i := 0 to |level|
      invariant r.Keys == degree.Keys - Elems(level[..i]) && DegreesRight(g, r)
    {
      assert level[i] !in level[..i] by {
        forall j | 0 <= j < i ensures level[j] != level[i] { LessIrreflexive(level[i]); }
      }
      assert Elems(level[..i + 1]) == Elems(level[..i]) + {level[i]} by { assert level[..i + 1] ==
        level[..i] + [level[i]]; }
      r := Release(g, r, level[i]);
    }
    assert level[..|level|] == level;
  }

  method InDegrees(g: Graph) returns (degree: map<string, int>)
    requires WellFormed(g)
    ensures degree.Keys == g.nodes && DegreesRight(g, degree)
  {
    degree := map n | n in g.nodes :: |In(g, n)|;
    assert degree.Keys == g.nodes;
    forall n | n in degree ensures degree[n] == CountIn(In(g, n), degree.Keys) {
      forall p | p in In(g, n) ensures p in degree.Keys { EdgeSymmetry(g, p, n); }
      CountInAll(In(g, n), degree.Keys);
    }
  }

  /** The outer loop: places level after level until no remaining node is free. */
  method PlaceLevels(g: Graph, initial: map<string, int>)
    returns (levels: seq<seq<string>>, placed: nat, ghost rest: set<string>)
    requires WellFormed(g) == true && initial.Keys == g.nodes && DegreesRight(g, initial)
    ensures Placed(g, levels, rest) == true && AllWait(g, rest) && placed == |g.nodes| - |rest|
  {
    var degree := initial;
    levels, placed := [], 0;
    while true
      invariant Placed(g, levels, degree.Keys) == true
      invariant DegreesRight(g, degree)
      invariant placed == |g.nodes| - |degree.Keys|
      decreases |degree.Keys|
    {
      var level := ReadyNames(degree);
      ReadyIsReady(g, degree, level);
      if |level| == 0 {
        break;
      }
      NextLevel(g, levels, degree.Keys, level);
      LevelSize(degree.Keys, level);
      levels := levels + [level];
      placed := placed + |level|;
      degree := ReleaseAll(g, degree, level);
    }
    rest := degree.Keys;
  }

  lemma LevelSize(names: set<string>, level: seq<string>)
    requires StrictlySorted(level) && forall n :: n in level ==> n in names
    ensures |names - Elems(level)| == |names| - |level|
  {
    StrictCount(level);
    assert Elems(level) <= names;
    assert |names - Elems(level)| == |names| - |Elems(level)|;
  }

  /** Levels: succeeds exactly on acyclic graphs; otherwise names the members of a cyclic component. */
  method ComputeLevels(g: Graph) returns (r: LevelsResult)
    requires WellFormed(g)
    ensures r.Levels? <==> Acyclic(g)
    ensures r.Levels? ==> LevelsCorrect(g, r.levels)
    ensures r.Cycle? ==> r.nodes != [] && Tarjan.IsScc(g, Elems(r.nodes)) && Tarjan.IsCyclicSet(g, Elems(r.nodes))
  {
    var degree := InDegrees(g);
    var levels, placed, rest := PlaceLevels(g, degree);
    if placed != |g.nodes| {
      RestHasCycle(g, rest);
      var cycle := Tarjan.FindCycle(g);
      return Cycle(cycle);
    }
    assert rest == {};
    PlacedAllCorrect(g, levels);
    LevelsImplyAcyclic(g, levels);
    return Levels(levels);
  }

  lemma StrictCount(s: seq<string>)
    requires StrictlySorted(s)
    ensures |Elems(s)| == |s|
  {
    forall i, j | 0 <= i < j < |s| ensures s[i] != s[j] { LessIrreflexive(s[i]); }
    DistinctCount(s);
  }

  lemma {:induction false} DistinctCount(s: seq<string>)
    requires forall i, j :: 0 <= i < j < |s| ==> s[i] != s[j]
    ensures |Elems(s)| == |s|
  {
    if s == [] {
      assert Elems(s) == {};
    } else {
      var init, last := s[..|s| - 1], s[|s| - 1];
      DistinctCount(init);
      assert s == init + [last];
      assert Elems(s) == Elems(init) + {last};
    }
  }

  // ---- Consequences used by every scheduler.

  /** One level before another whenever an edge, or any walk, leads from the first node to the second. */
  lemma LevelsRespectReach(g: Graph, levels: seq<seq<string>>, a: string, i: nat, b: string, j: nat)
    requires WellFormed(g) && LevelsCorrect(g, levels) && i < |levels| && j < |levels|
    requires a in levels[i] && b in levels[j] && ReachPlus(g, a, b)
    ensures i < j
  {
    assert LongestChain(g, a, i) && LongestChain(g, b, j);
    LongerChain(g, a, i, b, j);
  }

  lemma LongerChain(g: Graph, a: string, i: nat, b: string, j: nat)
    requires LongestChain(g, a, i) && LongestChain(g, b, j) && ReachPlus(g, a, b)
    ensures i < j
  {
    var p :| ChainTo(g, p, a) && |p| == i + 1;
    var c :| c in Out(g, a) && Reach(g, c, b);
    var q :| PathFromTo(g, q, c, b);
    PathConcat(g, p, q);
    assert ChainTo(g, p + q, b);
  }

  /** Validate's cycle check and the scheduler agree: no reported component, exactly when levels exist. */
  lemma LevelsAgreeWithFindCycles(g: Graph, levels: seq<seq<string>>, cycles: seq<seq<string>>)
    requires WellFormed(g) && LevelsCorrect(g, levels) && Tarjan.CyclicComponents(g, cycles)
    ensures cycles == []
  {
    LevelsImplyAcyclic(g, levels);
    Tarjan.EmptyIffAcyclic(g, cycles);
  }

  /** TopoSort: Levels, flattened. */
  method TopoSort(g: Graph) returns (ok: bool, order: seq<string>)
    requires WellFormed(g)
    ensures ok <==> Acyclic(g)
    ensures ok ==> multiset(order) == multiset(g.nodes)
    ensures ok ==> forall i, j :: 0 <= i < |order| && 0 <= j < |order| && ReachPlus(g, order[i], order[j]) ==> i < j
  {
    var r := ComputeLevels(g);
    order := [];
    if r.Cycle? {
      return false, [];
    }
    var levels := r.levels;
    ghost var at: seq<nat> := [];
    for k := 0 to |levels|
      invariant |at| == |order|
      invariant forall i :: 0 <= i < |order| ==> at[i] < k && order[i] in levels[at[i]]
      invariant forall i, j :: 0 <= i < j < |order| ==> at[i] <= at[j] && order[i] != order[j]
      invariant forall m, n :: 0 <= m < k && n in levels[m] ==> n in order
    {
      forall i, j | 0 <= i < j < |levels[k]| ensures levels[k][i] != levels[k][j] { LessIrreflexive(levels[k][i]); }
      order := order + levels[k];
      at := at + seq(|levels[k]|, i => k);
    }
    forall i, j | 0 <= i < |order| && 0 <= j < |order| && ReachPlus(g, order[i], order[j]) ensures i < j {
      LevelsRespectReach(g, levels, order[i], at[i], order[j], at[j]);
    }
    forall n ensures n in order <==> n in g.nodes {
      if n in g.nodes { assert InSome(levels, n); }
      if n in order { var i :| 0 <= i < |order| && order[i] == n; assert InSome(levels, n); }
    }
    DistinctMultiset(order, g.nodes);
    return true, order;
  }

  lemma {:induction false} DistinctMultiset(s: seq<string>, names: set<string>)
    requires forall i, j :: 0 <= i < j < |s| ==> s[i] != s[j]
    requires forall n :: n in s <==> n in names
    ensures multiset(s) == multiset(names)
  {
    if s == [] {
      assert names == {};
    } else {
      var init, last := s[..|s| - 1], s[|s| - 1];
      assert s == init + [last];
      DistinctMultiset(init, names - {last});
      assert names == (names - {last}) + {last};
    }
  }
}
