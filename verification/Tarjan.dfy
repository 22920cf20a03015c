/** FindCycles: Tarjan's strongly connected components, with explicit index, lowlink and stack. */
module Tarjan {
  import opened Names
  import opened Graphs

  ghost predicate Mutual(g: Graph, a: string, b: string) {
    Reach(g, a, b) && Reach(g, b, a)
  }

  /** A strongly connected component: nodes that all reach each other, and every node of the graph
      that is mutually reachable with one of them. */
  ghost predicate IsScc(g: Graph, c: set<string>) {
    && c != {}
    && c <= g.nodes
    && (forall a, b {:trigger Reach(g, a, b)} :: a in c && b in c ==> Reach(g, a, b))
    && (forall a, b {:trigger Mutual(g, a, b)} :: a in c && b in g.nodes && Mutual(g, a, b) ==> b in c)
  }

  ghost predicate IsCyclicSet(g: Graph, c: set<string>) {
    |c| > 1 || exists a :: a in c && a in Out(g, a)
  }

  ghost predicate OnCycle(g: Graph, n: string) {
    ReachPlus(g, n, n)
  }

  /** The variables the search closure updates. */
  datatype State = State(index: nat, indices: map<string, nat>, lowlink: map<string, nat>,
                         stack: seq<string>, onStack: set<string>, sccs: seq<seq<string>>) {
    ghost function Popped(): set<string> { indices.Keys - onStack }
  }

  // ---- What the search keeps between calls; `gray` holds the nodes whose calls are still running.

  ghost predicate Shape(g: Graph, s: State, gray: set<string>) {
    && s.indices.Keys <= g.nodes
    && s.lowlink.Keys == s.indices.Keys
    && (forall x :: x in s.indices ==> s.indices[x] < s.index)
    && (forall x, y :: x in s.indices && y in s.indices && s.indices[x] == s.indices[y] ==> x == y)
    && s.onStack == Elems(s.stack)
    && s.onStack <= s.indices.Keys
    && (forall i, j :: 0 <= i < j < |s.stack| ==> s.indices[s.stack[i]] < s.indices[s.stack[j]])
    && gray <= s.onStack
  }

  ghost predicate NoBlackToWhite(g: Graph, s: State, gray: set<string>) {
    forall x, y :: x in s.indices && x !in gray && y in Out(g, x) ==> y in s.indices
  }

  ghost predicate GrayReachesUp(g: Graph, s: State, gray: set<string>)
    requires Shape(g, s, gray)
  {
    forall x, y {:trigger Reach(g, x, y)} ::
      x in gray && y in s.onStack && s.indices[x] <= s.indices[y] ==> Reach(g, x, y)
  }

  ghost predicate HasGrayBelow(g: Graph, s: State, gray: set<string>, y: string)
    requires Shape(g, s, gray) && y in s.indices
  {
    exists x :: x in gray && s.indices[x] <= s.indices[y] && Reach(g, y, x)
  }

  ghost predicate StackReachesGray(g: Graph, s: State, gray: set<string>)
    requires Shape(g, s, gray)
  {
    forall y {:trigger HasGrayBelow(g, s, gray, y)} :: y in s.onStack ==> HasGrayBelow(g, s, gray, y)
  }

  /** Whatever left the stack left with its whole component. */
  ghost predicate PoppedClosed(g: Graph, s: State) {
    forall x, y {:trigger Mutual(g, x, y)} :: x in s.Popped() && y in g.nodes && Mutual(g, x, y) ==> y in s.Popped()
  }

  /** One reported component. */
  ghost predicate ReportedOne(g: Graph, popped: set<string>, c: seq<string>) {
    StrictlySorted(c) && IsScc(g, Elems(c)) && IsCyclicSet(g, Elems(c)) && Elems(c) <= popped
  }

  ghost predicate Reported(g: Graph, s: State) {
    && (forall i {:trigger ReportedOne(g, s.Popped(), s.sccs[i])} ::
          0 <= i < |s.sccs| ==> ReportedOne(g, s.Popped(), s.sccs[i]))
    && (forall x {:trigger OnCycle(g, x)} :: x in s.Popped() && OnCycle(g, x) ==>
      exists i :: 0 <= i < |s.sccs| && x in s.sccs[i])
    && (forall i, j :: 0 <= i < j < |s.sccs| ==> Elems(s.sccs[i]) !! Elems(s.sccs[j]))
  }

  ghost predicate Inv(g: Graph, s: State, gray: set<string>) {
    && Shape(g, s, gray)
    && NoBlackToWhite(g, s, gray)
    && GrayReachesUp(g, s, gray)
    && StackReachesGray(g, s, gray)
    && PoppedClosed(g, s)
    && Reported(g, s)
  }

  /** `t` continues `s`: nodes seen in `s` keep their numbers and their place on the stack. */
  ghost predicate Extends(s: State, t: State) {
    && s.indices.Keys <= t.indices.Keys
    && (forall x :: x in s.indices ==> t.indices[x] == s.indices[x])
    && (forall x :: x in s.lowlink ==> x in t.lowlink && t.lowlink[x] == s.lowlink[x])
    && s.stack <= t.stack
    && s.index <= t.index
    && (forall x :: x in t.indices && x !in s.indices ==> s.index <= t.indices[x])
    && s.Popped() <= t.Popped()
    && (forall x :: x in t.stack[|s.stack|..] ==> x !in s.indices)
  }

  lemma ExtendsTransitive(s: State, t: State, u: State)
    requires Extends(s, t) && Extends(t, u) && t.indices.Keys <= u.indices.Keys
    ensures Extends(s, u)
  {
    assert u.stack[..|t.stack|] == t.stack;
    forall x | x in u.stack[|s.stack|..] ensures x !in s.indices {
      var k :| |s.stack| <= k < |u.stack| && u.stack[k] == x;
      if k < |t.stack| {
        assert t.stack[k] == x;
        assert x in t.stack[|s.stack|..];
      } else {
        assert x in u.stack[|t.stack|..];
      }
    }
  }

  /** Edges from the part of the stack above `base` to nodes below it are bounded by `low`. */
  ghost predicate LowBounds(g: Graph, s: State, base: nat, from: set<string>, low: nat)
    requires base <= |s.stack| && s.onStack == Elems(s.stack) && s.onStack <= s.indices.Keys
  {
    forall x, y {:trigger y in Out(g, x)} :: x in from && y in Out(g, x) && y in s.stack[..base] ==> low <= s.indices[y]
  }

  ghost predicate LowWitness(g: Graph, s: State, v: string, low: nat)
    requires s.onStack <= s.indices.Keys
  {
    exists y :: y in s.onStack && s.indices[y] == low && Reach(g, v, y)
  }

  // ---- Entering a node.

  function Push(s: State, v: string): State {
    State(s.index + 1, s.indices[v := s.index], s.lowlink[v := s.index], s.stack + [v], s.onStack + {v}, s.sccs)
  }

  lemma PushShape(g: Graph, s: State, gray: set<string>, v: string)
    requires Shape(g, s, gray) && v in g.nodes && v !in s.indices
    ensures Shape(g, Push(s, v), gray + {v})
    ensures Push(s, v).Popped() == s.Popped()
  {
    var t := Push(s, v);
    assert Elems(t.stack) == Elems(s.stack) + {v};
  }

  lemma PushGrayBelow(g: Graph, s: State, gray: set<string>, v: string, y: string)
    requires Shape(g, s, gray) && v !in s.indices && y in Push(s, v).onStack
    requires Shape(g, Push(s, v), gray + {v})
    requires y == v || HasGrayBelow(g, s, gray, y)
    ensures HasGrayBelow(g, Push(s, v), gray + {v}, y)
  {
    if y == v {
      ReachSelf(g, v);
    } else {
      var x :| x in gray && s.indices[x] <= s.indices[y] && Reach(g, y, x);
      assert x in gray + {v} && Push(s, v).indices[x] <= Push(s, v).indices[y];
    }
  }

  lemma PushStackReachesGray(g: Graph, s: State, gray: set<string>, v: string)
    requires Shape(g, s, gray) && v !in s.indices && Shape(g, Push(s, v), gray + {v})
    requires StackReachesGray(g, s, gray)
    ensures StackReachesGray(g, Push(s, v), gray + {v})
  {
    forall y | y in Push(s, v).onStack ensures HasGrayBelow(g, Push(s, v), gray + {v}, y) {
      assert y == v || HasGrayBelow(g, s, gray, y);
      PushGrayBelow(g, s, gray, v, y);
    }
  }

  lemma PushGrayReachesUp(g: Graph, s: State, gray: set<string>, v: string)
    requires Shape(g, s, gray) && v !in s.indices && Shape(g, Push(s, v), gray + {v})
    requires GrayReachesUp(g, s, gray)
    requires forall x {:trigger Reach(g, x, v)} :: x in gray ==> Reach(g, x, v)
    ensures GrayReachesUp(g, Push(s, v), gray + {v})
  {
    ReachSelf(g, v);
  }

  lemma PushInv(g: Graph, s: State, gray: set<string>, v: string)
    requires Inv(g, s, gray) && v in g.nodes && v !in s.indices
    requires forall x {:trigger Reach(g, x, v)} :: x in gray ==> Reach(g, x, v)
    ensures Inv(g, Push(s, v), gray + {v})
  {
    PushShape(g, s, gray, v);
    PushStackReachesGray(g, s, gray, v);
    PushGrayReachesUp(g, s, gray, v);
  }

  // ---- Leaving a node.

  /** `v` sits at position `base` of the stack, above every other running call, each of which reaches it. */
  ghost predicate AtExit(g: Graph, s: State, gray: set<string>, v: string, base: nat) {
    && Shape(g, s, gray + {v})
    && v !in gray
    && base < |s.stack| && s.stack[base] == v
    && gray <= Elems(s.stack[..base])
    && (forall x {:trigger Reach(g, x, v)} :: x in gray ==> Reach(g, x, v))
  }

  /** What the loop over `v`'s successors has established about `lowlink[v]`. */
  ghost predicate LowDone(g: Graph, s: State, v: string, base: nat)
    requires base < |s.stack| && s.onStack == Elems(s.stack) && s.onStack <= s.indices.Keys && v in s.indices
      && v in s.lowlink
  {
    && (forall y :: y in Out(g, v) ==> y in s.indices)
    && LowBounds(g, s, base, Elems(s.stack[base..]), s.lowlink[v])
    && s.lowlink[v] <= s.indices[v]
    && LowWitness(g, s, v, s.lowlink[v])
  }

  lemma StackSplit(g: Graph, s: State, gray: set<string>, base: nat, x: string)
    requires Shape(g, s, gray) && base < |s.stack| && x in s.stack[..base]
    ensures x !in s.stack[base..]
    ensures s.indices[x] < s.indices[s.stack[base]]
  {
    var i :| 0 <= i < base && s.stack[i] == x;
    forall j | base <= j < |s.stack| ensures s.stack[j] != x {
    }
  }

  lemma BaseNotBelow(g: Graph, s: State, gray: set<string>, base: nat)
    requires Shape(g, s, gray) && base < |s.stack|
    ensures s.stack[base] !in s.stack[..base]
  {
    forall i | 0 <= i < base ensures s.stack[i] != s.stack[base] {
      assert s.indices[s.stack[i]] < s.indices[s.stack[base]];
    }
  }

  lemma AboveMutual(g: Graph, s: State, gray: set<string>, v: string, base: nat, x: string)
    requires AtExit(g, s, gray, v, base) && x in s.stack[base..]
    requires GrayReachesUp(g, s, gray + {v}) && StackReachesGray(g, s, gray + {v})
    ensures Reach(g, v, x) && Reach(g, x, v)
  {
    var i :| base <= i < |s.stack| && s.stack[i] == x;
    assert x in s.onStack;
    assert HasGrayBelow(g, s, gray + {v}, x);
    var z :| z in gray + {v} && s.indices[z] <= s.indices[x] && Reach(g, x, z);
    if z != v { ReachTransitive(g, x, z, v); }
  }

  /** An edge that leaves the part above `base` leads to a node popped earlier. */
  lemma LeavingEdge(g: Graph, s: State, gray: set<string>, v: string, base: nat, x: string, y: string)
    requires AtExit(g, s, gray, v, base) && NoBlackToWhite(g, s, gray + {v}) && LowDone(g, s, v, base)
    requires s.lowlink[v] == s.indices[v]
    requires x in s.stack[base..] && y in Out(g, x) && y !in s.stack[base..]
    ensures y in s.Popped()
  {
    if x in gray { StackSplit(g, s, gray + {v}, base, x); }
    assert x in s.onStack;
    assert y in s.indices;
    assert s.stack == s.stack[..base] + s.stack[base..];
    if y in s.stack[..base] { StackSplit(g, s, gray + {v}, base, y); }
  }

  /** With `lowlink[v] == indices[v]` nothing outside the part above `base` is mutually reachable with it. */
  lemma PartIsMaximal(g: Graph, s: State, gray: set<string>, v: string, base: nat, a: string, b: string)
    requires AtExit(g, s, gray, v, base) && NoBlackToWhite(g, s, gray + {v}) && LowDone(g, s, v, base)
    requires s.lowlink[v] == s.indices[v] && PoppedClosed(g, s)
    requires a in s.stack[base..] && Mutual(g, a, b)
    ensures b in s.stack[base..]
  {
    var part := Elems(s.stack[base..]);
    var p :| PathFromTo(g, p, a, b);
    if b !in part {
      var x, y := LeavingStep(g, p, part, a, b);
      LeavingEdge(g, s, gray, v, base, x, y);
      NotBoth(s, a, base);
    }
  }

  lemma NotBoth(s: State, a: string, base: nat)
    requires base <= |s.stack| && s.onStack == Elems(s.stack) && a in s.stack[base..]
    ensures a !in s.Popped() && a in s.onStack
  {
  }

  /** A walk between mutually reachable nodes that leaves a set does so inside their component. */
  lemma LeavingStep(g: Graph, p: seq<string>, part: set<string>, a: string, b: string) returns (x: string, y: string)
    requires PathFromTo(g, p, a, b) && Reach(g, b, a) && a in part && b !in part
    ensures x in part && y !in part && y in Out(g, x) && Mutual(g, y, a)
  {
    var k := Crossing(g, p, part);
    x, y := p[k], p[k + 1];
    PathStep(g, p, k);
    ReachAlong(g, p, 0, k + 1);
    ReachAlong(g, p, k + 1, |p| - 1);
    ReachTransitive(g, y, b, a);
  }

  lemma PartIsScc(g: Graph, s: State, gray: set<string>, v: string, base: nat)
    requires AtExit(g, s, gray, v, base) && NoBlackToWhite(g, s, gray + {v}) && LowDone(g, s, v, base)
    requires GrayReachesUp(g, s, gray + {v}) && StackReachesGray(g, s, gray + {v})
    requires s.lowlink[v] == s.indices[v] && PoppedClosed(g, s)
    ensures IsScc(g, Elems(s.stack[base..]))
  {
    var part := Elems(s.stack[base..]);
    assert s.stack[base..][0] == v;
    assert v in part;
    assert part <= s.onStack;
    forall a, b | a in part && b in part ensures Reach(g, a, b) {
      AboveMutual(g, s, gray, v, base, a);
      AboveMutual(g, s, gray, v, base, b);
      ReachTransitive(g, a, v, b);
    }
    forall a, b | a in part && b in g.nodes && Mutual(g, a, b) ensures b in part {
      PartIsMaximal(g, s, gray, v, base, a, b);
    }
  }

  /** In a component, being cyclic and lying on a cycle are the same thing. */
  lemma CyclicMembers(g: Graph, c: set<string>, a: string)
    requires WellFormed(g) && IsScc(g, c) && a in c
    ensures IsCyclicSet(g, c) <==> OnCycle(g, a)
  {
    if IsCyclicSet(g, c) {
      if |c| > 1 {
        var b := OtherMember(c, a);
        ReachSplit(g, a, b);
        ReachPlusThenReach(g, a, b, a);
      } else {
        var b :| b in c && b in Out(g, b);
        ReachSelf(g, b);
        ReachThenReachPlus(g, a, b, b);
        ReachPlusThenReach(g, a, b, a);
      }
    }
    if OnCycle(g, a) {
      var d :| d in Out(g, a) && Reach(g, d, a);
      ReachEdge(g, a, d);
      EdgeSymmetry(g, a, d);
      assert Mutual(g, a, d) && d in c;
      if d != a { TwoMembers(c, a, d); }
    }
  }

  lemma OtherMember(c: set<string>, a: string) returns (b: string)
    requires |c| > 1 && a in c
    ensures b in c && b != a
  {
    assert |c - {a}| == |c| - 1;
    b :| b in c - {a};
  }

  lemma TwoMembers(c: set<string>, a: string, b: string)
    requires a in c && b in c && a != b
    ensures |c| > 1
  {
    assert |c - {a}| == |c| - 1;
    assert b in c - {a};
  }

  /** The state after popping down to `v` and reporting `more`. */
  function Pop(s: State, base: nat, more: seq<seq<string>>): State
    requires base <= |s.stack|
  {
    s.(stack := s.stack[..base], onStack := Elems(s.stack[..base]), sccs := s.sccs + more)
  }

  lemma PopShape(g: Graph, s: State, gray: set<string>, v: string, base: nat, more: seq<seq<string>>)
    requires AtExit(g, s, gray, v, base)
    ensures Shape(g, Pop(s, base, more), gray)
    ensures Pop(s, base, more).Popped() == s.Popped() + Elems(s.stack[base..])
    ensures s.Popped() !! Elems(s.stack[base..])
  {
    assert s.stack == s.stack[..base] + s.stack[base..];
    assert s.onStack == Elems(s.stack[..base]) + Elems(s.stack[base..]);
    forall x | x in s.stack[..base] ensures x !in s.stack[base..] {
      StackSplit(g, s, gray + {v}, base, x);
    }
  }

  lemma PopReaches(g: Graph, s: State, gray: set<string>, v: string, base: nat, more: seq<seq<string>>)
    requires AtExit(g, s, gray, v, base)
    requires GrayReachesUp(g, s, gray + {v}) && StackReachesGray(g, s, gray + {v})
    ensures Shape(g, Pop(s, base, more), gray)
    ensures GrayReachesUp(g, Pop(s, base, more), gray)
    ensures StackReachesGray(g, Pop(s, base, more), gray)
  {
    PopShape(g, s, gray, v, base, more);
    var t := Pop(s, base, more);
    assert t.onStack <= s.onStack;
    forall y | y in t.onStack ensures HasGrayBelow(g, t, gray, y) {
      StackSplit(g, s, gray + {v}, base, y);
      assert HasGrayBelow(g, s, gray + {v}, y);
      var z :| z in gray + {v} && s.indices[z] <= s.indices[y] && Reach(g, y, z);
      assert z in gray && t.indices[z] <= t.indices[y];
    }
  }

  lemma PopClosed(g: Graph, s: State, gray: set<string>, v: string, base: nat, more: seq<seq<string>>)
    requires AtExit(g, s, gray, v, base) && NoBlackToWhite(g, s, gray + {v}) && LowDone(g, s, v, base)
    requires s.lowlink[v] == s.indices[v] && PoppedClosed(g, s)
    ensures PoppedClosed(g, Pop(s, base, more))
    ensures NoBlackToWhite(g, Pop(s, base, more), gray)
  {
    PopShape(g, s, gray, v, base, more);
    var t := Pop(s, base, more);
    forall x, y | x in t.Popped() && y in g.nodes && Mutual(g, x, y) ensures y in t.Popped() {
      if x in Elems(s.stack[base..]) { PartIsMaximal(g, s, gray, v, base, x, y); }
    }
  }

  lemma ReportedCovers(g: Graph, s: State, scc: seq<string>, more: seq<seq<string>>, x: string)
    requires WellFormed(g) && IsScc(g, Elems(scc)) && Reported(g, s) && OnCycle(g, x)
    requires more == if IsCyclicSet(g, Elems(scc)) then [scc] else []
    requires x in scc || x in s.Popped()
    ensures exists i :: 0 <= i < |s.sccs + more| && x in (s.sccs + more)[i]
  {
    if x in scc {
      CyclicMembers(g, Elems(scc), x);
      assert (s.sccs + more)[|s.sccs|] == scc;
    } else {
      var i :| 0 <= i < |s.sccs| && x in s.sccs[i];
      assert (s.sccs + more)[i] == s.sccs[i];
    }
  }

  lemma PopReported(g: Graph, s: State, t: State, scc: seq<string>, more: seq<seq<string>>)
    requires WellFormed(g) && IsScc(g, Elems(scc)) && Reported(g, s) && StrictlySorted(scc)
    requires s.Popped() !! Elems(scc) && t.Popped() == s.Popped() + Elems(scc)
    requires more == if IsCyclicSet(g, Elems(scc)) then [scc] else []
    requires t.sccs == s.sccs + more
    ensures Reported(g, t)
  {
    forall x | x in t.Popped() && OnCycle(g, x) ensures exists i :: 0 <= i < |t.sccs| && x in t.sccs[i] {
      ReportedCovers(g, s, scc, more, x);
    }
    forall i | 0 <= i < |t.sccs| ensures ReportedOne(g, t.Popped(), t.sccs[i]) {
      if i < |s.sccs| { assert ReportedOne(g, s.Popped(), s.sccs[i]); }
    }
    forall i, j | 0 <= i < j < |t.sccs| ensures Elems(t.sccs[i]) !! Elems(t.sccs[j]) {
      assert ReportedOne(g, s.Popped(), s.sccs[i]);
      if j == |s.sccs| { assert t.sccs[j] == scc; }
    }
  }

  lemma PopInv(g: Graph, s: State, gray: set<string>, v: string, base: nat, scc: seq<string>, more: seq<seq<string>>)
    requires WellFormed(g) && AtExit(g, s, gray, v, base) && Inv(g, s, gray + {v}) && LowDone(g, s, v, base)
    requires s.lowlink[v] == s.indices[v]
    requires StrictlySorted(scc) && Elems(scc) == Elems(s.stack[base..])
    requires more == if IsCyclicSet(g, Elems(scc)) then [scc] else []
    ensures Inv(g, Pop(s, base, more), gray)
  {
    PopReaches(g, s, gray, v, base, more);
    PartIsScc(g, s, gray, v, base);
    PopClosed(g, s, gray, v, base, more);
    PopShape(g, s, gray, v, base, more);
    PopReported(g, s, Pop(s, base, more), scc, more);
  }

  lemma StayGrayBelow(g: Graph, s: State, gray: set<string>, v: string, z: string, x: string)
    requires Shape(g, s, gray + {v}) && Shape(g, s, gray) && v in s.onStack && x in s.onStack
    requires HasGrayBelow(g, s, gray + {v}, x)
    requires z in gray && s.indices[z] <= s.indices[v] && Reach(g, v, z)
    ensures HasGrayBelow(g, s, gray, x)
  {
    var w :| w in gray + {v} && s.indices[w] <= s.indices[x] && Reach(g, x, w);
    if w == v {
      ReachTransitive(g, x, v, z);
      assert z in gray && s.indices[z] <= s.indices[x];
    } else {
      assert w in gray;
    }
  }

  /** With `lowlink[v] < indices[v]` an older running call is reachable, so `v` may wait on the stack. */
  lemma OlderGray(g: Graph, s: State, gray: set<string>, v: string, y: string) returns (z: string)
    requires Shape(g, s, gray + {v}) && y in s.onStack && s.indices[y] < s.indices[v] && Reach(g, v, y)
    requires HasGrayBelow(g, s, gray + {v}, y)
    ensures z in gray && z in s.indices && s.indices[z] <= s.indices[v] && Reach(g, v, z)
  {
    z :| z in gray + {v} && s.indices[z] <= s.indices[y] && Reach(g, y, z);
    ReachTransitive(g, v, y, z);
  }

  lemma StayReaches(g: Graph, s: State, gray: set<string>, v: string, y: string)
    requires Shape(g, s, gray + {v}) && Shape(g, s, gray) && v in s.onStack
    requires y in s.onStack && s.indices[y] < s.indices[v] && Reach(g, v, y)
    requires StackReachesGray(g, s, gray + {v})
    ensures StackReachesGray(g, s, gray)
  {
    assert HasGrayBelow(g, s, gray + {v}, y);
    var z := OlderGray(g, s, gray, v, y);
    forall x | x in s.onStack ensures HasGrayBelow(g, s, gray, x) {
      assert HasGrayBelow(g, s, gray + {v}, x);
      StayGrayBelow(g, s, gray, v, z, x);
    }
  }

  lemma StayInv(g: Graph, s: State, gray: set<string>, v: string, base: nat)
    requires AtExit(g, s, gray, v, base) && Inv(g, s, gray + {v}) && LowDone(g, s, v, base)
    requires s.lowlink[v] < s.indices[v]
    ensures Inv(g, s, gray)
  {
    var y :| y in s.onStack && s.indices[y] == s.lowlink[v] && Reach(g, v, y);
    StayReaches(g, s, gray, v, y);
  }

  // ---- The loop over a node's successors.

  /** What is known about `v`'s lowlink once its first `i` successors have been looked at. */
  ghost predicate LoopLow(g: Graph, s0: State, s: State, v: string, next: seq<string>, i: nat)
    requires s.onStack == Elems(s.stack) && s.onStack <= s.indices.Keys && s.lowlink.Keys == s.indices.Keys
    requires i <= |next|
  {
    var base := |s0.stack|;
    && base < |s.stack| && s.stack[base] == v && s.stack[..base] == s0.stack
    && v in s.indices && s.indices[v] == s0.index
    && s.lowlink[v] <= s.indices[v]
    && LowWitness(g, s, v, s.lowlink[v])
    && (forall j :: 0 <= j < i ==> next[j] in s.indices)
    && (forall j :: 0 <= j < i && next[j] in s0.stack ==> s.lowlink[v] <= s.indices[next[j]])
    && LowBounds(g, s, base, Elems(s.stack[base + 1..]), s.lowlink[v])
  }

  /** What one call promises: `s` before, `t` after. */
  ghost predicate CallDone(g: Graph, s: State, t: State, gray: set<string>, v: string) {
    && Shape(g, t, gray)
    && Extends(s, t)
    && v in t.indices
    && t.lowlink[v] <= t.indices[v]
    && (v in t.onStack ==> LowWitness(g, t, v, t.lowlink[v]))
    && (v !in t.onStack ==> t.stack == s.stack && t.lowlink[v] == t.indices[v])
    && LowBounds(g, t, |s.stack|, Elems(t.stack[|s.stack|..]), t.lowlink[v])
  }

  lemma CallSees(g: Graph, s: State, t: State, gray: set<string>, v: string)
    requires CallDone(g, s, t, gray, v)
    ensures v in t.indices && s.indices.Keys <= t.indices.Keys
  {
  }

  function SetLow(s: State, v: string, n: nat): State {
    s.(lowlink := s.lowlink[v := n])
  }

  lemma SetLowInv(g: Graph, s: State, gray: set<string>, v: string, n: nat)
    requires Inv(g, s, gray) && v in s.indices
    ensures Inv(g, SetLow(s, v, n), gray)
  {
    var t := SetLow(s, v, n);
    assert t.Popped() == s.Popped();
    assert Shape(g, t, gray);
    assert StackReachesGray(g, t, gray) by {
      forall y | y in t.onStack ensures HasGrayBelow(g, t, gray, y) {
        assert HasGrayBelow(g, s, gray, y);
      }
    }
  }

  lemma PushExtends(s: State, v: string)
    requires v !in s.indices && s.lowlink.Keys == s.indices.Keys
    ensures Extends(s, Push(s, v))
  {
  }

  lemma SetLowExtends(s: State, t: State, v: string, n: nat)
    requires Extends(s, t) && v !in s.lowlink
    ensures Extends(s, SetLow(t, v, n))
  {
  }

  lemma LoopStart(g: Graph, s0: State, gray: set<string>, v: string, next: seq<string>)
    requires Shape(g, s0, gray) && v in g.nodes && v !in s0.indices
    ensures Shape(g, Push(s0, v), gray + {v})
    ensures LoopLow(g, s0, Push(s0, v), v, next, 0)
  {
    PushShape(g, s0, gray, v);
    ReachSelf(g, v);
    var s := Push(s0, v);
    assert v in s.onStack && s.indices[v] == s.lowlink[v];
    assert s.stack[|s0.stack| + 1..] == [];
  }

  /** Every edge from above `base` into the part below is bounded by one of the two lowlinks. */
  lemma CallBounds(g: Graph, s: State, t: State, base: nat, low: nat, lowW: nat, x: string, y: string)
    requires s.onStack == Elems(s.stack) && s.onStack <= s.indices.Keys && t.onStack == Elems(t.stack)
      && t.onStack <= t.indices.Keys
    requires s.stack <= t.stack && base < |s.stack|
    requires forall z :: z in s.stack ==> t.indices[z] == s.indices[z]
    requires LowBounds(g, s, base, Elems(s.stack[base + 1..]), low)
    requires LowBounds(g, t, |s.stack|, Elems(t.stack[|s.stack|..]), lowW)
    requires x in t.stack[base + 1..] && y in Out(g, x) && y in t.stack[..base]
    ensures low <= t.indices[y] || lowW <= t.indices[y]
  {
    var k :| base + 1 <= k < |t.stack| && t.stack[k] == x;
    var m :| 0 <= m < base && t.stack[m] == y;
    assert s.stack[m] == y && s.stack[..base][m] == y && t.stack[..|s.stack|][m] == y;
    if k < |s.stack| {
      assert s.stack[k] == x && s.stack[base + 1..][k - base - 1] == x;
      assert x in Elems(s.stack[base + 1..]);
    } else {
      assert t.stack[|s.stack|..][k - |s.stack|] == x;
      assert x in Elems(t.stack[|s.stack|..]);
    }
  }

  lemma CallLowBounds(g: Graph, s: State, t: State, base: nat, low: nat, lowW: nat, both: nat)
    requires s.onStack == Elems(s.stack) && s.onStack <= s.indices.Keys && t.onStack == Elems(t.stack)
      && t.onStack <= t.indices.Keys
    requires s.stack <= t.stack && base < |s.stack|
    requires forall z :: z in s.stack ==> t.indices[z] == s.indices[z]
    requires LowBounds(g, s, base, Elems(s.stack[base + 1..]), low)
    requires LowBounds(g, t, |s.stack|, Elems(t.stack[|s.stack|..]), lowW)
    requires both <= low && both <= lowW
    ensures LowBounds(g, t, base, Elems(t.stack[base + 1..]), both)
  {
    forall x, y | x in Elems(t.stack[base + 1..]) && y in Out(g, x) && y in t.stack[..base]
      ensures both <= t.indices[y] {
      CallBounds(g, s, t, base, low, lowW, x, y);
    }
  }

  lemma CallWitness(g: Graph, s: State, t: State, gray: set<string>, v: string, w: string)
    requires Shape(g, s, gray) && CallDone(g, s, t, gray, w)
    requires v in s.indices && w !in s.indices && w in Out(g, v) && s.lowlink[v] <= s.indices[v]
    requires LowWitness(g, s, v, s.lowlink[v])
    ensures LowWitness(g, t, v, s.lowlink[v])
    ensures t.lowlink[w] < s.lowlink[v] ==> LowWitness(g, t, v, t.lowlink[w])
  {
    var y :| y in s.onStack && s.indices[y] == s.lowlink[v] && Reach(g, v, y);
    assert y in t.onStack by { var k :| 0 <= k < |s.stack| && s.stack[k] == y; assert t.stack[k] == y; }
    if t.lowlink[w] < s.lowlink[v] {
      assert w in t.onStack;
      var z :| z in t.onStack && t.indices[z] == t.lowlink[w] && Reach(g, w, z);
      ReachEdge(g, v, w);
      ReachTransitive(g, v, w, z);
    }
  }

  /** After the call on an unseen successor, taking the smaller lowlink. */
  lemma LoopAfterCall(g: Graph, s0: State, s: State, t: State, v: string, next: seq<string>, i: nat, low: nat)
    requires s.onStack == Elems(s.stack) && s.onStack <= s.indices.Keys && s.lowlink.Keys == s.indices.Keys
    requires t.onStack == Elems(t.stack) && t.onStack <= t.indices.Keys && t.lowlink.Keys == t.indices.Keys
    requires i < |next| && LoopLow(g, s0, s, v, next, i)
    requires s.stack <= t.stack && s.indices.Keys <= t.indices.Keys
    requires forall z :: z in s.indices ==> t.indices[z] == s.indices[z]
    requires next[i] in t.indices && next[i] !in s.indices
    requires low <= s.lowlink[v] && low <= t.lowlink[next[i]] && (low == s.lowlink[v] || low == t.lowlink[next[i]])
    requires LowWitness(g, t, v, low)
    requires LowBounds(g, t, |s.stack|, Elems(t.stack[|s.stack|..]), t.lowlink[next[i]])
    ensures LoopLow(g, s0, SetLow(t, v, low), v, next, i + 1)
  {
    var u, base := SetLow(t, v, low), |s0.stack|;
    assert u.stack[..base] == s.stack[..base];
    assert LowWitness(g, u, v, low) by {
      var y :| y in t.onStack && t.indices[y] == low && Reach(g, v, y);
      assert y in u.onStack && u.indices[y] == low;
    }
    CallLowBounds(g, s, t, base, s.lowlink[v], t.lowlink[next[i]], low);
    assert next[i] !in s0.stack by {
      assert forall z :: z in s0.stack ==> z in s.stack[..base] && z in s.onStack;
    }
  }

  /** A successor already seen: on the stack its number counts, otherwise it changes nothing. */
  lemma LoopSeen(g: Graph, s0: State, s: State, v: string, next: seq<string>, i: nat)
    requires s.onStack == Elems(s.stack) && s.onStack <= s.indices.Keys && s.lowlink.Keys == s.indices.Keys
    requires i < |next| && LoopLow(g, s0, s, v, next, i)
    requires next[i] in Out(g, v) && next[i] in s.indices
    ensures next[i] in s.onStack && s.indices[next[i]] < s.lowlink[v] ==>
              LoopLow(g, s0, SetLow(s, v, s.indices[next[i]]), v, next, i + 1)
    ensures !(next[i] in s.onStack && s.indices[next[i]] < s.lowlink[v]) ==> LoopLow(g, s0, s, v, next, i + 1)
  {
    var w := next[i];
    if w in s.onStack && s.indices[w] < s.lowlink[v] {
      var u := SetLow(s, v, s.indices[w]);
      ReachEdge(g, v, w);
      assert w in u.onStack && u.indices[w] == u.lowlink[v];
      assert LowBounds(g, u, |s0.stack|, Elems(u.stack[|s0.stack| + 1..]), u.lowlink[v]);
    } else if w in s0.stack {
      assert w in s.stack[..|s0.stack|];
    }
  }

  /** With all successors looked at, the exit conditions hold. */
  lemma LoopEnd(g: Graph, s0: State, s: State, gray: set<string>, v: string, next: seq<string>)
    requires Shape(g, s0, gray) && v !in s0.indices && Extends(s0, s)
    requires Shape(g, s, gray + {v}) && LoopLow(g, s0, s, v, next, |next|)
    requires forall y :: y in Out(g, v) ==> y in next
    requires forall x {:trigger Reach(g, x, v)} :: x in gray ==> Reach(g, x, v)
    ensures AtExit(g, s, gray, v, |s0.stack|) && LowDone(g, s, v, |s0.stack|)
  {
    var base := |s0.stack|;
    assert s.stack[base..] == [v] + s.stack[base + 1..];
    forall x, y | x in Elems(s.stack[base..]) && y in Out(g, x) && y in s.stack[..base]
      ensures s.lowlink[v] <= s.indices[y]
    {
      if x == v {
        var j :| 0 <= j < |next| && next[j] == y;
      } else {
        assert x in Elems(s.stack[base + 1..]);
      }
    }
  }

  lemma PopExtends(g: Graph, s0: State, s: State, gray: set<string>, v: string, more: seq<seq<string>>)
    requires Shape(g, s0, gray) && Extends(s0, s) && AtExit(g, s, gray, v, |s0.stack|)
    ensures Extends(s0, Pop(s, |s0.stack|, more))
    ensures Pop(s, |s0.stack|, more).stack == s0.stack
    ensures v !in Pop(s, |s0.stack|, more).onStack
  {
    PopShape(g, s, gray, v, |s0.stack|, more);
    assert s.stack[..|s0.stack|] == s0.stack;
    BaseNotBelow(g, s, gray + {v}, |s0.stack|);
  }

  ghost predicate InLoop(g: Graph, s0: State, s: State, gray: set<string>, v: string, next: seq<string>, i: nat) {
    i <= |next| && Inv(g, s, gray + {v}) && Extends(s0, s) && LoopLow(g, s0, s, v, next, i)
  }

  lemma GrayReachNext(g: Graph, gray: set<string>, v: string, w: string)
    requires w in Out(g, v) && (forall x {:trigger Reach(g, x, v)} :: x in gray ==> Reach(g, x, v))
    ensures forall x {:trigger Reach(g, x, w)} :: x in gray + {v} ==> Reach(g, x, w)
  {
    ReachEdge(g, v, w);
    forall x | x in gray + {v} ensures Reach(g, x, w) {
      if x != v { ReachTransitive(g, x, v, w); }
    }
  }

  lemma AfterCall(g: Graph, s0: State, s: State, t: State, gray: set<string>, v: string, next: seq<string>, i: nat)
    requires v !in s0.indices && s0.lowlink.Keys == s0.indices.Keys
    requires i < |next| && InLoop(g, s0, s, gray, v, next, i) == true && next[i] in Out(g, v) && next[i] !in s.indices
    requires Inv(g, t, gray + {v}) == true && CallDone(g, s, t, gray + {v}, next[i]) == true
    ensures InLoop(g, s0, SetLow(t, v, if t.lowlink[next[i]] < t.lowlink[v] then t.lowlink[next[i]] else t.lowlink[v]),
      gray, v, next, i + 1)
  {
    var w := next[i];
    var low := if t.lowlink[w] < t.lowlink[v] then t.lowlink[w] else t.lowlink[v];
    CallWitness(g, s, t, gray + {v}, v, w);
    LoopAfterCall(g, s0, s, t, v, next, i, low);
    ExtendsTransitive(s0, s, t);
    SetLowInv(g, t, gray + {v}, v, low);
    SetLowExtends(s0, t, v, low);
  }

  lemma AfterSeen(g: Graph, s0: State, s: State, gray: set<string>, v: string, next: seq<string>, i: nat)
    requires v !in s0.indices && s0.lowlink.Keys == s0.indices.Keys
    requires i < |next| && InLoop(g, s0, s, gray, v, next, i) == true && next[i] in Out(g, v) && next[i] in s.indices
    ensures next[i] in s.onStack && s.indices[next[i]] < s.lowlink[v] ==>
              InLoop(g, s0, SetLow(s, v, s.indices[next[i]]), gray, v, next, i + 1)
    ensures !(next[i] in s.onStack && s.indices[next[i]] < s.lowlink[v]) ==> InLoop(g, s0, s, gray, v, next, i + 1)
  {
    LoopSeen(g, s0, s, v, next, i);
    if next[i] in s.onStack && s.indices[next[i]] < s.lowlink[v] {
      SetLowInv(g, s, gray + {v}, v, s.indices[next[i]]);
      SetLowExtends(s0, s, v, s.indices[next[i]]);
    }
  }

  // ---- The algorithm.

  /** isCyclic: more than one node, or a single node with an edge to itself. */
  method IsCyclic(g: Graph, scc: seq<string>) returns (r: bool)
    requires scc != [] && (forall i, j :: 0 <= i < j < |scc| ==> scc[i] != scc[j])
    ensures r <==> IsCyclicSet(g, Elems(scc))
  {
    assert scc[0] in Elems(scc);
    if |scc| > 1 {
      assert scc[1] in Elems(scc);
      TwoMembers(Elems(scc), scc[0], scc[1]);
      return true;
    }
    assert Elems(scc) == {scc[0]};
    for i := 0 to |Out(g, scc[0])|
      invariant scc[0] !in Out(g, scc[0])[..i]
    {
      if Out(g, scc[0])[i] == scc[0] { return true; }
    }
    return false;
  }

  /** The search closure and the variables it captures. */
  class Search {
    const g: Graph
    var index: nat
    var indices: map<string, nat>
    var lowlink: map<string, nat>
    var onStack: set<string>
    var stack: seq<string>
    var sccs: seq<seq<string>>

    ghost function Now(): State
      reads this
    {
      State(index, indices, lowlink, stack, onStack, sccs)
    }

    constructor (g: Graph)
      ensures this.g == g && Now() == State(0, map[], map[], [], {}, []) && Inv(g, Now(), {})
    {
      this.g := g;
      index, indices, lowlink, onStack, stack, sccs := 0, map[], map[], {}, [], [];
    }

    /** The outer loop: starts a search from every name not yet seen. */
    method VisitAll(names: seq<string>)
      requires WellFormed(g) == true && Inv(g, Now(), {}) == true && Elems(names) == g.nodes
      modifies this
      ensures Inv(g, Now(), {}) == true && forall n :: n in names ==> n in indices
    {
      for i := 0 to |names|
        invariant Inv(g, Now(), {}) == true
        invariant forall j :: 0 <= j < i ==> names[j] in indices
      {
        assert names[i] in Elems(names);
        VisitName(names[i]);
      }
    }

    /** One turn of the outer loop. */
    method VisitName(n: string)
      requires WellFormed(g) == true && Inv(g, Now(), {}) == true && n in g.nodes
      modifies this
      ensures Inv(g, Now(), {}) == true && n in indices && old(indices.Keys) <= indices.Keys
    {
      if n !in indices {
        ghost var before := Now();
        StrongConnect(n, {});
        CallSees(g, before, Now(), {}, n);
      }
    }

    /** Visits `v` and everything it can reach that was not seen before. */
    method StrongConnect(v: string, ghost gray: set<string>)
      requires WellFormed(g) == true && Inv(g, Now(), gray) == true
      requires v in g.nodes && v !in indices
      requires forall x {:trigger Reach(g, x, v)} :: x in gray ==> Reach(g, x, v)
      modifies this
      ensures Inv(g, Now(), gray) == true
      ensures CallDone(g, old(Now()), Now(), gray, v) == true
      decreases g.nodes - indices.Keys, 0
    {
      ghost var s0 := Now();
      PushInv(g, s0, gray, v);
      PushExtends(s0, v);
      indices := indices[v := index];
      lowlink := lowlink[v := index];
      index := index + 1;
      stack := stack + [v];
      onStack := onStack + {v};
      assert Now() == Push(s0, v);
      var next := SortStrings(Out(g, v));
      SameMultisetSameElems(next, Out(g, v));
      LoopStart(g, s0, gray, v, next);
      VisitSuccessors(v, next, gray, s0);
      Leave(v, next, gray, s0);
    }

    /** The loop over the sorted successors. */
    method VisitSuccessors(v: string, next: seq<string>, ghost gray: set<string>, ghost s0: State)
      requires WellFormed(g) && v in g.nodes && v !in s0.indices && s0.lowlink.Keys == s0.indices.Keys
      requires Elems(next) == Elems(Out(g, v))
      requires InLoop(g, s0, Now(), gray, v, next, 0) == true
      requires forall x {:trigger Reach(g, x, v)} :: x in gray ==> Reach(g, x, v)
      modifies this
      ensures InLoop(g, s0, Now(), gray, v, next, |next|) == true
      decreases g.nodes - indices.Keys, 3
    {
      ghost var seen := indices.Keys;
      for i := 0 to |next|
        invariant InLoop(g, s0, Now(), gray, v, next, i) == true
        invariant seen <= indices.Keys
      {
        assert next[i] in Elems(next);
        VisitOne(v, next, i, gray, s0);
      }
    }

    method VisitOne(v: string, next: seq<string>, i: nat, ghost gray: set<string>, ghost s0: State)
      requires WellFormed(g) == true && v in g.nodes && v !in s0.indices && s0.lowlink.Keys == s0.indices.Keys
      requires i < |next| && next[i] in Out(g, v)
      requires InLoop(g, s0, Now(), gray, v, next, i) == true
      requires forall x {:trigger Reach(g, x, v)} :: x in gray ==> Reach(g, x, v)
      modifies this
      ensures InLoop(g, s0, Now(), gray, v, next, i + 1) == true
      ensures old(indices.Keys) <= indices.Keys
      decreases g.nodes - indices.Keys, 2
    {
      var w := next[i];
      ghost var s := Now();
      if w !in indices {
        Descend(v, w, gray);
        AfterCall(g, s0, s, Now(), gray, v, next, i);
        LowerTo(v, lowlink[w]);
      } else {
        AfterSeen(g, s0, s, gray, v, next, i);
        if w in onStack {
          LowerTo(v, indices[w]);
        }
      }
    }

    /** The recursive call on an unseen successor. */
    method Descend(v: string, w: string, ghost gray: set<string>)
      requires WellFormed(g) == true && Inv(g, Now(), gray + {v}) == true
      requires v in g.nodes && w in Out(g, v) && w !in indices
      requires forall x {:trigger Reach(g, x, v)} :: x in gray ==> Reach(g, x, v)
      modifies this
      ensures Inv(g, Now(), gray + {v}) == true && CallDone(g, old(Now()), Now(), gray + {v}, w) == true
      decreases g.nodes - indices.Keys, 1, 0
    {
      EdgeSymmetry(g, v, w);
      GrayReachNext(g, gray, v, w);
      StrongConnect(w, gray + {v});
    }

    method LowerTo(v: string, n: nat)
      requires v in lowlink
      modifies this`lowlink
      ensures Now() == if n < old(lowlink)[v] then SetLow(old(Now()), v, n) else old(Now())
      ensures Now() == SetLow(old(Now()), v, if n < old(lowlink)[v] then n else old(lowlink)[v])
    {
      if n < lowlink[v] {
        lowlink := lowlink[v := n];
      } else {
        assert lowlink[v := lowlink[v]] == lowlink;
      }
    }

    /** The pop loop: takes everything down to and including `v` off the stack. */
    method PopDown(v: string, ghost base: nat) returns (scc: seq<string>)
      requires onStack == Elems(stack) && base < |stack| && stack[base] == v
      requires forall i, j :: 0 <= i < j < |stack| ==> stack[i] != stack[j]
      modifies this`stack, this`onStack
      ensures stack == old(stack)[..base] && onStack == Elems(stack)
      ensures |scc| == |old(stack)| - base
      ensures forall k :: 0 <= k < |scc| ==> scc[k] == old(stack)[|old(stack)| - 1 - k]
      ensures forall i, j :: 0 <= i < j < |scc| ==> scc[i] != scc[j]
      ensures Elems(scc) == Elems(old(stack)[base..])
    {
      ghost var full := stack;
      scc := [];
      while true
        invariant base < |stack| <= |full| && stack == full[..|stack|] && onStack == Elems(stack)
        invariant |scc| == |full| - |stack|
        invariant forall k :: 0 <= k < |scc| ==> scc[k] == full[|full| - 1 - k]
        decreases |stack|
      {
        var n := |stack| - 1;
        var w := stack[n];
        assert Elems(stack[..n]) == Elems(stack) - {w} by {
          assert stack == stack[..n] + [w];
          assert w !in stack[..n];
        }
        stack := stack[..n];
        onStack := onStack - {w};
        scc := scc + [w];
        if w == v {
          assert n == base;
          break;
        }
      }
      forall x ensures x in scc <==> x in full[base..] {
        if x in scc { var k :| 0 <= k < |scc| && scc[k] == x; assert full[base..][|scc| - 1 - k] == x; }
        if x in full[base..] { var k :| base <= k < |full| && full[k] == x; assert scc[|full| - 1 - k] == x; }
      }
    }

    method PopComponent(v: string, ghost gray: set<string>, ghost base: nat)
      requires WellFormed(g) == true && Inv(g, Now(), gray + {v}) == true && AtExit(g, Now(), gray, v, base) == true
      requires LowDone(g, Now(), v, base) && lowlink[v] == indices[v]
      modifies this
      ensures Inv(g, Now(), gray) == true && |old(sccs)| <= |sccs|
      ensures Now() == Pop(old(Now()), base, sccs[|old(sccs)|..])
    {
      ghost var s := Now();
      var scc := PopDown(v, base);
      assert scc[|scc| - 1] == v;
      var cyclic := IsCyclic(g, scc);
      var sorted := SortSet(Elems(scc));
      ghost var more := if cyclic then [sorted] else [];
      if cyclic {
        sccs := sccs + [sorted];
      }
      assert sccs == s.sccs + more && sccs[|s.sccs|..] == more;
      PopInv(g, s, gray, v, base, sorted, more);
      assert Now() == Pop(s, base, more);
    }

    /** Pops a component when `v` is its oldest node. */
    method Leave(v: string, next: seq<string>, ghost gray: set<string>, ghost s0: State)
      requires WellFormed(g) && Elems(next) == Elems(Out(g, v))
      requires Shape(g, s0, gray) && v !in s0.indices && InLoop(g, s0, Now(), gray, v, next, |next|) == true
      requires forall x {:trigger Reach(g, x, v)} :: x in gray ==> Reach(g, x, v)
      modifies this
      ensures Inv(g, Now(), gray) == true && CallDone(g, s0, Now(), gray, v) == true
    {
      ghost var s, base := Now(), |s0.stack|;
      forall y | y in Out(g, v) ensures y in next { assert y in Elems(next); }
      LoopEnd(g, s0, s, gray, v, next);
      if lowlink[v] == indices[v] {
        PopComponent(v, gray, base);
        PopExtends(g, s0, s, gray, v, sccs[|s.sccs|..]);
      } else {
        StayInv(g, s, gray, v, base);
      }
    }
  }

  /** The answer: every cyclic component once, members sorted, components ordered by first member. */
  ghost predicate CyclicComponents(g: Graph, r: seq<seq<string>>) {
    && (forall i :: 0 <= i < |r| ==> r[i] != [] && StrictlySorted(r[i]))
    && (forall i, j :: 0 <= i < j < |r| ==> Less(r[i][0], r[j][0]))
    && (forall i {:trigger r[i]} :: 0 <= i < |r| ==> IsScc(g, Elems(r[i])) && IsCyclicSet(g, Elems(r[i])))
    && (forall c {:trigger IsScc(g, c)} :: IsScc(g, c) && IsCyclicSet(g, c) ==>
      exists i :: 0 <= i < |r| && Elems(r[i]) == c)
  }

  lemma NoGrayBelow(g: Graph, s: State, y: string)
    requires Shape(g, s, {}) && y in s.indices
    ensures !HasGrayBelow(g, s, {}, y)
  {
  }

  lemma NothingWaiting(g: Graph, s: State)
    requires Shape(g, s, {}) && StackReachesGray(g, s, {})
    ensures s.onStack == {}
  {
    if y :| y in s.onStack {
      NoGrayBelow(g, s, y);
    }
  }

  lemma OverlappingSccsEqual(g: Graph, c: set<string>, d: set<string>, x: string)
    requires IsScc(g, c) && IsScc(g, d) && x in c && x in d
    ensures c == d
  {
    forall y | y in c ensures y in d { assert Reach(g, x, y) && Reach(g, y, x); assert Mutual(g, x, y); }
    forall y | y in d ensures y in c { assert Reach(g, x, y) && Reach(g, y, x); assert Mutual(g, x, y); }
  }

  /** With every node popped, the reported components are all of them. */
  lemma AllReported(g: Graph, s: State, c: set<string>)
    requires WellFormed(g) && Reported(g, s) && s.Popped() == g.nodes
    requires IsScc(g, c) && IsCyclicSet(g, c)
    ensures exists i :: 0 <= i < |s.sccs| && Elems(s.sccs[i]) == c
  {
    var x :| x in c;
    CyclicMembers(g, c, x);
    assert OnCycle(g, x);
    var i :| 0 <= i < |s.sccs| && x in s.sccs[i];
    assert ReportedOne(g, s.Popped(), s.sccs[i]);
    OverlappingSccsEqual(g, c, Elems(s.sccs[i]), x);
  }

  function Gather(m: map<string, seq<string>>, keys: seq<string>): seq<seq<string>>
    requires forall k :: k in keys ==> k in m
  {
    seq(|keys|, i requires 0 <= i < |keys| => m[keys[i]])
  }

  lemma GatherMembers(m: map<string, seq<string>>, keys: seq<string>)
    requires Elems(keys) == m.Keys
    ensures forall c :: c in Gather(m, keys) <==> exists k :: k in m && m[k] == c
  {
    forall k | k in m ensures m[k] in Gather(m, keys) {
      assert k in Elems(keys);
      var i :| 0 <= i < |keys| && keys[i] == k;
      assert Gather(m, keys)[i] == m[k];
    }
    forall c | c in Gather(m, keys) ensures exists k :: k in m && m[k] == c {
      var i :| 0 <= i < |keys| && Gather(m, keys)[i] == c;
      assert keys[i] in Elems(keys);
      assert keys[i] in m && m[keys[i]] == c;
    }
  }

  /** sort.Slice by first member; first members differ because the components are disjoint. */
  method SortByFirst(sccs: seq<seq<string>>) returns (r: seq<seq<string>>)
    requires forall i :: 0 <= i < |sccs| ==> sccs[i] != []
    requires forall i, j :: 0 <= i < j < |sccs| ==> sccs[i][0] != sccs[j][0]
    ensures forall c :: c in r <==> c in sccs
    ensures forall i :: 0 <= i < |r| ==> r[i] != []
    ensures forall i, j :: 0 <= i < j < |r| ==> Less(r[i][0], r[j][0])
  {
    var byFirst := map[];
    for i := 0 to |sccs|
      invariant forall f :: f in byFirst ==> byFirst[f] in sccs && byFirst[f] != [] && byFirst[f][0] == f
      invariant forall f :: f in byFirst ==> exists j :: 0 <= j < i && sccs[j][0] == f
      invariant forall j :: 0 <= j < i ==> sccs[j][0] in byFirst && byFirst[sccs[j][0]] == sccs[j]
    {
      byFirst := byFirst[sccs[i][0] := sccs[i]];
    }
    var firsts := SortSet(byFirst.Keys);
    assert forall k :: k in firsts ==> k in Elems(firsts);
    GatherMembers(byFirst, firsts);
    r := Gather(byFirst, firsts);
  }

  lemma AllPopped(g: Graph, s: State, names: seq<string>)
    requires Elems(names) == g.nodes && (forall n :: n in names ==> n in s.indices)
    requires Shape(g, s, {}) && StackReachesGray(g, s, {})
    ensures s.Popped() == g.nodes
  {
    NothingWaiting(g, s);
    forall x | x in g.nodes ensures x in s.indices { assert x in Elems(names); }
  }

  /** FindCycles. */
  method FindCycles(g: Graph) returns (r: seq<seq<string>>)
    requires WellFormed(g)
    ensures CyclicComponents(g, r) == true
  {
    var search := new Search(g);
    var names := SortSet(g.nodes);
    search.VisitAll(names);
    AllPopped(g, search.Now(), names);
    r := Finish(g, search.sccs, search.Now());
  }

  method Finish(g: Graph, sccs: seq<seq<string>>, ghost s: State) returns (r: seq<seq<string>>)
    requires WellFormed(g) && Reported(g, s) && s.Popped() == g.nodes && s.sccs == sccs
    ensures CyclicComponents(g, r)
  {
    forall i | 0 <= i < |sccs| ensures sccs[i] != [] {
      assert ReportedOne(g, s.Popped(), sccs[i]);
    }
    assert forall i :: 0 <= i < |sccs| ==> sccs[i][0] in Elems(sccs[i]);
    r := SortByFirst(sccs);
    forall i | 0 <= i < |r| ensures ReportedOne(g, s.Popped(), r[i]) {
      assert r[i] in r;
      var k :| 0 <= k < |sccs| && sccs[k] == r[i];
      assert ReportedOne(g, s.Popped(), sccs[k]);
    }
    forall c | IsScc(g, c) && IsCyclicSet(g, c) ensures exists i :: 0 <= i < |r| && Elems(r[i]) == c {
      AllReported(g, s, c);
      var k :| 0 <= k < |sccs| && Elems(sccs[k]) == c;
      assert sccs[k] in r;
      var i :| 0 <= i < |r| && r[i] == sccs[k];
    }
  }

  /** FindCycle: the first component, or nothing. */
  method FindCycle(g: Graph) returns (r: seq<string>)
    requires WellFormed(g)
    ensures r == [] <==> Acyclic(g)
    ensures r != [] ==> StrictlySorted(r) && IsScc(g, Elems(r)) && IsCyclicSet(g, Elems(r))
  {
    var cycles := FindCycles(g);
    EmptyIffAcyclic(g, cycles);
    if |cycles| == 0 {
      return [];
    }
    return cycles[0];
  }

  // ---- What the answer means for single nodes.

  ghost function SccOf(g: Graph, n: string): set<string>
  {
    set m | m in g.nodes && Mutual(g, n, m)
  }

  lemma SccOfIsScc(g: Graph, n: string)
    requires n in g.nodes
    ensures IsScc(g, SccOf(g, n)) && n in SccOf(g, n)
  {
    ReachSelf(g, n);
    assert n in SccOf(g, n) by { assert Mutual(g, n, n); }
    forall a, b | a in SccOf(g, n) && b in SccOf(g, n) ensures Reach(g, a, b) {
      ReachTransitive(g, a, n, b);
    }
    forall a, b | a in SccOf(g, n) && b in g.nodes && Mutual(g, a, b) ensures b in SccOf(g, n) {
      ReachTransitive(g, n, a, b);
      ReachTransitive(g, b, a, n);
      assert Mutual(g, n, b);
    }
  }

  /** A node lies on a cycle exactly when one reported component holds it, and then exactly one does. */
  lemma OnCycleIffReported(g: Graph, r: seq<seq<string>>, n: string)
    requires WellFormed(g) && CyclicComponents(g, r)
    ensures OnCycle(g, n) <==> exists i :: 0 <= i < |r| && n in r[i]
    ensures forall i, j :: 0 <= i < |r| && 0 <= j < |r| && n in r[i] && n in r[j] ==> i == j
  {
    if OnCycle(g, n) {
      var c :| c in Out(g, n) && Reach(g, c, n);
      EdgeSymmetry(g, n, c);
      SccOfIsScc(g, n);
      CyclicMembers(g, SccOf(g, n), n);
      var i :| 0 <= i < |r| && Elems(r[i]) == SccOf(g, n);
      assert n in r[i];
    }
    forall i | 0 <= i < |r| && n in r[i] ensures OnCycle(g, n) {
      CyclicMembers(g, Elems(r[i]), n);
    }
    forall i, j | 0 <= i < j < |r| && n in r[i] && n in r[j] ensures false {
      OverlappingSccsEqual(g, Elems(r[i]), Elems(r[j]), n);
      SortedListingUnique(r[i], r[j]);
      LessIrreflexive(r[i][0]);
    }
  }

  lemma EmptyIffAcyclic(g: Graph, r: seq<seq<string>>)
    requires WellFormed(g) && CyclicComponents(g, r)
    ensures r == [] <==> Acyclic(g)
  {
    forall n ensures OnCycle(g, n) <==> exists i :: 0 <= i < |r| && n in r[i] {
      OnCycleIffReported(g, r, n);
    }
    if r != [] {
      assert r[0][0] in r[0];
      assert OnCycle(g, r[0][0]);
    }
    if !Acyclic(g) {
      var n :| ReachPlus(g, n, n);
      assert OnCycle(g, n);
    }
  }

  /** The answer is determined by the graph alone, whatever order the maps were ranged over. */
  lemma AnswerUnique(g: Graph, r: seq<seq<string>>, q: seq<seq<string>>)
    requires CyclicComponents(g, r) && CyclicComponents(g, q)
    ensures r == q
  {
    AnswerIncluded(g, r, q);
    AnswerIncluded(g, q, r);
    SameOrder(r, q);
  }

  /** Lists ordered strictly by first member. */
  ghost predicate FirstOrdered(r: seq<seq<string>>) {
    && (forall i :: 0 <= i < |r| ==> r[i] != [])
    && (forall i, j :: 0 <= i < j < |r| ==> Less(r[i][0], r[j][0]))
  }

  lemma {:induction false} SameOrder(r: seq<seq<string>>, q: seq<seq<string>>)
    requires FirstOrdered(r) && FirstOrdered(q) && Elems(r) == Elems(q)
    ensures r == q
  {
    if r == [] {
      EmptyElems(r);
      EmptyElems(q);
    } else {
      assert r[0] in Elems(r);
      var i :| 0 <= i < |q| && q[i] == r[0];
      assert q[0] in Elems(q);
      var j :| 0 <= j < |r| && r[j] == q[0];
      if i > 0 && j > 0 { LessAsymmetric(r[0][0], r[j][0]); }
      assert r[0] == q[0];
      forall c ensures c in r[1..] <==> c in q[1..] {
        TailMembers(r, c);
        TailMembers(q, c);
        assert c in r <==> c in Elems(r);
        assert c in q <==> c in Elems(q);
      }
      SameOrder(r[1..], q[1..]);
      assert r == [r[0]] + r[1..] && q == [q[0]] + q[1..];
    }
  }

  lemma TailMembers(r: seq<seq<string>>, c: seq<string>)
    requires FirstOrdered(r) && r != []
    ensures c in r[1..] <==> c in r && c != r[0]
  {
    LessIrreflexive(r[0][0]);
    if c in r && c != r[0] {
      var k :| 0 <= k < |r| && r[k] == c;
      assert r[1..][k - 1] == c;
    }
  }

  lemma AnswerIncluded(g: Graph, r: seq<seq<string>>, q: seq<seq<string>>)
    requires CyclicComponents(g, r) && CyclicComponents(g, q)
    ensures Elems(r) <= Elems(q)
  {
    forall c | c in r ensures c in q {
      var i :| 0 <= i < |r| && r[i] == c;
      var j :| 0 <= j < |q| && Elems(q[j]) == Elems(r[i]);
      SortedListingUnique(r[i], q[j]);
    }
  }
}
