/** The built graph: leaf nodes, edges and the adjacency lists read by every algorithm. */
module Graphs {
  import opened Names

  datatype PortKind = Bare | Output | Input

  datatype Entity = NodeEntity | UseEntity

  /** A reference to a port of a node or group instance, or a bare reference with no port. */
  datatype PortRef = PortRef(entity: Entity, node: string, kind: PortKind, name: string) {
    predicate IsPort() { kind != Bare }
  }

  datatype Edge = Edge(from: PortRef, to: PortRef) {
    predicate IsDataEdge() { from.IsPort() && to.IsPort() }
  }

  /** `out[a]` lists the nodes that must run after `a`, `inn[a]` those that must run before it, both
      with one entry per edge, so names repeat when two edges join the same pair. */
  datatype Graph = Graph(nodes: set<string>, edges: seq<Edge>, out: map<string, seq<string>>, inn: map<string,
    seq<string>>)

  function Out(g: Graph, n: string): seq<string> {
    if n in g.out then g.out[n] else []
  }

  function In(g: Graph, n: string): seq<string> {
    if n in g.inn then g.inn[n] else []
  }

  function TargetsOf(edges: seq<Edge>, n: string): seq<string> {
    if edges == [] then []
    else
      var last := edges[|edges| - 1];
      TargetsOf(edges[..|edges| - 1], n) + (if last.from.node == n then [last.to.node] else [])
  }

  function SourcesOf(edges: seq<Edge>, n: string): seq<string> {
    if edges == [] then []
    else
      var last := edges[|edges| - 1];
      SourcesOf(edges[..|edges| - 1], n) + (if last.to.node == n then [last.from.node] else [])
  }

  /** What Build establishes: the adjacency lists are the two projections of the edges, and every
      edge joins nodes of the graph. */
  ghost predicate WellFormed(g: Graph) {
    && (forall e :: e in g.edges ==> e.from.node in g.nodes && e.to.node in g.nodes)
    && (forall n :: multiset(Out(g, n)) == multiset(TargetsOf(g.edges, n)))
    && (forall n :: multiset(In(g, n)) == multiset(SourcesOf(g.edges, n)))
  }

  lemma {:induction false} ProjectionsAgree(edges: seq<Edge>, a: string, b: string)
    ensures multiset(TargetsOf(edges, a))[b] == multiset(SourcesOf(edges, b))[a]
    ensures b in TargetsOf(edges, a) <==> exists e :: e in edges && e.from.node == a && e.to.node == b
  {
    if edges != [] {
      var init, last := edges[..|edges| - 1], edges[|edges| - 1];
      ProjectionsAgree(init, a, b);
      assert edges == init + [last];
    }
  }

  /** An edge is seen from both ends, equally often. */
  lemma EdgeSymmetry(g: Graph, a: string, b: string)
    requires WellFormed(g)
    ensures multiset(Out(g, a))[b] == multiset(In(g, b))[a]
    ensures b in Out(g, a) <==> a in In(g, b)
    ensures b in Out(g, a) ==> a in g.nodes && b in g.nodes
  {
    ProjectionsAgree(g.edges, a, b);
    assert b in Out(g, a) <==> b in multiset(Out(g, a));
    assert a in In(g, b) <==> a in multiset(In(g, b));
    assert b in TargetsOf(g.edges, a) <==> b in multiset(TargetsOf(g.edges, a));
  }

  /** A walk along edges; a single node is a walk of no edges. */
  ghost predicate Path(g: Graph, p: seq<string>) {
    |p| > 0 && (|p| == 1 || (p[1] in Out(g, p[0]) && Path(g, p[1..])))
  }

  ghost predicate PathFromTo(g: Graph, p: seq<string>, a: string, b: string) {
    Path(g, p) && p[0] == a && p[|p| - 1] == b
  }

  ghost predicate Reach(g: Graph, a: string, b: string) {
    exists p :: PathFromTo(g, p, a, b)
  }

  /** `b` is reached from `a` over at least one edge. */
  ghost predicate ReachPlus(g: Graph, a: string, b: string) {
    exists c :: c in Out(g, a) && Reach(g, c, b)
  }

  ghost predicate Acyclic(g: Graph) {
    forall n :: !ReachPlus(g, n, n)
  }

  lemma {:induction false} PathStep(g: Graph, p: seq<string>, i: nat)
    requires Path(g, p) && i + 1 < |p|
    ensures p[i + 1] in Out(g, p[i])
  {
    if i > 0 { PathStep(g, p[1..], i - 1); }
  }

  lemma {:induction false} PathSuffix(g: Graph, p: seq<string>, i: nat)
    requires Path(g, p) && i < |p|
    ensures Path(g, p[i..])
  {
    if i > 0 {
      PathSuffix(g, p[1..], i - 1);
      assert p[1..][i - 1..] == p[i..];
    } else {
      assert p[0..] == p;
    }
  }

  lemma {:induction false} PathPrefix(g: Graph, p: seq<string>, j: nat)
    requires Path(g, p) && j < |p|
    ensures Path(g, p[..j + 1])
  {
    if j > 0 {
      PathPrefix(g, p[1..], j - 1);
      assert p[1..][..j] == p[..j + 1][1..];
    }
  }

  lemma {:induction false} PathConcat(g: Graph, p: seq<string>, q: seq<string>)
    requires Path(g, p) && Path(g, q) && q[0] in Out(g, p[|p| - 1])
    ensures Path(g, p + q)
  {
    if |p| == 1 {
      assert (p + q)[1..] == q;
    } else {
      PathConcat(g, p[1..], q);
      assert (p + q)[1..] == p[1..] + q;
    }
  }

  lemma ReachSelf(g: Graph, a: string)
    ensures Reach(g, a, a)
  {
    assert PathFromTo(g, [a], a, a);
  }

  lemma ReachTransitive(g: Graph, a: string, b: string, c: string)
    requires Reach(g, a, b) && Reach(g, b, c)
    ensures Reach(g, a, c)
  {
    var p :| PathFromTo(g, p, a, b);
    var q :| PathFromTo(g, q, b, c);
    if |q| == 1 {
      assert PathFromTo(g, p, a, c);
    } else {
      PathConcat(g, p, q[1..]);
      assert PathFromTo(g, p + q[1..], a, c);
    }
  }

  lemma ReachEdge(g: Graph, a: string, b: string)
    requires b in Out(g, a)
    ensures Reach(g, a, b)
  {
    assert [a, b][1..] == [b];
    assert PathFromTo(g, [a, b], a, b);
  }

  lemma ReachPlusIsReach(g: Graph, a: string, b: string)
    requires ReachPlus(g, a, b)
    ensures Reach(g, a, b)
  {
    var c :| c in Out(g, a) && Reach(g, c, b);
    ReachEdge(g, a, c);
    ReachTransitive(g, a, c, b);
  }

  lemma ReachSplit(g: Graph, a: string, b: string)
    requires Reach(g, a, b) && a != b
    ensures ReachPlus(g, a, b)
  {
    var p :| PathFromTo(g, p, a, b);
    assert PathFromTo(g, p[1..], p[1], b);
    assert p[1] in Out(g, a) && Reach(g, p[1], b);
  }

  lemma ReachPlusThenReach(g: Graph, a: string, b: string, c: string)
    requires ReachPlus(g, a, b) && Reach(g, b, c)
    ensures ReachPlus(g, a, c)
  {
    var d :| d in Out(g, a) && Reach(g, d, b);
    ReachTransitive(g, d, b, c);
  }

  lemma ReachThenReachPlus(g: Graph, a: string, b: string, c: string)
    requires Reach(g, a, b) && ReachPlus(g, b, c)
    ensures ReachPlus(g, a, c)
  {
    if a != b {
      ReachSplit(g, a, b);
      ReachPlusIsReach(g, b, c);
      ReachPlusThenReach(g, a, b, c);
    }
  }

  /** Walks stay inside the graph. */
  lemma ReachStaysInside(g: Graph, a: string, b: string)
    requires WellFormed(g) && a in g.nodes && Reach(g, a, b)
    ensures b in g.nodes
  {
    var p :| PathFromTo(g, p, a, b);
    if |p| > 1 {
      PathStep(g, p, |p| - 2);
      EdgeSymmetry(g, p[|p| - 2], b);
    }
  }

  /** A walk from inside a set to outside crosses its border along some edge. */
  lemma {:induction false} Crossing(g: Graph, p: seq<string>, inside: set<string>) returns (k: nat)
    requires Path(g, p) && p[0] in inside && p[|p| - 1] !in inside
    ensures k + 1 < |p| && p[k] in inside && p[k + 1] !in inside
    decreases |p|
  {
    if p[1] !in inside {
      k := 0;
    } else {
      k := Crossing(g, p[1..], inside);
      k := k + 1;
    }
  }

  lemma ReachAlong(g: Graph, p: seq<string>, i: nat, j: nat)
    requires Path(g, p) && i <= j < |p|
    ensures Reach(g, p[i], p[j])
  {
    PathSuffix(g, p, i);
    PathPrefix(g, p[i..], j - i);
    assert PathFromTo(g, p[i..][..j - i + 1], p[i], p[j]);
  }
}
