/** Node selection: Select, its stored form's validator ValidateMembership, and SelectedLevels. */
module Selections {
  import opened Names
  import opened Sequences
  import opened Graphs
  import Topo

  /** A Go slice, where nil and empty differ. */
  datatype Slice<T> = Nil | Slice(items: seq<T>) {
    function Items(): seq<T> { if Nil? then [] else items }
  }

  datatype SelectionNode = SelectionNode(node: string, reason: string, via: Slice<string>)

  datatype Selection = Selection(schemaVersion: int, mode: string, requested: seq<string>,
                                 nodes: Slice<SelectionNode>, boundaryEdges: Slice<Edge>)

  function NodeNames(nodes: seq<SelectionNode>): seq<string> {
    seq(|nodes|, i requires 0 <= i < |nodes| => nodes[i].node)
  }

  function SelectedNames(s: Selection): seq<string> {
    NodeNames(s.nodes.Items())
  }

  // ---- The order of boundary edges.

  function EdgeKey(e: Edge): seq<string> {
    [e.from.node, e.from.name, e.to.node, e.to.name, if e.IsDataEdge() then "data" else "ordering"]
  }

  predicate KeyLess(a: seq<string>, b: seq<string>) {
    b != [] && (a == [] || Less(a[0], b[0]) || (a[0] == b[0] && KeyLess(a[1..], b[1..])))
  }

  lemma {:induction false} KeyTransitive(a: seq<string>, b: seq<string>, c: seq<string>)
    requires KeyLess(a, b) && KeyLess(b, c)
    ensures KeyLess(a, c)
  {
    if a != [] {
      LessIrreflexive(b[0]);
      if Less(a[0], b[0]) && Less(b[0], c[0]) {
        LessTransitive(a[0], b[0], c[0]);
      } else if a[0] == b[0] && b[0] == c[0] {
        KeyTransitive(a[1..], b[1..], c[1..]);
      }
    }
  }

  lemma {:induction false} KeyTotal(a: seq<string>, b: seq<string>)
    ensures KeyLess(a, b) || a == b || KeyLess(b, a)
  {
    if a != [] && b != [] {
      LessTotal(a[0], b[0]);
      if a[0] == b[0] {
        KeyTotal(a[1..], b[1..]);
        assert a == [a[0]] + a[1..] && b == [b[0]] + b[1..];
      }
    }
  }

  lemma {:induction false} KeyIrreflexive(a: seq<string>)
    ensures !KeyLess(a, a)
  {
    if a != [] {
      LessIrreflexive(a[0]);
      KeyIrreflexive(a[1..]);
    }
  }

  predicate EdgeBefore(a: Edge, b: Edge) {
    KeyLess(EdgeKey(a), EdgeKey(b))
  }

  /** The first component in which the keys differ decides. */
  lemma {:induction false} KeyFirstDifference(a: seq<string>, b: seq<string>)
    requires |a| == |b|
    ensures KeyLess(a, b) <==> exists i :: 0 <= i < |a| && a[..i] == b[..i] && Less(a[i], b[i])
  {
    if a != [] {
      KeyFirstDifference(a[1..], b[1..]);
      LessIrreflexive(a[0]);
      if i :| 0 <= i < |a| && a[..i] == b[..i] && Less(a[i], b[i]) {
        if i > 0 {
          assert a[..i][0] == b[..i][0] && a[1..][..i - 1] == a[..i][1..] && b[1..][..i - 1] == b[..i][1..];
        }
      }
      if KeyLess(a, b) && a[0] == b[0] {
        var i :| 0 <= i < |a[1..]| && a[1..][..i] == b[1..][..i] && Less(a[1..][i], b[1..][i]);
        assert a[..i + 1] == [a[0]] + a[1..][..i] && b[..i + 1] == [b[0]] + b[1..][..i];
      } else if KeyLess(a, b) {
        assert a[..0] == b[..0];
      }
    }
  }

  lemma EdgeOrder(a: Edge, b: Edge, c: Edge)
    ensures EdgeBefore(a, b) && !EdgeBefore(c, b) ==> EdgeBefore(a, c)
    ensures EdgeBefore(a, b) ==> !EdgeBefore(b, a)
  {
    if EdgeBefore(a, b) && !EdgeBefore(c, b) {
      KeyTotal(EdgeKey(b), EdgeKey(c));
      if EdgeKey(b) != EdgeKey(c) { KeyTransitive(EdgeKey(a), EdgeKey(b), EdgeKey(c)); }
    }
    if EdgeBefore(a, b) && EdgeBefore(b, a) {
      KeyTransitive(EdgeKey(a), EdgeKey(b), EdgeKey(a));
      KeyIrreflexive(EdgeKey(a));
    }
  }

  ghost predicate EdgesSorted(s: seq<Edge>) {
    forall i, j :: 0 <= i < j < |s| ==> !EdgeBefore(s[j], s[i])
  }

  /** sort.Slice on edges: some sorted rearrangement. */
  method SortEdges(edges: seq<Edge>) returns (r: seq<Edge>)
    ensures EdgesSorted(r) && multiset(r) == multiset(edges)
  {
    r := [];
    for i := 0 to |edges|
      invariant EdgesSorted(r) && multiset(r) == multiset(edges[..i])
    {
      var k := 0;
      while k < |r| && !EdgeBefore(edges[i], r[k])
        invariant 0 <= k <= |r|
        invariant forall j :: 0 <= j < k ==> !EdgeBefore(edges[i], r[j])
      {
        k := k + 1;
      }
      InsertEdgeOrder(r, edges[i], k);
      assert r == r[..k] + r[k..];
      r := r[..k] + [edges[i]] + r[k..];
      assert edges[..i + 1] == edges[..i] + [edges[i]];
    }
    assert edges[..|edges|] == edges;
  }

  lemma InsertEdgeOrder(s: seq<Edge>, x: Edge, k: nat)
    requires EdgesSorted(s) && k <= |s|
    requires forall i :: 0 <= i < k ==> !EdgeBefore(x, s[i])
    requires k < |s| ==> EdgeBefore(x, s[k])
    ensures EdgesSorted(s[..k] + [x] + s[k..])
  {
    forall i | k <= i < |s| ensures !EdgeBefore(s[i], x) {
      EdgeOrder(x, s[k], s[i]);
      EdgeOrder(x, s[i], x);
    }
    var r := s[..k] + [x] + s[k..];
    forall i, j | 0 <= i < j < |r| ensures !EdgeBefore(r[j], r[i]) {
      var i' := if i <= k then i else i - 1;
      var j' := if j <= k then j else j - 1;
      assert i != k ==> r[i] == s[i'];
      assert j != k ==> r[j] == s[j'];
    }
  }

  /** Adjacent elements in order make the whole list sorted. */
  lemma AdjacentSorted(s: seq<Edge>, n: nat)
    requires n <= |s| && forall i :: 0 < i < n ==> !EdgeBefore(s[i], s[i - 1])
    ensures EdgesSorted(s[..n])
  {
    forall i, j | 0 <= i < j < n ensures !EdgeBefore(s[j], s[i]) {
      AdjacentPair(s, n, i, j);
    }
  }

  lemma {:induction false} AdjacentPair(s: seq<Edge>, n: nat, i: nat, j: nat)
    requires i < j < n <= |s| && forall k :: 0 < k < n ==> !EdgeBefore(s[k], s[k - 1])
    ensures !EdgeBefore(s[j], s[i])
    decreases j - i
  {
    if i + 1 < j {
      AdjacentPair(s, n, i, j - 1);
      EdgeOrder(s[j], s[i], s[j - 1]);
    }
  }

  // ---- What a valid stored selection is.

  /** A chain of recorded Via links from a requested node to `n`. */
  ghost predicate ViaChain(s: Selection, p: seq<string>) {
    && |p| > 0
    && (if |p| == 1 then p[0] in s.requested
        else ViaChain(s, p[..|p| - 1]) && ViaLink(s, p[|p| - 2], p[|p| - 1]))
  }

  ghost predicate ViaLink(s: Selection, a: string, b: string) {
    exists k :: 0 <= k < |s.nodes.Items()| && s.nodes.Items()[k].node == b && a in s.nodes.Items()[k].via.Items()
  }

  ghost predicate Linked(s: Selection, n: string) {
    exists p :: ViaChain(s, p) && p[|p| - 1] == n
  }

  ghost predicate DistinctNonEmpty(names: seq<string>) {
    (forall i, j :: 0 <= i < j < |names| ==> names[i] != names[j]) && "" !in names
  }

  ghost predicate ValidNode(s: Selection, members: set<string>, n: SelectionNode) {
    && n.node in members
    && n.via.Slice?
    && (if n.node in s.requested then n.reason == "requested" && n.via.items == []
        else && s.mode == "downstream" && n.reason == "downstream"
             && n.via.items != [] && StrictlySorted(n.via.items)
             && (forall p :: p in n.via.items ==> p in members && p != n.node))
  }

  ghost predicate ValidBoundary(members: set<string>, e: Edge) {
    && e.from.node != "" && e.to.node != ""
    && ((e.from.node in members) != (e.to.node in members))
    && (if e.IsDataEdge() then e.from.kind == Output && e.to.kind == Input && e.from.name != "" && e.to.name != ""
        else !e.from.IsPort() && !e.to.IsPort() && e.from.name == "" && e.to.name == "")
  }

  ghost predicate ValidHeader(s: Selection) {
    s.schemaVersion == 1 && (s.mode == "exact" || s.mode == "downstream") && s.requested != [] && s.nodes.Slice?
      && s.boundaryEdges.Slice?
  }

  /** A stored selection that describes exactly the recorded nodes. */
  ghost predicate ValidSelection(s: Selection, names: seq<string>) {
    && ValidHeader(s)
    && DistinctNonEmpty(names)
    && StrictlySorted(s.requested) && Elems(s.requested) <= Elems(names)
    && StrictlySorted(SelectedNames(s)) && Elems(SelectedNames(s)) == Elems(names)
    && (forall n :: n in s.nodes.items ==> ValidNode(s, Elems(names), n))
    && (forall n {:trigger Linked(s, n)} :: n in names ==> Linked(s, n))
    && EdgesSorted(s.boundaryEdges.items)
    && (forall e :: e in s.boundaryEdges.items ==> ValidBoundary(Elems(names), e))
  }

  // ---- ValidateMembership, loop by loop.

  method CheckNames(names: seq<string>) returns (ok: bool, members: set<string>)
    ensures ok <==> DistinctNonEmpty(names)
    ensures ok ==> members == Elems(names) && |members| == |names|
  {
    members := {};
    for i := 0 to |names|
      invariant members == Elems(names[..i]) && |members| == i && DistinctNonEmpty(names[..i]) == true
    {
      NextDistinct(names, i);
      if names[i] in members || names[i] == "" {
        return false, members;
      }
      members := members + {names[i]};
    }
    assert names[..|names|] == names;
    return true, members;
  }

  lemma NextDistinct(names: seq<string>, i: nat)
    requires i < |names| && DistinctNonEmpty(names[..i])
    ensures Elems(names[..i + 1]) == Elems(names[..i]) + {names[i]}
    ensures DistinctNonEmpty(names[..i + 1]) <==> names[i] !in Elems(names[..i]) && names[i] != ""
    ensures !DistinctNonEmpty(names[..i + 1]) ==> !DistinctNonEmpty(names)
  {
    assert names[..i + 1] == names[..i] + [names[i]];
    if names[i] in Elems(names[..i]) {
      var k :| 0 <= k < i && names[..i][k] == names[i];
      assert names[..i + 1][k] == names[..i + 1][i] && names[k] == names[i];
    }
  }

  method CheckRequested(requested: seq<string>, members: set<string>) returns (ok: bool, seeds: set<string>)
    requires Sorted(requested)
    ensures ok <==> StrictlySorted(requested) && Elems(requested) <= members
    ensures ok ==> seeds == Elems(requested)
  {
    seeds := {};
    for i := 0 to |requested|
      invariant seeds == Elems(requested[..i]) && seeds <= members
      invariant forall j, k :: 0 <= j < k < i ==> requested[j] != requested[k]
    {
      assert requested[..i + 1] == requested[..i] + [requested[i]];
      assert Elems(requested[..i + 1]) == Elems(requested[..i]) + {requested[i]};
      if requested[i] !in members || requested[i] in seeds {
        LessIrreflexive(requested[i]);
        assert requested[i] in Elems(requested);
        return false, seeds;
      }
      seeds := seeds + {requested[i]};
    }
    assert requested[..|requested|] == requested;
    forall i, j | 0 <= i < j < |requested| ensures Less(requested[i],
      requested[j]) { LessTotal(requested[i], requested[j]); }
    return true, seeds;
  }

  method IsSortedStrings(s: seq<string>) returns (ok: bool)
    ensures ok <==> Sorted(s)
  {
    for i := 0 to |s|
      invariant Sorted(s[..i])
    {
      if i > 0 {
        if Less(s[i], s[i - 1]) {
          return false;
        }
        SortedPush(s, i);
      }
    }
    assert s[..|s|] == s;
    return true;
  }

  lemma SortedPush(s: seq<string>, i: nat)
    requires 0 < i < |s| && Sorted(s[..i]) && !Less(s[i], s[i - 1])
    ensures Sorted(s[..i + 1])
  {
    forall j | 0 <= j < i ensures !Less(s[i], s[j]) {
      if j < i - 1 && Less(s[i], s[j]) {
        assert !Less(s[..i][i - 1], s[..i][j]);
        LessTotal(s[j], s[i - 1]);
        if Less(s[j], s[i - 1]) { LessTransitive(s[i], s[j], s[i - 1]); }
      }
    }
    assert s[..i + 1] == s[..i] + [s[i]];
  }

  /** One node entry, apart from its place in the list. */
  method CheckNode(s: Selection, members: set<string>, n: SelectionNode) returns (ok: bool)
    ensures ok <==> ValidNode(s, members, n)
  {
    if n.node !in members || n.via.Nil? {
      return false;
    }
    if n.node in s.requested {
      return n.reason == "requested" && |n.via.items| == 0;
    }
    var sorted := IsSortedStrings(n.via.items);
    if s.mode != "downstream" || n.reason != "downstream" || |n.via.items| == 0 || !sorted {
      if n.via.Slice? && StrictlySorted(n.via.items) { StrictIsSorted(n.via.items); }
      return false;
    }
    ok := CheckVia(members, n.node, n.via.items);
  }

  lemma StrictIsSorted(s: seq<string>)
    requires StrictlySorted(s)
    ensures Sorted(s)
  {
    forall i, j | 0 <= i < j < |s| ensures !Less(s[j], s[i]) { LessAsymmetric(s[i], s[j]); }
  }

  method CheckVia(members: set<string>, node: string, via: seq<string>) returns (ok: bool)
    requires Sorted(via)
    ensures ok <==> StrictlySorted(via) && forall p :: p in via ==> p in members && p != node
  {
    for j := 0 to |via|
      invariant StrictlySorted(via[..j])
      invariant forall i :: 0 <= i < j ==> via[i] in members && via[i] != node
    {
      if via[j] !in members || via[j] == node || (j > 0 && via[j - 1] == via[j]) {
        if j > 0 { LessIrreflexive(via[j]); }
        return false;
      }
      forall i | 0 <= i < j ensures Less(via[i], via[j]) {
        assert i < j - 1 ==> Less(via[..j][i], via[..j][j - 1]);
        LessTotal(via[i], via[j]);
      }
      assert via[..j + 1] == via[..j] + [via[j]];
    }
    assert via[..|via|] == via;
    return true;
  }

  method CheckNodes(s: Selection, members: set<string>) returns (ok: bool)
    requires s.nodes.Slice?
    ensures ok <==> StrictlySorted(SelectedNames(s)) && forall n :: n in s.nodes.items ==> ValidNode(s, members, n)
  {
    var nodes := s.nodes.items;
    for i := 0 to |nodes|
      invariant StrictlySorted(NodeNames(nodes[..i]))
      invariant forall k :: 0 <= k < i ==> ValidNode(s, members, nodes[k])
    {
      var valid := CheckNode(s, members, nodes[i]);
      if !valid || (i > 0 && !Less(nodes[i - 1].node, nodes[i].node)) {
        assert i > 0 ==> SelectedNames(s)[i - 1] == nodes[i - 1].node && SelectedNames(s)[i] == nodes[i].node;
        return false;
      }
      var prefix := NodeNames(nodes[..i]);
      forall k | 0 <= k < i ensures Less(nodes[k].node, nodes[i].node) {
        if k < i - 1 {
          assert Less(prefix[k], prefix[i - 1]);
          LessTransitive(nodes[k].node, nodes[i - 1].node, nodes[i].node);
        }
      }
      assert NodeNames(nodes[..i + 1]) == prefix + [nodes[i].node];
      forall j, k | 0 <= j < k < i ensures Less(prefix[j], prefix[k]) { }
    }
    assert nodes[..|nodes|] == nodes;
    return true;
  }

  ghost predicate ClosedUnderLinks(s: Selection, reachable: set<string>) {
    forall k, p {:trigger p in s.nodes.Items()[k].via.Items()} ::
      0 <= k < |s.nodes.Items()| && p in s.nodes.Items()[k].via.Items() && p in reachable ==>
        s.nodes.Items()[k].node in reachable
  }

  lemma LinkStep(s: Selection, k: nat, p: string)
    requires k < |s.nodes.Items()| && p in s.nodes.Items()[k].via.Items() && Linked(s, p)
    ensures Linked(s, s.nodes.Items()[k].node)
  {
    var q :| ViaChain(s, q) && q[|q| - 1] == p;
    var n := s.nodes.Items()[k].node;
    var r := q + [n];
    assert r[..|r| - 1] == q;
    assert ViaLink(s, p, n);
    assert ViaChain(s, r);
  }

  lemma {:induction false} ChainInside(s: Selection, reachable: set<string>, p: seq<string>)
    requires ClosedUnderLinks(s, reachable) && Elems(s.requested) <= reachable && ViaChain(s, p)
    ensures p[|p| - 1] in reachable
    decreases |p|
  {
    if |p| > 1 {
      ChainInside(s, reachable, p[..|p| - 1]);
    } else {
      assert p[0] in Elems(s.requested);
    }
  }

  /** One sweep over the nodes. */
  method Sweep(s: Selection, reachable: set<string>) returns (r: set<string>, changed: bool)
    requires forall n {:trigger Linked(s, n)} :: n in reachable ==> Linked(s, n)
    ensures reachable <= r && (changed <==> r != reachable)
    ensures r <= reachable + Elems(SelectedNames(s))
    ensures forall n {:trigger Linked(s, n)} :: n in r ==> Linked(s, n)
    ensures !changed ==> ClosedUnderLinks(s, r)
  {
    r, changed := reachable, false;
    var nodes := s.nodes.Items();
    for i := 0 to |nodes|
      invariant reachable <= r && (changed <==> r != reachable)
      invariant r <= reachable + Elems(SelectedNames(s))
      invariant forall n {:trigger Linked(s, n)} :: n in r ==> Linked(s, n)
      invariant !changed ==> forall k, p {:trigger p in nodes[k].via.Items()} ::
        0 <= k < i && p in nodes[k].via.Items() && p in r ==> nodes[k].node in r
    {
      var via := nodes[i].via.Items();
      for j := 0 to |via|
        invariant reachable <= r && (changed <==> r != reachable)
        invariant r <= reachable + Elems(SelectedNames(s))
        invariant forall n {:trigger Linked(s, n)} :: n in r ==> Linked(s, n)
        invariant !changed ==> forall k, p {:trigger p in nodes[k].via.Items()} ::
          0 <= k < i && p in nodes[k].via.Items() && p in r ==> nodes[k].node in r
        invariant !changed ==> forall m :: 0 <= m < j && via[m] in r ==> nodes[i].node in r
      {
        if via[j] in r && nodes[i].node !in r {
          assert Linked(s, via[j]);
          LinkStep(s, i, via[j]);
          assert SelectedNames(s)[i] == nodes[i].node;
          r, changed := r + {nodes[i].node}, true;
        }
      }
    }
  }

  /** The fixpoint loop: exactly the nodes linked to a requested one. */
  method LinkedNodes(s: Selection, members: set<string>) returns (reachable: set<string>)
    requires Elems(s.requested) <= members && Elems(SelectedNames(s)) <= members
    ensures reachable <= members
    ensures forall n {:trigger Linked(s, n)} :: n in reachable <==> Linked(s, n)
  {
    reachable := Elems(s.requested);
    forall n | n in reachable ensures Linked(s, n) { assert ViaChain(s, [n]); }
    var changed := true;
    while changed
      invariant Elems(s.requested) <= reachable <= members
      invariant forall n {:trigger Linked(s, n)} :: n in reachable ==> Linked(s, n)
      invariant !changed ==> ClosedUnderLinks(s, reachable)
      decreases members - reachable, changed
    {
      reachable, changed := Sweep(s, reachable);
    }
    forall n | Linked(s, n) ensures n in reachable {
      var p :| ViaChain(s, p) && p[|p| - 1] == n;
      ChainInside(s, reachable, p);
    }
  }

  method CheckBoundary(edges: seq<Edge>, members: set<string>) returns (ok: bool)
    ensures ok <==> EdgesSorted(edges) && forall e :: e in edges ==> ValidBoundary(members, e)
  {
    for i := 0 to |edges|
      invariant forall k :: 0 < k < i ==> !EdgeBefore(edges[k], edges[k - 1])
      invariant forall k :: 0 <= k < i ==> ValidBoundary(members, edges[k])
    {
      var e := edges[i];
      assert e in edges;
      if i > 0 && EdgeBefore(e, edges[i - 1]) {
        return false;
      }
      if e.from.node == "" || e.to.node == "" || (e.from.node in members) == (e.to.node in members) {
        assert !ValidBoundary(members, e);
        return false;
      }
      if e.IsDataEdge() {
        if e.from.kind != Output || e.to.kind != Input || e.from.name == "" || e.to.name == "" {
          assert !ValidBoundary(members, e);
          return false;
        }
      } else if e.from.IsPort() || e.to.IsPort() || e.from.name != "" || e.to.name != "" {
        assert !ValidBoundary(members, e);
        return false;
      }
    }
    AdjacentSorted(edges, |edges|);
    assert edges[..|edges|] == edges;
    return true;
  }

  /** ValidateMembership. */
  method ValidateMembership(s: Selection, names: seq<string>) returns (ok: bool)
    ensures ok <==> ValidSelection(s, names)
  {
    if s.schemaVersion != 1 || (s.mode != "exact" && s.mode != "downstream") || |s.requested| == 0 || s.nodes.Nil?
      || s.boundaryEdges.Nil? {
      return false;
    }
    var namesOk, members := CheckNames(names);
    if !namesOk {
      return false;
    }
    var sorted := IsSortedStrings(s.requested);
    if StrictlySorted(s.requested) { StrictIsSorted(s.requested); }
    ValidImpliesCount(s, names);
    if |s.nodes.items| != |members| || !sorted {
      return false;
    }
    var seedsOk, seeds := CheckRequested(s.requested, members);
    if !seedsOk {
      return false;
    }
    var nodesOk := CheckNodes(s, members);
    if !nodesOk {
      return false;
    }
    SameCountSameSet(s, names, members);
    var reachable := LinkedNodes(s, members);
    AllLinkedIffSameSize(s, names, members, reachable);
    if |reachable| != |members| {
      return false;
    }
    ok := CheckBoundary(s.boundaryEdges.items, members);
  }

  lemma ValidImpliesCount(s: Selection, names: seq<string>)
    requires s.nodes.Slice? && DistinctNonEmpty(names)
    ensures StrictlySorted(SelectedNames(s)) && Elems(SelectedNames(s)) == Elems(names) ==>
      |s.nodes.items| == |Elems(names)|
  {
    if StrictlySorted(SelectedNames(s)) && Elems(SelectedNames(s)) == Elems(names) {
      Topo.StrictCount(SelectedNames(s));
    }
  }

  lemma SameCountSameSet(s: Selection, names: seq<string>, members: set<string>)
    requires s.nodes.Slice? && members == Elems(names) && |s.nodes.items| == |members|
      && StrictlySorted(SelectedNames(s))
    requires forall n :: n in s.nodes.items ==> n.node in members
    ensures Elems(SelectedNames(s)) == members
  {
    Topo.StrictCount(SelectedNames(s));
    forall x | x in Elems(SelectedNames(s)) ensures x in members {
      var i :| 0 <= i < |SelectedNames(s)| && SelectedNames(s)[i] == x;
      assert s.nodes.items[i] in s.nodes.items;
    }
    SubsetOfSameSize(Elems(SelectedNames(s)), members);
  }

  lemma AllLinkedIffSameSize(s: Selection, names: seq<string>, members: set<string>, reachable: set<string>)
    requires members == Elems(names) && reachable <= members
    requires forall n {:trigger Linked(s, n)} :: n in reachable <==> Linked(s, n)
    ensures (forall n {:trigger Linked(s, n)} :: n in names ==> Linked(s, n)) <==> |reachable| == |members|
  {
    if |reachable| == |members| {
      SubsetOfSameSize(reachable, members);
    } else {
      assert reachable != members;
      var n :| n in members && n !in reachable;
      assert n in names && !Linked(s, n);
    }
  }

  lemma {:induction false} SubsetOfSameSize(a: set<string>, b: set<string>)
    requires a <= b && |a| == |b|
    ensures a == b
  {
    assert |b - a| == |b| - |a|;
    assert b == a + (b - a);
  }

  // ---- Select.

  datatype SelectError =
    | NoSeeds
    | EmptyName
    | UnknownNode(name: string)
    | GroupName(name: string, example: string)

  datatype SelectResult = WholeGraph | Selected(selection: Selection) | Rejected(error: SelectError)

  /** The nodes a request stands for. */
  ghost predicate IsSelected(g: Graph, seeds: set<string>, downstream: bool, n: string) {
    n in seeds || (downstream && exists a :: a in seeds && Reach(g, a, n))
  }

  predicate Crosses(e: Edge, selected: set<string>) {
    (e.from.node in selected) != (e.to.node in selected)
  }

  function CrossingEdges(edges: seq<Edge>, selected: set<string>): seq<Edge> {
    if edges == [] then []
    else
      var last := edges[|edges| - 1];
      CrossingEdges(edges[..|edges| - 1], selected) + (if Crosses(last, selected) then [last] else [])
  }

  /** The boundary has every edge with exactly one end inside, as often as the graph has it, and no other. */
  lemma {:induction false} CrossingCount(edges: seq<Edge>, selected: set<string>, e: Edge)
    ensures multiset(CrossingEdges(edges, selected))[e] ==
      if (e.from.node in selected) != (e.to.node in selected) then multiset(edges)[e] else 0
  {
    if edges != [] {
      var init, last := edges[..|edges| - 1], edges[|edges| - 1];
      CrossingCount(init, selected, e);
      assert edges == init + [last];
    }
  }

  ghost predicate NodeRecorded(g: Graph, seeds: set<string>, selected: set<string>, n: SelectionNode) {
    && n.via.Slice?
    && (if n.node in seeds then n.reason == "requested" && n.via.items == []
        else
          n.reason == "downstream" && StrictlySorted(n.via.items)
          && Elems(n.via.items) == Elems(In(g, n.node)) * selected)
  }

  /** What Select records about the selected set. */
  ghost predicate Records(g: Graph, seeds: set<string>, downstream: bool, selected: set<string>, s: Selection) {
    && s.schemaVersion == 1
    && s.mode == (if downstream then "downstream" else "exact")
    && StrictlySorted(s.requested) && Elems(s.requested) == seeds
    && s.nodes.Slice? && StrictlySorted(SelectedNames(s)) && Elems(SelectedNames(s)) == selected
    && (forall n :: n in s.nodes.items ==> NodeRecorded(g, seeds, selected, n))
    && s.boundaryEdges.Slice? && EdgesSorted(s.boundaryEdges.items)
    && multiset(s.boundaryEdges.items) == multiset(CrossingEdges(g.edges, selected))
  }

  ghost predicate SelectionOf(g: Graph, seeds: set<string>, downstream: bool, s: Selection) {
    && seeds != {}
    && seeds <= g.nodes
    && "" !in seeds
    && (forall n {:trigger IsSelected(g, seeds, downstream, n)} :: n in SelectedNames(s) <==>
      IsSelected(g, seeds, downstream, n))
    && Records(g, seeds, downstream, Elems(SelectedNames(s)), s)
  }

  ghost predicate AllSelected(g: Graph, seeds: set<string>, names: set<string>) {
    forall n {:trigger IsSelected(g, seeds, true, n)} :: n in names ==> IsSelected(g, seeds, true, n)
  }

  ghost predicate HoldsSelected(g: Graph, seeds: set<string>, names: set<string>) {
    forall n {:trigger IsSelected(g, seeds, true, n)} :: IsSelected(g, seeds, true, n) ==> n in names
  }

  method Enqueue(queue: seq<string>, selected: set<string>, next: seq<string>)
    returns (queue': seq<string>, selected': set<string>)
    requires Elems(queue) == selected
    ensures queue <= queue' && Elems(queue') == selected' == selected + Elems(next)
    ensures selected' == selected ==> queue' == queue
  {
    queue', selected' := queue, selected;
    for j := 0 to |next|
      invariant queue <= queue' && Elems(queue') == selected' == selected + Elems(next[..j])
      invariant selected' == selected ==> queue' == queue
    {
      assert next[..j + 1] == next[..j] + [next[j]];
      assert Elems(next[..j + 1]) == Elems(next[..j]) + {next[j]};
      if next[j] !in selected' {
        assert Elems(queue' + [next[j]]) == Elems(queue') + {next[j]};
        selected' := selected' + {next[j]};
        queue' := queue' + [next[j]];
      }
    }
    assert next[..|next|] == next;
  }

  lemma SelectedStep(g: Graph, seeds: set<string>, a: string, b: string)
    requires IsSelected(g, seeds, true, a) && b in Out(g, a)
    ensures IsSelected(g, seeds, true, b)
  {
    ReachEdge(g, a, b);
    if a !in seeds {
      var s :| s in seeds && Reach(g, s, a);
      ReachTransitive(g, s, a, b);
    }
  }

  /** A set holding the seeds and closed under edges holds everything selected. */
  lemma SelectedInside(g: Graph, seeds: set<string>, closed: set<string>, n: string)
    requires seeds <= closed && (forall a, b {:trigger b in Out(g, a)} :: a in closed && b in Out(g, a) ==> b in closed)
    requires IsSelected(g, seeds, true, n)
    ensures n in closed
  {
    if n !in closed {
      var s :| s in seeds && Reach(g, s, n);
      var p :| PathFromTo(g, p, s, n);
      var k := Crossing(g, p, closed);
      PathStep(g, p, k);
    }
  }

  /** The breadth-first loop over the queue. */
  method Downstream(g: Graph, seeds: seq<string>) returns (selected: set<string>)
    requires WellFormed(g) == true && Elems(seeds) <= g.nodes
    ensures AllSelected(g, Elems(seeds), selected) == true && HoldsSelected(g, Elems(seeds), selected) == true
    ensures selected <= g.nodes
  {
    selected := Elems(seeds);
    SeedsSelected(g, selected);
    var queue := seeds;
    var i := 0;
    while i < |queue|
      invariant 0 <= i <= |queue|
      invariant Elems(seeds) <= selected == Elems(queue) <= g.nodes
      invariant AllSelected(g, Elems(seeds), selected) == true
      invariant Expanded(g, queue, i, selected) == true
      decreases g.nodes - selected, |queue| - i
    {
      assert queue[i] in Elems(queue);
      SelectedSteps(g, Elems(seeds), selected, queue[i]);
      var queue', selected' := Enqueue(queue, selected, Out(g, queue[i]));
      OneExpanded(g, queue, i, selected, queue', selected');
      queue, selected, i := queue', selected', i + 1;
    }
    QueueDone(g, Elems(seeds), queue, selected);
  }

  /** The successors of the first `i` queued names are selected. */
  ghost predicate Expanded(g: Graph, queue: seq<string>, i: nat, selected: set<string>)
    requires i <= |queue|
  {
    forall k :: 0 <= k < i ==> Elems(Out(g, queue[k])) <= selected
  }

  lemma OneExpanded(g: Graph, queue: seq<string>, i: nat, selected: set<string>, queue': seq<string>,
      selected': set<string>)
    requires i < |queue| && Expanded(g, queue, i, selected) && queue <= queue'
    requires selected' == selected + Elems(Out(g, queue[i]))
    ensures Expanded(g, queue', i + 1, selected') == true
  {
    assert forall k :: 0 <= k < |queue| ==> queue'[k] == queue[k];
  }

  lemma SeedsSelected(g: Graph, seeds: set<string>)
    ensures AllSelected(g, seeds, seeds) == true
  {
    assert AllSelected(g, seeds, seeds);
  }

  lemma SelectedSteps(g: Graph, seeds: set<string>, selected: set<string>, a: string)
    requires WellFormed(g) == true && AllSelected(g, seeds, selected) == true && a in selected
    ensures Elems(Out(g, a)) <= g.nodes
    ensures AllSelected(g, seeds, selected + Elems(Out(g, a))) == true
  {
    assert IsSelected(g, seeds, true, a);
    forall m | m in Out(g, a) ensures m in g.nodes && IsSelected(g, seeds, true, m) {
      EdgeSymmetry(g, a, m);
      SelectedStep(g, seeds, a, m);
    }
    assert AllSelected(g, seeds, selected + Elems(Out(g, a)));
  }

  lemma QueueDone(g: Graph, seeds: set<string>, queue: seq<string>, selected: set<string>)
    requires seeds <= selected == Elems(queue)
    requires Expanded(g, queue, |queue|, selected)
    ensures HoldsSelected(g, seeds, selected) == true
  {
    forall a, b | a in selected && b in Out(g, a) ensures b in selected {
      var k :| 0 <= k < |queue| && queue[k] == a;
      assert b in Elems(Out(g, queue[k]));
    }
    forall n | IsSelected(g, seeds, true, n) ensures n in selected {
      SelectedInside(g, seeds, selected, n);
    }
    assert HoldsSelected(g, seeds, selected);
  }

  /** The parents of `name` that are themselves selected, once each. */
  method ViaOf(g: Graph, selected: set<string>, name: string) returns (via: seq<string>)
    ensures StrictlySorted(via) && Elems(via) == Elems(In(g, name)) * selected
  {
    var all := [];
    var parents := In(g, name);
    for i := 0 to |parents|
      invariant Elems(all) == Elems(parents[..i]) * selected
    {
      assert parents[..i + 1] == parents[..i] + [parents[i]];
      assert Elems(parents[..i + 1]) == Elems(parents[..i]) + {parents[i]};
      if parents[i] in selected {
        assert Elems(all + [parents[i]]) == Elems(all) + {parents[i]};
        all := all + [parents[i]];
      }
    }
    assert parents[..|parents|] == parents;
    var sorted := SortStrings(all);
    SameMultisetSameElems(sorted, all);
    via := Compact(sorted);
  }

  method RecordNodes(g: Graph, seeds: set<string>, selected: set<string>) returns (nodes: seq<SelectionNode>)
    ensures StrictlySorted(NodeNames(nodes)) && Elems(NodeNames(nodes)) == selected
    ensures forall n :: n in nodes ==> NodeRecorded(g, seeds, selected, n)
  {
    var names := SortSet(selected);
    nodes := [];
    for i := 0 to |names|
      invariant NodeNames(nodes) == names[..i]
      invariant forall n :: n in nodes ==> NodeRecorded(g, seeds, selected, n)
    {
      var n := SelectionNode(names[i], "requested", Slice([]));
      if names[i] !in seeds {
        var via := ViaOf(g, selected, names[i]);
        n := SelectionNode(names[i], "downstream", Slice(via));
      }
      assert NodeNames(nodes + [n]) == NodeNames(nodes) + [names[i]];
      assert names[..i + 1] == names[..i] + [names[i]];
      nodes := nodes + [n];
    }
    assert names[..|names|] == names;
  }

  method RecordBoundary(edges: seq<Edge>, selected: set<string>) returns (r: seq<Edge>)
    ensures EdgesSorted(r) && multiset(r) == multiset(CrossingEdges(edges, selected))
  {
    r := [];
    for i := 0 to |edges|
      invariant r == CrossingEdges(edges[..i], selected)
    {
      assert edges[..i + 1][..i] == edges[..i];
      if Crosses(edges[i], selected) {
        r := r + [edges[i]];
      }
    }
    assert edges[..|edges|] == edges;
    r := SortEdges(r);
  }

  /** The check of each seed, in sorted order. */
  method CheckSeeds(g: Graph, seeds: seq<string>) returns (error: SelectResult)
    ensures error.WholeGraph? || error.Rejected?
    ensures error.WholeGraph? <==> "" !in seeds && Elems(seeds) <= g.nodes
    ensures error.Rejected? && error.error.UnknownNode? ==> error.error.name in seeds && error.error.name !in g.nodes
    ensures error.Rejected? && error.error.GroupName? ==>
              error.error.name in seeds && error.error.name !in g.nodes && error.error.example in g.nodes
                && error.error.name + "." <= error.error.example
  {
    for i := 0 to |seeds|
      invariant "" !in seeds[..i] && forall k :: 0 <= k < i ==> seeds[k] in g.nodes
    {
      var name := seeds[i];
      assert name in seeds && name in Elems(seeds);
      if name == "" {
        return Rejected(EmptyName);
      }
      if name !in g.nodes {
        var examples := SortSet(set leaf | leaf in g.nodes && name + "." <= leaf);
        if |examples| > 0 {
          assert examples[0] in Elems(examples);
          return Rejected(GroupName(name, examples[0]));
        }
        return Rejected(UnknownNode(name));
      }
      assert seeds[..i + 1] == seeds[..i] + [name];
    }
    assert seeds[..|seeds|] == seeds;
    return WholeGraph;
  }

  /** Select. */
  method Select(g: Graph, requested: Slice<string>, downstream: bool) returns (r: SelectResult)
    requires WellFormed(g)
    ensures r.WholeGraph? <==> requested.Nil? && !downstream
    ensures r.Selected? <==> requested.Items() != [] && "" !in requested.Items() && Elems(requested.Items()) <= g.nodes
    ensures r.Selected? ==> SelectionOf(g, Elems(requested.Items()), downstream, r.selection)
    ensures r.Selected? ==> forall e ::
      multiset(r.selection.boundaryEdges.Items())[e] ==
        if (e.from.node in SelectedNames(r.selection)) != (e.to.node in SelectedNames(r.selection))
        then multiset(g.edges)[e] else 0
  {
    if requested.Nil? && !downstream {
      return WholeGraph;
    }
    if |requested.Items()| == 0 {
      return Rejected(NoSeeds);
    }
    var sorted := SortStrings(requested.Items());
    SameMultisetSameElems(sorted, requested.Items());
    var seeds := Compact(sorted);
    forall x ensures x in seeds <==> x in requested.Items() {
      assert x in seeds <==> x in Elems(seeds);
      assert x in requested.Items() <==> x in Elems(requested.Items());
    }
    assert requested.Items()[0] in Elems(seeds);
    var checked := CheckSeeds(g, seeds);
    if checked.Rejected? {
      return checked;
    }
    var selected := Elems(seeds);
    if downstream {
      selected := Downstream(g, seeds);
    }
    var nodes := RecordNodes(g, Elems(seeds), selected);
    var boundary := RecordBoundary(g.edges, selected);
    var s := Selection(1, if downstream then "downstream" else "exact", seeds, Slice(nodes), Slice(boundary));
    forall n ensures n in SelectedNames(s) <==> IsSelected(g, Elems(seeds), downstream, n) {
      assert n in SelectedNames(s) <==> n in Elems(SelectedNames(s));
    }
    forall e { CrossingCount(g.edges, selected, e); }
    return Selected(s);
  }

  // ---- The producer satisfies the validator.

  /** Edge shapes the parser guarantees: both ends ports, output to input and named, or neither a port. */
  ghost predicate ShapedEdges(g: Graph) {
    forall e :: e in g.edges ==>
      (if e.IsDataEdge() then e.from.kind == Output && e.to.kind == Input && e.from.name != "" && e.to.name != ""
       else !e.from.IsPort() && !e.to.IsPort() && e.from.name == "" && e.to.name == "")
  }

  lemma {:induction false} CrossingMembers(edges: seq<Edge>, selected: set<string>, e: Edge)
    ensures e in CrossingEdges(edges, selected) <==> e in edges && Crosses(e, selected)
  {
    if edges != [] {
      CrossingMembers(edges[..|edges| - 1], selected, e);
      assert edges == edges[..|edges| - 1] + [edges[|edges| - 1]];
    }
  }

  lemma BoundaryValid(g: Graph, selected: set<string>, s: Selection)
    requires WellFormed(g) && ShapedEdges(g) && "" !in g.nodes
    requires s.boundaryEdges.Slice? && multiset(s.boundaryEdges.items) == multiset(CrossingEdges(g.edges, selected))
    ensures forall e :: e in s.boundaryEdges.items ==> ValidBoundary(selected, e)
  {
    forall e | e in s.boundaryEdges.items ensures ValidBoundary(selected, e) {
      assert e in multiset(s.boundaryEdges.items);
      CrossingMembers(g.edges, selected, e);
    }
  }

  /** Walking from a seed, every step is a recorded Via link or restarts at a seed. */
  lemma {:induction false} WalkIsLinked(g: Graph, seeds: set<string>, s: Selection, p: seq<string>)
    requires WellFormed(g) && s.nodes.Slice? && Elems(s.requested) == seeds
    requires forall m :: m in s.nodes.items ==> NodeRecorded(g, seeds, Elems(SelectedNames(s)), m)
    requires Path(g, p) && p[0] in seeds
    requires Elems(p) <= Elems(SelectedNames(s))
    ensures Linked(s, p[|p| - 1])
    decreases |p|
  {
    var n := p[|p| - 1];
    if n in seeds {
      assert n in s.requested by { assert n in Elems(s.requested); }
      assert ViaChain(s, [n]);
    } else {
      WalkBack(g, p);
      WalkIsLinked(g, seeds, s, p[..|p| - 1]);
      RecordedLink(g, seeds, s, p[|p| - 2], n);
    }
  }

  /** The last step of a walk, and what comes before it. */
  lemma WalkBack(g: Graph, p: seq<string>)
    requires WellFormed(g) && Path(g, p) && |p| > 1
    ensures Path(g, p[..|p| - 1]) && Elems(p[..|p| - 1]) <= Elems(p)
    ensures p[|p| - 2] in In(g, p[|p| - 1]) && p[|p| - 2] in Elems(p) && p[|p| - 1] in Elems(p)
  {
    PathPrefix(g, p, |p| - 2);
    PathStep(g, p, |p| - 2);
    EdgeSymmetry(g, p[|p| - 2], p[|p| - 1]);
  }

  lemma RecordedLink(g: Graph, seeds: set<string>, s: Selection, a: string, n: string)
    requires s.nodes.Slice? && n in SelectedNames(s) && n !in seeds && a in In(g, n) && a in SelectedNames(s)
      && Linked(s, a)
    requires forall m :: m in s.nodes.items ==> NodeRecorded(g, seeds, Elems(SelectedNames(s)), m)
    ensures Linked(s, n)
  {
    var k :| 0 <= k < |SelectedNames(s)| && SelectedNames(s)[k] == n;
    var entry := s.nodes.items[k];
    assert entry in s.nodes.items && entry.node == n;
    assert a in Elems(In(g, n)) && a in Elems(SelectedNames(s));
    assert a in Elems(entry.via.items);
    LinkStep(s, k, a);
  }

  lemma SelectedIsLinked(g: Graph, seeds: set<string>, downstream: bool, s: Selection, n: string)
    requires WellFormed(g) && SelectionOf(g, seeds, downstream, s) && n in SelectedNames(s)
    ensures Linked(s, n)
  {
    assert IsSelected(g, seeds, downstream, n);
    if n in seeds {
      assert n in s.requested by { assert n in Elems(s.requested); }
      assert ViaChain(s, [n]);
    } else {
      var a :| a in seeds && Reach(g, a, n);
      var p :| PathFromTo(g, p, a, n);
      forall i | 0 <= i < |p| ensures p[i] in SelectedNames(s) {
        ReachAlong(g, p, 0, i);
        assert IsSelected(g, seeds, downstream, p[i]);
      }
      WalkIsLinked(g, seeds, s, p);
    }
  }

  lemma LastHop(g: Graph, a: string, n: string) returns (m: string)
    requires WellFormed(g) == true && Reach(g, a, n) && a != n
    ensures Reach(g, a, m) && m in In(g, n)
  {
    var p :| PathFromTo(g, p, a, n);
    m := p[|p| - 2];
    PathStep(g, p, |p| - 2);
    ReachAlong(g, p, 0, |p| - 2);
    EdgeSymmetry(g, m, n);
  }

  /** A node that is not itself requested has a selected parent. */
  lemma DownstreamHasParent(g: Graph, seeds: set<string>, s: Selection, n: string)
    requires WellFormed(g) == true && n !in seeds && IsSelected(g, seeds, true, n)
    requires forall m {:trigger IsSelected(g, seeds, true, m)} :: IsSelected(g, seeds, true, m) ==>
      m in SelectedNames(s)
    ensures exists a :: a in In(g, n) && a in SelectedNames(s)
  {
    var a :| a in seeds && Reach(g, a, n);
    var m := LastHop(g, a, n);
    assert IsSelected(g, seeds, true, m);
  }

  /** No node that the request selects, apart from the requested ones, has an edge to itself. */
  ghost predicate NoSelfEdgeDownstream(g: Graph, seeds: set<string>, downstream: bool) {
    forall n {:trigger IsSelected(g, seeds, downstream, n)} :: IsSelected(g, seeds, downstream, n) && n !in seeds ==>
      n !in In(g, n)
  }

  lemma SelectedListing(g: Graph, seeds: set<string>, downstream: bool, s: Selection, n: string)
    requires SelectionOf(g, seeds, downstream, s)
    ensures n in SelectedNames(s) <==> IsSelected(g, seeds, downstream, n)
  {
  }

  lemma EntryValid(g: Graph, seeds: set<string>, downstream: bool, s: Selection, n: SelectionNode)
    requires WellFormed(g) && SelectionOf(g, seeds, downstream, s) && n in s.nodes.items
    ensures ValidNode(s, Elems(SelectedNames(s)), n) <==> (n.node in seeds || n.node !in In(g, n.node))
  {
    var members := Elems(SelectedNames(s));
    var k :| 0 <= k < |s.nodes.items| && s.nodes.items[k] == n;
    assert SelectedNames(s)[k] == n.node;
    assert NodeRecorded(g, seeds, members, n);
    assert n.node in s.requested <==> n.node in seeds by {
      assert n.node in s.requested <==> n.node in Elems(s.requested);
    }
    if n.node !in seeds {
      assert IsSelected(g, seeds, downstream, n.node);
      DownstreamHasParent(g, seeds, s, n.node);
      var a :| a in In(g, n.node) && a in SelectedNames(s);
      assert a in Elems(n.via.items);
      forall p ensures p in n.via.items <==> p in In(g, n.node) && p in members {
        assert p in n.via.items <==> p in Elems(n.via.items);
      }
    }
  }

  /** What Select records passes ValidateMembership exactly when no selected node outside the request
      has an edge to itself. */
  lemma SelectPassesValidation(g: Graph, seeds: set<string>, downstream: bool, s: Selection)
    requires WellFormed(g) && ShapedEdges(g) && "" !in g.nodes && SelectionOf(g, seeds, downstream, s)
    ensures ValidSelection(s, SelectedNames(s)) <==> NoSelfEdgeDownstream(g, seeds, downstream)
  {
    var names := SelectedNames(s);
    forall i, j | 0 <= i < j < |names| ensures names[i] != names[j] { LessIrreflexive(names[i]); }
    forall n | n in names ensures n in g.nodes { SelectedIsNode(g, seeds, downstream, n); }
    assert Elems(s.requested) <= Elems(names) by {
      forall n | n in seeds ensures n in names { assert IsSelected(g, seeds, downstream, n); }
    }
    EmptyElems(s.requested);
    forall n | n in names ensures Linked(s, n) { SelectedIsLinked(g, seeds, downstream, s, n); }
    BoundaryValid(g, Elems(names), s);
    forall n | n in s.nodes.items ensures ValidNode(s, Elems(names), n) <==>
      (n.node in seeds || n.node !in In(g, n.node)) {
      EntryValid(g, seeds, downstream, s, n);
    }
    if NoSelfEdgeDownstream(g, seeds, downstream) {
      forall n | n in s.nodes.items ensures ValidNode(s, Elems(names), n) {
        EntryListed(s, n);
        SelectedListing(g, seeds, downstream, s, n.node);
      }
    } else {
      var n :| IsSelected(g, seeds, downstream, n) && n !in seeds && n in In(g, n);
      SelectedListing(g, seeds, downstream, s, n);
      var k :| 0 <= k < |names| && names[k] == n;
      assert s.nodes.items[k] in s.nodes.items && s.nodes.items[k].node == n;
      assert !ValidNode(s, Elems(names), s.nodes.items[k]);
    }
  }

  lemma EntryListed(s: Selection, n: SelectionNode)
    requires s.nodes.Slice? && n in s.nodes.items
    ensures n.node in SelectedNames(s)
  {
    var k :| 0 <= k < |s.nodes.items| && s.nodes.items[k] == n;
    assert SelectedNames(s)[k] == n.node;
  }

  lemma SelectedIsNode(g: Graph, seeds: set<string>, downstream: bool, n: string)
    requires WellFormed(g) && seeds <= g.nodes && IsSelected(g, seeds, downstream, n)
    ensures n in g.nodes
  {
    if n !in seeds {
      var a :| a in seeds && Reach(g, a, n);
      ReachStaysInside(g, a, n);
    }
  }

  /** On an acyclic graph every selection passes. */
  lemma AcyclicSelectionValid(g: Graph, seeds: set<string>, downstream: bool, s: Selection)
    requires WellFormed(g) && ShapedEdges(g) && "" !in g.nodes && SelectionOf(g, seeds, downstream, s) && Acyclic(g)
    ensures ValidSelection(s, SelectedNames(s))
  {
    forall n | IsSelected(g, seeds, downstream, n) && n !in seeds ensures n !in In(g, n) {
      if n in In(g, n) {
        EdgeSymmetry(g, n, n);
        ReachSelf(g, n);
        assert ReachPlus(g, n, n);
      }
    }
    SelectPassesValidation(g, seeds, downstream, s);
  }

  function BareNode(n: string): PortRef { PortRef(NodeEntity, n, Bare, "") }

  /** `a -> b`, and `b` with an edge to itself. */
  function LoopGraph(): Graph {
    Graph({"a", "b"}, [Edge(BareNode("a"), BareNode("b")), Edge(BareNode("b"), BareNode("b"))],
          map["a" := ["b"], "b" := ["b"]], map["b" := ["a", "b"]])
  }

  /** What Select records for `a` and everything downstream. */
  function LoopSelection(): Selection {
    Selection(1, "downstream", ["a"],
              Slice([SelectionNode("a", "requested", Slice([])), SelectionNode("b", "downstream", Slice(["a", "b"]))]),
                Slice([]))
  }

  lemma LastEdge(edges: seq<Edge>, f: Edge, n: string)
    ensures TargetsOf(edges + [f], n) == TargetsOf(edges, n) + (if f.from.node == n then [f.to.node] else [])
    ensures SourcesOf(edges + [f], n) == SourcesOf(edges, n) + (if f.to.node == n then [f.from.node] else [])
  {
    assert (edges + [f])[..|edges|] == edges;
  }

  lemma LoopProjections(n: string)
    ensures TargetsOf(LoopGraph().edges, n) == Out(LoopGraph(), n)
    ensures SourcesOf(LoopGraph().edges, n) == In(LoopGraph(), n)
  {
    var e, f := LoopGraph().edges[0], LoopGraph().edges[1];
    LastEdge([], e, n);
    LastEdge([e], f, n);
    assert [] + [e] == [e] && [e] + [f] == LoopGraph().edges;
  }

  lemma LoopGraphWellFormed()
    ensures WellFormed(LoopGraph()) == true && ShapedEdges(LoopGraph()) == true
  {
    var g := LoopGraph();
    forall n ensures multiset(Out(g, n)) == multiset(TargetsOf(g.edges, n))
      && multiset(In(g, n)) == multiset(SourcesOf(g.edges, n)) {
      LoopProjections(n);
    }
  }

  lemma LoopSelected(n: string)
    ensures SelectedNames(LoopSelection()) == ["a", "b"]
    ensures IsSelected(LoopGraph(), {"a"}, true, n) <==> n in ["a", "b"]
  {
    var g := LoopGraph();
    LoopGraphWellFormed();
    ReachEdge(g, "a", "b");
    if IsSelected(g, {"a"}, true, n) {
      SelectedIsNode(g, {"a"}, true, n);
    }
  }

  lemma LoopCrossesNothing()
    ensures CrossingEdges(LoopGraph().edges, {"a", "b"}) == []
  {
    var g := LoopGraph();
    assert g.edges[..1] == [g.edges[0]] && g.edges[..1][..0] == [];
    assert CrossingEdges(g.edges[..1], {"a", "b"}) == [];
  }

  lemma LoopVia()
    ensures var s := LoopSelection(); StrictlySorted(SelectedNames(s)) && Elems(SelectedNames(s)) == {"a", "b"}
    ensures NodeRecorded(LoopGraph(), {"a"}, {"a", "b"}, LoopSelection().nodes.items[0])
    ensures NodeRecorded(LoopGraph(), {"a"}, {"a", "b"}, LoopSelection().nodes.items[1])
  {
    assert SelectedNames(LoopSelection()) == ["a", "b"];
  }

  lemma LoopRecorded()
    ensures Records(LoopGraph(), {"a"}, true, {"a", "b"}, LoopSelection()) == true
  {
    LoopCrossesNothing();
    LoopVia();
    assert SelectedNames(LoopSelection()) == ["a", "b"];
  }

  lemma LoopRefused()
    ensures ValidSelection(LoopSelection(), SelectedNames(LoopSelection())) == false
  {
    var s := LoopSelection();
    assert SelectedNames(s) == ["a", "b"];
    assert s.nodes.items[1] in s.nodes.items && !ValidNode(s, Elems(SelectedNames(s)), s.nodes.items[1]);
  }

  lemma LoopOffends()
    ensures NoSelfEdgeDownstream(LoopGraph(), {"a"}, true) == false
  {
    LoopSelected("b");
    assert "b" in In(LoopGraph(), "b");
  }

  lemma LoopSelectionOf()
    ensures SelectionOf(LoopGraph(), {"a"}, true, LoopSelection()) == true
  {
    LoopRecorded();
    LoopVia();
    forall n ensures n in SelectedNames(LoopSelection()) <==> IsSelected(LoopGraph(), {"a"}, true, n) {
      LoopSelected(n);
    }
  }

  /** With a cycle the condition matters: Select records this selection, and the validator refuses it. */
  lemma SelfEdgeRejected()
    ensures WellFormed(LoopGraph()) && ShapedEdges(LoopGraph()) && "" !in LoopGraph().nodes
    ensures SelectionOf(LoopGraph(), {"a"}, true, LoopSelection())
    ensures !NoSelfEdgeDownstream(LoopGraph(), {"a"}, true)
    ensures !ValidSelection(LoopSelection(), SelectedNames(LoopSelection()))
  {
    LoopGraphWellFormed();
    LoopSelectionOf();
    LoopOffends();
    LoopRefused();
  }

  // ---- SelectedLevels.

  datatype LevelsOutcome = Ordered(levels: seq<seq<string>>) | Cyclic | Removed(name: string)

  /** A schedule of `names`: a partition into non-empty sorted levels that keeps every order of the full
      graph, also between names joined only through omitted nodes. */
  ghost predicate Schedule(g: Graph, names: set<string>, reverse: bool, levels: seq<seq<string>>) {
    && (forall k :: 0 <= k < |levels| ==> levels[k] != [] && StrictlySorted(levels[k]))
    && (forall n {:trigger Topo.InSome(levels, n)} :: n in names <==> Topo.InSome(levels, n))
    && (forall j, k, n {:trigger n in levels[j], n in levels[k]} ::
          0 <= j < |levels| && 0 <= k < |levels| && n in levels[j] && n in levels[k] ==> j == k)
    && (forall i, j, a, b {:trigger a in levels[i], b in levels[j]} ::
          0 <= i < |levels| && 0 <= j < |levels| && a in levels[i] && b in levels[j] && ReachPlus(g, a, b) ==>
            if reverse then j < i else i < j)
  }

  lemma FullSchedule(g: Graph, levels: seq<seq<string>>)
    requires WellFormed(g) && Topo.LevelsCorrect(g, levels)
    ensures Schedule(g, g.nodes, false, levels)
  {
    forall i, j, a, b | 0 <= i < |levels| && 0 <= j < |levels| && a in levels[i] && b in levels[j] && ReachPlus(g, a, b)
      ensures i < j
    {
      Topo.LevelsRespectReach(g, levels, a, i, b, j);
    }
  }

  lemma ReversedSchedule(g: Graph, names: set<string>, levels: seq<seq<string>>)
    requires Schedule(g, names, false, levels)
    ensures Schedule(g, names, true, Reversed(levels))
  {
    var r := Reversed(levels);
    forall n ensures n in names <==> Topo.InSome(r, n) {
      if Topo.InSome(levels, n) {
        var k :| 0 <= k < |levels| && n in levels[k];
        assert r[|levels| - 1 - k] == levels[k];
      }
      if Topo.InSome(r, n) {
        var k :| 0 <= k < |r| && n in r[k];
        assert levels[|levels| - 1 - k] == r[k];
      }
    }
    forall j, k, n | 0 <= j < |r| && 0 <= k < |r| && n in r[j] && n in r[k] ensures j == k {
      assert n in levels[|levels| - 1 - j] && n in levels[|levels| - 1 - k];
    }
    forall i, j, a, b | 0 <= i < |r| && 0 <= j < |r| && a in r[i] && b in r[j] && ReachPlus(g, a, b) ensures j < i {
      assert a in levels[|levels| - 1 - i] && b in levels[|levels| - 1 - j];
    }
  }

  /** slices.Reverse, in place by swapping from both ends. */
  method ReverseLevels(levels: seq<seq<string>>) returns (r: seq<seq<string>>)
    ensures r == Reversed(levels)
  {
    r := levels;
    var i, n := 0, |levels|;
    while i < n / 2
      invariant 0 <= i <= n / 2 && |r| == n
      invariant forall k :: 0 <= k < i ==> r[k] == levels[n - 1 - k] && r[n - 1 - k] == levels[k]
      invariant forall k :: i <= k < n - i ==> r[k] == levels[k]
    {
      r := r[i := r[n - 1 - i]][n - 1 - i := r[i]];
      i := i + 1;
    }
  }

  method Keep(level: seq<string>, selected: set<string>) returns (kept: seq<string>)
    requires StrictlySorted(level)
    ensures StrictlySorted(kept) && forall n :: n in kept <==> n in level && n in selected
  {
    kept := [];
    for i := 0 to |level|
      invariant StrictlySorted(kept) && forall n :: n in kept <==> n in level[..i] && n in selected
    {
      assert level[..i + 1] == level[..i] + [level[i]];
      if level[i] in selected {
        forall k | 0 <= k < |kept| ensures Less(kept[k], level[i]) {
          assert kept[k] in kept;
          var j :| 0 <= j < i && level[..i][j] == kept[k];
        }
        kept := kept + [level[i]];
      }
    }
    assert level[..|level|] == level;
  }

  /** The levels of `out` come from different levels, in order. */
  ghost predicate Drawn(levels: seq<seq<string>>, out: seq<seq<string>>, from: seq<nat>) {
    && |from| == |out|
    && (forall i, n {:trigger n in out[i]} :: 0 <= i < |out| && n in out[i] ==>
          from[i] < |levels| && n in levels[from[i]])
    && (forall i, j :: 0 <= i < j < |out| ==> from[i] < from[j])
  }

  /** The order of levels is the order of longest chains in the full graph, so that two nodes share a level
      exactly when their longest chains are equally long. */
  ghost predicate ByDepth(g: Graph, reverse: bool, levels: seq<seq<string>>) {
    forall i, j, a, b, p: nat, q: nat {:trigger a in levels[i], b in levels[j], Topo.LongestChain(g, a, p),
      Topo.LongestChain(g, b, q)} ::
      0 <= i < |levels| && 0 <= j < |levels| && a in levels[i] && b in levels[j]
      && Topo.LongestChain(g, a, p) && Topo.LongestChain(g, b, q) ==>
        (i < j <==> if reverse then q < p else p < q)
  }

  lemma LongestUnique(g: Graph, n: string, p: nat, q: nat)
    requires Topo.LongestChain(g, n, p) && Topo.LongestChain(g, n, q)
    ensures p == q
  {
  }

  lemma DrawnByDepth(g: Graph, levels: seq<seq<string>>, out: seq<seq<string>>, from: seq<nat>)
    requires Topo.LevelsCorrect(g, levels) && Drawn(levels, out, from)
    ensures ByDepth(g, false, out)
  {
    forall i, j, a, b, p: nat, q: nat | 0 <= i < |out| && 0 <= j < |out| && a in out[i] && b in out[j]
      && Topo.LongestChain(g, a, p) && Topo.LongestChain(g, b, q) ensures i < j <==> p < q
    {
      assert a in levels[from[i]] && b in levels[from[j]];
      LongestUnique(g, a, p, from[i]);
      LongestUnique(g, b, q, from[j]);
    }
  }

  lemma ReversedByDepth(g: Graph, levels: seq<seq<string>>)
    requires ByDepth(g, false, levels)
    ensures ByDepth(g, true, Reversed(levels))
  {
    var r := Reversed(levels);
    forall i, j, a, b, p: nat, q: nat | 0 <= i < |r| && 0 <= j < |r| && a in r[i] && b in r[j]
      && Topo.LongestChain(g, a, p) && Topo.LongestChain(g, b, q) ensures i < j <==> q < p
    {
      assert a in levels[|levels| - 1 - i] && b in levels[|levels| - 1 - j];
    }
  }

  /** The filter loop: drops omitted names, then empty levels. `from[k]` is the level `out[k]` came from. */
  method FilterLevels(g: Graph, levels: seq<seq<string>>, selected: set<string>)
    returns (out: seq<seq<string>>, ghost from: seq<nat>)
    requires Schedule(g, g.nodes, false, levels) && selected <= g.nodes
    ensures Schedule(g, selected, false, out)
    ensures Drawn(levels, out, from)
  {
    out, from := [], [];
    for k := 0 to |levels|
      invariant |from| == |out|
      invariant forall i :: 0 <= i < |out| ==> from[i] < k && out[i] != [] && StrictlySorted(out[i])
      invariant forall i, n {:trigger n in out[i]} :: 0 <= i < |out| && n in out[i] ==>
        n in levels[from[i]] && n in selected
      invariant forall i, j :: 0 <= i < j < |out| ==> from[i] < from[j]
      invariant forall m, n {:trigger n in levels[m]} :: 0 <= m < k && n in levels[m] && n in selected ==>
        Topo.InSome(out, n)
    {
      var kept := Keep(levels[k], selected);
      if |kept| > 0 {
        forall n ensures Topo.InSome(out + [kept], n) <==>
          Topo.InSome(out, n) || n in kept { Topo.InSomeAppend(out, kept, n); }
        out := out + [kept];
        from := from + [k];
      }
    }
    FilteredSchedule(g, levels, selected, out, from);
  }

  lemma FilteredSchedule(g: Graph, levels: seq<seq<string>>, selected: set<string>, out: seq<seq<string>>,
      from: seq<nat>)
    requires Schedule(g, g.nodes, false, levels) && selected <= g.nodes && |from| == |out|
    requires forall i :: 0 <= i < |out| ==> from[i] < |levels| && out[i] != [] && StrictlySorted(out[i])
    requires forall i, n {:trigger n in out[i]} :: 0 <= i < |out| && n in out[i] ==>
      n in levels[from[i]] && n in selected
    requires forall i, j :: 0 <= i < j < |out| ==> from[i] < from[j]
    requires forall m, n {:trigger n in levels[m]} :: 0 <= m < |levels| && n in levels[m] && n in selected ==>
      Topo.InSome(out, n)
    ensures Schedule(g, selected, false, out)
  {
    forall n ensures n in selected <==> Topo.InSome(out, n) {
      if n in selected {
        assert Topo.InSome(levels, n);
      }
    }
  }

  /** SelectedLevels: filters the full graph's schedule. */
  method SelectedLevels(g: Graph, names: Slice<string>, reverse: bool) returns (r: LevelsOutcome)
    requires WellFormed(g)
    ensures r.Ordered? <==> Acyclic(g) && Elems(names.Items()) <= g.nodes
    ensures r.Ordered? ==> Schedule(g, if names.Nil? then g.nodes else Elems(names.items), reverse, r.levels)
    ensures r.Ordered? ==> ByDepth(g, reverse, r.levels)
    ensures r.Cyclic? <==> !Acyclic(g)
    ensures r.Removed? ==> r.name in names.Items() && r.name !in g.nodes
  {
    var full := Topo.ComputeLevels(g);
    if full.Cycle? {
      return Cyclic;
    }
    FullSchedule(g, full.levels);
    var out := full.levels;
    ghost var from := seq(|out|, i => i);
    if names.Slice? {
      for i := 0 to |names.items|
        invariant forall k :: 0 <= k < i ==> names.items[k] in g.nodes
      {
        if names.items[i] !in g.nodes {
          assert names.items[i] in Elems(names.items);
          return Removed(names.items[i]);
        }
      }
      out, from := FilterLevels(g, full.levels, Elems(names.items));
    }
    DrawnByDepth(g, full.levels, out, from);
    if reverse {
      ReversedSchedule(g, if names.Nil? then g.nodes else Elems(names.items), out);
      ReversedByDepth(g, out);
      out := ReverseLevels(out);
    }
    return Ordered(out);
  }
}
