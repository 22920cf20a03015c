/** Group expansion: Build splices every `use` instance into one flat graph under dotted names. */
module Expansion {
  import opened Names
  import opened Graphs
  import Selections
  import Tarjan
  import Topo

  // ---- Parsed blueprints.

  /** A group is identified by its source directory and its name there. */
  datatype GroupKey = GroupKey(dir: string, name: string)

  /** `instance` is the `as` name; `group` is already resolved against the declaring directory. */
  datatype Use = Use(instance: string, group: GroupKey)

  datatype ExportInput = ExportInput(name: string, to: seq<PortRef>)

  datatype ExportOutput = ExportOutput(name: string, from: PortRef)

  datatype Export = Export(inputs: seq<ExportInput>, outputs: seq<ExportOutput>)

  /** A blueprint or a group body. */
  datatype Scope = Scope(nodes: seq<string>, uses: seq<Use>, edges: seq<Edge>, export_: Export)

  type Defs = map<GroupKey, Scope>

  datatype Error =
    | CircularUse(group: GroupKey)
    | MissingGroup(group: GroupKey)
    | GroupHasCycle
    | GroupRejected
    | UnknownUse(name: string)
    | NotExported(name: string)
    | OutputFansOut(name: string)
    | FansOutTwice

  datatype Result<+T> = Ok(value: T) | Err(error: Error) {
    predicate IsFailure() { Err? }
    function PropagateFailure<U>(): Result<U> requires Err? { Err(error) }
    function Extract(): T requires Ok? { value }
  }

  function Qualify(namespace: string, name: string): string {
    if namespace == "" then name else namespace + "." + name
  }

  // ---- What parsing has checked.

  predicate PlainName(name: string) {
    name != "" && '.' !in name
  }

  function UseNames(uses: seq<Use>): seq<string> {
    seq(|uses|, i requires 0 <= i < |uses| => uses[i].instance)
  }

  ghost predicate Known(scope: Scope, ref: PortRef) {
    if ref.entity == UseEntity then ref.node in UseNames(scope.uses) else ref.node in scope.nodes
  }

  ghost predicate Distinct(s: seq<string>) {
    forall i, j :: 0 <= i < j < |s| ==> s[i] != s[j]
  }

  ghost predicate EdgeParsed(scope: Scope, e: Edge) {
    && Known(scope, e.from) && Known(scope, e.to)
    && (if e.IsDataEdge() then e.from.kind == Output && e.to.kind == Input && e.from.name != "" && e.to.name != ""
        else !e.from.IsPort() && !e.to.IsPort() && e.from.name == "" && e.to.name == "")
  }

  ghost predicate ExportParsed(scope: Scope) {
    && (forall i :: i in scope.export_.inputs ==>
          i.to != [] && forall r :: r in i.to ==> Known(scope, r) && r.kind == Input && r.name != "")
    && (forall o :: o in scope.export_.outputs ==> Known(scope, o.from) && o.from.kind == Output && o.from.name != "")
  }

  ghost predicate Parsed(scope: Scope) {
    && (forall n :: n in scope.nodes ==> PlainName(n)) && Distinct(scope.nodes)
    && (forall u :: u in scope.uses ==> PlainName(u.instance)) && Distinct(UseNames(scope.uses))
    && (forall e :: e in scope.edges ==> EdgeParsed(scope, e))
    && ExportParsed(scope)
  }

  ghost predicate AllParsed(defs: Defs) {
    forall k :: k in defs ==> Parsed(defs[k])
  }

  // ---- Edge and export rewriting.

  /** How edges of the surrounding scope reach into an instance. */
  datatype UseInfo = UseInfo(export_: Export, roots: seq<string>, sinks: seq<string>)

  type Uses = map<string, UseInfo>

  function FindOutput(outputs: seq<ExportOutput>, name: string): Result<seq<PortRef>> {
    if outputs == [] then Err(NotExported(name))
    else if outputs[0].name == name then Ok([outputs[0].from])
    else FindOutput(outputs[1..], name)
  }

  function FindInput(inputs: seq<ExportInput>, name: string): Result<seq<PortRef>> {
    if inputs == [] then Err(NotExported(name))
    else if inputs[0].name == name then Ok(inputs[0].to)
    else FindInput(inputs[1..], name)
  }

  function BareRefs(names: seq<string>): seq<PortRef> {
    seq(|names|, i requires 0 <= i < |names| => PortRef(NodeEntity, names[i], Bare, ""))
  }

  /** resolveExportEndpoint. */
  function ResolvePort(ref: PortRef, uses: Uses, namespace: string): Result<seq<PortRef>> {
    if ref.entity != UseEntity then Ok([ref.(node := Qualify(namespace, ref.node))])
    else if ref.node !in uses then Err(UnknownUse(ref.node))
    else if ref.kind == Output then FindOutput(uses[ref.node].export_.outputs, ref.name)
    else FindInput(uses[ref.node].export_.inputs, ref.name)
  }

  /** rewriteEndpoint: like an export endpoint, except that a bare instance stands for its roots or sinks. */
  function RewriteEndpoint(ref: PortRef, uses: Uses, namespace: string, wantRoots: bool): Result<seq<PortRef>> {
    if ref.entity == UseEntity && ref.node in uses && !ref.IsPort() then
      Ok(BareRefs(if wantRoots then uses[ref.node].roots else uses[ref.node].sinks))
    else ResolvePort(ref, uses, namespace)
  }

  function Pairs(froms: seq<PortRef>, tos: seq<PortRef>): seq<Edge> {
    if froms == [] then []
    else Pairs(froms[..|froms| - 1], tos) + seq(|tos|, j requires 0 <= j < |tos| => Edge(froms[|froms| - 1], tos[j]))
  }

  function RewriteEdge(e: Edge, uses: Uses, namespace: string): Result<seq<Edge>> {
    var froms :- RewriteEndpoint(e.from, uses, namespace, false);
    var tos :- RewriteEndpoint(e.to, uses, namespace, true);
    if e.IsDataEdge() && |froms| > 1 && |tos| > 1 then Err(FansOutTwice) else Ok(Pairs(froms, tos))
  }

  function RewriteEdges(edges: seq<Edge>, uses: Uses, namespace: string): Result<seq<Edge>> {
    if edges == [] then Ok([])
    else
      var init :- RewriteEdges(edges[..|edges| - 1], uses, namespace);
      var last :- RewriteEdge(edges[|edges| - 1], uses, namespace);
      Ok(init + last)
  }

  function ResolvePorts(refs: seq<PortRef>, uses: Uses, namespace: string): Result<seq<PortRef>> {
    if refs == [] then Ok([])
    else
      var init :- ResolvePorts(refs[..|refs| - 1], uses, namespace);
      var last :- ResolvePort(refs[|refs| - 1], uses, namespace);
      Ok(init + last)
  }

  function ResolveInputs(inputs: seq<ExportInput>, uses: Uses, namespace: string): Result<seq<ExportInput>> {
    if inputs == [] then Ok([])
    else
      var init :- ResolveInputs(inputs[..|inputs| - 1], uses, namespace);
      var last := inputs[|inputs| - 1];
      var to :- ResolvePorts(last.to, uses, namespace);
      Ok(init + [ExportInput(last.name, to)])
  }

  function ResolveOutputs(outputs: seq<ExportOutput>, uses: Uses, namespace: string): Result<seq<ExportOutput>> {
    if outputs == [] then Ok([])
    else
      var init :- ResolveOutputs(outputs[..|outputs| - 1], uses, namespace);
      var last := outputs[|outputs| - 1];
      var from :- ResolvePort(last.from, uses, namespace);
      if |from| != 1 then Err(OutputFansOut(last.name)) else Ok(init + [ExportOutput(last.name, from[0])])
  }

  function ResolveExport(export_: Export, uses: Uses, namespace: string): Result<Export> {
    var inputs :- ResolveInputs(export_.inputs, uses, namespace);
    var outputs :- ResolveOutputs(export_.outputs, uses, namespace);
    Ok(Export(inputs, outputs))
  }

  // ---- Graphs from edge lists.

  function AddTo(m: map<string, seq<string>>, key: string, value: string): map<string, seq<string>> {
    m[key := (if key in m then m[key] else []) + [value]]
  }

  function Forward(edges: seq<Edge>): map<string, seq<string>> {
    if edges == [] then map[]
    else AddTo(Forward(edges[..|edges| - 1]), edges[|edges| - 1].from.node, edges[|edges| - 1].to.node)
  }

  function Backward(edges: seq<Edge>): map<string, seq<string>> {
    if edges == [] then map[]
    else AddTo(Backward(edges[..|edges| - 1]), edges[|edges| - 1].to.node, edges[|edges| - 1].from.node)
  }

  function MakeGraph(leaves: seq<string>, edges: seq<Edge>): Graph {
    Graph(Elems(leaves), edges, Forward(edges), Backward(edges))
  }

  lemma {:induction false} AdjacencyIsProjection(leaves: seq<string>, edges: seq<Edge>, n: string)
    ensures Out(MakeGraph(leaves, edges), n) == TargetsOf(edges, n)
    ensures In(MakeGraph(leaves, edges), n) == SourcesOf(edges, n)
  {
    if edges != [] {
      AdjacencyIsProjection(leaves, edges[..|edges| - 1], n);
    }
  }

  ghost predicate EndpointsInside(leaves: seq<string>, edges: seq<Edge>) {
    forall e :: e in edges ==> e.from.node in leaves && e.to.node in leaves
  }

  lemma MakeGraphWellFormed(leaves: seq<string>, edges: seq<Edge>)
    requires EndpointsInside(leaves, edges)
    ensures WellFormed(MakeGraph(leaves, edges))
  {
    forall n ensures Out(MakeGraph(leaves, edges), n) == TargetsOf(edges, n)
      && In(MakeGraph(leaves, edges), n) == SourcesOf(edges, n) {
      AdjacencyIsProjection(leaves, edges, n);
    }
  }

  function Filter(names: seq<string>, keep: set<string>): seq<string> {
    if names == [] then []
    else Filter(names[..|names| - 1], keep) + (if names[|names| - 1] in keep then [names[|names| - 1]] else [])
  }

  // ---- The expansion.

  /** A built scope: its leaves in declaration order, its edges, and its own instances. */
  datatype Built = Built(leaves: seq<string>, edges: seq<Edge>, uses: Uses)

  /** An instance: its internal graph and how to reach into it. */
  datatype Instance = Instance(leaves: seq<string>, edges: seq<Edge>, info: UseInfo)

  function QualifyAll(namespace: string, names: seq<string>): seq<string> {
    seq(|names|, i requires 0 <= i < |names| => Qualify(namespace, names[i]))
  }

  ghost predicate IsRoot(g: Graph, n: string) { n in g.nodes && In(g, n) == [] }

  ghost predicate IsSink(g: Graph, n: string) { n in g.nodes && Out(g, n) == [] }

  /** The remaining checks of Validate and of the export schema, which need module files. */
  type Checks = Graph -> bool

  ghost function BuildScope(defs: Defs, ok: Checks, scope: Scope, namespace: string,
      stack: seq<GroupKey>): Result<Built>
    decreases defs.Keys - Elems(stack), 2, 0
  {
    Connect(BuildUses(defs, ok, scope, |scope.uses|, namespace, stack), scope, namespace)
  }

  /** The scope's own edges, rewritten once its instances are there. */
  function Connect(uses: Result<Built>, scope: Scope, namespace: string): Result<Built> {
    var inner :- uses;
    var edges :- RewriteEdges(scope.edges, inner.uses, namespace);
    Ok(inner.(edges := inner.edges + edges))
  }

  /** The scope's own nodes and its first `k` instances, spliced in. */
  ghost function BuildUses(defs: Defs, ok: Checks, scope: Scope, k: nat, namespace: string,
      stack: seq<GroupKey>): Result<Built>
    requires k <= |scope.uses|
    decreases defs.Keys - Elems(stack), 1, k
  {
    if k == 0 then Ok(Built(QualifyAll(namespace, scope.nodes), [], map[]))
    else
      var u := scope.uses[k - 1];
      SpliceInto(BuildUses(defs, ok, scope, k - 1, namespace, stack), u.instance,
                 ResolveUse(defs, ok, u.group, Qualify(namespace, u.instance), stack))
  }

  function SpliceInto(prev: Result<Built>, name: string, instance: Result<Instance>): Result<Built> {
    var p :- prev;
    var i :- instance;
    Ok(Built(p.leaves + i.leaves, p.edges + i.edges, p.uses[name := i.info]))
  }

  ghost function ResolveUse(defs: Defs, ok: Checks, group: GroupKey, namespace: string,
      stack: seq<GroupKey>): Result<Instance>
    decreases defs.Keys - Elems(stack), 0, 0
  {
    if group in stack then Err(CircularUse(group))
    else if group !in defs then Err(MissingGroup(group))
    else
      Deeper(defs, stack, group);
      CloseGroup(ok, defs[group], namespace, BuildScope(defs, ok, defs[group], namespace, stack + [group]))
  }

  /** The checks on an expanded group body, and what its users see of it. */
  ghost function CloseGroup(ok: Checks, def: Scope, namespace: string, built: Result<Built>): Result<Instance> {
    var internal :- built;
    var g := MakeGraph(internal.leaves, internal.edges);
    if !Acyclic(g) then Err(GroupHasCycle)
    else if !ok(g) then Err(GroupRejected)
    else
      var export_ :- ResolveExport(def.export_, internal.uses, namespace);
      Ok(Instance(internal.leaves, internal.edges, Info(g, internal.leaves, export_)))
  }

  ghost function Info(g: Graph, leaves: seq<string>, export_: Export): UseInfo {
    UseInfo(export_, SortedListing(Filter(leaves, set n | n in g.nodes && In(g, n) == [])),
            SortedListing(Filter(leaves, set n | n in g.nodes && Out(g, n) == [])))
  }

  lemma Deeper(defs: Defs, stack: seq<GroupKey>, group: GroupKey)
    requires group in defs && group !in stack
    ensures defs.Keys - Elems(stack + [group]) < defs.Keys - Elems(stack)
  {
    assert group in defs.Keys - Elems(stack);
    assert Elems(stack + [group]) == Elems(stack) + {group};
  }

  /** Insertion sort, as a function. */
  function Insert(x: string, s: seq<string>): seq<string> {
    if s == [] then [x] else if Less(x, s[0]) then [x] + s else [s[0]] + Insert(x, s[1..])
  }

  function SortedListing(s: seq<string>): seq<string> {
    if s == [] then [] else Insert(s[|s| - 1], SortedListing(s[..|s| - 1]))
  }

  lemma {:induction false} InsertMultiset(x: string, s: seq<string>)
    ensures multiset(Insert(x, s)) == multiset(s) + multiset{x}
  {
    if s != [] && !Less(x, s[0]) {
      InsertMultiset(x, s[1..]);
      assert s == [s[0]] + s[1..];
    }
  }

  lemma {:induction false} SortedListingMultiset(s: seq<string>)
    ensures multiset(SortedListing(s)) == multiset(s)
  {
    if s != [] {
      SortedListingMultiset(s[..|s| - 1]);
      InsertMultiset(s[|s| - 1], SortedListing(s[..|s| - 1]));
      assert s == s[..|s| - 1] + [s[|s| - 1]];
    }
  }

  lemma {:induction false} InsertSortedList(x: string, s: seq<string>)
    requires Sorted(s)
    ensures Sorted(Insert(x, s))
  {
    if s != [] {
      if Less(x, s[0]) {
        InsertionOrder(s, x, 0);
        assert s[..0] + [x] + s[0..] == [x] + s;
      } else {
        var t := Insert(x, s[1..]);
        InsertSortedList(x, s[1..]);
        InsertMultiset(x, s[1..]);
        forall i | 0 <= i < |t| ensures !Less(t[i], s[0]) {
          assert t[i] in multiset(t);
          assert t[i] == x || t[i] in s[1..];
        }
      }
    }
  }

  lemma {:induction false} SortedListingSorted(s: seq<string>)
    ensures Sorted(SortedListing(s))
  {
    if s != [] {
      SortedListingSorted(s[..|s| - 1]);
      InsertSortedList(s[|s| - 1], SortedListing(s[..|s| - 1]));
    }
  }

  lemma {:induction false} FilterMembers(names: seq<string>, keep: set<string>, n: string)
    ensures n in Filter(names, keep) <==> n in names && n in keep
  {
    if names != [] {
      FilterMembers(names[..|names| - 1], keep, n);
      assert names == names[..|names| - 1] + [names[|names| - 1]];
    }
  }

  /** Roots and sinks are exactly the nodes without incoming and outgoing internal edges. */
  lemma InfoMembers(leaves: seq<string>, edges: seq<Edge>, export_: Export, n: string)
    ensures var g := MakeGraph(leaves, edges);
            var info := Info(g, leaves, export_);
            (n in info.roots <==> IsRoot(g, n)) && (n in info.sinks <==> IsSink(g, n))
  {
    var g := MakeGraph(leaves, edges);
    var rs, ss := (set m | m in g.nodes && In(g, m) == []), (set m | m in g.nodes && Out(g, m) == []);
    FilterMembers(leaves, rs, n);
    FilterMembers(leaves, ss, n);
    SortedListingMultiset(Filter(leaves, rs));
    SortedListingMultiset(Filter(leaves, ss));
    SameMultisetSameElems(SortedListing(Filter(leaves, rs)), Filter(leaves, rs));
    SameMultisetSameElems(SortedListing(Filter(leaves, ss)), Filter(leaves, ss));
    assert n in SortedListing(Filter(leaves, rs)) <==> n in Elems(SortedListing(Filter(leaves, rs)));
    assert n in SortedListing(Filter(leaves, ss)) <==> n in Elems(SortedListing(Filter(leaves, ss)));
  }

  // ---- Source discovery: the same walk without wiring.

  /** sourceNodes: the qualified leaf names, own nodes first, then instance by instance. */
  function SourceNames(defs: Defs, scope: Scope, namespace: string, stack: seq<GroupKey>): Result<seq<string>>
    decreases defs.Keys - Elems(stack), 2, 0
  {
    SourceUses(defs, scope, |scope.uses|, namespace, stack)
  }

  function SourceUses(defs: Defs, scope: Scope, k: nat, namespace: string, stack: seq<GroupKey>): Result<seq<string>>
    requires k <= |scope.uses|
    decreases defs.Keys - Elems(stack), 1, k
  {
    if k == 0 then Ok(QualifyAll(namespace, scope.nodes))
    else
      var prev :- SourceUses(defs, scope, k - 1, namespace, stack);
      var u := scope.uses[k - 1];
      var more :- SourceInstance(defs, u.group, Qualify(namespace, u.instance), stack);
      Ok(prev + more)
  }

  function SourceInstance(defs: Defs, group: GroupKey, namespace: string, stack: seq<GroupKey>): Result<seq<string>>
    decreases defs.Keys - Elems(stack), 0, 0
  {
    if group in stack then Err(CircularUse(group))
    else if group !in defs then Err(MissingGroup(group))
    else
      Deeper(defs, stack, group);
      SourceNames(defs, defs[group], namespace, stack + [group])
  }

  /** Whenever Build succeeds, its leaves are exactly the names source discovery reports. */
  lemma {:induction false} BuildMatchesSource(defs: Defs, ok: Checks, scope: Scope, namespace: string,
      stack: seq<GroupKey>)
    ensures var b := BuildScope(defs, ok, scope, namespace, stack);
            b.Ok? ==> SourceNames(defs, scope, namespace, stack) == Ok(b.value.leaves)
    decreases defs.Keys - Elems(stack), 2, 0
  {
    BuildUsesMatchesSource(defs, ok, scope, |scope.uses|, namespace, stack);
  }

  lemma {:induction false} BuildUsesMatchesSource(defs: Defs, ok: Checks, scope: Scope, k: nat, namespace: string,
      stack: seq<GroupKey>)
    requires k <= |scope.uses|
    ensures var b := BuildUses(defs, ok, scope, k, namespace, stack);
            b.Ok? ==> SourceUses(defs, scope, k, namespace, stack) == Ok(b.value.leaves)
    decreases defs.Keys - Elems(stack), 1, k
  {
    if k > 0 {
      var u := scope.uses[k - 1];
      BuildUsesMatchesSource(defs, ok, scope, k - 1, namespace, stack);
      InstanceMatchesSource(defs, ok, u.group, Qualify(namespace, u.instance), stack);
    }
  }

  lemma {:induction false} InstanceMatchesSource(defs: Defs, ok: Checks, group: GroupKey, namespace: string,
      stack: seq<GroupKey>)
    ensures var i := ResolveUse(defs, ok, group, namespace, stack);
            i.Ok? ==> SourceInstance(defs, group, namespace, stack) == Ok(i.value.leaves)
    decreases defs.Keys - Elems(stack), 0, 0
  {
    if group !in stack && group in defs {
      Deeper(defs, stack, group);
      BuildMatchesSource(defs, ok, defs[group], namespace, stack + [group]);
    }
  }

  // ---- Leaf names never collide.

  ghost predicate Under(namespace: string, n: string) {
    namespace + "." <= n
  }

  lemma QualifyInjective(namespace: string, a: string, b: string)
    requires Qualify(namespace, a) == Qualify(namespace, b)
    ensures a == b
  {
    if namespace != "" {
      assert a == (namespace + "." + a)[|namespace| + 1..];
      assert b == (namespace + "." + b)[|namespace| + 1..];
    }
  }

  /** What follows the namespace in a name below an instance. */
  lemma UnderInstance(namespace: string, instance: string, n: string) returns (rest: string)
    requires Under(Qualify(namespace, instance), n)
    ensures n == Qualify(namespace, instance + "." + rest)
  {
    rest := n[|Qualify(namespace, instance)| + 1..];
    assert n == Qualify(namespace, instance) + "." + rest;
    if namespace != "" {
      assert namespace + "." + instance + "." + rest == namespace + "." + (instance + "." + rest);
    }
  }

  lemma UnderTransitive(namespace: string, instance: string, n: string)
    requires namespace != "" && Under(Qualify(namespace, instance), n)
    ensures Under(namespace, n)
  {
    var rest := UnderInstance(namespace, instance, n);
    assert n == namespace + "." + (instance + "." + rest);
  }

  lemma NodeOutsideInstance(namespace: string, name: string, instance: string)
    requires PlainName(name)
    ensures !Under(Qualify(namespace, instance), Qualify(namespace, name))
  {
    if Under(Qualify(namespace, instance), Qualify(namespace, name)) {
      var rest := UnderInstance(namespace, instance, Qualify(namespace, name));
      QualifyInjective(namespace, name, instance + "." + rest);
      DotInside(instance, rest);
    }
  }

  lemma DotInside(a: string, b: string)
    ensures '.' in a + "." + b
  {
    assert (a + "." + b)[|a|] == '.';
  }

  lemma InstancesApart(namespace: string, a: string, b: string, n: string)
    requires PlainName(a) && PlainName(b) && Under(Qualify(namespace, a), n) && Under(Qualify(namespace, b), n)
    ensures a == b
  {
    var r := UnderInstance(namespace, a, n);
    var q := UnderInstance(namespace, b, n);
    QualifyInjective(namespace, a + "." + r, b + "." + q);
    PlainPrefix(a, r, b, q);
  }

  lemma PlainPrefix(a: string, r: string, b: string, q: string)
    requires a + "." + r == b + "." + q && '.' !in a && '.' !in b
    ensures a == b
  {
    var s := a + "." + r;
    assert s[|a|] == '.' && s[|b|] == '.';
    assert a == s[..|a|] && b == s[..|b|];
  }

  /** Own nodes come first and are not below any instance; each instance's leaves are below it. */
  ghost predicate LeavesPlaced(scope: Scope, k: nat, namespace: string, leaves: seq<string>)
    requires k <= |scope.uses|
  {
    && Distinct(leaves)
    && "" !in leaves
    && (namespace != "" ==> forall n :: n in leaves ==> Under(namespace, n))
    && (forall n {:trigger n in leaves} :: n in leaves ==>
          n in QualifyAll(namespace, scope.nodes) || exists j ::
            0 <= j < k && Under(Qualify(namespace, scope.uses[j].instance), n))
  }

  /** Build and source discovery give every leaf its own name. */
  lemma {:induction false} SourceDistinct(defs: Defs, scope: Scope, namespace: string, stack: seq<GroupKey>)
    requires AllParsed(defs) && Parsed(scope)
    ensures var r := SourceNames(defs, scope, namespace, stack);
            r.Ok? ==> LeavesPlaced(scope, |scope.uses|, namespace, r.value)
    decreases defs.Keys - Elems(stack), 2, 0
  {
    SourceUsesDistinct(defs, scope, |scope.uses|, namespace, stack);
  }

  lemma {:induction false} SourceUsesDistinct(defs: Defs, scope: Scope, k: nat, namespace: string, stack: seq<GroupKey>)
    requires AllParsed(defs) && Parsed(scope) && k <= |scope.uses|
    ensures var r := SourceUses(defs, scope, k, namespace, stack);
            r.Ok? ==> LeavesPlaced(scope, k, namespace, r.value)
    decreases defs.Keys - Elems(stack), 1, k
  {
    if k == 0 {
      OwnNodesPlaced(scope, namespace);
    } else {
      SourceUsesDistinct(defs, scope, k - 1, namespace, stack);
      var u := scope.uses[k - 1];
      var prev := SourceUses(defs, scope, k - 1, namespace, stack);
      var more := SourceInstance(defs, u.group, Qualify(namespace, u.instance), stack);
      if prev.Ok? && more.Ok? {
        InstanceDistinct(defs, u.group, Qualify(namespace, u.instance), stack);
        SplicePlaced(scope, k, namespace, prev.value, more.value);
      }
    }
  }

  lemma OwnNodesPlaced(scope: Scope, namespace: string)
    requires Parsed(scope)
    ensures LeavesPlaced(scope, 0, namespace, QualifyAll(namespace, scope.nodes))
  {
    var q := QualifyAll(namespace, scope.nodes);
    forall i, j | 0 <= i < j < |q| ensures q[i] != q[j] {
      if q[i] == q[j] { QualifyInjective(namespace, scope.nodes[i], scope.nodes[j]); }
    }
    forall i | 0 <= i < |q| ensures q[i] != "" && (namespace != "" ==> Under(namespace, q[i])) {
      assert scope.nodes[i] in scope.nodes;
    }
  }

  lemma {:induction false} InstanceDistinct(defs: Defs, group: GroupKey, namespace: string, stack: seq<GroupKey>)
    requires AllParsed(defs) && namespace != ""
    ensures var r := SourceInstance(defs, group, namespace, stack);
            r.Ok? ==> Distinct(r.value) && "" !in r.value && forall n :: n in r.value ==> Under(namespace, n)
    decreases defs.Keys - Elems(stack), 0, 0
  {
    if group !in stack && group in defs {
      Deeper(defs, stack, group);
      SourceDistinct(defs, defs[group], namespace, stack + [group]);
    }
  }

  lemma SpliceApart(scope: Scope, k: nat, namespace: string, prev: seq<string>, n: string)
    requires Parsed(scope) && 0 < k <= |scope.uses| && LeavesPlaced(scope, k - 1, namespace, prev) && n in prev
    ensures !Under(Qualify(namespace, scope.uses[k - 1].instance), n)
  {
    var u := scope.uses[k - 1];
    assert u in scope.uses;
    if n in QualifyAll(namespace, scope.nodes) {
      var i :| 0 <= i < |scope.nodes| && QualifyAll(namespace, scope.nodes)[i] == n;
      assert scope.nodes[i] in scope.nodes;
      NodeOutsideInstance(namespace, scope.nodes[i], u.instance);
    } else {
      var j :| 0 <= j < k - 1 && Under(Qualify(namespace, scope.uses[j].instance), n);
      assert scope.uses[j] in scope.uses;
      assert UseNames(scope.uses)[j] == scope.uses[j].instance && UseNames(scope.uses)[k - 1] == u.instance;
      if Under(Qualify(namespace, u.instance), n) { InstancesApart(namespace, scope.uses[j].instance, u.instance, n); }
    }
  }

  lemma SplicePlaced(scope: Scope, k: nat, namespace: string, prev: seq<string>, more: seq<string>)
    requires Parsed(scope) && 0 < k <= |scope.uses| && LeavesPlaced(scope, k - 1, namespace, prev)
    requires Distinct(more) && "" !in more
    requires forall n :: n in more ==> Under(Qualify(namespace, scope.uses[k - 1].instance), n)
    ensures LeavesPlaced(scope, k, namespace, prev + more)
  {
    var u := scope.uses[k - 1];
    forall n | n in prev ensures n !in more { SpliceApart(scope, k, namespace, prev, n); }
    forall n | n in more && namespace != "" ensures Under(namespace, n) { UnderTransitive(namespace, u.instance, n); }
    forall i, j | 0 <= i < j < |prev + more| ensures (prev + more)[i] != (prev + more)[j] {
      if i < |prev| { assert prev[i] in prev; }
      if i < |prev| <= j { assert more[j - |prev|] in more; }
    }
    forall n | n in prev + more
      ensures n in QualifyAll(namespace, scope.nodes) || exists j ::
        0 <= j < k && Under(Qualify(namespace, scope.uses[j].instance), n)
    {
      if n in prev && n !in QualifyAll(namespace, scope.nodes) {
        var j :| 0 <= j < k - 1 && Under(Qualify(namespace, scope.uses[j].instance), n);
      }
    }
  }

  // ---- Every rewritten edge joins two leaves.

  ghost predicate RefOk(leaves: seq<string>, kind: PortKind, r: PortRef) {
    r.entity == NodeEntity && r.node in leaves && r.kind == kind && (kind == Bare <==> r.name == "")
  }

  ghost predicate RefsOk(leaves: seq<string>, kind: PortKind, refs: seq<PortRef>) {
    forall r :: r in refs ==> RefOk(leaves, kind, r)
  }

  ghost predicate InfoOk(leaves: seq<string>, info: UseInfo) {
    && (forall n :: n in info.roots ==> n in leaves)
    && (forall n :: n in info.sinks ==> n in leaves)
    && (forall i :: i in info.export_.inputs ==> RefsOk(leaves, Input, i.to))
    && (forall o :: o in info.export_.outputs ==> RefOk(leaves, Output, o.from))
  }

  ghost predicate UsesOk(leaves: seq<string>, uses: Uses) {
    forall n {:trigger uses[n]} :: n in uses ==> InfoOk(leaves, uses[n])
  }

  ghost predicate EdgeOk(leaves: seq<string>, e: Edge) {
    (RefOk(leaves, Bare, e.from) && RefOk(leaves, Bare, e.to))
      || (RefOk(leaves, Output, e.from) && RefOk(leaves, Input, e.to))
  }

  ghost predicate EdgesOk(leaves: seq<string>, edges: seq<Edge>) {
    forall e :: e in edges ==> EdgeOk(leaves, e)
  }

  ghost predicate OwnNodesIn(scope: Scope, namespace: string, leaves: seq<string>) {
    forall n :: n in scope.nodes ==> Qualify(namespace, n) in leaves
  }

  lemma {:induction false} FindOutputOk(leaves: seq<string>, outputs: seq<ExportOutput>, name: string)
    requires forall o :: o in outputs ==> RefOk(leaves, Output, o.from)
    ensures var r := FindOutput(outputs, name); r.Ok? ==> RefsOk(leaves, Output, r.value)
  {
    if outputs != [] {
      assert outputs[0] in outputs;
      assert forall o :: o in outputs[1..] ==> o in outputs;
      FindOutputOk(leaves, outputs[1..], name);
    }
  }

  lemma {:induction false} FindInputOk(leaves: seq<string>, inputs: seq<ExportInput>, name: string)
    requires forall i :: i in inputs ==> RefsOk(leaves, Input, i.to)
    ensures var r := FindInput(inputs, name); r.Ok? ==> RefsOk(leaves, Input, r.value)
  {
    if inputs != [] {
      assert inputs[0] in inputs;
      assert forall i :: i in inputs[1..] ==> i in inputs;
      FindInputOk(leaves, inputs[1..], name);
    }
  }

  lemma ResolvePortOk(scope: Scope, leaves: seq<string>, uses: Uses, namespace: string, ref: PortRef)
    requires UsesOk(leaves, uses) && OwnNodesIn(scope, namespace, leaves) && Known(scope, ref) && ref.IsPort()
      && ref.name != ""
    ensures var r := ResolvePort(ref, uses, namespace); r.Ok? ==> RefsOk(leaves, ref.kind, r.value)
  {
    if ref.entity == UseEntity && ref.node in uses {
      var info := uses[ref.node];
      FindOutputOk(leaves, info.export_.outputs, ref.name);
      FindInputOk(leaves, info.export_.inputs, ref.name);
    }
  }

  lemma RewriteEndpointOk(scope: Scope, leaves: seq<string>, uses: Uses, namespace: string, ref: PortRef,
      wantRoots: bool)
    requires UsesOk(leaves, uses) && OwnNodesIn(scope, namespace, leaves) && Known(scope, ref)
    requires ref.IsPort() <==> ref.name != ""
    ensures var r := RewriteEndpoint(ref, uses, namespace, wantRoots); r.Ok? ==> RefsOk(leaves, ref.kind, r.value)
  {
    if ref.IsPort() {
      ResolvePortOk(scope, leaves, uses, namespace, ref);
    } else if ref.entity == UseEntity && ref.node in uses {
      var info := uses[ref.node];
      var names := if wantRoots then info.roots else info.sinks;
      forall r | r in BareRefs(names) ensures RefOk(leaves, Bare, r) {
        var i :| 0 <= i < |names| && BareRefs(names)[i] == r;
        assert names[i] in names;
      }
    }
  }

  lemma {:induction false} PairsMembers(froms: seq<PortRef>, tos: seq<PortRef>, e: Edge)
    ensures e in Pairs(froms, tos) <==> e.from in froms && e.to in tos
  {
    if froms != [] {
      var init, last := froms[..|froms| - 1], froms[|froms| - 1];
      PairsMembers(init, tos, e);
      assert froms == init + [last];
      if e.from == last && e.to in tos {
        var j :| 0 <= j < |tos| && tos[j] == e.to;
        assert seq(|tos|, j requires 0 <= j < |tos| => Edge(last, tos[j]))[j] == e;
      }
    }
  }

  lemma RewriteEdgeOk(scope: Scope, leaves: seq<string>, uses: Uses, namespace: string, e: Edge)
    requires UsesOk(leaves, uses) && OwnNodesIn(scope, namespace, leaves) && EdgeParsed(scope, e)
    ensures var r := RewriteEdge(e, uses, namespace); r.Ok? ==> EdgesOk(leaves, r.value)
  {
    RewriteEndpointOk(scope, leaves, uses, namespace, e.from, false);
    RewriteEndpointOk(scope, leaves, uses, namespace, e.to, true);
    var r := RewriteEdge(e, uses, namespace);
    if r.Ok? {
      var froms := RewriteEndpoint(e.from, uses, namespace, false).value;
      var tos := RewriteEndpoint(e.to, uses, namespace, true).value;
      forall x | x in r.value ensures EdgeOk(leaves, x) { PairsMembers(froms, tos, x); }
    }
  }

  lemma {:induction false} RewriteEdgesOk(scope: Scope, leaves: seq<string>, uses: Uses, namespace: string,
      edges: seq<Edge>)
    requires UsesOk(leaves, uses) && OwnNodesIn(scope, namespace, leaves) && forall e :: e in edges ==>
      EdgeParsed(scope, e)
    ensures var r := RewriteEdges(edges, uses, namespace); r.Ok? ==> EdgesOk(leaves, r.value)
  {
    if edges != [] {
      assert forall e :: e in edges[..|edges| - 1] ==> e in edges;
      RewriteEdgesOk(scope, leaves, uses, namespace, edges[..|edges| - 1]);
      assert edges[|edges| - 1] in edges;
      RewriteEdgeOk(scope, leaves, uses, namespace, edges[|edges| - 1]);
    }
  }

  lemma {:induction false} ResolvePortsOk(scope: Scope, leaves: seq<string>, uses: Uses, namespace: string,
      refs: seq<PortRef>, kind: PortKind)
    requires UsesOk(leaves, uses) && OwnNodesIn(scope, namespace, leaves) && kind != Bare
    requires forall r :: r in refs ==> Known(scope, r) && r.kind == kind && r.name != ""
    ensures var r := ResolvePorts(refs, uses, namespace); r.Ok? ==> RefsOk(leaves, kind, r.value)
  {
    if refs != [] {
      assert forall r :: r in refs[..|refs| - 1] ==> r in refs;
      ResolvePortsOk(scope, leaves, uses, namespace, refs[..|refs| - 1], kind);
      assert refs[|refs| - 1] in refs;
      ResolvePortOk(scope, leaves, uses, namespace, refs[|refs| - 1]);
    }
  }

  lemma {:induction false} ResolveInputsOk(scope: Scope, leaves: seq<string>, uses: Uses, namespace: string,
      inputs: seq<ExportInput>)
    requires UsesOk(leaves, uses) && OwnNodesIn(scope, namespace, leaves)
    requires forall i :: i in inputs ==> forall r :: r in i.to ==> Known(scope, r) && r.kind == Input && r.name != ""
    ensures var r := ResolveInputs(inputs, uses, namespace);
            r.Ok? ==> forall i :: i in r.value ==> RefsOk(leaves, Input, i.to)
  {
    if inputs != [] {
      assert forall i :: i in inputs[..|inputs| - 1] ==> i in inputs;
      ResolveInputsOk(scope, leaves, uses, namespace, inputs[..|inputs| - 1]);
      assert inputs[|inputs| - 1] in inputs;
      ResolvePortsOk(scope, leaves, uses, namespace, inputs[|inputs| - 1].to, Input);
    }
  }

  lemma {:induction false} ResolveOutputsOk(scope: Scope, leaves: seq<string>, uses: Uses, namespace: string,
      outputs: seq<ExportOutput>)
    requires UsesOk(leaves, uses) && OwnNodesIn(scope, namespace, leaves)
    requires forall o :: o in outputs ==> Known(scope, o.from) && o.from.kind == Output && o.from.name != ""
    ensures var r := ResolveOutputs(outputs, uses, namespace);
            r.Ok? ==> forall o :: o in r.value ==> RefOk(leaves, Output, o.from)
  {
    if outputs != [] {
      assert forall o :: o in outputs[..|outputs| - 1] ==> o in outputs;
      ResolveOutputsOk(scope, leaves, uses, namespace, outputs[..|outputs| - 1]);
      assert outputs[|outputs| - 1] in outputs;
      ResolvePortOk(scope, leaves, uses, namespace, outputs[|outputs| - 1].from);
    }
  }

  /** A scope with its first instances spliced in is sound. */
  ghost predicate BuiltOk(scope: Scope, k: nat, namespace: string, b: Built)
    requires k <= |scope.uses|
  {
    && OwnNodesIn(scope, namespace, b.leaves)
    && b.uses.Keys == Elems(UseNames(scope.uses[..k]))
    && UsesOk(b.leaves, b.uses)
    && EdgesOk(b.leaves, b.edges)
  }

  lemma {:induction false} BuildScopeOk(defs: Defs, ok: Checks, scope: Scope, namespace: string, stack: seq<GroupKey>)
    requires AllParsed(defs) == true && Parsed(scope) == true
    ensures var b := BuildScope(defs, ok, scope, namespace, stack);
            b.Ok? ==> BuiltOk(scope, |scope.uses|, namespace, b.value)
    decreases defs.Keys - Elems(stack), 2, 0
  {
    BuildUsesOk(defs, ok, scope, |scope.uses|, namespace, stack);
    var inner := BuildUses(defs, ok, scope, |scope.uses|, namespace, stack);
    if inner.Ok? {
      RewriteEdgesOk(scope, inner.value.leaves, inner.value.uses, namespace, scope.edges);
    }
  }

  lemma {:induction false} BuildUsesOk(defs: Defs, ok: Checks, scope: Scope, k: nat, namespace: string,
      stack: seq<GroupKey>)
    requires AllParsed(defs) == true && Parsed(scope) == true && k <= |scope.uses|
    ensures var b := BuildUses(defs, ok, scope, k, namespace, stack);
            b.Ok? ==> BuiltOk(scope, k, namespace, b.value) == true
    decreases defs.Keys - Elems(stack), 1, k
  {
    if k == 0 {
      OwnNodesOk(scope, namespace);
    } else {
      var u := scope.uses[k - 1];
      BuildUsesOk(defs, ok, scope, k - 1, namespace, stack);
      InstanceOk(defs, ok, u.group, Qualify(namespace, u.instance), stack);
      NextUsesOk(defs, ok, scope, k, namespace, stack);
    }
  }

  lemma NextUsesOk(defs: Defs, ok: Checks, scope: Scope, k: nat, namespace: string, stack: seq<GroupKey>)
    requires 0 < k <= |scope.uses|
    requires var prev := BuildUses(defs, ok, scope, k - 1, namespace, stack);
             prev.Ok? ==> BuiltOk(scope, k - 1, namespace, prev.value) == true
    requires var i := PartAt(defs, ok, scope, namespace, stack, k - 1);
             i.Ok? ==> InfoOk(i.value.leaves, i.value.info) == true && EdgesOk(i.value.leaves, i.value.edges) == true
    ensures var b := BuildUses(defs, ok, scope, k, namespace, stack);
            b.Ok? ==> BuiltOk(scope, k, namespace, b.value) == true
  {
    NextStage(defs, ok, scope, k - 1, namespace, stack);
    StageOk(scope, k, namespace, BuildUses(defs, ok, scope, k - 1, namespace, stack),
            PartAt(defs, ok, scope, namespace, stack, k - 1));
  }

  lemma StageOk(scope: Scope, k: nat, namespace: string, prev: Result<Built>, inst: Result<Instance>)
    requires 0 < k <= |scope.uses| && (prev.Ok? ==> BuiltOk(scope, k - 1, namespace, prev.value) == true)
    requires inst.Ok? ==> InfoOk(inst.value.leaves, inst.value.info) && EdgesOk(inst.value.leaves, inst.value.edges)
    ensures var b := SpliceInto(prev, InstanceAt(scope.uses, k - 1), inst);
            b.Ok? ==> BuiltOk(scope, k, namespace, b.value) == true
  {
    if prev.Ok? && inst.Ok? { SpliceOk(scope, k, namespace, prev.value, inst.value); }
  }

  lemma OwnNodesOk(scope: Scope, namespace: string)
    ensures BuiltOk(scope, 0, namespace, Built(QualifyAll(namespace, scope.nodes), [], map[]))
  {
    forall n | n in scope.nodes ensures Qualify(namespace, n) in QualifyAll(namespace, scope.nodes) {
      var i :| 0 <= i < |scope.nodes| && scope.nodes[i] == n;
      assert QualifyAll(namespace, scope.nodes)[i] == Qualify(namespace, n);
    }
    assert UseNames(scope.uses[..0]) == [];
  }

  lemma SpliceOk(scope: Scope, k: nat, namespace: string, prev: Built, inst: Instance)
    requires 0 < k <= |scope.uses| && BuiltOk(scope, k - 1, namespace, prev) == true
    requires InfoOk(inst.leaves, inst.info) == true && EdgesOk(inst.leaves, inst.edges) == true
    ensures BuiltOk(scope, k, namespace,
                    Built(prev.leaves + inst.leaves, prev.edges + inst.edges,
                      prev.uses[scope.uses[k - 1].instance := inst.info]))
  {
    var u := scope.uses[k - 1];
    assert UseNames(scope.uses[..k]) == UseNames(scope.uses[..k - 1]) + [u.instance];
    assert Elems(UseNames(scope.uses[..k])) == Elems(UseNames(scope.uses[..k - 1])) + {u.instance};
    var leaves := prev.leaves + inst.leaves;
    forall e | e in prev.edges + inst.edges ensures EdgeOk(leaves, e) {
      assert e in prev.edges ==> EdgeOk(prev.leaves, e);
      assert e in inst.edges ==> EdgeOk(inst.leaves, e);
    }
    InfoWiden(inst.leaves, leaves, inst.info);
    forall n | n in prev.uses ensures InfoOk(leaves, prev.uses[n]) { InfoWiden(prev.leaves, leaves, prev.uses[n]); }
  }

  lemma InfoWiden(a: seq<string>, b: seq<string>, info: UseInfo)
    requires InfoOk(a, info) && forall n :: n in a ==> n in b
    ensures InfoOk(b, info)
  {
  }

  lemma {:induction false} InstanceOk(defs: Defs, ok: Checks, group: GroupKey, namespace: string, stack: seq<GroupKey>)
    requires AllParsed(defs) == true
    ensures var i := ResolveUse(defs, ok, group, namespace, stack);
            i.Ok? ==> InfoOk(i.value.leaves, i.value.info) == true && EdgesOk(i.value.leaves, i.value.edges) == true
    decreases defs.Keys - Elems(stack), 0, 0
  {
    var i := ResolveUse(defs, ok, group, namespace, stack);
    if i.Ok? {
      Deeper(defs, stack, group);
      BuildScopeOk(defs, ok, defs[group], namespace, stack + [group]);
      var internal := BuildScope(defs, ok, defs[group], namespace, stack + [group]).value;
      ResolveInputsOk(defs[group], internal.leaves, internal.uses, namespace, defs[group].export_.inputs);
      ResolveOutputsOk(defs[group], internal.leaves, internal.uses, namespace, defs[group].export_.outputs);
      forall n ensures n in i.value.info.roots ==>
        n in internal.leaves { InfoMembers(internal.leaves, internal.edges, i.value.info.export_, n); }
      forall n ensures n in i.value.info.sinks ==>
        n in internal.leaves { InfoMembers(internal.leaves, internal.edges, i.value.info.export_, n); }
    }
  }

  /** Build's result is a well-formed graph with no `use` endpoint, properly shaped edges, and the leaf
      names of source discovery, each once. */
  lemma BuildResult(defs: Defs, ok: Checks, scope: Scope, namespace: string, stack: seq<GroupKey>)
    requires AllParsed(defs) && Parsed(scope) && BuildScope(defs, ok, scope, namespace, stack).Ok?
    ensures var b := BuildScope(defs, ok, scope, namespace, stack).value;
            var g := MakeGraph(b.leaves, b.edges);
            && WellFormed(g)
            && Selections.ShapedEdges(g)
            && "" !in g.nodes
            && (forall e :: e in g.edges ==> e.from.entity == NodeEntity && e.to.entity == NodeEntity)
            && Distinct(b.leaves)
            && SourceNames(defs, scope, namespace, stack) == Ok(b.leaves)
  {
    BuildScopeOk(defs, ok, scope, namespace, stack);
    BuildMatchesSource(defs, ok, scope, namespace, stack);
    SourceDistinct(defs, scope, namespace, stack);
    var b := BuildScope(defs, ok, scope, namespace, stack).value;
    assert forall e :: e in b.edges ==> EdgeOk(b.leaves, e);
    MakeGraphWellFormed(b.leaves, b.edges);
  }

  // ---- Ordering: every leaf reaches a sink and is reached from a root.

  lemma {:induction false} ForwardChain(g: Graph, rest: set<string>, m: nat) returns (p: seq<string>)
    requires WellFormed(g) && rest != {} && m > 0
    requires forall n {:trigger HasNext(g, n, rest)} :: n in rest ==> HasNext(g, n, rest)
    ensures Path(g, p) && |p| == m && forall i :: 0 <= i < m ==> p[i] in rest
  {
    if m == 1 {
      var n :| n in rest;
      p := [n];
    } else {
      var init := ForwardChain(g, rest, m - 1);
      assert HasNext(g, init[m - 2], rest);
      var q :| q in Out(g, init[m - 2]) && q in rest;
      PathConcat(g, init, [q]);
      p := init + [q];
    }
  }

  ghost predicate HasNext(g: Graph, n: string, within: set<string>) {
    exists q :: q in Out(g, n) && q in within
  }

  lemma NoEndlessWalk(g: Graph, rest: set<string>)
    requires WellFormed(g) && Acyclic(g)
    requires forall n {:trigger HasNext(g, n, rest)} :: n in rest ==> HasNext(g, n, rest)
    ensures rest == {}
  {
    if rest != {} {
      var p := ForwardChain(g, rest, |rest| + 1);
      var i, j := Topo.Pigeonhole(p, rest);
      PathStep(g, p, i);
      ReachAlong(g, p, i + 1, j);
      assert ReachPlus(g, p[i], p[i]);
    }
  }

  ghost predicate ReachesSink(g: Graph, n: string) { exists s :: IsSink(g, s) && Reach(g, n, s) }

  ghost predicate ReachedFromRoot(g: Graph, n: string) { exists r :: IsRoot(g, r) && Reach(g, r, n) }

  lemma SinkReached(g: Graph, n: string)
    requires WellFormed(g) && Acyclic(g) && n in g.nodes
    ensures ReachesSink(g, n)
  {
    var stuck := set m | m in g.nodes && !ReachesSink(g, m);
    forall m | m in stuck ensures HasNext(g, m, stuck) { StuckMovesOn(g, stuck, m); }
    NoEndlessWalk(g, stuck);
    assert n !in stuck;
  }

  lemma StuckMovesOn(g: Graph, stuck: set<string>, m: string)
    requires WellFormed(g) && m in stuck && forall x :: x in stuck <==> x in g.nodes && !ReachesSink(g, x)
    ensures HasNext(g, m, stuck)
  {
    ReachSelf(g, m);
    assert !IsSink(g, m);
    var q := Out(g, m)[0];
    assert q in Out(g, m);
    EdgeSymmetry(g, m, q);
    if ReachesSink(g, q) {
      var s :| IsSink(g, s) && Reach(g, q, s);
      ReachEdge(g, m, q);
      ReachTransitive(g, m, q, s);
    }
    assert q in stuck;
  }

  lemma RootReaches(g: Graph, n: string)
    requires WellFormed(g) && Acyclic(g) && n in g.nodes
    ensures ReachedFromRoot(g, n)
  {
    var stuck := set m | m in g.nodes && !ReachedFromRoot(g, m);
    forall m | m in stuck ensures Topo.HasPred(g, m, stuck) { StuckComesFrom(g, stuck, m); }
    if stuck != {} { Topo.RestHasCycle(g, stuck); }
    assert n !in stuck;
  }

  lemma StuckComesFrom(g: Graph, stuck: set<string>, m: string)
    requires WellFormed(g) && m in stuck && forall x :: x in stuck <==> x in g.nodes && !ReachedFromRoot(g, x)
    ensures Topo.HasPred(g, m, stuck)
  {
    ReachSelf(g, m);
    assert !IsRoot(g, m);
    var q := In(g, m)[0];
    assert q in In(g, m);
    EdgeSymmetry(g, q, m);
    if ReachedFromRoot(g, q) {
      var r :| IsRoot(g, r) && Reach(g, r, q);
      ReachEdge(g, q, m);
      ReachTransitive(g, r, q, m);
    }
    assert q in stuck;
  }

  // ---- Splicing keeps walks.

  ghost predicate SubEdges(a: seq<Edge>, b: seq<Edge>) {
    forall e :: e in a ==> e in b
  }

  lemma EdgeInGraph(leaves: seq<string>, edges: seq<Edge>, a: string, b: string)
    ensures b in Out(MakeGraph(leaves, edges), a) <==> exists e :: e in edges && e.from.node == a && e.to.node == b
  {
    AdjacencyIsProjection(leaves, edges, a);
    ProjectionsAgree(edges, a, b);
  }

  lemma {:induction false} PathWiden(la: seq<string>, a: seq<Edge>, lb: seq<string>, b: seq<Edge>, p: seq<string>)
    requires SubEdges(a, b) && Path(MakeGraph(la, a), p)
    ensures Path(MakeGraph(lb, b), p)
  {
    if |p| > 1 {
      EdgeInGraph(la, a, p[0], p[1]);
      EdgeInGraph(lb, b, p[0], p[1]);
      PathWiden(la, a, lb, b, p[1..]);
    }
  }

  lemma ReachWiden(la: seq<string>, a: seq<Edge>, lb: seq<string>, b: seq<Edge>, x: string, y: string)
    requires SubEdges(a, b) && Reach(MakeGraph(la, a), x, y)
    ensures Reach(MakeGraph(lb, b), x, y)
  {
    var p :| PathFromTo(MakeGraph(la, a), p, x, y);
    PathWiden(la, a, lb, b, p);
    assert PathFromTo(MakeGraph(lb, b), p, x, y);
  }

  /** The instance `i` of `u` is part of what `b` has built. */
  ghost predicate Holds(i: Result<Instance>, u: Use, b: Built) {
    i.Ok? && SubEdges(i.value.edges, b.edges) && u.instance in b.uses && b.uses[u.instance] == i.value.info
  }

  lemma HoldsMore(i: Result<Instance>, u: Use, prev: Built, inst: Instance, other: string)
    requires Holds(i, u, prev) && u.instance != other
    ensures Holds(i, u, Built(prev.leaves + inst.leaves, prev.edges + inst.edges, prev.uses[other := inst.info]))
  {
  }

  function InstanceAt(uses: seq<Use>, i: nat): string
    requires i < |uses|
  {
    uses[i].instance
  }

  ghost predicate NamedApart(uses: seq<Use>) {
    forall i: nat, j: nat {:trigger InstanceAt(uses, i), InstanceAt(uses, j)} ::
      i < j < |uses| ==> InstanceAt(uses, i) != InstanceAt(uses, j)
  }

  lemma DistinctApart(uses: seq<Use>)
    requires Distinct(UseNames(uses))
    ensures NamedApart(uses)
  {
    forall i: nat, j: nat | i < j < |uses| ensures InstanceAt(uses, i) != InstanceAt(uses, j) {
      assert UseNames(uses)[i] == uses[i].instance && UseNames(uses)[j] == uses[j].instance;
    }
  }

  /** The stages of splicing in the instances `parts` of `uses`, one after the other. */
  ghost predicate Stages(uses: seq<Use>, parts: seq<Result<Instance>>, stages: seq<Result<Built>>) {
    && |parts| == |uses| && |stages| == |uses| + 1
    && forall k :: 0 <= k < |uses| ==> stages[k + 1] == SpliceInto(stages[k], InstanceAt(uses, k), parts[k])
  }

  lemma {:induction false} FirstErrorStays(uses: seq<Use>, parts: seq<Result<Instance>>, stages: seq<Result<Built>>,
      k: nat, n: nat)
    requires Stages(uses, parts, stages) && k <= n <= |uses| && stages[k].Err?
    ensures stages[n] == stages[k]
    decreases n
  {
    if k < n {
      FirstErrorStays(uses, parts, stages, k, n - 1);
      assert stages[n - 1 + 1] == SpliceInto(stages[n - 1], InstanceAt(uses, n - 1), parts[n - 1]);
    }
  }

  /** Instances once spliced stay as more are. */
  lemma {:induction false} StaysSpliced(uses: seq<Use>, parts: seq<Result<Instance>>, stages: seq<Result<Built>>,
      j: nat, k: nat)
    requires Stages(uses, parts, stages) && NamedApart(uses) && j < k <= |uses| && stages[k].Ok?
    ensures Holds(parts[j], uses[j], stages[k].value) == true
    decreases k
  {
    assert stages[k - 1 + 1] == SpliceInto(stages[k - 1], InstanceAt(uses, k - 1), parts[k - 1]);
    if j < k - 1 {
      StaysSpliced(uses, parts, stages, j, k - 1);
      assert InstanceAt(uses, j) != InstanceAt(uses, k - 1);
      HoldsMore(parts[j], uses[j], stages[k - 1].value, parts[k - 1].value, InstanceAt(uses, k - 1));
    }
  }

  ghost function PartAt(defs: Defs, ok: Checks, scope: Scope, namespace: string, stack: seq<GroupKey>, k: nat):
      Result<Instance>
    requires k < |scope.uses|
  {
    var u := scope.uses[k];
    ResolveUse(defs, ok, u.group, Qualify(namespace, u.instance), stack)
  }

  lemma NextStage(defs: Defs, ok: Checks, scope: Scope, k: nat, namespace: string, stack: seq<GroupKey>)
    requires k < |scope.uses|
    ensures BuildUses(defs, ok, scope, k + 1, namespace, stack)
              == SpliceInto(BuildUses(defs, ok, scope, k, namespace, stack), InstanceAt(scope.uses, k),
                            PartAt(defs, ok, scope, namespace, stack, k))
  {
  }

  lemma StagesOf(defs: Defs, ok: Checks, scope: Scope, namespace: string, stack: seq<GroupKey>)
    returns (parts: seq<Result<Instance>>, stages: seq<Result<Built>>)
    ensures Stages(scope.uses, parts, stages)
    ensures forall k :: 0 <= k < |scope.uses| ==> parts[k] == PartAt(defs, ok, scope, namespace, stack, k)
    ensures forall k :: 0 <= k <= |scope.uses| ==> stages[k] == BuildUses(defs, ok, scope, k, namespace, stack)
  {
    var n := |scope.uses|;
    parts := seq(n, k requires 0 <= k < n => PartAt(defs, ok, scope, namespace, stack, k));
    stages := seq(n + 1, k requires 0 <= k < n + 1 => BuildUses(defs, ok, scope, k, namespace, stack));
    forall k | 0 <= k < n ensures stages[k + 1] == SpliceInto(stages[k], InstanceAt(scope.uses, k), parts[k]) {
      NextStage(defs, ok, scope, k, namespace, stack);
    }
  }

  lemma InstanceSpliced(defs: Defs, ok: Checks, scope: Scope, k: nat, namespace: string, stack: seq<GroupKey>, j: nat)
    requires j < k <= |scope.uses| && NamedApart(scope.uses) && BuildUses(defs, ok, scope, k, namespace, stack).Ok?
    ensures var u := scope.uses[j];
      Holds(ResolveUse(defs, ok, u.group, Qualify(namespace, u.instance), stack), u,
            BuildUses(defs, ok, scope, k, namespace, stack).value) == true
  {
    var parts, stages := StagesOf(defs, ok, scope, namespace, stack);
    StaysSpliced(scope.uses, parts, stages, j, k);
  }

  // ---- The meaning of a bare edge.

  ghost function UseIndex(uses: seq<Use>, name: string): (j: nat)
    requires name in UseNames(uses)
    ensures j < |uses| && uses[j].instance == name
  {
    assert exists j :: 0 <= j < |uses| && UseNames(uses)[j] == name;
    var j :| 0 <= j < |uses| && UseNames(uses)[j] == name;
    j
  }

  /** The leaves a bare reference stands for: the node itself, or all leaves of the instance at any depth. */
  ghost function LeavesOf(defs: Defs, scope: Scope, namespace: string, stack: seq<GroupKey>, ref: PortRef): set<string>
    requires Known(scope, ref)
  {
    if ref.entity == NodeEntity then {Qualify(namespace, ref.node)}
    else
      var u := scope.uses[UseIndex(scope.uses, ref.node)];
      var r := SourceInstance(defs, u.group, Qualify(namespace, u.instance), stack);
      if r.Ok? then Elems(r.value) else {}
  }

  /** The sinks an upstream reference is rewritten to are reached from all of its leaves. */
  lemma UpstreamExits(defs: Defs, ok: Checks, scope: Scope, namespace: string, stack: seq<GroupKey>, ref: PortRef,
      x: string) returns (s: string)
    requires AllParsed(defs) && Parsed(scope) && BuildScope(defs, ok, scope, namespace, stack).Ok?
    requires Known(scope, ref) && !ref.IsPort() && ref.name == "" && x in LeavesOf(defs, scope, namespace, stack, ref)
    ensures var b := BuildScope(defs, ok, scope, namespace, stack).value;
            var r := RewriteEndpoint(ref, b.uses, namespace, false);
            r.Ok? && PortRef(NodeEntity, s, Bare, "") in r.value && Reach(MakeGraph(b.leaves, b.edges), x, s)
  {
    var b := BuildScope(defs, ok, scope, namespace, stack).value;
    if ref.entity == NodeEntity {
      s := x;
      ReachSelf(MakeGraph(b.leaves, b.edges), x);
    } else {
      var j := UseIndex(scope.uses, ref.node);
      var u := scope.uses[j];
      DistinctApart(scope.uses);
      InstanceSpliced(defs, ok, scope, |scope.uses|, namespace, stack, j);
      s := InstanceExit(defs, ok, u.group, Qualify(namespace, u.instance), stack, x);
      var i := ResolveUse(defs, ok, u.group, Qualify(namespace, u.instance), stack).value;
      ReachWiden(i.leaves, i.edges, b.leaves, b.edges, x, s);
      BareRefMember(b.uses[ref.node].sinks, s);
    }
  }

  lemma BareRefMember(names: seq<string>, n: string)
    requires n in names
    ensures PortRef(NodeEntity, n, Bare, "") in BareRefs(names)
  {
    var i :| 0 <= i < |names| && names[i] == n;
    assert BareRefs(names)[i] == PortRef(NodeEntity, n, Bare, "");
  }

  lemma InstanceExit(defs: Defs, ok: Checks, group: GroupKey, namespace: string, stack: seq<GroupKey>, x: string)
    returns (s: string)
    requires AllParsed(defs) && ResolveUse(defs, ok, group, namespace, stack).Ok?
    requires SourceInstance(defs, group, namespace, stack).Ok?
      && x in SourceInstance(defs, group, namespace, stack).value
    ensures var i := ResolveUse(defs, ok, group, namespace, stack).value;
            s in i.info.sinks && Reach(MakeGraph(i.leaves, i.edges), x, s)
  {
    var i := InstanceGraph(defs, ok, group, namespace, stack);
    var g := MakeGraph(i.leaves, i.edges);
    SinkReached(g, x);
    s :| IsSink(g, s) && Reach(g, x, s);
    InfoMembers(i.leaves, i.edges, i.info.export_, s);
  }

  lemma InstanceEntry(defs: Defs, ok: Checks, group: GroupKey, namespace: string, stack: seq<GroupKey>, y: string)
    returns (r: string)
    requires AllParsed(defs) && ResolveUse(defs, ok, group, namespace, stack).Ok?
    requires SourceInstance(defs, group, namespace, stack).Ok?
      && y in SourceInstance(defs, group, namespace, stack).value
    ensures var i := ResolveUse(defs, ok, group, namespace, stack).value;
            r in i.info.roots && Reach(MakeGraph(i.leaves, i.edges), r, y)
  {
    var i := InstanceGraph(defs, ok, group, namespace, stack);
    var g := MakeGraph(i.leaves, i.edges);
    RootReaches(g, y);
    r :| IsRoot(g, r) && Reach(g, r, y);
    InfoMembers(i.leaves, i.edges, i.info.export_, r);
  }

  /** An accepted instance's internal graph is well formed, acyclic, and holds the instance's leaves. */
  lemma InstanceGraph(defs: Defs, ok: Checks, group: GroupKey, namespace: string, stack: seq<GroupKey>)
    returns (i: Instance)
    requires AllParsed(defs) && ResolveUse(defs, ok, group, namespace, stack).Ok?
    ensures ResolveUse(defs, ok, group, namespace, stack) == Ok(i)
    ensures var g := MakeGraph(i.leaves, i.edges);
            WellFormed(g) && Acyclic(g) && i.info == Info(g, i.leaves, i.info.export_)
    ensures SourceInstance(defs, group, namespace, stack) == Ok(i.leaves)
  {
    i := ResolveUse(defs, ok, group, namespace, stack).value;
    Deeper(defs, stack, group);
    InstanceMatchesSource(defs, ok, group, namespace, stack);
    BuildResult(defs, ok, defs[group], namespace, stack + [group]);
  }

  lemma DownstreamEntries(defs: Defs, ok: Checks, scope: Scope, namespace: string, stack: seq<GroupKey>, ref: PortRef,
      y: string) returns (r: string)
    requires AllParsed(defs) && Parsed(scope) && BuildScope(defs, ok, scope, namespace, stack).Ok?
    requires Known(scope, ref) && !ref.IsPort() && ref.name == "" && y in LeavesOf(defs, scope, namespace, stack, ref)
    ensures var b := BuildScope(defs, ok, scope, namespace, stack).value;
            var e := RewriteEndpoint(ref, b.uses, namespace, true);
            e.Ok? && PortRef(NodeEntity, r, Bare, "") in e.value && Reach(MakeGraph(b.leaves, b.edges), r, y)
  {
    var b := BuildScope(defs, ok, scope, namespace, stack).value;
    if ref.entity == NodeEntity {
      r := y;
      ReachSelf(MakeGraph(b.leaves, b.edges), y);
    } else {
      var j := UseIndex(scope.uses, ref.node);
      var u := scope.uses[j];
      DistinctApart(scope.uses);
      InstanceSpliced(defs, ok, scope, |scope.uses|, namespace, stack, j);
      r := InstanceEntry(defs, ok, u.group, Qualify(namespace, u.instance), stack, y);
      var i := ResolveUse(defs, ok, u.group, Qualify(namespace, u.instance), stack).value;
      ReachWiden(i.leaves, i.edges, b.leaves, b.edges, r, y);
      BareRefMember(b.uses[ref.node].roots, r);
    }
  }

  lemma {:induction false} RewrittenMember(edges: seq<Edge>, uses: Uses, namespace: string, e: Edge, x: Edge)
    requires RewriteEdges(edges, uses, namespace).Ok? && e in edges
    requires RewriteEdge(e, uses, namespace).Ok? ==> x in RewriteEdge(e, uses, namespace).value
    ensures RewriteEdge(e, uses, namespace).Ok? && x in RewriteEdges(edges, uses, namespace).value
  {
    var last := edges[|edges| - 1];
    assert edges == edges[..|edges| - 1] + [last];
    if e in edges[..|edges| - 1] {
      RewrittenMember(edges[..|edges| - 1], uses, namespace, e, x);
    }
  }

  /** A bare edge between two nodes or instances orders all leaves of the first before all leaves of the
      second, although only sink-to-root edges are emitted. */
  lemma BareEdgeOrders(defs: Defs, ok: Checks, scope: Scope, namespace: string, stack: seq<GroupKey>, e: Edge,
      x: string, y: string)
    requires AllParsed(defs) && Parsed(scope) && BuildScope(defs, ok, scope, namespace, stack).Ok?
    requires e in scope.edges && !e.IsDataEdge()
    requires x in LeavesOf(defs, scope, namespace, stack, e.from) && y in LeavesOf(defs, scope, namespace, stack, e.to)
    ensures var b := BuildScope(defs, ok, scope, namespace, stack).value;
            ReachPlus(MakeGraph(b.leaves, b.edges), x, y)
  {
    assert EdgeParsed(scope, e);
    var b := BuildScope(defs, ok, scope, namespace, stack).value;
    var g := MakeGraph(b.leaves, b.edges);
    var s := UpstreamExits(defs, ok, scope, namespace, stack, e.from, x);
    var r := DownstreamEntries(defs, ok, scope, namespace, stack, e.to, y);
    var edge := Edge(PortRef(NodeEntity, s, Bare, ""), PortRef(NodeEntity, r, Bare, ""));
    PairsMembers(RewriteEndpoint(e.from, b.uses, namespace, false).value,
      RewriteEndpoint(e.to, b.uses, namespace, true).value, edge);
    RewrittenMember(scope.edges, b.uses, namespace, e, edge);
    assert edge in b.edges;
    EdgeInGraph(b.leaves, b.edges, s, r);
    assert ReachPlus(g, s, y);
    ReachThenReachPlus(g, x, s, y);
  }

  // ---- The same at any depth.

  datatype Site = Site(scope: Scope, namespace: string, stack: seq<GroupKey>)

  /** The scope found by following instance names downwards. */
  ghost function SiteAt(defs: Defs, at: Site, path: seq<string>): Result<Site>
    decreases |path|
  {
    if path == [] then Ok(at)
    else if path[0] !in UseNames(at.scope.uses) then Err(UnknownUse(path[0]))
    else
      var u := at.scope.uses[UseIndex(at.scope.uses, path[0])];
      if u.group in at.stack || u.group !in defs then Err(MissingGroup(u.group))
      else SiteAt(defs, Site(defs[u.group], Qualify(at.namespace, u.instance), at.stack + [u.group]), path[1..])
  }

  /** What a nested scope builds is part of what the outer scope builds. */
  lemma {:induction false} NestedIsSpliced(defs: Defs, ok: Checks, at: Site, path: seq<string>)
    requires AllParsed(defs) && Parsed(at.scope) && SiteAt(defs, at, path).Ok?
    requires BuildScope(defs, ok, at.scope, at.namespace, at.stack).Ok?
    ensures var site := SiteAt(defs, at, path).value;
            var inner := BuildScope(defs, ok, site.scope, site.namespace, site.stack);
            Parsed(site.scope) && inner.Ok? && SubEdges(inner.value.edges,
              BuildScope(defs, ok, at.scope, at.namespace, at.stack).value.edges)
    decreases |path|
  {
    if path != [] {
      var j := UseIndex(at.scope.uses, path[0]);
      var u := at.scope.uses[j];
      DistinctApart(at.scope.uses);
      InstanceSpliced(defs, ok, at.scope, |at.scope.uses|, at.namespace, at.stack, j);
      var next := Site(defs[u.group], Qualify(at.namespace, u.instance), at.stack + [u.group]);
      NestedIsSpliced(defs, ok, next, path[1..]);
    }
  }

  /** Bare edges keep their meaning in the whole graph, however deep the group that declares them. */
  lemma BareEdgeOrdersEverywhere(defs: Defs, ok: Checks, root: Scope, path: seq<string>, e: Edge, x: string, y: string)
    requires AllParsed(defs) && Parsed(root) && BuildScope(defs, ok, root, "", []).Ok?
    requires SiteAt(defs, Site(root, "", []), path).Ok?
    requires var site := SiteAt(defs, Site(root, "", []), path).value;
             && e in site.scope.edges && !e.IsDataEdge() && Known(site.scope, e.from) && Known(site.scope, e.to)
             && x in LeavesOf(defs, site.scope, site.namespace, site.stack, e.from)
             && y in LeavesOf(defs, site.scope, site.namespace, site.stack, e.to)
    ensures var b := BuildScope(defs, ok, root, "", []).value;
            ReachPlus(MakeGraph(b.leaves, b.edges), x, y)
  {
    var site := SiteAt(defs, Site(root, "", []), path).value;
    NestedIsSpliced(defs, ok, Site(root, "", []), path);
    BareEdgeOrders(defs, ok, site.scope, site.namespace, site.stack, e, x, y);
    var inner := BuildScope(defs, ok, site.scope, site.namespace, site.stack).value;
    var b := BuildScope(defs, ok, root, "", []).value;
    var gi, g := MakeGraph(inner.leaves, inner.edges), MakeGraph(b.leaves, b.edges);
    var c :| c in Out(gi, x) && Reach(gi, c, y);
    EdgeInGraph(inner.leaves, inner.edges, x, c);
    EdgeInGraph(b.leaves, b.edges, x, c);
    ReachWiden(inner.leaves, inner.edges, b.leaves, b.edges, c, y);
  }

  // ---- The recursive walks as the program performs them.

  /** The stack of groups being expanded. */
  class ResolveContext {
    var stack: seq<GroupKey>

    constructor ()
      ensures stack == []
    {
      stack := [];
    }

    /** push refuses a group that is already being expanded. */
    method Push(group: GroupKey) returns (ok: bool)
      modifies this
      ensures ok <==> group !in old(stack)
      ensures stack == if ok then old(stack) + [group] else old(stack)
    {
      for i := 0 to |stack|
        invariant stack == old(stack) && group !in stack[..i]
      {
        if stack[i] == group {
          return false;
        }
      }
      assert stack[..|stack|] == stack;
      stack := stack + [group];
      return true;
    }

    method Pop()
      requires stack != []
      modifies this
      ensures stack == old(stack)[..|old(stack)| - 1]
    {
      stack := stack[..|stack| - 1];
    }
  }

  lemma {:induction false} SourceErrorStays(defs: Defs, scope: Scope, k: nat, n: nat, namespace: string,
      stack: seq<GroupKey>)
    requires k <= n <= |scope.uses| && SourceUses(defs, scope, k, namespace, stack).Err?
    ensures SourceUses(defs, scope, n, namespace, stack) == SourceUses(defs, scope, k, namespace, stack)
    decreases n
  {
    if k < n { SourceErrorStays(defs, scope, k, n - 1, namespace, stack); }
  }

  /** sourceNodes: appends while recursing, with the context stack pushed and popped around each group. */
  method SourceNodes(defs: Defs, scope: Scope, namespace: string, rc: ResolveContext) returns (r: Result<seq<string>>)
    modifies rc
    ensures rc.stack == old(rc.stack)
    ensures r == SourceNames(defs, scope, namespace, old(rc.stack))
    decreases defs.Keys - Elems(rc.stack)
  {
    ghost var stack := rc.stack;
    var nodes: seq<string> := [];
    for i := 0 to |scope.nodes|
      invariant nodes == QualifyAll(namespace, scope.nodes[..i]) && rc.stack == stack
    {
      assert QualifyAll(namespace, scope.nodes[..i + 1]) ==
        QualifyAll(namespace, scope.nodes[..i]) + [Qualify(namespace, scope.nodes[i])];
      nodes := nodes + [Qualify(namespace, scope.nodes[i])];
    }
    assert scope.nodes[..|scope.nodes|] == scope.nodes;
    for k := 0 to |scope.uses|
      invariant SourceUses(defs, scope, k, namespace, stack) == Ok(nodes) && rc.stack == stack
    {
      var u := scope.uses[k];
      var leaves := SourceGroup(defs, u.group, Qualify(namespace, u.instance), rc);
      if leaves.Err? {
        assert SourceUses(defs, scope, k + 1, namespace, stack) == Err(leaves.error);
        SourceErrorStays(defs, scope, k + 1, |scope.uses|, namespace, stack);
        return Err(leaves.error);
      }
      nodes := nodes + leaves.value;
    }
    return Ok(nodes);
  }

  method SourceGroup(defs: Defs, group: GroupKey, namespace: string, rc: ResolveContext)
    returns (r: Result<seq<string>>)
    modifies rc
    ensures rc.stack == old(rc.stack)
    ensures r == SourceInstance(defs, group, namespace, old(rc.stack))
    decreases defs.Keys - Elems(rc.stack), 0
  {
    ghost var stack := rc.stack;
    var pushed := rc.Push(group);
    if !pushed {
      return Err(CircularUse(group));
    }
    if group !in defs {
      rc.Pop();
      return Err(MissingGroup(group));
    }
    Deeper(defs, stack, group);
    r := SourceNodes(defs, defs[group], namespace, rc);
    rc.Pop();
  }

  lemma BuildErrorStays(defs: Defs, ok: Checks, scope: Scope, k: nat, namespace: string, stack: seq<GroupKey>)
    requires k <= |scope.uses| && BuildUses(defs, ok, scope, k, namespace, stack).Err?
    ensures BuildUses(defs, ok, scope, |scope.uses|, namespace, stack) ==
      BuildUses(defs, ok, scope, k, namespace, stack)
  {
    var parts, stages := StagesOf(defs, ok, scope, namespace, stack);
    FirstErrorStays(scope.uses, parts, stages, k, |scope.uses|);
  }

  lemma {:induction false} EdgeErrorStays(edges: seq<Edge>, k: nat, uses: Uses, namespace: string)
    requires k <= |edges| && RewriteEdges(edges[..k], uses, namespace).Err?
    ensures RewriteEdges(edges, uses, namespace) == RewriteEdges(edges[..k], uses, namespace)
    decreases |edges|
  {
    if k < |edges| {
      var init := edges[..|edges| - 1];
      assert init[..k] == edges[..k];
      EdgeErrorStays(init, k, uses, namespace);
    } else {
      assert edges[..k] == edges;
    }
  }

  /** Appends an edge to the list and to both adjacency maps. */
  method AddEdges(ghost leaves: seq<string>, ghost edges: seq<Edge>, more: seq<Edge>, g: Graph) returns (r: Graph)
    requires g == MakeGraph(leaves, edges)
    ensures r == MakeGraph(leaves, edges + more)
  {
    r := g;
    assert edges + more[..0] == edges;
    for i := 0 to |more|
      invariant r == MakeGraph(leaves, edges + more[..i])
    {
      var e := more[i];
      ghost var all := edges + more[..i + 1];
      assert all[..|all| - 1] == edges + more[..i] && all[|all| - 1] == e;
      r := Graph(r.nodes, r.edges + [e], AddTo(r.out, e.from.node, e.to.node), AddTo(r.inn, e.to.node, e.from.node));
      assert r.edges == all;
    }
    assert more[..|more|] == more;
  }

  /** Roots or sinks: ranges over the nodes, then sorts. */
  method Ends(leaves: seq<string>, keep: set<string>) returns (r: seq<string>)
    requires Distinct(leaves)
    ensures r == SortedListing(Filter(leaves, keep))
  {
    r := SortSet(set n | n in leaves && n in keep);
    var all := Filter(leaves, keep);
    var spec := SortedListing(all);
    FilterDistinct(leaves, keep);
    SortedListingSorted(all);
    SortedListingMultiset(all);
    SameMultisetSameElems(spec, all);
    DistinctSorted(spec, all);
    assert Elems(spec) == Elems(r) by {
      forall n ensures n in all <==> n in Elems(r) { FilterMembers(leaves, keep, n); }
    }
    SortedListingUnique(r, spec);
  }

  lemma {:induction false} FilterDistinct(names: seq<string>, keep: set<string>)
    requires Distinct(names)
    ensures Distinct(Filter(names, keep))
  {
    if names != [] {
      var init, last := names[..|names| - 1], names[|names| - 1];
      FilterDistinct(init, keep);
      FilterMembers(init, keep, last);
      assert last !in init;
    }
  }

  lemma DistinctSorted(s: seq<string>, t: seq<string>)
    requires Sorted(s) && multiset(s) == multiset(t) && Distinct(t)
    ensures StrictlySorted(s)
  {
    forall i, j | 0 <= i < j < |s| ensures Less(s[i], s[j]) {
      LessTotal(s[i], s[j]);
      if s[i] == s[j] {
        assert s == s[..i] + [s[i]] + s[i + 1..j] + [s[j]] + s[j + 1..];
        assert multiset(s)[s[i]] >= 2;
        DistinctOnce(t, s[i]);
      }
    }
  }

  lemma {:induction false} DistinctOnce(t: seq<string>, x: string)
    requires Distinct(t)
    ensures multiset(t)[x] <= 1
  {
    if t != [] {
      var init, last := t[..|t| - 1], t[|t| - 1];
      DistinctOnce(init, x);
      assert t == init + [last];
      assert last !in init;
      assert last == x ==> multiset(init)[x] == 0;
    }
  }

  datatype Expanded = Expanded(leaves: seq<string>, g: Graph, uses: Uses)

  ghost function AsExpanded(b: Result<Built>): Result<Expanded> {
    if b.Err? then Err(b.error) else Ok(Expanded(b.value.leaves, MakeGraph(b.value.leaves, b.value.edges),
      b.value.uses))
  }

  /** build. */
  method Build(defs: Defs, ok: Checks, scope: Scope, namespace: string, rc: ResolveContext)
    returns (r: Result<Expanded>)
    requires AllParsed(defs) && Parsed(scope)
    modifies rc
    ensures rc.stack == old(rc.stack)
    ensures r == AsExpanded(BuildScope(defs, ok, scope, namespace, old(rc.stack)))
    decreases defs.Keys - Elems(rc.stack), 2
  {
    ghost var stack := rc.stack;
    var spliced := SpliceUses(defs, ok, scope, namespace, rc);
    if spliced.Err? {
      return Err(spliced.error);
    }
    ghost var inner := BuildUses(defs, ok, scope, |scope.uses|, namespace, stack).value;
    var own := RewriteAll(scope.edges, spliced.value.uses, namespace);
    if own.Err? {
      return Err(own.error);
    }
    var g := AddEdges(inner.leaves, inner.edges, own.value, spliced.value.g);
    return Ok(Expanded(spliced.value.leaves, g, spliced.value.uses));
  }

  lemma RewriteStep(own: seq<Edge>, i: nat, uses: Uses, namespace: string)
    requires i < |own| && RewriteEdges(own[..i], uses, namespace).Ok?
    ensures var last := RewriteEdge(own[i], uses, namespace);
            var all := RewriteEdges(own[..i + 1], uses, namespace);
            if last.Err? then all == Err(last.error)
              else all == Ok(RewriteEdges(own[..i], uses, namespace).value + last.value)
  {
    assert own[..i + 1][..i] == own[..i];
  }

  /** The loop over a scope's own edges. */
  method RewriteAll(own: seq<Edge>, uses: Uses, namespace: string) returns (r: Result<seq<Edge>>)
    ensures r == RewriteEdges(own, uses, namespace)
  {
    var done: seq<Edge> := [];
    for i := 0 to |own|
      invariant RewriteEdges(own[..i], uses, namespace) == Ok(done)
    {
      RewriteStep(own, i, uses, namespace);
      var rewritten := RewriteEdge(own[i], uses, namespace);
      if rewritten.Err? {
        EdgeErrorStays(own, i + 1, uses, namespace);
        return Err(rewritten.error);
      }
      done := done + rewritten.value;
    }
    assert own[..|own|] == own;
    return Ok(done);
  }

  /** Merges one expanded instance: its leaves, its edges, and its entry among the uses. */
  method Merge(leaves: seq<string>, ghost edges: seq<Edge>, uses: Uses, g: Graph, name: string, inst: Instance)
    returns (r: Expanded)
    requires g == MakeGraph(leaves, edges)
    ensures Ok(r) == AsExpanded(SpliceInto(Ok(Built(leaves, edges, uses)), name, Ok(inst)))
  {
    var all := leaves + inst.leaves;
    assert Elems(all) == Elems(leaves) + Elems(inst.leaves);
    var merged := AddEdges(all, edges, inst.edges, Graph(g.nodes + Elems(inst.leaves), g.edges, g.out, g.inn));
    return Expanded(all, merged, uses[name := inst.info]);
  }

  /** The loops over a scope's own nodes and its use instances. */
  method SpliceUses(defs: Defs, ok: Checks, scope: Scope, namespace: string, rc: ResolveContext)
    returns (r: Result<Expanded>)
    requires AllParsed(defs) && Parsed(scope)
    modifies rc
    ensures rc.stack == old(rc.stack)
    ensures r == AsExpanded(BuildUses(defs, ok, scope, |scope.uses|, namespace, old(rc.stack)))
    decreases defs.Keys - Elems(rc.stack), 1
  {
    ghost var stack := rc.stack;
    var leaves := QualifyAll(namespace, scope.nodes);
    var e := Expanded(leaves, Graph(Elems(leaves), [], map[], map[]), map[]);
    ghost var built := BuildUses(defs, ok, scope, 0, namespace, stack);
    for k := 0 to |scope.uses|
      invariant built == BuildUses(defs, ok, scope, k, namespace, stack) && built.Ok?
      invariant Ok(e) == AsExpanded(built) && rc.stack == stack
    {
      var u := scope.uses[k];
      var inst := Instantiate(defs, ok, u.group, Qualify(namespace, u.instance), rc);
      NextStage(defs, ok, scope, k, namespace, stack);
      ghost var before := built.value;
      built := SpliceInto(built, u.instance, inst);
      if inst.Err? {
        BuildErrorStays(defs, ok, scope, k + 1, namespace, stack);
        return Err(inst.error);
      }
      e := Merge(e.leaves, before.edges, e.uses, e.g, u.instance, inst.value);
    }
    return Ok(e);
  }

  /** resolveUse. */
  method Instantiate(defs: Defs, ok: Checks, group: GroupKey, namespace: string, rc: ResolveContext)
    returns (r: Result<Instance>)
    requires AllParsed(defs)
    modifies rc
    ensures rc.stack == old(rc.stack)
    ensures r == ResolveUse(defs, ok, group, namespace, old(rc.stack))
    decreases defs.Keys - Elems(rc.stack), 0
  {
    ghost var stack := rc.stack;
    var pushed := rc.Push(group);
    if !pushed {
      return Err(CircularUse(group));
    }
    if group !in defs {
      rc.Pop();
      return Err(MissingGroup(group));
    }
    Deeper(defs, stack, group);
    var internal := Build(defs, ok, defs[group], namespace, rc);
    rc.Pop();
    if internal.Err? {
      return Err(internal.error);
    }
    var g := internal.value.g;
    BuildResult(defs, ok, defs[group], namespace, stack + [group]);
    var cycles := Tarjan.FindCycles(g);
    Tarjan.EmptyIffAcyclic(g, cycles);
    if |cycles| > 0 {
      return Err(GroupHasCycle);
    }
    if !ok(g) {
      return Err(GroupRejected);
    }
    var export_ := ResolveExport(defs[group].export_, internal.value.uses, namespace);
    if export_.Err? {
      return Err(export_.error);
    }
    var roots := Ends(internal.value.leaves, set n | n in g.nodes && In(g, n) == []);
    var sinks := Ends(internal.value.leaves, set n | n in g.nodes && Out(g, n) == []);
    return Ok(Instance(internal.value.leaves, g.edges, UseInfo(export_.value, roots, sinks)));
  }
}
