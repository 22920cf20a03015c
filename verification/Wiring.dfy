/** What an expanded graph consists of, said of the declared blocks alone: which leaves there are, which ports an
    edge through instances ends at, and when expansion succeeds. */
module Wiring {
  import opened Names
  import opened Graphs
  import opened Expansion

  // ---- Ports through export blocks.

  /** A reference and the scope it is written in. */
  datatype Port = Port(scope: Scope, namespace: string, ref: PortRef)

  /** The first output of that name is declared to come from `inner`. */
  ghost predicate ExportsOutput(x: Export, name: string, inner: PortRef) {
    exists j: nat :: FirstOutput(x.outputs, j, name) && x.outputs[j].from == inner
  }

  predicate FirstOutput(outputs: seq<ExportOutput>, j: nat, name: string) {
    j < |outputs| && outputs[j].name == name && forall i :: 0 <= i < j ==> outputs[i].name != name
  }

  /** The first input of that name is declared to go to `inner`, perhaps among others. */
  ghost predicate ExportsInput(x: Export, name: string, inner: PortRef) {
    exists j: nat :: FirstInput(x.inputs, j, name) && inner in x.inputs[j].to
  }

  predicate FirstInput(inputs: seq<ExportInput>, j: nat, name: string) {
    j < |inputs| && inputs[j].name == name && forall i :: 0 <= i < j ==> inputs[i].name != name
  }

  ghost predicate Exports(x: Export, ref: PortRef, inner: PortRef) {
    if ref.kind == Output then ExportsOutput(x, ref.name, inner) else ExportsInput(x, ref.name, inner)
  }

  /** `b` is what the port `a` of an instance means inside its group. */
  ghost predicate Enters(defs: Defs, a: Port, b: Port) {
    a.ref.entity == UseEntity && exists u :: u in a.scope.uses && EntersBy(defs, a, b, u)
  }

  ghost predicate EntersBy(defs: Defs, a: Port, b: Port, u: Use) {
    && u.instance == a.ref.node && u.group in defs
    && b.scope == defs[u.group] && b.namespace == Qualify(a.namespace, u.instance)
    && Exports(defs[u.group].export_, a.ref, b.ref)
  }

  function Leaf(a: Port): PortRef {
    a.ref.(node := Qualify(a.namespace, a.ref.node))
  }

  /** From instance to instance inwards, ending at a port of a node. */
  ghost predicate Chain(defs: Defs, p: seq<Port>) {
    && p != [] && p[|p| - 1].ref.entity == NodeEntity
    && forall i :: 0 <= i < |p| - 1 ==> EntersAt(defs, p, i)
  }

  ghost predicate EntersAt(defs: Defs, p: seq<Port>, i: nat)
    requires i + 1 < |p|
  {
    Enters(defs, p[i], p[i + 1]) == true
  }

  /** Through any number of nested instances the port stands for the leaf port `q`. */
  ghost predicate LeadsTo(defs: Defs, at: Port, q: PortRef) {
    exists p :: Chain(defs, p) && p[0] == at && Leaf(p[|p| - 1]) == q
  }

  lemma NodeLeads(defs: Defs, at: Port, q: PortRef)
    requires at.ref.entity == NodeEntity
    ensures LeadsTo(defs, at, q) <==> q == Leaf(at)
  {
    assert Chain(defs, [at]) && [at][0] == at;
    if p :| Chain(defs, p) && p[0] == at && Leaf(p[|p| - 1]) == q {
      assert |p| > 1 ==> EntersAt(defs, p, 0);
    }
  }

  lemma ChainTail(defs: Defs, p: seq<Port>)
    requires Chain(defs, p) && p[0].ref.entity == UseEntity
    ensures |p| > 1 && Enters(defs, p[0], p[1]) == true && Chain(defs, p[1..]) == true
  {
    assert EntersAt(defs, p, 0);
    forall i: nat | i < |p[1..]| - 1 ensures EntersAt(defs, p[1..], i) {
      assert EntersAt(defs, p, i + 1);
    }
  }

  lemma ChainMore(defs: Defs, at: Port, p: seq<Port>)
    requires Chain(defs, p) && Enters(defs, at, p[0]) == true
    ensures Chain(defs, [at] + p) == true
  {
    var more := [at] + p;
    forall i: nat | i < |more| - 1 ensures EntersAt(defs, more, i) {
      assert i > 0 ==> EntersAt(defs, p, i - 1);
    }
  }

  ghost predicate StepLeads(defs: Defs, at: Port, b: Port, q: PortRef) {
    Enters(defs, at, b) == true && LeadsTo(defs, b, q) == true
  }

  lemma LeadsOnwards(defs: Defs, at: Port, q: PortRef) returns (b: Port)
    requires at.ref.entity == UseEntity && LeadsTo(defs, at, q)
    ensures StepLeads(defs, at, b, q)
  {
    var p :| Chain(defs, p) == true && p[0] == at && Leaf(p[|p| - 1]) == q;
    ChainTail(defs, p);
    b := p[1];
    var rest := p[1..];
    assert rest[0] == b && Leaf(rest[|rest| - 1]) == q;
  }

  lemma LeadsFrom(defs: Defs, at: Port, b: Port, q: PortRef)
    requires StepLeads(defs, at, b, q)
    ensures LeadsTo(defs, at, q)
  {
    var p :| Chain(defs, p) == true && p[0] == b && Leaf(p[|p| - 1]) == q;
    ChainMore(defs, at, p);
    var more := [at] + p;
    assert more[0] == at && Leaf(more[|more| - 1]) == q;
  }

  lemma UseLeads(defs: Defs, at: Port, q: PortRef)
    requires at.ref.entity == UseEntity
    ensures LeadsTo(defs, at, q) <==> exists b :: StepLeads(defs, at, b, q)
  {
    if LeadsTo(defs, at, q) {
      var b := LeadsOnwards(defs, at, q);
    }
    if b :| StepLeads(defs, at, b, q) {
      LeadsFrom(defs, at, b, q);
    }
  }

  /** A port of an instance is exported by its group; a port of a node needs no export. */
  ghost predicate Exported(defs: Defs, scope: Scope, ref: PortRef) {
    ref.entity == UseEntity ==> exists u :: u in scope.uses && ExportedBy(defs, u, ref)
  }

  ghost predicate ExportedBy(defs: Defs, u: Use, ref: PortRef) {
    u.instance == ref.node && u.group in defs && HasExport(defs[u.group].export_, ref)
  }

  // ---- The search through resolved exports.

  lemma {:induction false} FindsFirstOutput(outputs: seq<ExportOutput>, name: string)
    ensures match FindOutput(outputs, name)
      case Ok(refs) => exists j: nat :: FirstOutput(outputs, j, name) && refs == [outputs[j].from]
      case Err(e) => e == NotExported(name) && forall o :: o in outputs ==> o.name != name
  {
    if outputs != [] && outputs[0].name != name {
      var rest := outputs[1..];
      FindsFirstOutput(rest, name);
      assert outputs == [outputs[0]] + rest;
      if FindOutput(rest, name).Ok? {
        var j: nat :| FirstOutput(rest, j, name) && FindOutput(rest, name).value == [rest[j].from];
        assert forall i :: 0 < i < j + 1 ==> outputs[i] == rest[i - 1];
        assert FirstOutput(outputs, j + 1, name);
      }
    } else if outputs != [] {
      assert FirstOutput(outputs, 0, name);
    }
  }

  lemma {:induction false} FindsFirstInput(inputs: seq<ExportInput>, name: string)
    ensures match FindInput(inputs, name)
      case Ok(refs) => exists j: nat :: FirstInput(inputs, j, name) && refs == inputs[j].to
      case Err(e) => e == NotExported(name) && forall i :: i in inputs ==> i.name != name
  {
    if inputs != [] && inputs[0].name != name {
      var rest := inputs[1..];
      FindsFirstInput(rest, name);
      assert inputs == [inputs[0]] + rest;
      if FindInput(rest, name).Ok? {
        var j: nat :| FirstInput(rest, j, name) && FindInput(rest, name).value == rest[j].to;
        assert forall i :: 0 < i < j + 1 ==> inputs[i] == rest[i - 1];
        assert FirstInput(inputs, j + 1, name);
      }
    } else if inputs != [] {
      assert FirstInput(inputs, 0, name);
    }
  }

  // ---- Resolving the entries of an export block.

  /** A list of references is resolved one by one. */
  lemma {:induction false} PortsOneByOne(refs: seq<PortRef>, uses: Uses, namespace: string)
    ensures ResolvePorts(refs, uses, namespace).Ok? <==> forall r :: r in refs ==> ResolvePort(r, uses, namespace).Ok?
    ensures ResolvePorts(refs, uses, namespace).Ok? ==> forall q ::
      q in ResolvePorts(refs, uses, namespace).value <==>
        exists r :: r in refs && q in ResolvePort(r, uses, namespace).value
  {
    if refs != [] {
      var init, last := refs[..|refs| - 1], refs[|refs| - 1];
      PortsOneByOne(init, uses, namespace);
      assert refs == init + [last];
      assert forall r :: r in refs <==> r in init || r == last;
    }
  }

  predicate OutputResolves(o: ExportOutput, r: ExportOutput, uses: Uses, namespace: string) {
    r.name == o.name && ResolvePort(o.from, uses, namespace) == Ok([r.from])
  }

  lemma {:induction false} OutputsOneByOne(outputs: seq<ExportOutput>, uses: Uses, namespace: string)
    requires forall o :: o in outputs ==> var r := ResolvePort(o.from, uses, namespace); r.Ok? ==> |r.value| == 1
    ensures ResolveOutputs(outputs, uses, namespace).Ok? <==>
      forall o :: o in outputs ==> ResolvePort(o.from, uses, namespace).Ok?
    ensures var r := ResolveOutputs(outputs, uses, namespace);
      r.Ok? ==>
        && |r.value| == |outputs|
        && forall j :: 0 <= j < |outputs| ==> OutputResolves(outputs[j], r.value[j], uses, namespace)
  {
    if outputs != [] {
      var init, last := outputs[..|outputs| - 1], outputs[|outputs| - 1];
      assert outputs == init + [last];
      assert forall o :: o in outputs <==> o in init || o == last;
      OutputsOneByOne(init, uses, namespace);
      var r := ResolveOutputs(outputs, uses, namespace);
      if r.Ok? {
        var from := ResolvePort(last.from, uses, namespace).value;
        assert from == [from[0]];
        assert OutputResolves(last, r.value[|init|], uses, namespace);
      }
    }
  }

  predicate InputResolves(i: ExportInput, r: ExportInput, uses: Uses, namespace: string) {
    r.name == i.name && ResolvePorts(i.to, uses, namespace) == Ok(r.to)
  }

  lemma {:induction false} InputsOneByOne(inputs: seq<ExportInput>, uses: Uses, namespace: string)
    ensures ResolveInputs(inputs, uses, namespace).Ok? <==>
      forall i :: i in inputs ==> ResolvePorts(i.to, uses, namespace).Ok?
    ensures var r := ResolveInputs(inputs, uses, namespace);
      r.Ok? ==>
        && |r.value| == |inputs|
        && forall j :: 0 <= j < |inputs| ==> InputResolves(inputs[j], r.value[j], uses, namespace)
  {
    if inputs != [] {
      var init, last := inputs[..|inputs| - 1], inputs[|inputs| - 1];
      assert inputs == init + [last];
      assert forall o :: o in inputs <==> o in init || o == last;
      InputsOneByOne(init, uses, namespace);
    }
  }

  // ---- What resolving a port finds.

  /** The port resolves exactly when it is exported, and then to exactly the leaf ports it stands for. */
  ghost predicate Means(defs: Defs, at: Port, r: Result<seq<PortRef>>) {
    && (r.Ok? <==> Exported(defs, at.scope, at.ref))
    && (r.Ok? ==> forall q :: q in r.value <==> LeadsTo(defs, at, q))
  }

  /** Every reference in the scope's export block resolves to what it stands for. */
  ghost predicate ExportsMean(defs: Defs, scope: Scope, namespace: string, uses: Uses) {
    && (forall o :: o in scope.export_.outputs ==> RefMeans(defs, scope, namespace, uses, o.from))
    && (forall i :: i in scope.export_.inputs ==> forall r :: r in i.to ==> RefMeans(defs, scope, namespace, uses, r))
  }

  ghost predicate RefMeans(defs: Defs, scope: Scope, namespace: string, uses: Uses, ref: PortRef) {
    Means(defs, Port(scope, namespace, ref), ResolvePort(ref, uses, namespace)) == true
  }

  ghost predicate HasExport(x: Export, ref: PortRef) {
    exists inner :: Exports(x, ref, inner)
  }

  /** A port declared in the export stands for `q`. */
  ghost predicate ExportLeads(defs: Defs, group: Scope, namespace: string, ref: PortRef, q: PortRef) {
    exists inner :: Exports(group.export_, ref, inner) && LeadsTo(defs, Port(group, namespace, inner), q)
  }

  lemma FirstOutputUnique(outputs: seq<ExportOutput>, j: nat, k: nat, name: string)
    requires FirstOutput(outputs, j, name) && FirstOutput(outputs, k, name)
    ensures j == k
  {
  }

  lemma FirstInputUnique(inputs: seq<ExportInput>, j: nat, k: nat, name: string)
    requires FirstInput(inputs, j, name) && FirstInput(inputs, k, name)
    ensures j == k
  {
  }

  lemma OutputFound(defs: Defs, scope: Scope, namespace: string, uses: Uses, x: seq<ExportOutput>, ref: PortRef)
    requires ref.kind == Output
    requires ExportsMean(defs, scope, namespace, uses)
      && ResolveOutputs(scope.export_.outputs, uses, namespace) == Ok(x)
    requires forall o :: o in scope.export_.outputs ==>
      var r := ResolvePort(o.from, uses, namespace); r.Ok? ==> |r.value| == 1
    ensures var r := FindOutput(x, ref.name);
      && (r.Ok? <==> HasExport(scope.export_, ref))
      && (r.Ok? ==> forall q :: q in r.value <==> ExportLeads(defs, scope, namespace, ref, q))
  {
    var declared := scope.export_.outputs;
    OutputsOneByOne(declared, uses, namespace);
    FindsFirstOutput(x, ref.name);
    forall j: nat | j < |declared| ensures x[j].name == declared[j].name {
      assert OutputResolves(declared[j], x[j], uses, namespace);
    }
    if FindOutput(x, ref.name).Ok? {
      var j: nat :| FirstOutput(x, j, ref.name) && FindOutput(x, ref.name).value == [x[j].from];
      OutputAt(defs, scope, namespace, uses, x, ref, j);
    } else {
      assert forall j :: 0 <= j < |x| ==> x[j] in x;
    }
  }

  lemma OutputAt(defs: Defs, scope: Scope, namespace: string, uses: Uses, x: seq<ExportOutput>, ref: PortRef, j: nat)
    requires ExportsMean(defs, scope, namespace, uses) && |x| == |scope.export_.outputs|
      && (forall k :: 0 <= k < |x| ==> x[k].name == scope.export_.outputs[k].name)
    requires ref.kind == Output && FirstOutput(x, j, ref.name)
      && OutputResolves(scope.export_.outputs[j], x[j], uses, namespace)
    ensures HasExport(scope.export_, ref)
    ensures forall q :: q in [x[j].from] <==> ExportLeads(defs, scope, namespace, ref, q)
  {
    var declared := scope.export_.outputs;
    assert FirstOutput(declared, j, ref.name);
    assert declared[j] in declared && RefMeans(defs, scope, namespace, uses, declared[j].from);
    forall inner | Exports(scope.export_, ref, inner) ensures inner == declared[j].from {
      var k: nat :| FirstOutput(declared, k, ref.name) && declared[k].from == inner;
      FirstOutputUnique(declared, j, k, ref.name);
    }
    assert Exports(scope.export_, ref, declared[j].from);
  }

  lemma InputFound(defs: Defs, scope: Scope, namespace: string, uses: Uses, x: seq<ExportInput>, ref: PortRef)
    requires ref.kind == Input
    requires ExportsMean(defs, scope, namespace, uses) && ResolveInputs(scope.export_.inputs, uses, namespace) == Ok(x)
    requires forall i :: i in scope.export_.inputs ==> i.to != []
    ensures var r := FindInput(x, ref.name);
      && (r.Ok? <==> HasExport(scope.export_, ref))
      && (r.Ok? ==> forall q :: q in r.value <==> ExportLeads(defs, scope, namespace, ref, q))
  {
    var declared := scope.export_.inputs;
    InputsOneByOne(declared, uses, namespace);
    FindsFirstInput(x, ref.name);
    forall j: nat | j < |declared| ensures x[j].name == declared[j].name {
      assert InputResolves(declared[j], x[j], uses, namespace);
    }
    if FindInput(x, ref.name).Ok? {
      var j: nat :| FirstInput(x, j, ref.name) && FindInput(x, ref.name).value == x[j].to;
      InputAt(defs, scope, namespace, uses, x, ref, j);
    } else {
      assert forall j :: 0 <= j < |x| ==> x[j] in x;
    }
  }

  lemma InputAt(defs: Defs, scope: Scope, namespace: string, uses: Uses, x: seq<ExportInput>, ref: PortRef, j: nat)
    requires ExportsMean(defs, scope, namespace, uses) && |x| == |scope.export_.inputs|
      && (forall k :: 0 <= k < |x| ==> x[k].name == scope.export_.inputs[k].name)
      && (forall i :: i in scope.export_.inputs ==> i.to != [])
    requires ref.kind == Input && FirstInput(x, j, ref.name)
      && InputResolves(scope.export_.inputs[j], x[j], uses, namespace)
    ensures HasExport(scope.export_, ref)
    ensures forall q :: q in x[j].to <==> ExportLeads(defs, scope, namespace, ref, q)
  {
    var declared := scope.export_.inputs;
    assert FirstInput(declared, j, ref.name) && declared[j] in declared;
    assert Exports(scope.export_, ref, declared[j].to[0]);
    PortsOneByOne(declared[j].to, uses, namespace);
    forall inner ensures Exports(scope.export_, ref, inner) <==> inner in declared[j].to {
      if k: nat :| FirstInput(declared, k, ref.name) && inner in declared[k].to {
        FirstInputUnique(declared, j, k, ref.name);
      }
    }
    assert forall r :: r in declared[j].to ==> RefMeans(defs, scope, namespace, uses, r);
  }

  lemma OneOutput(ref: PortRef, uses: Uses, namespace: string)
    requires ref.kind == Output
    ensures var r := ResolvePort(ref, uses, namespace); r.Ok? ==> |r.value| == 1
  {
    if ref.entity == UseEntity && ref.node in uses {
      FindsFirstOutput(uses[ref.node].export_.outputs, ref.name);
    }
  }

  /** What an instance's resolved export answers is what its group's export block declares. */
  lemma InstancePortMeans(defs: Defs, group: Scope, namespace: string, uses: Uses, x: Export, ref: PortRef)
    requires ExportParsed(group) && ExportsMean(defs, group, namespace, uses) == true && ref.IsPort()
    requires ResolveExport(group.export_, uses, namespace) == Ok(x)
    ensures var r := if ref.kind == Output then FindOutput(x.outputs, ref.name) else FindInput(x.inputs, ref.name);
      && (r.Ok? <==> HasExport(group.export_, ref))
      && (r.Ok? ==> forall q :: q in r.value <==> ExportLeads(defs, group, namespace, ref, q))
  {
    if ref.kind == Output {
      forall o | o in group.export_.outputs
        ensures var r := ResolvePort(o.from, uses, namespace); r.Ok? ==> |r.value| == 1
      {
        OneOutput(o.from, uses, namespace);
      }
      OutputFound(defs, group, namespace, uses, x.outputs, ref);
    } else {
      InputFound(defs, group, namespace, uses, x.inputs, ref);
    }
  }

  /** Only one use has the name, so the port means what it means in that instance. */
  lemma ThroughInstance(defs: Defs, scope: Scope, namespace: string, u: Use, ref: PortRef)
    requires Distinct(UseNames(scope.uses)) && u in scope.uses && u.group in defs
    requires ref.entity == UseEntity && ref.node == u.instance
    ensures Exported(defs, scope, ref) <==> HasExport(defs[u.group].export_, ref)
    ensures forall q :: LeadsTo(defs, Port(scope, namespace, ref), q) <==>
      ExportLeads(defs, defs[u.group], Qualify(namespace, u.instance), ref, q)
  {
    forall v | v in scope.uses && v.instance == u.instance ensures v == u {
      OneUse(scope.uses, u, v);
    }
    assert HasExport(defs[u.group].export_, ref) ==> ExportedBy(defs, u, ref);
    var at, inside := Port(scope, namespace, ref), Qualify(namespace, u.instance);
    forall q ensures LeadsTo(defs, at, q) <==> ExportLeads(defs, defs[u.group], inside, ref, q) {
      UseLeads(defs, at, q);
      if b :| StepLeads(defs, at, b, q) {
        var v :| v in scope.uses && EntersBy(defs, at, b, v);
        assert b == Port(defs[u.group], inside, b.ref);
      }
      if ExportLeads(defs, defs[u.group], inside, ref, q) {
        var inner :|
          Exports(defs[u.group].export_, ref, inner) && LeadsTo(defs, Port(defs[u.group], inside, inner), q);
        var b := Port(defs[u.group], inside, inner);
        assert EntersBy(defs, at, b, u);
        assert StepLeads(defs, at, b, q);
      }
    }
  }

  lemma OneUse(uses: seq<Use>, u: Use, v: Use)
    requires Distinct(UseNames(uses)) && u in uses && v in uses && u.instance == v.instance
    ensures u == v
  {
    var i :| 0 <= i < |uses| && uses[i] == u;
    var j :| 0 <= j < |uses| && uses[j] == v;
    assert UseNames(uses)[i] == UseNames(uses)[j];
  }

  /** The instances a scope with all its uses spliced in knows. */
  ghost function UsesOf(defs: Defs, ok: Checks, scope: Scope, namespace: string, stack: seq<GroupKey>): Uses
    requires BuildUses(defs, ok, scope, |scope.uses|, namespace, stack).Ok?
  {
    BuildUses(defs, ok, scope, |scope.uses|, namespace, stack).value.uses
  }

  lemma {:induction false} PortMeans(defs: Defs, ok: Checks, scope: Scope, namespace: string, stack: seq<GroupKey>,
      ref: PortRef)
    requires AllParsed(defs) == true && Parsed(scope) == true && Known(scope, ref) && ref.IsPort()
    requires BuildUses(defs, ok, scope, |scope.uses|, namespace, stack).Ok?
    ensures RefMeans(defs, scope, namespace, UsesOf(defs, ok, scope, namespace, stack), ref) == true
    decreases defs.Keys - Elems(stack), 1
  {
    if ref.entity == NodeEntity {
      forall q { NodeLeads(defs, Port(scope, namespace, ref), q); }
    } else {
      var j := UseIndex(scope.uses, ref.node);
      var u := scope.uses[j];
      DistinctApart(scope.uses);
      InstanceSpliced(defs, ok, scope, |scope.uses|, namespace, stack, j);
      Deeper(defs, stack, u.group);
      GroupExportsMean(defs, ok, defs[u.group], Qualify(namespace, u.instance), stack + [u.group]);
      UsePortMeans(defs, ok, scope, namespace, stack, ref, u);
    }
  }

  lemma {:induction false} GroupExportsMean(defs: Defs, ok: Checks, group: Scope, namespace: string,
      stack: seq<GroupKey>)
    requires AllParsed(defs) == true && Parsed(group) == true
    requires BuildUses(defs, ok, group, |group.uses|, namespace, stack).Ok?
    ensures ExportsMean(defs, group, namespace, UsesOf(defs, ok, group, namespace, stack)) == true
    decreases defs.Keys - Elems(stack), 2
  {
    var uses := UsesOf(defs, ok, group, namespace, stack);
    forall o | o in group.export_.outputs ensures RefMeans(defs, group, namespace, uses, o.from) {
      PortMeans(defs, ok, group, namespace, stack, o.from);
    }
    forall i, r | i in group.export_.inputs && r in i.to ensures RefMeans(defs, group, namespace, uses, r) {
      PortMeans(defs, ok, group, namespace, stack, r);
    }
  }

  lemma UsePortMeans(defs: Defs, ok: Checks, scope: Scope, namespace: string, stack: seq<GroupKey>, ref: PortRef,
      u: Use)
    requires AllParsed(defs) && Parsed(scope) && u in scope.uses && ref.IsPort()
    requires ref.entity == UseEntity && ref.node == u.instance
    requires BuildUses(defs, ok, scope, |scope.uses|, namespace, stack).Ok?
    requires Holds(ResolveUse(defs, ok, u.group, Qualify(namespace, u.instance), stack), u,
                   BuildUses(defs, ok, scope, |scope.uses|, namespace, stack).value) == true
    requires BuildUses(defs, ok, defs[u.group], |defs[u.group].uses|, Qualify(namespace, u.instance),
                       stack + [u.group]).Ok?
    requires ExportsMean(defs, defs[u.group], Qualify(namespace, u.instance),
                         UsesOf(defs, ok, defs[u.group], Qualify(namespace, u.instance), stack + [u.group])) == true
    ensures RefMeans(defs, scope, namespace, UsesOf(defs, ok, scope, namespace, stack), ref) == true
  {
    var group, inside := defs[u.group], Qualify(namespace, u.instance);
    var x := ResolveUse(defs, ok, u.group, inside, stack).value.info.export_;
    InstancePortMeans(defs, group, inside, UsesOf(defs, ok, group, inside, stack + [u.group]), x, ref);
    ThroughInstance(defs, scope, namespace, u, ref);
  }

  // ---- Edges of one scope.

  /** The scope of an instance, seen from the scope that uses it. */
  function Within(defs: Defs, at: Site, u: Use): Site
    requires u.group in defs
  {
    Site(defs[u.group], Qualify(at.namespace, u.instance), at.stack + [u.group])
  }

  ghost function Build(defs: Defs, ok: Checks, at: Site): Result<Built> {
    BuildScope(defs, ok, at.scope, at.namespace, at.stack)
  }

  /** `p` is where an ordering edge meets the instance: a leaf that no edge inside the instance enters, or, at
      the other end, that none leaves. */
  ghost predicate InstanceEnd(defs: Defs, ok: Checks, inner: Site, p: PortRef, entry: bool) {
    var b := Build(defs, ok, inner);
    && b.Ok? && p == PortRef(NodeEntity, p.node, Bare, "") && p.node in b.value.leaves
    && forall e :: e in b.value.edges ==> (if entry then e.to.node else e.from.node) != p.node
  }

  ghost predicate BareEnd(defs: Defs, ok: Checks, at: Site, ref: PortRef, p: PortRef, entry: bool) {
    if ref.entity == NodeEntity then p == ref.(node := Qualify(at.namespace, ref.node))
    else exists u :: u in at.scope.uses && u.instance == ref.node && UseEnd(defs, ok, at, u, p, entry)
  }

  ghost predicate UseEnd(defs: Defs, ok: Checks, at: Site, u: Use, p: PortRef, entry: bool) {
    u.group in defs && InstanceEnd(defs, ok, Within(defs, at, u), p, entry)
  }

  /** The declared edge `e` gives the expanded graph the edge `x`: a data edge joins the leaf ports its two ports
      stand for, an ordering edge joins the ends it meets. */
  ghost predicate Contributes(defs: Defs, ok: Checks, at: Site, e: Edge, x: Edge) {
    if e.IsDataEdge() then
      LeadsTo(defs, Port(at.scope, at.namespace, e.from), x.from)
      && LeadsTo(defs, Port(at.scope, at.namespace, e.to), x.to)
    else BareEnd(defs, ok, at, e.from, x.from, false) && BareEnd(defs, ok, at, e.to, x.to, true)
  }

  lemma {:induction false} NoSources(edges: seq<Edge>, n: string)
    ensures SourcesOf(edges, n) == [] <==> forall e :: e in edges ==> e.to.node != n
    ensures TargetsOf(edges, n) == [] <==> forall e :: e in edges ==> e.from.node != n
  {
    if edges != [] {
      NoSources(edges[..|edges| - 1], n);
      assert edges == edges[..|edges| - 1] + [edges[|edges| - 1]];
    }
  }

  lemma BareRefsMember(names: seq<string>, p: PortRef)
    ensures p in BareRefs(names) <==> p == PortRef(NodeEntity, p.node, Bare, "") && p.node in names
  {
    if p in BareRefs(names) {
      var i :| 0 <= i < |names| && BareRefs(names)[i] == p;
      assert names[i] in names;
    } else if p == PortRef(NodeEntity, p.node, Bare, "") && p.node in names {
      BareRefMember(names, p.node);
    }
  }

  /** Roots and sinks are the ends. */
  lemma EndsAre(leaves: seq<string>, edges: seq<Edge>, x: Export, n: string)
    ensures var info := Info(MakeGraph(leaves, edges), leaves, x);
      && (n in info.roots <==> n in leaves && forall e :: e in edges ==> e.to.node != n)
      && (n in info.sinks <==> n in leaves && forall e :: e in edges ==> e.from.node != n)
  {
    InfoMembers(leaves, edges, x, n);
    AdjacencyIsProjection(leaves, edges, n);
    NoSources(edges, n);
  }

  lemma InstanceEnds(defs: Defs, ok: Checks, group: GroupKey, namespace: string, stack: seq<GroupKey>, p: PortRef)
    requires ResolveUse(defs, ok, group, namespace, stack).Ok?
    ensures var info, inner := ResolveUse(defs, ok, group, namespace, stack).value.info,
        Site(defs[group], namespace, stack + [group]);
      && (p in BareRefs(info.roots) <==> InstanceEnd(defs, ok, inner, p, true))
      && (p in BareRefs(info.sinks) <==> InstanceEnd(defs, ok, inner, p, false))
  {
    Deeper(defs, stack, group);
    var b := BuildScope(defs, ok, defs[group], namespace, stack + [group]).value;
    var info := ResolveUse(defs, ok, group, namespace, stack).value.info;
    BareRefsMember(info.roots, p);
    BareRefsMember(info.sinks, p);
    EndsAre(b.leaves, b.edges, info.export_, p.node);
  }

  lemma BareMeans(defs: Defs, ok: Checks, at: Site, ref: PortRef, entry: bool)
    requires Parsed(at.scope) && Known(at.scope, ref) && !ref.IsPort()
    requires BuildUses(defs, ok, at.scope, |at.scope.uses|, at.namespace, at.stack).Ok?
    ensures var r := RewriteEndpoint(ref, UsesOf(defs, ok, at.scope, at.namespace, at.stack), at.namespace, entry);
      r.Ok? && forall p :: p in r.value <==> BareEnd(defs, ok, at, ref, p, entry)
  {
    if ref.entity == UseEntity {
      var j := UseIndex(at.scope.uses, ref.node);
      var u := at.scope.uses[j];
      DistinctApart(at.scope.uses);
      InstanceSpliced(defs, ok, at.scope, |at.scope.uses|, at.namespace, at.stack, j);
      forall v | v in at.scope.uses && v.instance == ref.node ensures v == u { OneUse(at.scope.uses, u, v); }
      forall p { InstanceEnds(defs, ok, u.group, Qualify(at.namespace, u.instance), at.stack, p); }
    }
  }

  /** A data edge needs its ports exported; nothing else can go wrong with an edge. */
  ghost predicate EdgeSound(defs: Defs, scope: Scope, e: Edge) {
    e.IsDataEdge() ==> Exported(defs, scope, e.from) && Exported(defs, scope, e.to)
  }

  /** The end of an edge is rewritten to what it stands for. */
  ghost predicate EndMeans(defs: Defs, ok: Checks, at: Site, ref: PortRef, r: Result<seq<PortRef>>, entry: bool) {
    if ref.IsPort() then Means(defs, Port(at.scope, at.namespace, ref), r)
    else r.Ok? && forall p :: p in r.value <==> BareEnd(defs, ok, at, ref, p, entry)
  }

  lemma EndsMean(defs: Defs, ok: Checks, at: Site, ref: PortRef, entry: bool)
    requires AllParsed(defs) && Parsed(at.scope) && Known(at.scope, ref)
    requires BuildUses(defs, ok, at.scope, |at.scope.uses|, at.namespace, at.stack).Ok?
    ensures EndMeans(defs, ok, at, ref,
      RewriteEndpoint(ref, UsesOf(defs, ok, at.scope, at.namespace, at.stack), at.namespace, entry), entry) == true
  {
    if ref.IsPort() {
      PortMeans(defs, ok, at.scope, at.namespace, at.stack, ref);
    } else {
      BareMeans(defs, ok, at, ref, entry);
    }
  }

  lemma EdgeMeans(defs: Defs, ok: Checks, at: Site, e: Edge)
    requires AllParsed(defs) && Parsed(at.scope) && e in at.scope.edges
    requires BuildUses(defs, ok, at.scope, |at.scope.uses|, at.namespace, at.stack).Ok?
    ensures var r := RewriteEdge(e, UsesOf(defs, ok, at.scope, at.namespace, at.stack), at.namespace);
      && (r.Ok? <==> EdgeSound(defs, at.scope, e))
      && (r.Ok? ==> forall x :: x in r.value <==> Contributes(defs, ok, at, e, x))
  {
    assert EdgeParsed(at.scope, e);
    var uses := UsesOf(defs, ok, at.scope, at.namespace, at.stack);
    EndsMean(defs, ok, at, e.from, false);
    EndsMean(defs, ok, at, e.to, true);
    if e.IsDataEdge() { OneOutput(e.from, uses, at.namespace); }
    PairsMean(defs, ok, at, e, RewriteEndpoint(e.from, uses, at.namespace, false),
              RewriteEndpoint(e.to, uses, at.namespace, true));
  }

  lemma PairsMean(defs: Defs, ok: Checks, at: Site, e: Edge, froms: Result<seq<PortRef>>, tos: Result<seq<PortRef>>)
    requires EndMeans(defs, ok, at, e.from, froms, false) && EndMeans(defs, ok, at, e.to, tos, true)
    requires e.from.IsPort() == e.to.IsPort()
    ensures froms.Ok? && tos.Ok? <==> EdgeSound(defs, at.scope, e)
    ensures froms.Ok? && tos.Ok? ==>
      forall x :: x in Pairs(froms.value, tos.value) <==> Contributes(defs, ok, at, e, x)
  {
    if froms.Ok? && tos.Ok? {
      forall x ensures x in Pairs(froms.value, tos.value) <==> Contributes(defs, ok, at, e, x) {
        PairsMembers(froms.value, tos.value, x);
      }
    }
  }

  lemma {:induction false} EdgesOneByOne(edges: seq<Edge>, uses: Uses, namespace: string)
    ensures RewriteEdges(edges, uses, namespace).Ok? <==> forall e :: e in edges ==> RewriteEdge(e, uses, namespace).Ok?
    ensures RewriteEdges(edges, uses, namespace).Ok? ==> forall x ::
      x in RewriteEdges(edges, uses, namespace).value <==>
        exists e :: e in edges && x in RewriteEdge(e, uses, namespace).value
  {
    if edges != [] {
      var init, last := edges[..|edges| - 1], edges[|edges| - 1];
      EdgesOneByOne(init, uses, namespace);
      assert edges == init + [last];
      assert forall e :: e in edges <==> e in init || e == last;
    }
  }

  ghost predicate Own(defs: Defs, ok: Checks, at: Site, x: Edge) {
    exists e :: e in at.scope.edges && Contributes(defs, ok, at, e, x)
  }

  /** Once the instances are spliced in, a scope is built exactly when its edges are sound, and gains exactly what
      they contribute. */
  lemma ScopeEdges(defs: Defs, ok: Checks, at: Site)
    requires AllParsed(defs) && Parsed(at.scope)
    requires BuildUses(defs, ok, at.scope, |at.scope.uses|, at.namespace, at.stack).Ok?
    ensures Build(defs, ok, at).Ok? <==> forall e :: e in at.scope.edges ==> EdgeSound(defs, at.scope, e)
    ensures Build(defs, ok, at).Ok? ==>
      var before := BuildUses(defs, ok, at.scope, |at.scope.uses|, at.namespace, at.stack).value;
      && Build(defs, ok, at).value.leaves == before.leaves
      && forall x :: x in Build(defs, ok, at).value.edges <==> x in before.edges || Own(defs, ok, at, x)
  {
    var uses := UsesOf(defs, ok, at.scope, at.namespace, at.stack);
    EdgesOneByOne(at.scope.edges, uses, at.namespace);
    forall e | e in at.scope.edges
      ensures RewriteEdge(e, uses, at.namespace).Ok? <==> EdgeSound(defs, at.scope, e)
      ensures RewriteEdge(e, uses, at.namespace).Ok? ==>
        forall x :: x in RewriteEdge(e, uses, at.namespace).value <==> Contributes(defs, ok, at, e, x)
    {
      EdgeMeans(defs, ok, at, e);
    }
  }

  // ---- The instances of one scope.

  ghost predicate EdgeInParts(parts: seq<Result<Instance>>, k: nat, x: Edge)
    requires k <= |parts|
  {
    exists j :: 0 <= j < k && parts[j].Ok? && x in parts[j].value.edges
  }

  ghost predicate LeafInParts(parts: seq<Result<Instance>>, k: nat, n: string)
    requires k <= |parts|
  {
    exists j :: 0 <= j < k && parts[j].Ok? && n in parts[j].value.leaves
  }

  lemma {:induction false} StagesMembers(uses: seq<Use>, parts: seq<Result<Instance>>, stages: seq<Result<Built>>,
      k: nat)
    requires Stages(uses, parts, stages) && stages[0].Ok? && stages[0].value.edges == [] && k <= |uses|
    ensures stages[k].Ok? <==> forall j :: 0 <= j < k ==> parts[j].Ok?
    ensures stages[k].Ok? ==>
      && (forall x :: x in stages[k].value.edges <==> EdgeInParts(parts, k, x))
      && (forall n :: n in stages[k].value.leaves <==> n in stages[0].value.leaves || LeafInParts(parts, k, n))
  {
    if k > 0 {
      StagesMembers(uses, parts, stages, k - 1);
      assert stages[k - 1 + 1] == SpliceInto(stages[k - 1], InstanceAt(uses, k - 1), parts[k - 1]);
    }
  }

  ghost function Part(defs: Defs, ok: Checks, at: Site, u: Use): Result<Instance> {
    ResolveUse(defs, ok, u.group, Qualify(at.namespace, u.instance), at.stack)
  }

  ghost predicate EdgeInUses(defs: Defs, ok: Checks, at: Site, x: Edge) {
    exists u :: u in at.scope.uses && Part(defs, ok, at, u).Ok? && x in Part(defs, ok, at, u).value.edges
  }

  ghost predicate LeafInUses(defs: Defs, ok: Checks, at: Site, n: string) {
    exists u :: u in at.scope.uses && Part(defs, ok, at, u).Ok? && n in Part(defs, ok, at, u).value.leaves
  }

  lemma ScopeParts(defs: Defs, ok: Checks, at: Site)
    ensures var b := BuildUses(defs, ok, at.scope, |at.scope.uses|, at.namespace, at.stack);
      && (b.Ok? <==> forall u :: u in at.scope.uses ==> Part(defs, ok, at, u).Ok?)
      && (b.Ok? ==>
        && (forall x :: x in b.value.edges <==> EdgeInUses(defs, ok, at, x))
        && (forall n :: n in b.value.leaves <==>
              n in QualifyAll(at.namespace, at.scope.nodes) || LeafInUses(defs, ok, at, n)))
  {
    var parts, stages := StagesOf(defs, ok, at.scope, at.namespace, at.stack);
    assert stages[0] == BuildUses(defs, ok, at.scope, 0, at.namespace, at.stack);
    StagesMembers(at.scope.uses, parts, stages, |at.scope.uses|);
    forall j | 0 <= j < |parts| ensures parts[j] == Part(defs, ok, at, at.scope.uses[j]) {
      assert parts[j] == PartAt(defs, ok, at.scope, at.namespace, at.stack, j);
    }
    PartsByUse(defs, ok, at, parts);
  }

  /** Counting the parts by index or by use is the same. */
  lemma PartsByUse(defs: Defs, ok: Checks, at: Site, parts: seq<Result<Instance>>)
    requires |parts| == |at.scope.uses|
    requires forall j :: 0 <= j < |parts| ==> parts[j] == Part(defs, ok, at, at.scope.uses[j])
    ensures (forall j :: 0 <= j < |parts| ==> parts[j].Ok?) <==>
      forall u :: u in at.scope.uses ==> Part(defs, ok, at, u).Ok?
    ensures forall x :: EdgeInParts(parts, |parts|, x) <==> EdgeInUses(defs, ok, at, x)
    ensures forall n :: LeafInParts(parts, |parts|, n) <==> LeafInUses(defs, ok, at, n)
  {
    forall u | u in at.scope.uses ensures exists j :: 0 <= j < |parts| && parts[j] == Part(defs, ok, at, u) {
      var j := UseAt(at.scope.uses, u);
    }
    forall x { EdgeByUse(defs, ok, at, parts, x); }
    forall n { LeafByUse(defs, ok, at, parts, n); }
  }

  lemma UseAt(uses: seq<Use>, u: Use) returns (j: nat)
    requires u in uses
    ensures j < |uses| && uses[j] == u
  {
    j :| 0 <= j < |uses| && uses[j] == u;
  }

  lemma EdgeByUse(defs: Defs, ok: Checks, at: Site, parts: seq<Result<Instance>>, x: Edge)
    requires |parts| == |at.scope.uses|
    requires forall j :: 0 <= j < |parts| ==> parts[j] == Part(defs, ok, at, at.scope.uses[j])
    ensures EdgeInParts(parts, |parts|, x) <==> EdgeInUses(defs, ok, at, x)
  {
    if EdgeInUses(defs, ok, at, x) {
      var u :| u in at.scope.uses && Part(defs, ok, at, u).Ok? && x in Part(defs, ok, at, u).value.edges;
      var j := UseAt(at.scope.uses, u);
      assert parts[j].Ok? && x in parts[j].value.edges;
    }
    if EdgeInParts(parts, |parts|, x) {
      var j :| 0 <= j < |parts| && parts[j].Ok? && x in parts[j].value.edges;
      assert at.scope.uses[j] in at.scope.uses;
    }
  }

  lemma LeafByUse(defs: Defs, ok: Checks, at: Site, parts: seq<Result<Instance>>, n: string)
    requires |parts| == |at.scope.uses|
    requires forall j :: 0 <= j < |parts| ==> parts[j] == Part(defs, ok, at, at.scope.uses[j])
    ensures LeafInParts(parts, |parts|, n) <==> LeafInUses(defs, ok, at, n)
  {
    if LeafInUses(defs, ok, at, n) {
      var u :| u in at.scope.uses && Part(defs, ok, at, u).Ok? && n in Part(defs, ok, at, u).value.leaves;
      var j := UseAt(at.scope.uses, u);
      assert parts[j].Ok? && n in parts[j].value.leaves;
    }
    if LeafInParts(parts, |parts|, n) {
      var j :| 0 <= j < |parts| && parts[j].Ok? && n in parts[j].value.leaves;
      assert at.scope.uses[j] in at.scope.uses;
    }
  }

  /** A group's export block is resolved exactly when every port it names is exported. */
  ghost predicate ExportSound(defs: Defs, scope: Scope) {
    && (forall o :: o in scope.export_.outputs ==> Exported(defs, scope, o.from))
    && (forall i :: i in scope.export_.inputs ==> forall r :: r in i.to ==> Exported(defs, scope, r))
  }

  lemma ExportMeans(defs: Defs, ok: Checks, at: Site)
    requires AllParsed(defs) == true && Parsed(at.scope) == true
    requires BuildUses(defs, ok, at.scope, |at.scope.uses|, at.namespace, at.stack).Ok?
    ensures ResolveExport(at.scope.export_, UsesOf(defs, ok, at.scope, at.namespace, at.stack), at.namespace).Ok?
      <==> ExportSound(defs, at.scope)
  {
    var uses := UsesOf(defs, ok, at.scope, at.namespace, at.stack);
    var x := at.scope.export_;
    GroupExportsMean(defs, ok, at.scope, at.namespace, at.stack);
    forall o | o in x.outputs
      ensures var r := ResolvePort(o.from, uses, at.namespace); r.Ok? ==> |r.value| == 1
    {
      OneOutput(o.from, uses, at.namespace);
    }
    ExportOneByOne(defs, at.scope, at.namespace, uses);
  }

  lemma ExportOneByOne(defs: Defs, scope: Scope, namespace: string, uses: Uses)
    requires ExportsMean(defs, scope, namespace, uses)
    requires forall o :: o in scope.export_.outputs ==>
      var r := ResolvePort(o.from, uses, namespace); r.Ok? ==> |r.value| == 1
    ensures ResolveExport(scope.export_, uses, namespace).Ok? <==> ExportSound(defs, scope)
  {
    var x := scope.export_;
    OutputsOneByOne(x.outputs, uses, namespace);
    InputsOneByOne(x.inputs, uses, namespace);
    forall o | o in x.outputs ensures ResolvePort(o.from, uses, namespace).Ok? <==> Exported(defs, scope, o.from) {
      assert RefMeans(defs, scope, namespace, uses, o.from);
    }
    forall i | i in x.inputs
      ensures ResolvePorts(i.to, uses, namespace).Ok? <==> forall r :: r in i.to ==> Exported(defs, scope, r)
    {
      PortsOneByOne(i.to, uses, namespace);
      assert forall r :: r in i.to ==> RefMeans(defs, scope, namespace, uses, r);
    }
  }

  /** What a group must satisfy beyond being built. */
  ghost predicate GroupSound(defs: Defs, ok: Checks, at: Site) {
    Build(defs, ok, at).Ok? ==>
      var b := Build(defs, ok, at).value;
      Acyclic(MakeGraph(b.leaves, b.edges)) && ok(MakeGraph(b.leaves, b.edges)) && ExportSound(defs, at.scope)
  }

  ghost predicate Enterable(defs: Defs, at: Site, u: Use) { u.group in defs && u.group !in at.stack }

  lemma PartMeans(defs: Defs, ok: Checks, at: Site, u: Use)
    requires AllParsed(defs) == true
    ensures Part(defs, ok, at, u).Ok? <==>
      && Enterable(defs, at, u)
      && Build(defs, ok, Within(defs, at, u)).Ok? && GroupSound(defs, ok, Within(defs, at, u))
    ensures Part(defs, ok, at, u).Ok? ==>
      && Part(defs, ok, at, u).value.edges == Build(defs, ok, Within(defs, at, u)).value.edges
      && Part(defs, ok, at, u).value.leaves == Build(defs, ok, Within(defs, at, u)).value.leaves
  {
    if Enterable(defs, at, u) {
      var inner := Within(defs, at, u);
      Deeper(defs, at.stack, u.group);
      if Build(defs, ok, inner).Ok? {
        ExportMeans(defs, ok, inner);
      }
    }
  }

  // ---- Any depth.

  /** The scope is found by following these instance names inwards. */
  ghost predicate Inside(defs: Defs, at: Site, path: seq<string>, site: Site) {
    SiteAt(defs, at, path) == Ok(site)
  }

  lemma InsideStep(defs: Defs, at: Site, u: Use, path: seq<string>, site: Site)
    requires Distinct(UseNames(at.scope.uses)) && u in at.scope.uses && Enterable(defs, at, u)
    ensures Inside(defs, at, [u.instance] + path, site) <==> Inside(defs, Within(defs, at, u), path, site)
  {
    var i := UseAt(at.scope.uses, u);
    assert UseNames(at.scope.uses)[i] == u.instance;
    var v := at.scope.uses[UseIndex(at.scope.uses, u.instance)];
    OneUse(at.scope.uses, u, v);
    assert ([u.instance] + path)[1..] == path;
  }

  /** A scope below is the scope itself or lies in one of its instances. */
  lemma InsideWhere(defs: Defs, at: Site, path: seq<string>, site: Site) returns (u: Use)
    requires Inside(defs, at, path, site) && path != []
    ensures u in at.scope.uses && Enterable(defs, at, u) && u.instance == path[0]
    ensures Inside(defs, Within(defs, at, u), path[1..], site)
  {
    u := at.scope.uses[UseIndex(at.scope.uses, path[0])];
  }

  /** Some declared edge of some scope below contributes the edge. */
  ghost predicate Wired(defs: Defs, ok: Checks, at: Site, x: Edge) {
    exists path, site :: Inside(defs, at, path, site) && Own(defs, ok, site, x)
  }

  lemma WiredStep(defs: Defs, ok: Checks, at: Site, x: Edge)
    requires Distinct(UseNames(at.scope.uses))
    ensures Wired(defs, ok, at, x) <==>
      || Own(defs, ok, at, x)
      || exists u :: u in at.scope.uses && Enterable(defs, at, u) && Wired(defs, ok, Within(defs, at, u), x)
  {
    if Own(defs, ok, at, x) {
      assert Inside(defs, at, [], at);
    }
    if u :| u in at.scope.uses && Enterable(defs, at, u) && Wired(defs, ok, Within(defs, at, u), x) {
      var path, site :| Inside(defs, Within(defs, at, u), path, site) && Own(defs, ok, site, x);
      InsideStep(defs, at, u, path, site);
    }
    if Wired(defs, ok, at, x) && !Own(defs, ok, at, x) {
      var path, site :| Inside(defs, at, path, site) && Own(defs, ok, site, x);
      var u := InsideWhere(defs, at, path, site);
    }
  }

  /** The edges of the expanded graph are exactly those that the declared edges contribute, in whatever scope they
      are declared: a data edge joins the leaf ports that its two ports stand for through the export blocks. */
  lemma {:induction false} EdgesExactly(defs: Defs, ok: Checks, at: Site)
    requires AllParsed(defs) == true && Parsed(at.scope) == true && Build(defs, ok, at).Ok?
    ensures forall x :: x in Build(defs, ok, at).value.edges <==> Wired(defs, ok, at, x)
    decreases defs.Keys - Elems(at.stack)
  {
    ScopeParts(defs, ok, at);
    ScopeEdges(defs, ok, at);
    forall u | u in at.scope.uses ensures
      && Enterable(defs, at, u)
      && Part(defs, ok, at, u).Ok? && forall x ::
        x in Part(defs, ok, at, u).value.edges <==> Wired(defs, ok, Within(defs, at, u), x)
    {
      PartMeans(defs, ok, at, u);
      Deeper(defs, at.stack, u.group);
      EdgesExactly(defs, ok, Within(defs, at, u));
    }
    forall x ensures x in Build(defs, ok, at).value.edges <==> Wired(defs, ok, at, x) {
      WiredStep(defs, ok, at, x);
    }
  }

  /** A leaf is a node declared in some scope below, under that scope's name. */
  ghost predicate Declared(defs: Defs, at: Site, n: string) {
    exists path, site :: Inside(defs, at, path, site) && NodeOf(site, n)
  }

  ghost predicate NodeOf(site: Site, n: string) {
    exists m :: m in site.scope.nodes && n == Qualify(site.namespace, m)
  }

  lemma OwnNodes(site: Site, n: string)
    ensures n in QualifyAll(site.namespace, site.scope.nodes) <==> NodeOf(site, n)
  {
    var names := QualifyAll(site.namespace, site.scope.nodes);
    if m :| m in site.scope.nodes && n == Qualify(site.namespace, m) {
      var i :| 0 <= i < |site.scope.nodes| && site.scope.nodes[i] == m;
      assert names[i] == n;
    }
    if n in names {
      var i :| 0 <= i < |names| && names[i] == n;
      assert site.scope.nodes[i] in site.scope.nodes;
    }
  }

  lemma DeclaredStep(defs: Defs, at: Site, n: string)
    requires Distinct(UseNames(at.scope.uses))
    ensures Declared(defs, at, n) <==>
      || NodeOf(at, n)
      || exists u :: u in at.scope.uses && Enterable(defs, at, u) && Declared(defs, Within(defs, at, u), n)
  {
    if NodeOf(at, n) {
      assert Inside(defs, at, [], at);
    }
    if u :| u in at.scope.uses && Enterable(defs, at, u) && Declared(defs, Within(defs, at, u), n) {
      var path, site :| Inside(defs, Within(defs, at, u), path, site) && NodeOf(site, n);
      InsideStep(defs, at, u, path, site);
    }
    if Declared(defs, at, n) && !NodeOf(at, n) {
      var path, site :| Inside(defs, at, path, site) && NodeOf(site, n);
      var u := InsideWhere(defs, at, path, site);
    }
  }

  /** The leaves of the expanded graph are exactly the nodes declared in the scopes below. */
  lemma {:induction false} LeavesExactly(defs: Defs, ok: Checks, at: Site)
    requires AllParsed(defs) == true && Parsed(at.scope) == true && Build(defs, ok, at).Ok?
    ensures forall n :: n in Build(defs, ok, at).value.leaves <==> Declared(defs, at, n)
    decreases defs.Keys - Elems(at.stack)
  {
    ScopeParts(defs, ok, at);
    ScopeEdges(defs, ok, at);
    forall u | u in at.scope.uses ensures
      && Enterable(defs, at, u)
      && Part(defs, ok, at, u).Ok? && forall n ::
        n in Part(defs, ok, at, u).value.leaves <==> Declared(defs, Within(defs, at, u), n)
    {
      PartMeans(defs, ok, at, u);
      Deeper(defs, at.stack, u.group);
      LeavesExactly(defs, ok, Within(defs, at, u));
    }
    forall n ensures n in Build(defs, ok, at).value.leaves <==> Declared(defs, at, n) {
      OwnNodes(at, n);
      DeclaredStep(defs, at, n);
    }
  }

  // ---- When expansion succeeds.

  /** The scope's instances can be entered and its edges' ports are exported. */
  ghost predicate ScopeSound(defs: Defs, site: Site) {
    && (forall u :: u in site.scope.uses ==> Enterable(defs, site, u))
    && (forall e :: e in site.scope.edges ==> EdgeSound(defs, site.scope, e))
  }

  /** Every scope below is sound, and every group is acyclic, passes the other checks and has a sound export. */
  ghost predicate AllSound(defs: Defs, ok: Checks, at: Site) {
    forall path, site :: Inside(defs, at, path, site) ==>
      ScopeSound(defs, site) && (path != [] ==> GroupSound(defs, ok, site))
  }

  lemma AllSoundStep(defs: Defs, ok: Checks, at: Site)
    requires Distinct(UseNames(at.scope.uses))
    ensures AllSound(defs, ok, at) <==>
      && ScopeSound(defs, at)
      && forall u :: u in at.scope.uses && Enterable(defs, at, u) ==>
        GroupSound(defs, ok, Within(defs, at, u)) && AllSound(defs, ok, Within(defs, at, u))
  {
    if AllSound(defs, ok, at) {
      assert Inside(defs, at, [], at);
      forall u | u in at.scope.uses && Enterable(defs, at, u)
        ensures GroupSound(defs, ok, Within(defs, at, u)) && AllSound(defs, ok, Within(defs, at, u))
      {
        var inner := Within(defs, at, u);
        assert Inside(defs, inner, [], inner);
        InsideStep(defs, at, u, [], inner);
        forall path, site | Inside(defs, inner, path, site)
          ensures ScopeSound(defs, site) && (path != [] ==> GroupSound(defs, ok, site))
        {
          InsideStep(defs, at, u, path, site);
        }
      }
    } else {
      var path, site :| Inside(defs, at, path, site)
        && !(ScopeSound(defs, site) && (path != [] ==> GroupSound(defs, ok, site)));
      if path != [] {
        var u := InsideWhere(defs, at, path, site);
      }
    }
  }

  /** Expansion succeeds if and only if, in every scope below, no instance is of a group being expanded or of
      none, every port an edge or an export names is exported, and every group is acyclic and passes the other
      checks. */
  lemma {:induction false} SucceedsExactly(defs: Defs, ok: Checks, at: Site)
    requires AllParsed(defs) == true && Parsed(at.scope) == true
    ensures Build(defs, ok, at).Ok? <==> AllSound(defs, ok, at)
    decreases defs.Keys - Elems(at.stack)
  {
    AllSoundStep(defs, ok, at);
    ScopeParts(defs, ok, at);
    forall u | u in at.scope.uses ensures
      Part(defs, ok, at, u).Ok? <==>
        && Enterable(defs, at, u)
        && GroupSound(defs, ok, Within(defs, at, u)) && AllSound(defs, ok, Within(defs, at, u))
    {
      PartMeans(defs, ok, at, u);
      if Enterable(defs, at, u) {
        Deeper(defs, at.stack, u.group);
        SucceedsExactly(defs, ok, Within(defs, at, u));
      }
    }
    if BuildUses(defs, ok, at.scope, |at.scope.uses|, at.namespace, at.stack).Ok? {
      ScopeEdges(defs, ok, at);
    }
  }

  // ---- The listing without wiring.

  ghost function Listing(defs: Defs, at: Site): Result<seq<string>> {
    SourceNames(defs, at.scope, at.namespace, at.stack)
  }

  ghost predicate LeafOfUses(defs: Defs, at: Site, k: nat, n: string)
    requires k <= |at.scope.uses|
  {
    exists j :: 0 <= j < k && LeafOfUse(defs, at, at.scope.uses[j], n)
  }

  ghost predicate LeafOfUse(defs: Defs, at: Site, u: Use, n: string) {
    Enterable(defs, at, u) && Listing(defs, Within(defs, at, u)).Ok? && n in Listing(defs, Within(defs, at, u)).value
  }

  ghost predicate Listed(defs: Defs, at: Site, u: Use) {
    Enterable(defs, at, u) && Listing(defs, Within(defs, at, u)).Ok?
  }

  lemma {:induction false} ListingOfUses(defs: Defs, at: Site, k: nat)
    requires k <= |at.scope.uses|
    ensures var r := SourceUses(defs, at.scope, k, at.namespace, at.stack);
      && (r.Ok? <==> forall j :: 0 <= j < k ==> Listed(defs, at, at.scope.uses[j]))
      && (r.Ok? ==> forall n :: n in r.value <==> NodeOf(at, n) || LeafOfUses(defs, at, k, n))
  {
    if k == 0 {
      forall n { OwnNodes(at, n); }
    } else {
      ListingOfUses(defs, at, k - 1);
      UseListing(defs, at, at.scope.uses[k - 1]);
    }
  }

  lemma UseListing(defs: Defs, at: Site, u: Use)
    ensures var r := SourceInstance(defs, u.group, Qualify(at.namespace, u.instance), at.stack);
      && (r.Ok? <==> Listed(defs, at, u))
      && (r.Ok? ==> r == Listing(defs, Within(defs, at, u)))
  {
    if Enterable(defs, at, u) {
      Deeper(defs, at.stack, u.group);
    }
  }

  ghost predicate AllEnterable(defs: Defs, at: Site) {
    forall path, site :: Inside(defs, at, path, site) ==> forall u :: u in site.scope.uses ==> Enterable(defs, site, u)
  }

  lemma AllEnterableStep(defs: Defs, at: Site)
    requires Distinct(UseNames(at.scope.uses))
    ensures AllEnterable(defs, at) <==>
      forall u :: u in at.scope.uses ==> Enterable(defs, at, u) && AllEnterable(defs, Within(defs, at, u))
  {
    if AllEnterable(defs, at) {
      assert Inside(defs, at, [], at);
      forall u, path, site | u in at.scope.uses && Inside(defs, Within(defs, at, u), path, site)
        ensures forall v :: v in site.scope.uses ==> Enterable(defs, site, v)
      {
        InsideStep(defs, at, u, path, site);
      }
    } else {
      var path, site :| Inside(defs, at, path, site) && exists u :: u in site.scope.uses && !Enterable(defs, site, u);
      if path != [] {
        var u := InsideWhere(defs, at, path, site);
      }
    }
  }

  /** The listing succeeds if and only if no scope below uses a group being expanded or none at all, and then names
      exactly the nodes declared in the scopes below. */
  lemma {:induction false} ListingExactly(defs: Defs, at: Site)
    requires AllParsed(defs) == true && Parsed(at.scope) == true
    ensures Listing(defs, at).Ok? <==> AllEnterable(defs, at)
    ensures Listing(defs, at).Ok? ==> forall n :: n in Listing(defs, at).value <==> Declared(defs, at, n)
    decreases defs.Keys - Elems(at.stack)
  {
    ListingOfUses(defs, at, |at.scope.uses|);
    AllEnterableStep(defs, at);
    forall u | u in at.scope.uses && Enterable(defs, at, u)
      ensures Listing(defs, Within(defs, at, u)).Ok? <==> AllEnterable(defs, Within(defs, at, u))
      ensures Listing(defs, Within(defs, at, u)).Ok? ==>
        forall n :: LeafOfUse(defs, at, u, n) <==> Declared(defs, Within(defs, at, u), n)
    {
      Deeper(defs, at.stack, u.group);
      ListingExactly(defs, Within(defs, at, u));
    }
    forall u | u in at.scope.uses ensures exists j :: 0 <= j < |at.scope.uses| && at.scope.uses[j] == u {
      var j := UseAt(at.scope.uses, u);
    }
    if Listing(defs, at).Ok? {
      forall n ensures n in Listing(defs, at).value <==> Declared(defs, at, n) {
        DeclaredStep(defs, at, n);
        LeafUsed(defs, at, n);
      }
    }
  }

  lemma LeafUsed(defs: Defs, at: Site, n: string)
    ensures LeafOfUses(defs, at, |at.scope.uses|, n) <==> exists u :: u in at.scope.uses && LeafOfUse(defs, at, u, n)
  {
    if u :| u in at.scope.uses && LeafOfUse(defs, at, u, n) {
      var j := UseAt(at.scope.uses, u);
    }
    if j :| 0 <= j < |at.scope.uses| && LeafOfUse(defs, at, at.scope.uses[j], n) {
      assert at.scope.uses[j] in at.scope.uses;
    }
  }
}
