/** CheckContractType: three-valued checking of partially known values against type constraints.

    `any` inside a collection is left out: there the source first asks a conversion library for a common
    type. */
module ContractType {
  import opened Options

  datatype Primitive = Str | Num | Bool

  /** Values; `Unknown` is not known yet and `Opaque` has a type no constraint describes. */
  datatype Value =
    | Null | Unknown | Opaque
    | Prim(kind: Primitive, text: string)
    | ObjectV(attrs: map<string, Value>)
    | MapV(entries: map<string, Value>)
    | TupleV(items: seq<Value>)
    | ListV(elems: seq<Value>)
    | SetV(members: set<Value>)

  datatype Field = Field(name: string, typ: Type, optional: bool)

  datatype Type =
    | Any | OtherT
    | PrimT(kind: Primitive)
    | ObjectT(fields: seq<Field>)
    | TupleT(items: seq<Type>)
    | ListT(elem: Type)
    | SetT(elem: Type)
    | MapT(elem: Type)

  datatype Verdict = Confirmed | Violation | Deferred

  // ---- What values are made of.

  predicate WhollyKnown(v: Value) {
    match v
    case Unknown => false
    case ObjectV(m) => forall k :: k in m ==> WhollyKnown(m[k])
    case MapV(m) => forall k :: k in m ==> WhollyKnown(m[k])
    case TupleV(s) => forall i :: 0 <= i < |s| ==> WhollyKnown(s[i])
    case ListV(s) => forall i :: 0 <= i < |s| ==> WhollyKnown(s[i])
    case SetV(s) => forall e :: e in s ==> WhollyKnown(e)
    case _ => true
  }

  /** A set with an unknown member is itself unknown, so the members of a set are wholly known. */
  predicate Proper(v: Value) {
    match v
    case ObjectV(m) => forall k :: k in m ==> Proper(m[k])
    case MapV(m) => forall k :: k in m ==> Proper(m[k])
    case TupleV(s) => forall i :: 0 <= i < |s| ==> Proper(s[i])
    case ListV(s) => forall i :: 0 <= i < |s| ==> Proper(s[i])
    case SetV(s) => forall e :: e in s ==> WhollyKnown(e)
    case _ => true
  }

  predicate HasAny(t: Type) {
    match t
    case Any => true
    case ObjectT(fields) => exists i :: 0 <= i < |fields| && HasAny(fields[i].typ)
    case TupleT(items) => exists i :: 0 <= i < |items| && HasAny(items[i])
    case ListT(e) => HasAny(e)
    case SetT(e) => HasAny(e)
    case MapT(e) => HasAny(e)
    case _ => false
  }

  /** No `any` inside a collection. */
  predicate Supported(t: Type) {
    match t
    case ObjectT(fields) => forall i :: 0 <= i < |fields| ==> Supported(fields[i].typ)
    case TupleT(items) => forall i :: 0 <= i < |items| ==> Supported(items[i])
    case ListT(e) => !HasAny(e) && Supported(e)
    case SetT(e) => !HasAny(e) && Supported(e)
    case MapT(e) => !HasAny(e) && Supported(e)
    case _ => true
  }

  predicate Keyed(v: Value) { v.ObjectV? || v.MapV? }

  function Keys(v: Value): map<string, Value>
    requires Keyed(v)
  {
    if v.ObjectV? then v.attrs else v.entries
  }

  predicate Indexed(v: Value) { v.TupleV? || v.ListV? }

  function Items(v: Value): seq<Value>
    requires Indexed(v)
  {
    if v.TupleV? then v.items else v.elems
  }

  /** What the element iterator visits. */
  function Elements(v: Value): set<Value>
    requires Keyed(v) || Indexed(v) || v.SetV?
  {
    if Keyed(v) then Keys(v).Values
    else if Indexed(v) then set i | 0 <= i < |Items(v)| :: Items(v)[i]
    else v.members
  }

  predicate Collection(t: Type) { t.ListT? || t.SetT? || t.MapT? }

  // ---- The reference: when a wholly known value satisfies a constraint.

  predicate FieldConforms(v: Value, f: Field)
    requires Keyed(v)
    decreases f, 0
  {
    if f.name in Keys(v) then Conforms(Keys(v)[f.name], f.typ) else f.optional
  }

  predicate Conforms(v: Value, t: Type)
    decreases t, 0
  {
    v.Null? || t.Any? ||
    match t
    case PrimT(kind) => v.Prim? && v.kind == kind
    case ObjectT(fields) => (v.ObjectV? || v.MapV?) && forall i :: 0 <= i < |fields| ==> FieldConforms(v, fields[i])
    case TupleT(items) =>
      (v.TupleV? || v.ListV?) && |Items(v)| == |items|
      && forall i :: 0 <= i < |items| ==> Conforms(Items(v)[i], items[i])
    case ListT(e) => (v.ListV? || v.TupleV?) && forall x :: x in Elements(v) ==> Conforms(x, e)
    case SetT(e) => v.SetV? && forall x :: x in Elements(v) ==> Conforms(x, e)
    case MapT(e) => (v.MapV? || v.ObjectV?) && forall x :: x in Elements(v) ==> Conforms(x, e)
    case _ => false
  }

  // ---- The check.

  /** The value has the kind the constraint takes apart. */
  predicate Shaped(v: Value, t: Type) {
    match t
    case ObjectT(_) => Keyed(v)
    case TupleT(items) => Indexed(v) && |Items(v)| == |items|
    case ListT(_) => Indexed(v)
    case SetT(_) => v.SetV?
    case MapT(_) => Keyed(v)
    case _ => false
  }

  function Elem(t: Type): (e: Type)
    requires Collection(t)
    ensures e < t
  {
    match t
    case ListT(e) => e
    case SetT(e) => e
    case MapT(e) => e
  }

  /** What a constraint asks of a value of its kind: a part to satisfy a smaller constraint, or an
      attribute that is not there. */
  datatype Part = Must(value: Value, typ: Type) | Absent

  function PartOf(v: Value, f: Field): Part
    requires Keyed(v)
  {
    if f.name in Keys(v) then Must(Keys(v)[f.name], f.typ) else Absent
  }

  function Parts(v: Value, t: Type): (parts: set<Part>)
    requires Shaped(v, t)
    ensures forall p :: p in parts && p.Must? ==> p.typ < t
  {
    if t.ObjectT? then
      set i | 0 <= i < |t.fields| && (t.fields[i].name in Keys(v) || !t.fields[i].optional) :: PartOf(v, t.fields[i])
    else if t.TupleT? then set i | 0 <= i < |t.items| :: Must(Items(v)[i], t.items[i])
    else set e | e in Elements(v) :: Must(e, Elem(t))
  }

  /** Some part gets this verdict. */
  predicate SomePart(v: Value, t: Type, x: Verdict)
    requires Shaped(v, t)
    decreases t, 0
  {
    exists p :: p in Parts(v, t) && x == if p.Absent? then Violation else Check(p.value, p.typ)
  }

  /** A violation in any part outweighs missing evidence in another. */
  function Check(v: Value, t: Type): Verdict
    decreases t, 1
  {
    if t.Any? || v.Null? then Confirmed
    else if v.Unknown? then Deferred
    else if t.PrimT? then if v.Prim? && v.kind == t.kind then Confirmed else Violation
    else if !Shaped(v, t) || SomePart(v, t, Violation) then Violation
    else if SomePart(v, t, Deferred) then Deferred
    else Confirmed
  }

  function VerdictOf(p: Part): Verdict {
    if p.Absent? then Violation else Check(p.value, p.typ)
  }

  lemma PartCounts(v: Value, t: Type, p: Part)
    requires Shaped(v, t) && p in Parts(v, t)
    ensures SomePart(v, t, VerdictOf(p)) == true
  {
  }

  lemma PartWith(v: Value, t: Type, x: Verdict) returns (p: Part)
    requires Shaped(v, t) && SomePart(v, t, x) == true
    ensures p in Parts(v, t) && VerdictOf(p) == x
  {
    p :| p in Parts(v, t) && x == if p.Absent? then Violation else Check(p.value, p.typ);
  }

  function FieldVerdict(v: Value, f: Field): Verdict
    requires Keyed(v)
  {
    if f.name !in Keys(v) && f.optional then Confirmed else VerdictOf(PartOf(v, f))
  }

  lemma FieldCounts(v: Value, t: Type, f: Field)
    requires t.ObjectT? && Keyed(v) && f in t.fields
    ensures FieldVerdict(v, f) == Confirmed || SomePart(v, t, FieldVerdict(v, f))
  {
    if f.name in Keys(v) || !f.optional {
      PartCounts(v, t, PartOf(v, f));
    }
  }

  function Combine(result: Verdict, r: Verdict): Verdict {
    if r == Violation || (result != Violation && r == Deferred) then r else result
  }

  /** The source's function; a missing value is no evidence.  The loops visit attributes and elements in
      any order, and the answer is Check whatever the order. */
  method CheckContractType(value: Option<Value>, t: Type) returns (r: Verdict)
    requires Supported(t)
    ensures r == if value.None? then Deferred else Check(value.value, t)
    decreases t, 2
  {
    if value.None? {
      return Deferred;
    }
    var v := value.value;
    if t.Any? {
      return Confirmed;
    }
    if v.Null? {
      return Confirmed;
    }
    if v.Unknown? {
      return Deferred;
    }
    match t
    case PrimT(kind) => r := if v.Prim? && v.kind == kind then Confirmed else Violation;
    case ObjectT(_) =>
      if !v.ObjectV? && !v.MapV? {
        return Violation;
      }
      r := CheckFields(v, t);
    case TupleT(items) =>
      if !v.TupleV? && !v.ListV? {
        return Violation;
      }
      if |Items(v)| != |items| {
        return Violation;
      }
      r := CheckItems(v, t);
    case ListT(_) | SetT(_) | MapT(_) =>
      if (t.ListT? && !v.ListV? && !v.TupleV?) || (t.SetT? && !v.SetV?) || (t.MapT? && !v.MapV? && !v.ObjectV?) {
        return Violation;
      }
      r := CheckElements(v, t);
    case OtherT => r := Violation;
  }

  /** `r` is the combination of the parts for which `seen` holds a verdict. */
  predicate Combined(r: Verdict, seen: set<Verdict>) {
    r == if Violation in seen then Violation else if Deferred in seen then Deferred else Confirmed
  }

  method CheckFields(v: Value, t: Type) returns (r: Verdict)
    requires t.ObjectT? && Supported(t) && Shaped(v, t)
    ensures r == if SomePart(v, t, Violation) then Violation else if SomePart(v, t, Deferred) then Deferred
      else Confirmed
    decreases t, 1
  {
    r := Confirmed;
    ghost var seen: set<Verdict> := {};
    var todo := set f | f in t.fields;
    while todo != {}
      invariant forall f :: f in todo ==> f in t.fields
      invariant forall i :: 0 <= i < |t.fields| && t.fields[i] !in todo ==> FieldVerdict(v, t.fields[i]) in seen
      invariant forall x :: x in seen ==> x == Confirmed || SomePart(v, t, x)
      invariant Combined(r, seen)
      decreases todo
    {
      var f :| f in todo;
      if f.name !in Keys(v) {
        if !f.optional {
          r := Combine(r, Violation);
        }
      } else {
        var c := CheckContractType(Some(Keys(v)[f.name]), f.typ);
        r := Combine(r, c);
      }
      FieldCounts(v, t, f);
      seen, todo := seen + {FieldVerdict(v, f)}, todo - {f};
    }
  }

  method CheckItems(v: Value, t: Type) returns (r: Verdict)
    requires t.TupleT? && Supported(t) && Shaped(v, t)
    ensures r == if SomePart(v, t, Violation) then Violation else if SomePart(v, t, Deferred) then Deferred
      else Confirmed
    decreases t, 1
  {
    r := Confirmed;
    ghost var seen: set<Verdict> := {};
    for i := 0 to |t.items|
      invariant forall k :: 0 <= k < i ==> Check(Items(v)[k], t.items[k]) in seen
      invariant forall x :: x in seen ==> x == Confirmed || SomePart(v, t, x)
      invariant Combined(r, seen)
    {
      var c := CheckContractType(Some(Items(v)[i]), t.items[i]);
      PartCounts(v, t, Must(Items(v)[i], t.items[i]));
      r, seen := Combine(r, c), seen + {c};
    }
  }

  method CheckElements(v: Value, t: Type) returns (r: Verdict)
    requires Collection(t) && Supported(t) && Shaped(v, t)
    ensures r == if SomePart(v, t, Violation) then Violation else if SomePart(v, t, Deferred) then Deferred
      else Confirmed
    decreases t, 1
  {
    r := Confirmed;
    ghost var seen: set<Verdict> := {};
    var todo := Elements(v);
    while todo != {}
      invariant todo <= Elements(v)
      invariant forall x :: x in Elements(v) && x !in todo ==> Check(x, Elem(t)) in seen
      invariant forall x :: x in seen ==> x == Confirmed || SomePart(v, t, x)
      invariant Combined(r, seen)
      decreases todo
    {
      var x :| x in todo;
      var c := CheckContractType(Some(x), Elem(t));
      PartCounts(v, t, Must(x, Elem(t)));
      r, seen, todo := Combine(r, c), seen + {c}, todo - {x};
    }
  }

  // ---- Learning more.

  /** `w` is `v` with some of its unknowns replaced. */
  predicate Completes(v: Value, w: Value) {
    match v
    case Unknown => true
    case ObjectV(m) => w.ObjectV? && w.attrs.Keys == m.Keys && forall k :: k in m ==> Completes(m[k], w.attrs[k])
    case MapV(m) => w.MapV? && w.entries.Keys == m.Keys && forall k :: k in m ==> Completes(m[k], w.entries[k])
    case TupleV(s) => w.TupleV? && |w.items| == |s| && forall i :: 0 <= i < |s| ==> Completes(s[i], w.items[i])
    case ListV(s) => w.ListV? && |w.elems| == |s| && forall i :: 0 <= i < |s| ==> Completes(s[i], w.elems[i])
    case _ => w == v
  }

  lemma {:induction false} CompletesItself(v: Value)
    ensures Completes(v, v)
  {
    match v
    case ObjectV(m) => forall k | k in m ensures Completes(m[k], m[k]) { CompletesItself(m[k]); }
    case MapV(m) => forall k | k in m ensures Completes(m[k], m[k]) { CompletesItself(m[k]); }
    case TupleV(s) => forall i | 0 <= i < |s| ensures Completes(s[i], s[i]) { CompletesItself(s[i]); }
    case ListV(s) => forall i | 0 <= i < |s| ensures Completes(s[i], s[i]) { CompletesItself(s[i]); }
    case _ =>
  }

  predicate PartPair(p: Part, q: Part) {
    if p.Absent? then q.Absent? else q.Must? && q.typ == p.typ && Proper(p.value) && Completes(p.value, q.value)
  }

  /** Every part of the partial value has a counterpart in the completion. */
  lemma Forth(v: Value, w: Value, t: Type, p: Part) returns (q: Part)
    requires Proper(v) && Completes(v, w) && Shaped(v, t) && Shaped(w, t) && p in Parts(v, t)
    ensures q in Parts(w, t) && PartPair(p, q) == true
  {
    if t.ObjectT? {
      var i :| 0 <= i < |t.fields| && (t.fields[i].name in Keys(v) || !t.fields[i].optional)
        && p == PartOf(v, t.fields[i]);
      q := PartOf(w, t.fields[i]);
      assert Keys(v).Keys == Keys(w).Keys;
    } else if t.TupleT? {
      var i :| 0 <= i < |t.items| && p == Must(Items(v)[i], t.items[i]);
      q := Must(Items(w)[i], t.items[i]);
    } else {
      var y := ForthElement(v, w, p.value);
      q := Must(y, Elem(t));
      ElementsProper(v);
    }
  }

  lemma Back(v: Value, w: Value, t: Type, q: Part) returns (p: Part)
    requires Proper(v) && Completes(v, w) && Shaped(v, t) && Shaped(w, t) && q in Parts(w, t)
    ensures p in Parts(v, t) && PartPair(p, q) == true
  {
    if t.ObjectT? {
      var i :| 0 <= i < |t.fields| && (t.fields[i].name in Keys(w) || !t.fields[i].optional)
        && q == PartOf(w, t.fields[i]);
      p := PartOf(v, t.fields[i]);
      assert Keys(v).Keys == Keys(w).Keys;
    } else if t.TupleT? {
      var i :| 0 <= i < |t.items| && q == Must(Items(w)[i], t.items[i]);
      p := Must(Items(v)[i], t.items[i]);
    } else {
      var x := BackElement(v, w, q.value);
      p := Must(x, Elem(t));
      ElementsProper(v);
    }
  }

  lemma ForthElement(v: Value, w: Value, x: Value) returns (y: Value)
    requires (Keyed(v) || Indexed(v) || v.SetV?) && Proper(v) && Completes(v, w) && x in Elements(v)
    ensures (Keyed(w) || Indexed(w) || w.SetV?) && y in Elements(w) && Completes(x, y)
  {
    if Keyed(v) {
      var k :| k in Keys(v) && Keys(v)[k] == x;
      y := Keys(w)[k];
    } else if Indexed(v) {
      var i :| 0 <= i < |Items(v)| && Items(v)[i] == x;
      y := Items(w)[i];
    } else {
      y := x;
      CompletesItself(x);
    }
  }

  lemma BackElement(v: Value, w: Value, y: Value) returns (x: Value)
    requires (Keyed(v) || Indexed(v) || v.SetV?) && (Keyed(w) || Indexed(w) || w.SetV?) && Proper(v) && Completes(v, w)
      && y in Elements(w)
    ensures x in Elements(v) && Completes(x, y)
  {
    if Keyed(v) {
      var k :| k in Keys(w) && Keys(w)[k] == y;
      x := Keys(v)[k];
    } else if Indexed(v) {
      var i :| 0 <= i < |Items(w)| && Items(w)[i] == y;
      x := Items(v)[i];
    } else {
      x := y;
      CompletesItself(y);
    }
  }

  lemma ElementsProper(v: Value)
    requires (Keyed(v) || Indexed(v) || v.SetV?) && Proper(v)
    ensures forall x :: x in Elements(v) ==> Proper(x)
  {
    forall x | x in Elements(v) ensures Proper(x) {
      if v.SetV? {
        KnownProper(x);
      }
    }
  }

  lemma {:induction false} KnownProper(v: Value)
    requires WhollyKnown(v)
    ensures Proper(v)
  {
    match v
    case ObjectV(m) => forall k | k in m ensures Proper(m[k]) { KnownProper(m[k]); }
    case MapV(m) => forall k | k in m ensures Proper(m[k]) { KnownProper(m[k]); }
    case TupleV(s) => forall i | 0 <= i < |s| ensures Proper(s[i]) { KnownProper(s[i]); }
    case ListV(s) => forall i | 0 <= i < |s| ensures Proper(s[i]) { KnownProper(s[i]); }
    case _ =>
  }

  /** The verdict may sharpen, never change. */
  predicate Sharpens(before: Verdict, after: Verdict) {
    before.Deferred? || after == before
  }

  lemma ShapeKept(v: Value, w: Value, t: Type)
    requires Completes(v, w) && !v.Unknown?
    ensures Shaped(w, t) == Shaped(v, t) && !w.Unknown? && (w.Null? ==> v.Null?)
  {
  }

  /** What was confirmed or violated on a partial value stays so on every completion. */
  lemma {:induction false} Stable(v: Value, w: Value, t: Type)
    requires Proper(v) && Completes(v, w)
    ensures Sharpens(Check(v, t), Check(w, t))
    decreases t, 2
  {
    if !t.Any? && !v.Null? && !v.Unknown? && !t.PrimT? {
      ShapeKept(v, w, t);
      if Shaped(v, t) {
        PartsStable(v, w, t);
      }
    }
  }

  lemma {:induction false} PartsStable(v: Value, w: Value, t: Type)
    requires Proper(v) && Completes(v, w) && Shaped(v, t) && Shaped(w, t)
    ensures SomePart(v, t, Violation) ==> SomePart(w, t, Violation)
    ensures SomePart(w, t, Violation) ==> SomePart(v, t, Violation) || SomePart(v, t, Deferred)
    ensures SomePart(w, t, Deferred) ==> SomePart(v, t, Deferred)
    decreases t, 1
  {
    if SomePart(v, t, Violation) == true {
      var p := PartWith(v, t, Violation);
      var q := Forth(v, w, t, p);
      if p.Must? { Stable(p.value, q.value, p.typ); }
      PartCounts(w, t, q);
    }
    if SomePart(w, t, Violation) == true {
      PartBack(v, w, t, Violation);
    }
    if SomePart(w, t, Deferred) == true {
      PartBack(v, w, t, Deferred);
    }
  }

  lemma {:induction false} PartBack(v: Value, w: Value, t: Type, x: Verdict)
    requires Proper(v) && Completes(v, w) && Shaped(v, t) && Shaped(w, t) && SomePart(w, t, x) == true
    ensures SomePart(v, t, x) == true || SomePart(v, t, Deferred) == true
    decreases t, 0
  {
    var q := PartWith(w, t, x);
    var p := Back(v, w, t, q);
    if p.Must? { Stable(p.value, q.value, p.typ); }
    PartCounts(v, t, p);
  }

  // ---- Wholly known values.

  predicate PartConforms(p: Part) { p.Must? && Conforms(p.value, p.typ) }

  /** A value of the right kind conforms when all its parts do. */
  lemma ConformsByParts(v: Value, t: Type)
    requires Shaped(v, t) && !v.Null?
    ensures Conforms(v, t) <==> forall p :: p in Parts(v, t) ==> PartConforms(p)
  {
    if t.ObjectT? {
      forall i | 0 <= i < |t.fields| && (t.fields[i].name in Keys(v) || !t.fields[i].optional)
        ensures PartOf(v, t.fields[i]) in Parts(v, t)
          && (FieldConforms(v, t.fields[i]) <==> PartConforms(PartOf(v, t.fields[i])))
      {
      }
    } else if t.TupleT? {
      forall i | 0 <= i < |t.items| ensures Must(Items(v)[i], t.items[i]) in Parts(v, t) {
      }
    } else {
      forall x | x in Elements(v) ensures Must(x, Elem(t)) in Parts(v, t) {
      }
    }
  }

  lemma PartsKnown(v: Value, t: Type)
    requires Shaped(v, t) && WhollyKnown(v)
    ensures forall p :: p in Parts(v, t) && p.Must? ==> WhollyKnown(p.value)
  {
  }

  /** A wholly known value is never deferred: the verdict says whether it conforms. */
  lemma {:induction false} KnownDecided(v: Value, t: Type)
    requires WhollyKnown(v)
    ensures Check(v, t) == if Conforms(v, t) then Confirmed else Violation
    decreases t, 1
  {
    if !t.Any? && !v.Null? && !t.PrimT? && Shaped(v, t) {
      KnownParts(v, t);
      ConformsByParts(v, t);
    }
  }

  lemma {:induction false} KnownParts(v: Value, t: Type)
    requires WhollyKnown(v) && Shaped(v, t)
    ensures SomePart(v, t, Violation) <==> exists p :: p in Parts(v, t) && !PartConforms(p)
    ensures !SomePart(v, t, Deferred)
    decreases t, 0
  {
    PartsKnown(v, t);
    forall p | p in Parts(v, t) ensures VerdictOf(p) == if PartConforms(p) then Confirmed else Violation {
      if p.Must? { KnownDecided(p.value, p.typ); }
    }
    if SomePart(v, t, Violation) == true {
      var p := PartWith(v, t, Violation);
    }
    if SomePart(v, t, Deferred) == true {
      var p := PartWith(v, t, Deferred);
    }
    if p :| p in Parts(v, t) && !PartConforms(p) {
      PartCounts(v, t, p);
    }
  }

  // ---- The verdict is exact.

  /** Every unknown replaced by the same value. */
  function Fill(v: Value, z: Value): Value {
    match v
    case Unknown => z
    case ObjectV(m) => ObjectV(map k | k in m :: Fill(m[k], z))
    case MapV(m) => MapV(map k | k in m :: Fill(m[k], z))
    case TupleV(s) => TupleV(seq(|s|, i requires 0 <= i < |s| => Fill(s[i], z)))
    case ListV(s) => ListV(seq(|s|, i requires 0 <= i < |s| => Fill(s[i], z)))
    case _ => v
  }

  lemma {:induction false} FillCompletes(v: Value, z: Value)
    requires WhollyKnown(z) && Proper(v)
    ensures Completes(v, Fill(v, z)) && WhollyKnown(Fill(v, z))
  {
    match v
    case ObjectV(m) => forall k | k in m ensures Completes(m[k], Fill(m[k], z))
      && WhollyKnown(Fill(m[k], z)) { FillCompletes(m[k], z); }
    case MapV(m) => forall k | k in m ensures Completes(m[k], Fill(m[k], z))
      && WhollyKnown(Fill(m[k], z)) { FillCompletes(m[k], z); }
    case TupleV(s) => forall i | 0 <= i < |s|
      ensures Completes(s[i], Fill(s[i], z)) && WhollyKnown(Fill(s[i], z)) { FillCompletes(s[i], z); }
    case ListV(s) => forall i | 0 <= i < |s|
      ensures Completes(s[i], Fill(s[i], z)) && WhollyKnown(Fill(s[i], z)) { FillCompletes(s[i], z); }
    case _ =>
  }

  /** What a completion by nulls and one by opaque values make of a verdict. */
  predicate Decides(before: Verdict, nulls: Verdict, opaques: Verdict) {
    match before
    case Confirmed => nulls == Confirmed && opaques == Confirmed
    case Violation => nulls == Violation && opaques == Violation
    case Deferred => nulls == Confirmed && opaques == Violation
  }

  function FillPart(p: Part, z: Value): Part {
    if p.Absent? then p else Must(Fill(p.value, z), p.typ)
  }

  /** The parts of a filled value are the filled parts. */
  lemma FillForth(v: Value, t: Type, z: Value, p: Part)
    requires Shaped(v, t) && !v.SetV? && p in Parts(v, t)
    ensures Shaped(Fill(v, z), t) && FillPart(p, z) in Parts(Fill(v, z), t)
  {
    var w := Fill(v, z);
    if t.ObjectT? {
      var i :| 0 <= i < |t.fields| && (t.fields[i].name in Keys(v) || !t.fields[i].optional)
        && p == PartOf(v, t.fields[i]);
      assert Keys(w).Keys == Keys(v).Keys;
      assert FillPart(p, z) == PartOf(w, t.fields[i]);
    } else if t.TupleT? {
      var i :| 0 <= i < |t.items| && p == Must(Items(v)[i], t.items[i]);
      assert FillPart(p, z) == Must(Items(w)[i], t.items[i]);
    } else if Keyed(v) {
      var k :| k in Keys(v) && Keys(v)[k] == p.value;
      assert Keys(w)[k] == Fill(p.value, z);
    } else {
      var i :| 0 <= i < |Items(v)| && Items(v)[i] == p.value;
      assert Items(w)[i] == Fill(p.value, z);
    }
  }

  lemma FillBack(v: Value, t: Type, z: Value, q: Part) returns (p: Part)
    requires Shaped(v, t) && !v.SetV? && Shaped(Fill(v, z), t) && q in Parts(Fill(v, z), t)
    ensures p in Parts(v, t) && FillPart(p, z) == q
  {
    var w := Fill(v, z);
    if t.ObjectT? {
      var i :| 0 <= i < |t.fields| && (t.fields[i].name in Keys(w) || !t.fields[i].optional)
        && q == PartOf(w, t.fields[i]);
      assert Keys(w).Keys == Keys(v).Keys;
      p := PartOf(v, t.fields[i]);
    } else if t.TupleT? {
      var i :| 0 <= i < |t.items| && q == Must(Items(w)[i], t.items[i]);
      p := Must(Items(v)[i], t.items[i]);
    } else if Keyed(v) {
      var k :| k in Keys(w) && Keys(w)[k] == q.value;
      p := Must(Keys(v)[k], Elem(t));
    } else {
      var i :| 0 <= i < |Items(w)| && Items(w)[i] == q.value;
      p := Must(Items(v)[i], Elem(t));
    }
  }

  lemma FillShape(v: Value, t: Type, z: Value)
    requires Shaped(v, t)
    ensures Shaped(Fill(v, z), t)
  {
  }

  lemma {:induction false} FillDecides(v: Value, t: Type)
    requires Proper(v)
    ensures Decides(Check(v, t), Check(Fill(v, Null), t), Check(Fill(v, Opaque), t))
    decreases t, 1, 1
  {
    if !t.Any? && !v.Null? && !v.Unknown? && !t.PrimT? && Shaped(v, t) {
      if v.SetV? {
        SetDecides(v, t);
      } else {
        FillDecidesShaped(v, t);
      }
    }
  }

  /** A set holds no unknowns, so filling leaves it as it is. */
  lemma SetDecides(v: Value, t: Type)
    requires Proper(v) && v.SetV?
    ensures Decides(Check(v, t), Check(Fill(v, Null), t), Check(Fill(v, Opaque), t))
  {
    assert WhollyKnown(v);
    KnownDecided(v, t);
  }

  lemma {:induction false} FillDecidesShaped(v: Value, t: Type)
    requires Proper(v) && !t.Any? && !v.Null? && !v.Unknown? && !t.PrimT? && Shaped(v, t) && !v.SetV?
    ensures Decides(Check(v, t), Check(Fill(v, Null), t), Check(Fill(v, Opaque), t))
    decreases t, 1, 0
  {
    FillDecidesParts(v, t, Null, Confirmed);
    FillDecidesParts(v, t, Opaque, Violation);
  }

  lemma PartsProper(v: Value, t: Type)
    requires Shaped(v, t) && Proper(v) && !v.SetV?
    ensures forall p :: p in Parts(v, t) && p.Must? ==> Proper(p.value)
  {
  }

  predicate Filler(z: Value, open: Verdict) {
    (z == Null && open == Confirmed) || (z == Opaque && open == Violation)
  }

  lemma {:induction false} FillDecidesPart(v: Value, t: Type, z: Value, open: Verdict, p: Part)
    requires Proper(v) && Shaped(v, t) && !v.SetV? && Filler(z, open) && p in Parts(v, t)
    ensures VerdictOf(FillPart(p, z)) == if VerdictOf(p) == Deferred then open else VerdictOf(p)
    decreases t, 0, 0
  {
    PartsProper(v, t);
    if p.Must? { FillDecides(p.value, p.typ); }
  }

  /** Filling turns deferred parts into `open` and leaves the other verdicts as they were. */
  lemma {:induction false} FillDecidesParts(v: Value, t: Type, z: Value, open: Verdict)
    requires Proper(v) && Shaped(v, t) && !v.SetV? && Filler(z, open)
    ensures Shaped(Fill(v, z), t) && !SomePart(Fill(v, z), t, Deferred)
    ensures SomePart(Fill(v, z), t, Violation) <==>
      SomePart(v, t, Violation) || (open == Violation && SomePart(v, t, Deferred))
    decreases t, 0, 2
  {
    FillShape(v, t, z);
    var w := Fill(v, z);
    if SomePart(w, t, Deferred) == true {
      var q := PartWith(w, t, Deferred);
      var p := FillBack(v, t, z, q);
      FillDecidesPart(v, t, z, open, p);
    }
    if SomePart(w, t, Violation) == true {
      var q := PartWith(w, t, Violation);
      var p := FillBack(v, t, z, q);
      FillDecidesPart(v, t, z, open, p);
      PartCounts(v, t, p);
    }
    if SomePart(v, t, Violation) == true {
      FillCounts(v, t, z, open, Violation);
    }
    if SomePart(v, t, Deferred) == true {
      FillCounts(v, t, z, open, Deferred);
    }
  }

  lemma {:induction false} FillCounts(v: Value, t: Type, z: Value, open: Verdict, x: Verdict)
    requires Proper(v) && Shaped(v, t) && !v.SetV? && Filler(z, open) && SomePart(v, t, x) == true
    ensures Shaped(Fill(v, z), t) && SomePart(Fill(v, z), t, if x == Deferred then open else x) == true
    decreases t, 0, 1
  {
    FillShape(v, t, z);
    var p := PartWith(v, t, x);
    FillForth(v, t, z, p);
    FillDecidesPart(v, t, z, open, p);
    PartCounts(Fill(v, z), t, FillPart(p, z));
  }

  /** Unless it is violated, some completion conforms; unless it is confirmed, some completion does not. */
  lemma Witnesses(v: Value, t: Type)
    requires Proper(v)
    ensures Completes(v, Fill(v, Null)) && WhollyKnown(Fill(v, Null))
      && (Check(v, t) != Violation ==> Conforms(Fill(v, Null), t))
    ensures Completes(v, Fill(v, Opaque)) && WhollyKnown(Fill(v, Opaque))
      && (Check(v, t) != Confirmed ==> !Conforms(Fill(v, Opaque), t))
  {
    FillDecides(v, t);
    FillCompletes(v, Null);
    FillCompletes(v, Opaque);
    KnownDecided(Fill(v, Null), t);
    KnownDecided(Fill(v, Opaque), t);
  }

  lemma Sound(v: Value, w: Value, t: Type)
    requires Proper(v) && Completes(v, w) && WhollyKnown(w)
    ensures Check(v, t) == Confirmed ==> Conforms(w, t)
    ensures Check(v, t) == Violation ==> !Conforms(w, t)
  {
    Stable(v, w, t);
    KnownDecided(w, t);
  }

  /** A value not confirmed has a completion that does not conform; one that is no violation has one that does. */
  lemma Refuted(v: Value, t: Type) returns (a: Value, b: Value)
    requires Proper(v)
    ensures Completes(v, a) && WhollyKnown(a) && (Check(v, t) != Violation ==> Conforms(a, t))
    ensures Completes(v, b) && WhollyKnown(b) && (Check(v, t) != Confirmed ==> !Conforms(b, t))
  {
    Witnesses(v, t);
    a, b := Fill(v, Null), Fill(v, Opaque);
  }

  lemma ConfirmedExact(v: Value, t: Type)
    requires Proper(v)
    ensures Check(v, t) == Confirmed <==> forall w :: Completes(v, w) && WhollyKnown(w) ==> Conforms(w, t)
  {
    if Check(v, t) == Confirmed {
      forall w | Completes(v, w) && WhollyKnown(w) ensures Conforms(w, t) { Sound(v, w, t); }
    } else {
      var _, b := Refuted(v, t);
      assert Completes(v, b) && WhollyKnown(b) && !Conforms(b, t);
    }
  }

  lemma ViolationExact(v: Value, t: Type)
    requires Proper(v)
    ensures Check(v, t) == Violation <==> forall w :: Completes(v, w) && WhollyKnown(w) ==> !Conforms(w, t)
  {
    if Check(v, t) == Violation {
      forall w | Completes(v, w) && WhollyKnown(w) ensures !Conforms(w, t) { Sound(v, w, t); }
    } else {
      var a, _ := Refuted(v, t);
      assert Completes(v, a) && WhollyKnown(a) && Conforms(a, t);
    }
  }

  /** Confirmed means that every completion conforms, violation that none does, and deferred that it is open. */
  lemma Exact(v: Value, t: Type)
    requires Proper(v)
    ensures Check(v, t) == Confirmed <==> forall w :: Completes(v, w) && WhollyKnown(w) ==> Conforms(w, t)
    ensures Check(v, t) == Violation <==> forall w :: Completes(v, w) && WhollyKnown(w) ==> !Conforms(w, t)
  {
    ConfirmedExact(v, t);
    ViolationExact(v, t);
  }
}
