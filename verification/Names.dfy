/** Names and their order.

    Node names are compared byte by byte wherever the engine sorts them.  UTF-8 keeps
    code-point order, so comparing characters gives the same order. */
module Names {

  function Elems<T>(s: seq<T>): set<T> {
    set x | x in s
  }

  /** Strict lexicographic order on names. */
  predicate Less(a: string, b: string) {
    b != "" && (a == "" || a[0] < b[0] || (a[0] == b[0] && Less(a[1..], b[1..])))
  }

  /** The names agree up to `i`, and there the first has the smaller character. */
  predicate SmallerAt(a: string, b: string, i: nat) {
    i < |a| && i < |b| && a[..i] == b[..i] && a[i] < b[i]
  }

  lemma SmallerLater(a: string, b: string, i: nat)
    requires a != "" && b != "" && a[0] == b[0]
    ensures SmallerAt(a[1..], b[1..], i) <==> SmallerAt(a, b, i + 1)
  {
    assert a == [a[0]] + a[1..] && b == [b[0]] + b[1..];
    if i < |a[1..]| && i < |b[1..]| {
      assert a[..i + 1] == [a[0]] + a[1..][..i] && b[..i + 1] == [b[0]] + b[1..][..i];
      if a[..i + 1] == b[..i + 1] {
        assert a[1..][..i] == a[..i + 1][1..] && b[1..][..i] == b[..i + 1][1..];
      }
    }
  }

  lemma AgreeFirst(a: string, b: string, i: nat)
    requires SmallerAt(a, b, i)
    ensures i > 0 ==> a[0] == b[0]
  {
    assert i > 0 ==> a[..i][0] == b[..i][0];
  }

  /** The first difference decides; without one the shorter name comes first. */
  lemma {:induction false} LessFirstDifference(a: string, b: string)
    ensures Less(a, b) <==> (a != b && a <= b) || exists i: nat :: SmallerAt(a, b, i)
  {
    if a != "" && b != "" {
      if a[0] == b[0] {
        LessFirstDifference(a[1..], b[1..]);
        assert a == [a[0]] + a[1..] && b == [b[0]] + b[1..];
        forall i: nat ensures SmallerAt(a[1..], b[1..], i) <==> SmallerAt(a, b, i + 1) { SmallerLater(a, b, i); }
        assert !SmallerAt(a, b, 0);
        if i: nat :| SmallerAt(a, b, i) {
          assert SmallerAt(a[1..], b[1..], i - 1);
        }
      } else {
        assert SmallerAt(a, b, 0) <==> a[0] < b[0];
        forall i: nat | SmallerAt(a, b, i) ensures i == 0 { AgreeFirst(a, b, i); }
      }
    }
  }

  lemma LessIrreflexive(a: string)
    ensures !Less(a, a)
  {
  }

  lemma {:induction false} LessTransitive(a: string, b: string, c: string)
    requires Less(a, b) && Less(b, c)
    ensures Less(a, c)
  {
    if a != "" && a[0] == b[0] && b[0] == c[0] {
      LessTransitive(a[1..], b[1..], c[1..]);
    }
  }

  lemma {:induction false} LessTotal(a: string, b: string)
    ensures Less(a, b) || a == b || Less(b, a)
  {
    if a != "" && b != "" && a[0] == b[0] {
      LessTotal(a[1..], b[1..]);
      assert a == [a[0]] + a[1..] && b == [b[0]] + b[1..];
    }
  }

  lemma LessAsymmetric(a: string, b: string)
    requires Less(a, b)
    ensures !Less(b, a)
  {
    if Less(b, a) {
      LessTransitive(a, b, a);
      LessIrreflexive(a);
    }
  }

  /** Sorted, duplicates allowed. */
  ghost predicate Sorted(s: seq<string>) {
    forall i, j :: 0 <= i < j < |s| ==> !Less(s[j], s[i])
  }

  /** Sorted, every name at most once. */
  ghost predicate StrictlySorted(s: seq<string>) {
    forall i, j :: 0 <= i < j < |s| ==> Less(s[i], s[j])
  }

  /** Inserts `x` before the first element that is larger, keeping the sequence sorted. */
  method InsertSorted(s: seq<string>, x: string) returns (r: seq<string>)
    requires Sorted(s)
    ensures Sorted(r) && multiset(r) == multiset(s) + multiset{x}
    ensures StrictlySorted(s) && x !in s ==> StrictlySorted(r)
  {
    var k := 0;
    while k < |s| && !Less(x, s[k])
      invariant 0 <= k <= |s|
      invariant forall i :: 0 <= i < k ==> !Less(x, s[i])
    {
      k := k + 1;
    }
    r := s[..k] + [x] + s[k..];
    assert s == s[..k] + s[k..];
    InsertionOrder(s, x, k);
  }

  lemma InsertionOrder(s: seq<string>, x: string, k: nat)
    requires Sorted(s) && k <= |s|
    requires forall i :: 0 <= i < k ==> !Less(x, s[i])
    requires k < |s| ==> Less(x, s[k])
    ensures Sorted(s[..k] + [x] + s[k..])
    ensures StrictlySorted(s) && x !in s ==> StrictlySorted(s[..k] + [x] + s[k..])
  {
    forall i | k <= i < |s|
      ensures Less(x, s[i]) && !Less(s[i], x)
    {
      LessTotal(s[k], s[i]);
      if Less(s[k], s[i]) { LessTransitive(x, s[k], s[i]); }
      LessAsymmetric(x, s[i]);
    }
    var r := s[..k] + [x] + s[k..];
    forall i, j | 0 <= i < j < |r| ensures !Less(r[j], r[i]) {
      var i' := if i <= k then i else i - 1;
      var j' := if j <= k then j else j - 1;
      assert i != k ==> r[i] == s[i'];
      assert j != k ==> r[j] == s[j'];
    }
    if StrictlySorted(s) && x !in s {
      forall i, j | 0 <= i < j < |r| ensures Less(r[i], r[j]) {
        LessTotal(r[i], r[j]);
        if r[i] == r[j] && i != k && j != k {
          LessIrreflexive(r[i]);
        }
      }
    }
  }

  /** sort.Strings on a list that may repeat names. */
  method SortStrings(s: seq<string>) returns (r: seq<string>)
    ensures Sorted(r) && multiset(r) == multiset(s)
  {
    r := [];
    for i := 0 to |s|
      invariant Sorted(r) && multiset(r) == multiset(s[..i])
    {
      r := InsertSorted(r, s[i]);
      assert s[..i + 1] == s[..i] + [s[i]];
    }
    assert s[..|s|] == s;
  }

  /** Ranging over a map's keys in arbitrary order, then sort.Strings. */
  method SortSet(names: set<string>) returns (r: seq<string>)
    ensures StrictlySorted(r) && Elems(r) == names
  {
    r := [];
    var todo := names;
    while todo != {}
      invariant StrictlySorted(r) && Sorted(r) && todo <= names && Elems(r) == names - todo
      decreases todo
    {
      var x :| x in todo;
      var r' := InsertSorted(r, x);
      ElemsOfMultiset(r', r, x);
      forall i, j | 0 <= i < j < |r'| ensures !Less(r'[j], r'[i]) { LessAsymmetric(r'[i], r'[j]); }
      r, todo := r', todo - {x};
    }
  }

  lemma ElemsOfMultiset(r: seq<string>, s: seq<string>, x: string)
    requires multiset(r) == multiset(s) + multiset{x}
    ensures Elems(r) == Elems(s) + {x}
  {
    forall y ensures y in r <==> y in s || y == x {
      assert y in r <==> y in multiset(r);
      assert y in s <==> y in multiset(s);
    }
  }

  lemma SameMultisetSameElems<T>(r: seq<T>, s: seq<T>)
    requires multiset(r) == multiset(s)
    ensures Elems(r) == Elems(s)
  {
    forall y ensures y in r <==> y in s {
      assert y in r <==> y in multiset(r);
      assert y in s <==> y in multiset(s);
    }
  }

  /** slices.Compact on a sorted list: keeps one copy of each name. */
  method Compact(s: seq<string>) returns (r: seq<string>)
    requires Sorted(s)
    ensures StrictlySorted(r) && Elems(r) == Elems(s)
  {
    r := [];
    for i := 0 to |s|
      invariant StrictlySorted(r) && Elems(r) == Elems(s[..i])
      invariant i > 0 ==> r != [] && r[|r| - 1] == s[i - 1]
      invariant i == 0 ==> r == []
    {
      assert s[..i + 1] == s[..i] + [s[i]];
      assert Elems(s[..i + 1]) == Elems(s[..i]) + {s[i]};
      if i == 0 || s[i] != s[i - 1] {
        if i > 0 {
          LessTotal(s[i - 1], s[i]);
          forall k | 0 <= k < |r| ensures Less(r[k], s[i]) {
            if k < |r| - 1 { LessTransitive(r[k], r[|r| - 1], s[i]); }
          }
        }
        assert Elems(r + [s[i]]) == Elems(r) + {s[i]};
        r := r + [s[i]];
      }
    }
    assert s[..|s|] == s;
  }

  /** A set of names has one strictly sorted listing, so sorting makes results independent of map order. */
  lemma {:induction false} SortedListingUnique(a: seq<string>, b: seq<string>)
    requires StrictlySorted(a) && StrictlySorted(b) && Elems(a) == Elems(b)
    ensures a == b
  {
    if a == [] {
      EmptyElems(b);
    } else {
      assert a[0] in Elems(a);
      assert b != [];
      assert b[0] in Elems(b);
      var i :| 0 <= i < |b| && b[i] == a[0];
      var j :| 0 <= j < |a| && a[j] == b[0];
      if i > 0 && j > 0 { LessAsymmetric(a[0], a[j]); }
      assert a[0] == b[0];
      forall y ensures y in a[1..] <==> y in b[1..] {
        TailElems(a, y);
        TailElems(b, y);
        assert y in a <==> y in Elems(a);
        assert y in b <==> y in Elems(b);
      }
      SortedListingUnique(a[1..], b[1..]);
      assert a == [a[0]] + a[1..] && b == [b[0]] + b[1..];
    }
  }

  lemma EmptyElems<T>(s: seq<T>)
    ensures Elems(s) == {} <==> s == []
  {
    if s != [] { assert s[0] in Elems(s); }
  }

  lemma TailElems(s: seq<string>, y: string)
    requires StrictlySorted(s) && s != []
    ensures y in s[1..] <==> y in s && y != s[0]
  {
    LessIrreflexive(s[0]);
    if y in s && y != s[0] {
      var k :| 0 <= k < |s| && s[k] == y;
      assert s[1..][k - 1] == y;
    }
  }
}
