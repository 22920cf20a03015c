/** Receipts of plugin calls: what a recorded list of calls leaves unresolved. */
module Receipts {
  import opened Options

  datatype Kind = Observer | Gate | Validator | Resolver | Credential
  datatype Effect = Pure | ReadOnly | IdempotentExternal | NonIdempotentExternal
  datatype Phase = Acquire | Renew | Release | OtherPhase
  datatype Status = Pending | Completed | Failed | Unknown | Acknowledged

  datatype Call = Call(alias: string, node: string, kind: Kind, effect: Effect, enforce: bool, phase: Phase,
    lease: Option<string>, status: Status)

  predicate External(e: Effect) { e.IdempotentExternal? || e.NonIdempotentExternal? }

  /** The outcome of a call that was sent is not recorded. */
  predicate Open(s: Status) { s.Pending? || s.Unknown? }

  // ---- The meaning of NeedsRecovery.

  predicate SameLease(a: Call, b: Call) {
    a.alias == b.alias && a.node == b.node && a.lease == b.lease
  }

  predicate Releases(c: Call) {
    c.lease.Some? && c.phase.Release? && (c.status.Completed? || c.status.Acknowledged?)
  }

  /** A credential call is excused once its lease is known to be given back. */
  predicate Excused(calls: set<Call>, c: Call) {
    c.kind.Credential? && c.lease.Some? && exists r :: r in calls && Releases(r) && SameLease(r, c)
  }

  /** The call on its own leaves an effect to be settled. */
  predicate Blocking(c: Call) {
    || (c.lease.Some? && c.phase.Acquire?)
    || (c.kind.Credential? && Open(c.status))
    || (c.enforce && External(c.effect) && (Open(c.status)
      || (c.status.Failed? && (c.kind.Observer? || c.kind.Credential?))))
  }

  predicate Unresolved(calls: set<Call>) {
    exists c :: c in calls && !c.status.Acknowledged? && !Excused(calls, c) && Blocking(c)
  }

  /** Calls whose missing outcome holds up the execution. */
  predicate Guarded(c: Call) { c.kind.Credential? || (c.enforce && External(c.effect)) }

  /** A guarded call without a recorded outcome holds up recovery exactly when it is not excused, other
      calls apart. */
  lemma OpenCallBlocks(calls: set<Call>, c: Call)
    requires c in calls && Guarded(c) && Open(c.status)
    ensures !Excused(calls, c) ==> Unresolved(calls)
    ensures Excused(calls, c) ==> (Unresolved(calls) <==>
      exists d :: d in calls && d != c && !d.status.Acknowledged? && !Excused(calls, d) && Blocking(d))
  {
    assert Blocking(c);
  }

  /** So an unanswered renewal is forgiven once its lease was released. */
  lemma RenewalForgiven(alias: string, node: string, lease: string)
    ensures var renew := Call(alias, node, Credential, IdempotentExternal, true, Renew, Some(lease), Unknown);
      var release := renew.(phase := Release, status := Completed);
      Guarded(renew) && Open(renew.status) && !Unresolved({renew, release})
  {
    var renew := Call(alias, node, Credential, IdempotentExternal, true, Renew, Some(lease), Unknown);
    var release := renew.(phase := Release, status := Completed);
    assert Releases(release) && SameLease(release, renew) && SameLease(release, release);
    assert Excused({renew, release}, renew) && Excused({renew, release}, release);
  }

  // ---- The two-pass scan.

  /** The key of a lease in the scan's table. */
  function LeaseKey(c: Call): string
    requires c.lease.Some?
  {
    c.alias + "/" + c.node + "/" + c.lease.value
  }

  predicate NoSlash(s: string) { '/' !in s }

  /** Aliases and node names are plain. */
  predicate Plain(c: Call) { NoSlash(c.alias) && NoSlash(c.node) }

  lemma {:induction false} SplitAtSlash(a: string, x: string, b: string, y: string)
    requires NoSlash(a) && NoSlash(b) && a + "/" + x == b + "/" + y
    ensures a == b && x == y
  {
    var left, right := a + "/" + x, b + "/" + y;
    assert left[0] == (if a == "" then '/' else a[0]) && right[0] == (if b == "" then '/' else b[0]);
    if a == "" {
      assert x == left[1..] && y == right[1..];
    } else {
      assert left[1..] == a[1..] + "/" + x && right[1..] == b[1..] + "/" + y;
      SplitAtSlash(a[1..], x, b[1..], y);
      assert a == [a[0]] + a[1..] && b == [b[0]] + b[1..];
    }
  }

  /** Joining with slashes loses nothing, so the table is keyed by the lease itself. */
  lemma LeaseKeyExact(a: Call, b: Call)
    requires Plain(a) && Plain(b) && a.lease.Some? && b.lease.Some?
    ensures LeaseKey(a) == LeaseKey(b) <==> SameLease(a, b)
  {
    if LeaseKey(a) == LeaseKey(b) {
      var x, y := a.node + "/" + a.lease.value, b.node + "/" + b.lease.value;
      assert LeaseKey(a) == a.alias + "/" + x && LeaseKey(b) == b.alias + "/" + y;
      SplitAtSlash(a.alias, x, b.alias, y);
      SplitAtSlash(a.node, a.lease.value, b.node, b.lease.value);
    }
  }

  function AllOf(calls: seq<Call>): set<Call> { set c | c in calls }

  /** A release of the call's lease is completed or acknowledged. */
  predicate GivenBack(calls: seq<Call>, c: Call) {
    c.kind.Credential? && c.lease.Some? &&
    exists r :: r in calls && r.phase.Release? && (r.status.Completed? || r.status.Acknowledged?)
      && r.alias == c.alias && r.node == c.node && r.lease == c.lease
  }

  method NeedsRecovery(calls: seq<Call>) returns (needs: bool)
    requires forall c :: c in calls ==> Plain(c)
    ensures needs <==> Unresolved(AllOf(calls))
    ensures needs <==>
      exists c :: c in calls && !c.status.Acknowledged? && !GivenBack(calls, c) &&
        (|| (c.phase.Acquire? && c.lease.Some?)
         || (c.kind.Credential? && (c.status.Pending? || c.status.Unknown?))
         || (c.enforce && (c.effect.IdempotentExternal? || c.effect.NonIdempotentExternal?)
             && (c.status.Pending? || c.status.Unknown?
                 || (c.status.Failed? && (c.kind.Observer? || c.kind.Credential?)))))
  {
    var released := ReleasedKeys(calls);
    for i := 0 to |calls|
      invariant forall k :: 0 <= k < i ==>
        calls[k].status.Acknowledged? || Excused(AllOf(calls), calls[k]) || !Blocking(calls[k])
    {
      var c := calls[i];
      assert c in AllOf(calls);
      ExcusedByKey(calls, released, c);
      if c.status.Acknowledged? {
        continue;
      }
      if c.kind.Credential? && c.lease.Some? && LeaseKey(c) in released {
        continue;
      }
      if c.lease.Some? && c.phase.Acquire? {
        return true;
      }
      if c.kind.Credential? && (c.status.Pending? || c.status.Unknown?) {
        return true;
      }
      if !c.enforce {
        continue;
      }
      if External(c.effect) && (c.status.Pending? || c.status.Unknown?
        || (c.status.Failed? && (c.kind.Observer? || c.kind.Credential?))) {
        return true;
      }
    }
    return false;
  }

  ghost predicate KeysOfReleases(calls: seq<Call>, n: nat, released: set<string>)
    requires n <= |calls|
  {
    && (forall k :: 0 <= k < n && Releases(calls[k]) ==> LeaseKey(calls[k]) in released)
    && (forall s :: s in released ==> exists k :: 0 <= k < n && Releases(calls[k]) && LeaseKey(calls[k]) == s)
  }

  method ReleasedKeys(calls: seq<Call>) returns (released: set<string>)
    ensures KeysOfReleases(calls, |calls|, released)
  {
    released := {};
    for i := 0 to |calls|
      invariant KeysOfReleases(calls, i, released)
    {
      var c := calls[i];
      if c.lease.Some? && c.phase.Release? && (c.status.Completed? || c.status.Acknowledged?) {
        released := released + {LeaseKey(c)};
      }
    }
  }

  lemma ExcusedByKey(calls: seq<Call>, released: set<string>, c: Call)
    requires (forall d :: d in calls ==> Plain(d)) && KeysOfReleases(calls, |calls|, released) && c in calls
    ensures Excused(AllOf(calls), c) <==> c.kind.Credential? && c.lease.Some? && LeaseKey(c) in released
  {
    if c.lease.Some? {
      if LeaseKey(c) in released {
        var k :| 0 <= k < |calls| && Releases(calls[k]) && LeaseKey(calls[k]) == LeaseKey(c);
        LeaseKeyExact(calls[k], c);
        assert calls[k] in AllOf(calls);
      }
      if r :| r in AllOf(calls) && Releases(r) && SameLease(r, c) {
        LeaseKeyExact(r, c);
        var k :| 0 <= k < |calls| && calls[k] == r;
      }
    }
  }

  // ---- The list of receipts.

  datatype Receipt = Receipt(id: nat, call: Call)

  const CallLimit := 10000

  ghost predicate DistinctIds(list: seq<Receipt>) {
    forall i, j :: 0 <= i < j < |list| ==> list[i].id != list[j].id
  }

  function Table(list: seq<Receipt>): map<nat, Call> {
    if list == [] then map[] else Table(list[..|list| - 1])[list[|list| - 1].id := list[|list| - 1].call]
  }

  lemma {:induction false} TableHas(list: seq<Receipt>, id: nat)
    ensures id in Table(list) <==> exists i :: 0 <= i < |list| && list[i].id == id
  {
    if list != [] {
      var init := list[..|list| - 1];
      TableHas(init, id);
      if id in Table(init) {
        var i :| 0 <= i < |init| && init[i].id == id;
        assert list[i].id == id;
      }
      if i :| 0 <= i < |list| && list[i].id == id {
        assert i < |init| ==> init[i].id == id;
      }
    }
  }

  lemma {:induction false} TableUpdate(list: seq<Receipt>, i: nat, call: Call)
    requires DistinctIds(list) && i < |list|
    ensures Table(list[i := Receipt(list[i].id, call)]) == Table(list)[list[i].id := call]
  {
    var last := |list| - 1;
    var list' := list[i := Receipt(list[i].id, call)];
    if i < last {
      assert list'[..last] == list[..last][i := Receipt(list[i].id, call)];
      TableUpdate(list[..last], i, call);
    } else {
      assert list'[..last] == list[..last];
    }
  }

  /** recordPlugin and recordLocal: replace the receipt of that key or append it, up to the limit. */
  method Upsert(list: seq<Receipt>, r: Receipt) returns (next: Option<seq<Receipt>>)
    requires DistinctIds(list)
    ensures next.None? <==> r.id !in Table(list) && |list| >= CallLimit
    ensures next.Some? ==> DistinctIds(next.value) && Table(next.value) == Table(list)[r.id := r.call]
    ensures next.Some? ==> |next.value| == |list| + if r.id in Table(list) then 0 else 1
  {
    TableHas(list, r.id);
    for i := 0 to |list|
      invariant forall k :: 0 <= k < i ==> list[k].id != r.id
    {
      if list[i].id == r.id {
        TableUpdate(list, i, r.call);
        return Some(list[i := r]);
      }
    }
    if |list| >= CallLimit {
      return None;
    }
    assert (list + [r])[..|list|] == list;
    return Some(list + [r]);
  }
}
