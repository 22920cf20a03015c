/** Credential leases of one node: every lease obtained is kept for release, whatever goes wrong. */
module Credentials {
  import opened Options
  import opened Sequences

  datatype Lease = Lease(id: string, expiresAt: nat, renewAt: Option<nat>)

  /** A credential the node asks for, with the environment names its provider may set. */
  datatype Binding = Binding(environment: set<string>)

  /** An answer to an acquire call, and when it arrived. */
  datatype Response =
    | NotFound
    | Response(ok: bool, identity: string, lease: Option<Lease>, credentials: map<string, string>, now: nat)

  type Environment = map<string, string>

  /** Names that any provider may set. */
  type Permitted = string -> bool

  predicate InTime(l: Lease, now: nat) {
    l.id != "" && now < l.expiresAt && (l.renewAt.Some? ==> l.renewAt.value < l.expiresAt)
  }

  /** The answer gives what its binding asks for: an identity, a lease in time if any, and credentials under
      names that are allowed and that nobody has supplied before. */
  predicate Accepted(env: Environment, bindings: seq<Binding>, permitted: Permitted, responses: seq<Response>, i: nat)
    requires i < |responses| == |bindings|
  {
    var r := responses[i];
    && r.Response? && r.ok && r.identity != "" && (r.lease.Some? ==> InTime(r.lease.value, r.now))
    && r.credentials != map[]
    && forall k :: k in r.credentials ==>
      && k in bindings[i].environment && permitted(k) && k !in env
      && forall j :: 0 <= j < i && responses[j].Response? ==> k !in responses[j].credentials
  }

  /** All answers before the `i`th were accepted. */
  predicate Reached(env: Environment, bindings: seq<Binding>, permitted: Permitted, responses: seq<Response>, i: nat)
    requires i <= |responses| == |bindings|
  {
    forall j :: 0 <= j < i ==> Accepted(env, bindings, permitted, responses, j)
  }

  predicate Leased(r: Response) { r.Response? && r.lease.Some? }

  /** These are the leases in the first `n` answers, in order and each as often as it occurs: the `k`th is
      the one in answer `at[k]`. */
  ghost predicate Lists(leases: seq<Lease>, responses: seq<Response>, n: nat, at: seq<nat>)
    requires n <= |responses|
  {
    && |at| == |leases|
    && (forall k :: 0 <= k < |at| ==>
      at[k] < n && Leased(responses[at[k]]) && leases[k] == responses[at[k]].lease.value)
    && (forall j, k :: 0 <= j < k < |at| ==> at[j] < at[k])
    && (forall i :: 0 <= i < n && Leased(responses[i]) ==> i in at)
  }

  /** What the accepted answers supply. */
  ghost predicate Supplies(before: Environment, responses: seq<Response>, n: nat, env: Environment)
    requires n <= |responses|
  {
    && (forall k :: k in env ==> k in before || exists j :: 0 <= j < n && Sets(responses[j], k, env[k]))
    && (forall k :: k in before ==> k in env && env[k] == before[k])
    && (forall j :: 0 <= j < n && responses[j].Response? ==> forall k :: k in responses[j].credentials ==>
      k in env && env[k] == responses[j].credentials[k])
  }

  predicate Sets(r: Response, k: string, v: string) {
    r.Response? && k in r.credentials && r.credentials[k] == v
  }

  /** Nothing is reached beyond an answer that is not accepted. */
  lemma StopsAt(env: Environment, bindings: seq<Binding>, permitted: Permitted, responses: seq<Response>, i: nat)
    requires i < |responses| == |bindings| && Reached(env, bindings, permitted, responses, i)
    ensures !Accepted(env, bindings, permitted, responses, i) ==>
      && !Reached(env, bindings, permitted, responses, |responses|)
      && forall j :: 0 <= j < |responses| ==> (j < i + 1 <==> Reached(env, bindings, permitted, responses, j))
  {
  }

  /** The names already in the environment are those it began with and those supplied since. */
  lemma MergeIsAccepted(before: Environment, env: Environment, bindings: seq<Binding>, permitted: Permitted,
      responses: seq<Response>, i: nat)
    requires i < |responses| == |bindings| && Supplies(before, responses, i, env)
    requires var r := responses[i];
      r.Response? && r.ok && r.identity != "" && (r.lease.Some? ==> InTime(r.lease.value, r.now))
        && r.credentials != map[]
    ensures Accepted(before, bindings, permitted, responses, i) <==> forall k :: k in responses[i].credentials ==>
      k in bindings[i].environment && permitted(k) && k !in env
  {
    forall k ensures k in env <==>
      k in before || exists j :: 0 <= j < i && responses[j].Response? && k in responses[j].credentials
    {
      if k in env && k !in before {
        var j :| 0 <= j < i && Sets(responses[j], k, env[k]);
      }
    }
  }

  lemma ListsMore(leases: seq<Lease>, responses: seq<Response>, n: nat, at: seq<nat>)
    requires n < |responses| && Lists(leases, responses, n, at)
    ensures !Leased(responses[n]) ==> Lists(leases, responses, n + 1, at) == true
    ensures Leased(responses[n]) ==> Lists(leases + [responses[n].lease.value], responses, n + 1, at + [n]) == true
  {
  }

  lemma SuppliesMore(before: Environment, responses: seq<Response>, n: nat, env: Environment)
    requires n < |responses| && Supplies(before, responses, n, env) && responses[n].Response?
    requires responses[n].credentials.Keys !! env.Keys
    ensures Supplies(before, responses, n + 1, env + responses[n].credentials) == true
  {
    var r := responses[n];
    var env' := env + r.credentials;
    forall k | k in env' && k !in before ensures exists j :: 0 <= j < n + 1 && Sets(responses[j], k, env'[k]) {
      if k in r.credentials {
        assert Sets(r, k, env'[k]);
      } else {
        var j :| 0 <= j < n && Sets(responses[j], k, env[k]);
      }
    }
  }

  class Scope {
    var leases: seq<Lease>
    var env: Environment
    var failed: bool
    var ready: bool

    constructor ()
      ensures leases == [] && env == map[] && !failed && !ready
    {
      leases, env, failed, ready := [], map[], false, false;
    }

    /** Asks for the bindings of a node in key order and stops at the first answer it cannot accept.  A lease
        in any answer taken is kept, that one's included. */
    method Acquire(bindings: seq<Binding>, permitted: Permitted, responses: seq<Response>)
      returns (ok: bool, ghost taken: nat, ghost at: seq<nat>)
      requires |bindings| == |responses|
      modifies this
      ensures ok <==> !old(failed) && (old(ready) || Reached(old(env), bindings, permitted, responses, |responses|))
      ensures old(failed) || old(ready) ==>
        leases == old(leases) && env == old(env) && failed == old(failed) && ready == old(ready)
      ensures !old(failed) && !old(ready) ==>
        && taken <= |responses| && old(leases) <= leases
        && Lists(leases[|old(leases)|..], responses, taken, at) == true
        && (forall i :: 0 <= i < |responses| ==>
          (i < taken <==> Reached(old(env), bindings, permitted, responses, i)))
        && (ready <==> ok)
        && (failed <==> !ok && taken > 0 && responses[taken - 1].Response?)
        && (ok ==> Supplies(old(env), responses, |responses|, env))
    {
      taken, at := 0, [];
      if failed {
        return false, taken, at;
      }
      if ready {
        return true, taken, at;
      }
      ghost var kept;
      ok, taken, kept, at := Ask(bindings, permitted, responses);
      assert leases[|old(leases)|..] == kept;
    }

    /** The requests, one binding after the other. */
    method Ask(bindings: seq<Binding>, permitted: Permitted, responses: seq<Response>)
      returns (ok: bool, ghost taken: nat, ghost kept: seq<Lease>, ghost at: seq<nat>)
      requires |bindings| == |responses| && !failed && !ready
      modifies this
      ensures ok <==> Reached(old(env), bindings, permitted, responses, |responses|)
      ensures taken <= |responses| && leases == old(leases) + kept && Lists(kept, responses, taken, at) == true
      ensures forall i :: 0 <= i < |responses| ==> (i < taken <==> Reached(old(env), bindings, permitted, responses, i))
      ensures (ready <==> ok) && (failed <==> !ok && taken > 0 && responses[taken - 1].Response?)
      ensures ok ==> Supplies(old(env), responses, |responses|, env) == true
    {
      taken, kept, at := 0, [], [];
      for i := 0 to |responses|
        invariant !failed && !ready && taken == i && Reached(old(env), bindings, permitted, responses, i) == true
        invariant leases == old(leases) + kept && Lists(kept, responses, i, at) == true
        invariant Supplies(old(env), responses, i, env) == true
      {
        taken := i + 1;
        var r := responses[i];
        StopsAt(old(env), bindings, permitted, responses, i);
        ListsMore(kept, responses, i, at);
        if r.NotFound? {
          return false, taken, kept, at;
        }
        if r.lease.Some? {
          leases, kept, at := leases + [r.lease.value], kept + [r.lease.value], at + [i];
        }
        if !r.ok || r.identity == "" || (r.lease.Some? && !InTime(r.lease.value, r.now)) || r.credentials == map[] {
          failed := true;
          return false, taken, kept, at;
        }
        MergeIsAccepted(old(env), env, bindings, permitted, responses, i);
        ghost var merging := env;
        var merged := Merge(bindings[i], permitted, r.credentials);
        if !merged {
          failed := true;
          return false, taken, kept, at;
        }
        SuppliesMore(old(env), responses, i, merging);
      }
      ready := true;
      return true, taken, kept, at;
    }

    /** Merges credentials into the environment until a name is not allowed or already there. */
    method Merge(binding: Binding, permitted: Permitted, credentials: map<string, string>) returns (ok: bool)
      modifies this`env
      ensures ok <==> forall k :: k in credentials ==>
        k in binding.environment && permitted(k) && k !in old(env)
      ensures ok ==> env == old(env) + credentials
    {
      var todo := credentials.Keys;
      while todo != {}
        invariant todo <= credentials.Keys
        invariant env == old(env) + map k | k in credentials && k !in todo :: credentials[k]
        invariant forall k :: k in credentials && k !in todo ==>
          k in binding.environment && permitted(k) && k !in old(env)
        decreases todo
      {
        var k :| k in todo;
        if k !in binding.environment || !permitted(k) || k in env {
          assert k in credentials && !(k in binding.environment && permitted(k) && k !in old(env));
          return false;
        }
        env := env[k := credentials[k]];
        todo := todo - {k};
      }
      assert credentials == map k | k in credentials && k !in todo :: credentials[k];
      return true;
    }

    /** closeCredentials: one release call for every lease kept, newest first, even after a failure. */
    method Close(answers: seq<bool>) returns (released: seq<Lease>, ok: bool)
      requires |answers| == |leases|
      ensures |released| == |leases| && forall k :: 0 <= k < |leases| ==> released[k] == leases[|leases| - 1 - k]
      ensures multiset(released) == multiset(leases)
      ensures ok <==> !failed && forall k :: 0 <= k < |answers| ==> answers[k]
    {
      released := [];
      ok := !failed;
      var i := |leases|;
      while i > 0
        invariant 0 <= i <= |leases| && |released| == |leases| - i
        invariant forall k :: 0 <= k < |released| ==> released[k] == leases[|leases| - 1 - k]
        invariant ok <==> !failed && forall k :: i <= k < |answers| ==> answers[k]
      {
        i := i - 1;
        released := released + [leases[i]];
        ok := ok && answers[i];
      }
      assert released == Reversed(leases);
      ReversedMultiset(leases);
    }
  }

  /** The credentials of a node from first to last: whatever the answers are, every lease in an answer that
      was taken gets a release call, newest first, and nothing else does. */
  method Lifetime(bindings: seq<Binding>, permitted: Permitted, responses: seq<Response>)
    returns (released: seq<Lease>, ghost at: seq<nat>)
    requires |bindings| == |responses|
    ensures |at| == |released| && forall j, k :: 0 <= j < k < |at| ==> at[j] > at[k]
    ensures forall k :: 0 <= k < |at| ==>
      at[k] < |responses| && Leased(responses[at[k]]) && released[k] == responses[at[k]].lease.value
    ensures forall i :: 0 <= i < |responses| && Leased(responses[i]) ==>
      (i in at <==> Reached(map[], bindings, permitted, responses, i))
  {
    var scope := new Scope();
    var ok;
    ghost var taken, order;
    ok, taken, order := scope.Acquire(bindings, permitted, responses);
    assert scope.leases[0..] == scope.leases;
    var answers: seq<bool> := *;
    if |answers| != |scope.leases| {
      answers := seq(|scope.leases|, _ => false);
    }
    released, ok := scope.Close(answers);
    at := Reversed(order);
    forall i | 0 <= i < |responses| && Leased(responses[i])
      ensures i in at <==> Reached(map[], bindings, permitted, responses, i)
    {
      if i in order {
        var k :| 0 <= k < |order| && order[k] == i;
        assert at[|at| - 1 - k] == i;
      }
    }
  }
}
