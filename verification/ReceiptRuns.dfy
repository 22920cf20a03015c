/** Calls as they are recorded, sent, answered and recorded again, with a crash or a failed write anywhere. */
module ReceiptRuns {
  import opened Options
  import opened Outcomes
  import opened Receipts

  type Id = nat

  /** A lease as the provider knows it. */
  type Lease = (string, string, string)

  datatype Reply = Done(lease: Option<string>) | Refused(lease: Option<string>) | Silence

  datatype Stage = Written(call: Call) | Sent(call: Call) | Answered(call: Call, reply: Reply)

  /** The stored receipts, the running invocation, and what really happened: `sent` holds the calls sent
      without a recorded outcome, `granted` the lease each acquire call obtained, `returned` the leases
      given back.  After a write that landed although it failed, an `aware` invocation (a file ledger)
      still knows what is stored, while a journal session is behind for good. */
  datatype World = World(
    stored: map<Id, Call>, live: bool, aware: bool, current: bool, known: map<Id, Call>, flight: map<Id, Stage>,
    nextId: nat, sent: set<Id>, granted: map<Id, Lease>, returned: set<Lease>)

  datatype Step =
    | Start(aware: bool) | Crash
    | Begin(id: Id, call: Call, fate: Outcome)
    | Send(id: Id)
    | Answer(id: Id, reply: Reply, grant: Option<string>, effect: bool)
    | Finish(id: Id, fate: Outcome)
    | Acknowledge(id: Id, fate: Outcome)

  function LeaseOf(c: Call, lease: string): Lease { (c.alias, c.node, lease) }

  /** A credential call names its lease from the start unless it is to obtain one. */
  predicate WellFormed(c: Call) {
    && (!c.phase.OtherPhase? ==> c.kind.Credential?)
    && (c.lease.Some? <==> c.phase.Renew? || c.phase.Release?)
  }

  /** A lease is granted by an acquire call, and its answer names the lease; other answers may name anything. */
  predicate Grants(c: Call, reply: Reply, grant: Option<string>) {
    if c.phase.Acquire? then reply.Silence? || reply.lease == grant else grant.None?
  }

  /** A recorded call that recovery may issue again under the same key. */
  predicate Replayable(c: Call) {
    c.effect.IdempotentExternal? && (c.kind.Observer? || c.phase.Release?) && !c.status.Acknowledged?
  }

  function Reissued(c: Call): Call {
    c.(status := Pending, lease := if c.kind.Credential? then c.lease else None)
  }

  predicate Enabled(w: World, s: Step) {
    match s
    case Start(_) => !w.live
    case Crash => w.live
    case Begin(id, call, _) =>
      w.live && id !in w.flight && WellFormed(call) && call.status.Pending?
        && (id == w.nextId || (id in w.known && Replayable(w.known[id]) && call == Reissued(w.known[id])))
    case Send(id) => w.live && id in w.flight && w.flight[id].Written?
    case Answer(id, reply, grant, _) =>
      w.live && id in w.flight && w.flight[id].Sent? && Grants(w.flight[id].call, reply, grant)
        && (grant.Some? ==> LeaseOf(w.flight[id].call, grant.value) !in w.granted.Values)
    case Finish(id, _) => w.live && id in w.flight && w.flight[id].Answered?
    case Acknowledge(id, _) => w.live && w.flight == map[] && id in w.known && !w.known[id].status.Acknowledged?
  }

  function StatusOf(c: Call, reply: Reply): Status {
    match reply
    case Done(_) => Completed
    case Refused(_) => Failed
    case Silence => if External(c.effect) || c.kind.Credential? then Unknown else Failed
  }

  /** The receipt of an answered call; a lease in the answer replaces the one that was sent. */
  function Final(c: Call, reply: Reply): Call {
    c.(status := StatusOf(c, reply), lease := if !reply.Silence? && reply.lease.Some? then reply.lease else c.lease)
  }

  predicate Effective(w: World, fate: Outcome) { w.current && !fate.Lost? }

  /** Writing one receipt. */
  function Write(w: World, id: Id, c: Call, fate: Outcome): World {
    if !Effective(w, fate) then w
    else if fate.StoredButFailed? && !w.aware then w.(stored := w.stored[id := c], current := false)
    else w.(stored := w.stored[id := c], known := w.known[id := c])
  }

  function Next(w: World, s: Step): World
    requires Enabled(w, s)
  {
    match s
    case Start(aware) => w.(live := true, aware := aware, current := true, known := w.stored, flight := map[])
    case Crash => w.(live := false, flight := map[])
    case Begin(id, call, fate) =>
      var next := Write(w, id, call, fate).(nextId := if id == w.nextId then w.nextId + 1 else w.nextId);
      if w.current && fate.Stored? then next.(flight := w.flight[id := Written(call)]) else next
    case Send(id) => w.(flight := w.flight[id := Sent(w.flight[id].call)], sent := w.sent + {id})
    case Answer(id, reply, grant, effect) =>
      var c := w.flight[id].call;
      w.(flight := w.flight[id := Answered(c, reply)],
         granted := if grant.Some? then w.granted[id := LeaseOf(c, grant.value)] else w.granted,
         returned := GivenBack(w.returned, c, reply, effect))
    case Finish(id, fate) =>
      var a := w.flight[id];
      var c := Final(a.call, a.reply);
      var next := Write(w, id, c, fate).(flight := w.flight - {id});
      if Effective(w, fate) && !c.status.Unknown? then next.(sent := w.sent - {id}) else next
    case Acknowledge(id, fate) =>
      var next := Write(w, id, w.known[id].(status := Acknowledged), fate);
      if Effective(w, fate) then next.(sent := w.sent - {id}) else next
  }

  /** A release gives back the lease it was sent with, surely when it is answered as done. */
  function GivenBack(returned: set<Lease>, c: Call, reply: Reply, effect: bool): set<Lease> {
    if c.phase.Release? && c.lease.Some? && (reply.Done? || effect) then returned + {LeaseOf(c, c.lease.value)}
      else returned
  }

  // ---- Invariant.

  ghost predicate Synced(w: World) {
    && (w.live && w.current ==> w.known == w.stored)
    && (!w.live ==> w.flight == map[])
    && (forall id :: id in w.stored ==> id < w.nextId)
  }

  /** The receipt of a call under way is stored as pending. */
  ghost predicate FlightsStored(w: World) {
    forall id :: id in w.flight ==> FlightStored(w, id)
  }

  ghost predicate FlightStored(w: World, id: Id)
    requires id in w.flight
  {
    var c := w.flight[id].call;
    id in w.stored && w.stored[id] == c && c.status.Pending? && WellFormed(c)
  }

  ghost predicate SentOpen(w: World) {
    forall id :: id in w.sent ==> id in w.stored && Open(w.stored[id].status)
  }

  /** A granted lease is named by its acquire receipt, or that receipt is still open or was acknowledged. */
  ghost predicate GrantStored(w: World, a: Id) {
    a in w.granted && a in w.stored &&
    var c, l := w.stored[a], w.granted[a];
    && c.kind.Credential? && c.phase.Acquire? && c.alias == l.0 && c.node == l.1
    && (c.lease == Some(l.2) || (c.lease.None? && (Open(c.status) || c.status.Acknowledged?)))
  }

  ghost predicate GrantsStored(w: World) {
    forall a :: a in w.granted ==> GrantStored(w, a)
  }

  /** An acquire receipt that names a lease names the one its call was granted. */
  ghost predicate AcquireGranted(w: World, id: Id, c: Call) {
    c.phase.Acquire? ==> c.kind.Credential? && (c.lease.Some? ==>
      id in w.granted && w.granted[id] == LeaseOf(c, c.lease.value))
  }

  ghost predicate AcquiresGranted(w: World) {
    forall id :: id in w.stored ==> AcquireGranted(w, id, w.stored[id])
  }

  /** An acquire call under way has a lease exactly when its answer says so. */
  ghost predicate FlightGrants(w: World) {
    forall id :: id in w.flight && w.flight[id].call.phase.Acquire? ==> FlightGrant(w, id)
  }

  ghost predicate FlightGrant(w: World, id: Id)
    requires id in w.flight
  {
    match w.flight[id]
    case Answered(c, reply) =>
      reply.Silence? || ((reply.lease.Some? <==> id in w.granted)
        && (id in w.granted ==> w.granted[id] == LeaseOf(c, reply.lease.value)))
    case _ => id !in w.granted
  }

  ghost predicate Inv(w: World) {
    && Synced(w) == true && FlightsStored(w) == true && SentOpen(w) == true
    && GrantsStored(w) == true && AcquiresGranted(w) == true && FlightGrants(w) == true
  }

  function Nothing(): World {
    World(map[], false, false, false, map[], map[], 0, {}, map[], {})
  }

  // ---- Writing a receipt.

  /** A receipt that may be written over the stored one. */
  ghost predicate Writable(w: World, id: Id, c: Call) {
    && id < w.nextId && id !in w.flight && (id in w.sent ==> Open(c.status)) && AcquireGranted(w, id, c)
    && (id in w.granted ==> GrantStored(w.(stored := w.stored[id := c]), id))
  }

  lemma WriteKeepsReceipts(w: World, id: Id, c: Call, fate: Outcome)
    requires GrantsStored(w) && AcquiresGranted(w) && Writable(w, id, c)
    ensures GrantsStored(Write(w, id, c, fate)) == true && AcquiresGranted(Write(w, id, c, fate)) == true
  {
    var w' := Write(w, id, c, fate);
    forall a | a in w'.granted ensures GrantStored(w', a) {
      assert GrantStored(w, a);
    }
    forall i | i in w'.stored ensures AcquireGranted(w', i, w'.stored[i]) {
      assert i in w.stored ==> AcquireGranted(w, i, w.stored[i]);
    }
  }

  lemma WriteKeepsFlights(w: World, id: Id, c: Call, fate: Outcome)
    requires FlightsStored(w) && FlightGrants(w) && id !in w.flight
    ensures FlightsStored(Write(w, id, c, fate)) == true && FlightGrants(Write(w, id, c, fate)) == true
  {
    var w' := Write(w, id, c, fate);
    forall i | i in w'.flight ensures FlightStored(w', i) {
      assert FlightStored(w, i);
    }
    forall i | i in w'.flight && w'.flight[i].call.phase.Acquire? ensures FlightGrant(w', i) {
      assert FlightGrant(w, i);
    }
  }

  lemma WriteKeepsSync(w: World, id: Id, c: Call, fate: Outcome)
    requires Synced(w) && SentOpen(w) && id < w.nextId && (id in w.sent ==> Open(c.status))
    ensures Synced(Write(w, id, c, fate)) == true && SentOpen(Write(w, id, c, fate)) == true
  {
  }

  lemma WriteKeeps(w: World, id: Id, c: Call, fate: Outcome)
    requires Inv(w) && Writable(w, id, c) == true
    ensures Inv(Write(w, id, c, fate)) == true
  {
    WriteKeepsReceipts(w, id, c, fate);
    WriteKeepsFlights(w, id, c, fate);
    WriteKeepsSync(w, id, c, fate);
  }

  // ---- Steps that change calls under way and what is known of them.

  /** The receipts stay and nothing is granted. */
  ghost predicate Aside(w: World, w': World) {
    w'.stored == w.stored && w'.granted == w.granted && w.nextId <= w'.nextId
  }

  lemma AsideKeepsReceipts(w: World, w': World)
    requires Aside(w, w') && GrantsStored(w) && AcquiresGranted(w)
    ensures GrantsStored(w') == true && AcquiresGranted(w') == true
  {
    forall a | a in w'.granted ensures GrantStored(w', a) {
      assert GrantStored(w, a);
    }
    forall i | i in w'.stored ensures AcquireGranted(w', i, w'.stored[i]) {
      assert AcquireGranted(w, i, w.stored[i]);
    }
  }

  /** Calls under way keep their call; each is where it was or newly sent, or it was forgotten. */
  ghost predicate FlightsMove(w: World, w': World) {
    forall id :: id in w'.flight ==>
      id in w.flight && w'.flight[id].call == w.flight[id].call
        && (w'.flight[id] == w.flight[id] || (!w.flight[id].Answered? && !w'.flight[id].Answered?))
  }

  lemma AsideKeepsFlights(w: World, w': World)
    requires Aside(w, w') && FlightsMove(w, w') && FlightsStored(w) && FlightGrants(w)
    ensures FlightsStored(w') == true && FlightGrants(w') == true
  {
    forall i | i in w'.flight ensures FlightStored(w', i) {
      assert FlightStored(w, i);
    }
    forall i | i in w'.flight && w'.flight[i].call.phase.Acquire? ensures FlightGrant(w', i) {
      assert FlightGrant(w, i);
    }
  }

  lemma AsideKeeps(w: World, w': World)
    requires Inv(w) && Aside(w, w') && FlightsMove(w, w') && SentOpen(w') && Synced(w')
    ensures Inv(w') == true
  {
    AsideKeepsReceipts(w, w');
    AsideKeepsFlights(w, w');
  }

  lemma SendKeeps(w: World, s: Step)
    requires Inv(w) && Enabled(w, s) && s.Send?
    ensures Inv(Next(w, s)) == true
  {
    assert FlightStored(w, s.id);
    AsideKeeps(w, Next(w, s));
  }

  lemma LifeKeeps(w: World, s: Step)
    requires Inv(w) && Enabled(w, s) && (s.Start? || s.Crash?)
    ensures Inv(Next(w, s)) == true
  {
    AsideKeeps(w, Next(w, s));
  }

  // ---- Beginning.

  function Numbered(w: World, id: Id): World {
    w.(nextId := if id == w.nextId then w.nextId + 1 else w.nextId)
  }

  /** A call that begins has obtained nothing yet. */
  lemma BeginsAfresh(w: World, s: Step)
    requires Inv(w) && Enabled(w, s) && s.Begin? && w.current
    ensures s.id !in w.granted && Writable(Numbered(w, s.id), s.id, s.call) == true
  {
    assert s.id in w.granted ==> GrantStored(w, s.id);
  }

  /** A stored pending receipt goes under way. */
  lemma TakeOff(w: World, id: Id, call: Call)
    requires Inv(w) && w.live && id in w.stored && w.stored[id] == call && call.status.Pending? && WellFormed(call)
      && id !in w.granted
    ensures Inv(w.(flight := w.flight[id := Written(call)])) == true
  {
    var w' := w.(flight := w.flight[id := Written(call)]);
    AsideKeepsReceipts(w, w');
    forall i | i in w'.flight ensures FlightStored(w', i) {
      assert i != id ==> FlightStored(w, i);
    }
    forall i | i in w'.flight && w'.flight[i].call.phase.Acquire? ensures FlightGrant(w', i) {
      assert i != id ==> FlightGrant(w, i);
    }
  }

  lemma BeginShape(w: World, s: Step)
    requires Enabled(w, s) && s.Begin?
    ensures var w' := Write(Numbered(w, s.id), s.id, s.call, s.fate);
      Next(w, s) == if w.current && s.fate.Stored? then w'.(flight := w.flight[s.id := Written(s.call)]) else w'
  {
  }

  lemma BeginKeeps(w: World, s: Step)
    requires Inv(w) && Enabled(w, s) && s.Begin?
    ensures Inv(Next(w, s)) == true
  {
    BeginShape(w, s);
    var w0 := Numbered(w, s.id);
    AsideKeeps(w, w0);
    if Effective(w, s.fate) {
      BeginsAfresh(w, s);
      WriteKeeps(w0, s.id, s.call, s.fate);
      if s.fate.Stored? {
        TakeOff(Write(w0, s.id, s.call, s.fate), s.id, s.call);
      }
    }
  }

  // ---- Answers.

  lemma AnswerGrants(w: World, s: Step)
    requires Inv(w) && Enabled(w, s) && s.Answer?
    ensures GrantsStored(Next(w, s)) == true && AcquiresGranted(Next(w, s)) == true
  {
    var w' := Next(w, s);
    assert FlightStored(w, s.id);
    assert w.flight[s.id].call.phase.Acquire? ==> FlightGrant(w, s.id);
    forall a | a in w'.granted ensures GrantStored(w', a) {
      assert a in w.granted ==> GrantStored(w, a);
    }
    forall i | i in w'.stored ensures AcquireGranted(w', i, w'.stored[i]) {
      assert AcquireGranted(w, i, w.stored[i]);
    }
  }

  lemma AnswerFlights(w: World, s: Step)
    requires Inv(w) && Enabled(w, s) && s.Answer?
    ensures FlightsStored(Next(w, s)) == true && FlightGrants(Next(w, s)) == true
  {
    var w' := Next(w, s);
    forall i | i in w'.flight ensures FlightStored(w', i) {
      assert FlightStored(w, i);
    }
    forall i | i in w'.flight && w'.flight[i].call.phase.Acquire? ensures FlightGrant(w', i) {
      assert FlightGrant(w, i);
    }
  }

  lemma AnswerKeeps(w: World, s: Step)
    requires Inv(w) && Enabled(w, s) && s.Answer?
    ensures Inv(Next(w, s)) == true
  {
    AnswerGrants(w, s);
    AnswerFlights(w, s);
  }

  // ---- Outcomes.

  lemma FinalWritable(w: World, s: Step, w0: World)
    requires Inv(w) && Enabled(w, s) && s.Finish?
    requires w0 == w.(flight := w.flight - {s.id}, sent := w0.sent)
    requires s.id in w0.sent ==> Final(w.flight[s.id].call, w.flight[s.id].reply).status.Unknown?
    ensures Writable(w0, s.id, Final(w.flight[s.id].call, w.flight[s.id].reply)) == true
  {
    assert FlightStored(w, s.id);
    assert w.flight[s.id].call.phase.Acquire? ==> FlightGrant(w, s.id);
    assert s.id in w.granted ==> GrantStored(w, s.id);
    assert AcquireGranted(w, s.id, w.stored[s.id]);
  }

  lemma FinishKeeps(w: World, s: Step)
    requires Inv(w) && Enabled(w, s) && s.Finish?
    ensures Inv(Next(w, s)) == true
  {
    var c := Final(w.flight[s.id].call, w.flight[s.id].reply);
    var w0 := w.(flight := w.flight - {s.id}, sent := if Effective(w, s.fate) && !c.status.Unknown? then w.sent - {s.id}
      else w.sent);
    AsideKeeps(w, w0);
    if Effective(w, s.fate) {
      FinalWritable(w, s, w0);
      WriteKeeps(w0, s.id, c, s.fate);
    }
  }

  lemma AcknowledgeKeeps(w: World, s: Step)
    requires Inv(w) && Enabled(w, s) && s.Acknowledge?
    ensures Inv(Next(w, s)) == true
  {
    if Effective(w, s.fate) {
      var w0 := w.(sent := w.sent - {s.id});
      AsideKeeps(w, w0);
      assert s.id in w.granted ==> GrantStored(w, s.id);
      assert AcquireGranted(w, s.id, w.stored[s.id]);
      WriteKeeps(w0, s.id, w.known[s.id].(status := Acknowledged), s.fate);
    }
  }

  lemma StepKeeps(w: World, s: Step)
    requires Inv(w) && Enabled(w, s)
    ensures Inv(Next(w, s)) == true
  {
    match s
    case Begin(_, _, _) => BeginKeeps(w, s);
    case Send(_) => SendKeeps(w, s);
    case Answer(_, _, _, _) => AnswerKeeps(w, s);
    case Finish(_, _) => FinishKeeps(w, s);
    case Acknowledge(_, _) => AcknowledgeKeeps(w, s);
    case _ => LifeKeeps(w, s);
  }

  // ---- Whole runs.

  ghost predicate IsRun(run: seq<World>, steps: seq<Step>) {
    && |run| == |steps| + 1 && run[0] == Nothing()
    && forall k: nat :: k < |steps| ==> Goes(run, steps, k)
  }

  predicate Goes(run: seq<World>, steps: seq<Step>, k: nat)
    requires k < |steps| && |run| == |steps| + 1
  {
    Enabled(run[k], steps[k]) && run[k + 1] == Next(run[k], steps[k])
  }

  lemma {:induction false} RunInv(run: seq<World>, steps: seq<Step>, k: nat)
    requires IsRun(run, steps) && k < |run|
    ensures Inv(run[k]) == true
  {
    if k > 0 {
      RunInv(run, steps, k - 1);
      assert Goes(run, steps, k - 1);
      StepKeeps(run[k - 1], steps[k - 1]);
    }
  }

  /** What was sent is recorded, whatever fails or crashes. */
  lemma SentRecorded(run: seq<World>, steps: seq<Step>, k: nat, id: Id)
    requires IsRun(run, steps) && k < |run| && id in run[k].sent
    ensures id in run[k].stored && Open(run[k].stored[id].status)
  {
    RunInv(run, steps, k);
  }

  /** A guarded call that was sent counts as open until it was answered or acknowledged: silence settles
      nothing. */
  lemma OpenUntilAnswered(run: seq<World>, steps: seq<Step>, k: nat, id: Id)
    requires IsRun(run, steps) && k < |steps| && id in run[k].sent && id !in run[k + 1].sent
    ensures (steps[k].Acknowledge? && steps[k].id == id)
      || (steps[k].Finish? && steps[k].id == id && id in run[k].flight && run[k].flight[id].Answered?
          && (run[k].flight[id].reply.Silence? ==> !Guarded(run[k].flight[id].call)))
  {
    assert Goes(run, steps, k);
  }

  /** An identifier sent once already is only sent again for a call that may be repeated. */
  ghost predicate Repeatable(w: World, id: Id) {
    id < w.nextId && (id in w.flight && w.flight[id].Written? ==> w.flight[id].call.effect.IdempotentExternal?)
  }

  lemma RepeatableStays(w: World, s: Step, id: Id)
    requires Enabled(w, s) && Repeatable(w, id)
    ensures Repeatable(Next(w, s), id)
  {
  }

  lemma {:induction false} RepeatableSince(run: seq<World>, steps: seq<Step>, j: nat, k: nat, id: Id)
    requires IsRun(run, steps) && j < k < |run| && steps[j] == Send(id)
    ensures Repeatable(run[k], id)
    decreases k
  {
    assert Goes(run, steps, k - 1);
    if k == j + 1 {
      RunInv(run, steps, j);
      assert FlightStored(run[j], id);
    } else {
      RepeatableSince(run, steps, j, k - 1, id);
      RepeatableStays(run[k - 1], steps[k - 1], id);
    }
  }

  /** No request is sent twice unless its effect is idempotent. */
  lemma SentOnce(run: seq<World>, steps: seq<Step>, j: nat, k: nat, id: Id)
    requires IsRun(run, steps) && j < k < |steps| && steps[j] == Send(id) && steps[k] == Send(id)
    ensures id in run[k].flight && run[k].flight[id].call.effect.IdempotentExternal?
  {
    RepeatableSince(run, steps, j, k, id);
    assert Goes(run, steps, k);
  }

  /** A receipt holds up recovery by itself. */
  predicate HoldsUp(calls: set<Call>, c: Call) {
    !c.status.Acknowledged? && !Excused(calls, c) && Blocking(c)
  }

  /** A guarded call that was sent and has no recorded outcome holds up recovery exactly when its lease
      was not recorded as given back. */
  lemma SentVisible(run: seq<World>, steps: seq<Step>, k: nat, id: Id)
    requires IsRun(run, steps) && k < |run| && id in run[k].sent && id in run[k].stored && Guarded(run[k].stored[id])
    ensures HoldsUp(run[k].stored.Values, run[k].stored[id]) <==> !Excused(run[k].stored.Values, run[k].stored[id])
    ensures !Excused(run[k].stored.Values, run[k].stored[id]) ==> Unresolved(run[k].stored.Values)
  {
    RunInv(run, steps, k);
    var c := run[k].stored[id];
    assert c in run[k].stored.Values && Open(c.status) && Blocking(c);
  }

  // ---- Leases.

  predicate Names(c: Call, l: Lease) {
    c.lease == Some(l.2) && c.alias == l.0 && c.node == l.1
  }

  /** Some release receipt that is completed or acknowledged names the lease. */
  predicate RecordedAsReleased(stored: map<Id, Call>, l: Lease) {
    exists id :: id in stored && Releases(stored[id]) && Names(stored[id], l)
  }

  /** A granted lease holds up recovery through its own acquire receipt exactly when that receipt is not
      acknowledged, and either does not name the lease yet or no settled release receipt names it. */
  lemma LeaseHoldsUp(run: seq<World>, steps: seq<Step>, k: nat, a: Id)
    requires IsRun(run, steps) && k < |run| && a in run[k].granted
    ensures a in run[k].stored
    ensures var st := run[k].stored;
      HoldsUp(st.Values, st[a]) <==>
        !st[a].status.Acknowledged? && (st[a].lease.None? || !RecordedAsReleased(st, run[k].granted[a]))
    ensures HoldsUp(run[k].stored.Values, run[k].stored[a]) ==> Unresolved(run[k].stored.Values)
  {
    RunInv(run, steps, k);
    var st, l := run[k].stored, run[k].granted[a];
    assert GrantStored(run[k], a);
    assert st[a] in st.Values;
    if Excused(st.Values, st[a]) {
      var r :| r in st.Values && Releases(r) && SameLease(r, st[a]);
      var id :| id in st && st[id] == r;
      assert Names(st[id], l);
    }
    if st[a].lease.Some? && RecordedAsReleased(st, l) {
      var id :| id in st && Releases(st[id]) && Names(st[id], l);
      assert st[id] in st.Values && SameLease(st[id], st[a]);
    }
  }

  /** No answer to a release names a lease that was not given back. */
  predicate Truthful(w: World, s: Step)
    requires Enabled(w, s)
  {
    s.Answer? && w.flight[s.id].call.phase.Release? && s.reply.Done? && s.reply.lease.Some? ==>
      LeaseOf(w.flight[s.id].call, s.reply.lease.value) in Next(w, s).returned
  }

  ghost predicate TruthfulRun(run: seq<World>, steps: seq<Step>, k: nat)
    requires IsRun(run, steps) && k < |run|
  {
    forall j: nat :: j < k ==> Goes(run, steps, j) && Truthful(run[j], steps[j])
  }

  ghost predicate ReleaseTrue(w: World, c: Call) {
    c.phase.Release? && c.status.Completed? && c.lease.Some? ==> LeaseOf(c, c.lease.value) in w.returned
  }

  ghost predicate FlightTrue(w: World, id: Id)
    requires id in w.flight
  {
    w.flight[id].Answered? ==> ReleaseTrue(w, Final(w.flight[id].call, w.flight[id].reply))
  }

  /** Every lease recorded as released was given back. */
  ghost predicate ReleasesTrue(w: World) {
    && (forall id :: id in w.stored ==> ReleaseTrue(w, w.stored[id]))
    && (forall id :: id in w.flight ==> FlightTrue(w, id))
  }

  /** A step leaves a receipt alone, or writes one that is not completed or one that closes a call under way. */
  lemma ReceiptOrigin(w: World, s: Step, i: Id)
    requires Enabled(w, s) && i in Next(w, s).stored
    ensures var c := Next(w, s).stored[i];
      || (i in w.stored && c == w.stored[i])
      || !c.status.Completed?
      || (s.Finish? && c == Final(w.flight[s.id].call, w.flight[s.id].reply))
  {
    match s
    case Begin(id, call, fate) => WriteOrigin(w, id, call, fate, i);
    case Finish(id, fate) => WriteOrigin(w, id, Final(w.flight[id].call, w.flight[id].reply), fate, i);
    case Acknowledge(id, fate) => WriteOrigin(w, id, w.known[id].(status := Acknowledged), fate, i);
    case _ =>
  }

  lemma WriteOrigin(w: World, id: Id, c: Call, fate: Outcome, i: Id)
    requires i in Write(w, id, c, fate).stored
    ensures (i in w.stored && Write(w, id, c, fate).stored[i] == w.stored[i]) || Write(w, id, c, fate).stored[i] == c
  {
  }

  lemma ReturnedGrows(w: World, s: Step)
    requires Enabled(w, s)
    ensures w.returned <= Next(w, s).returned
  {
  }

  lemma TrueReceipts(w: World, s: Step)
    requires ReleasesTrue(w) && Enabled(w, s) == true
    requires s.Finish? ==> s.id in w.flight && w.flight[s.id].Answered?
    ensures forall id :: id in Next(w, s).stored ==> ReleaseTrue(Next(w, s), Next(w, s).stored[id])
  {
    ReturnedGrows(w, s);
    forall i | i in Next(w, s).stored ensures ReleaseTrue(Next(w, s), Next(w, s).stored[i]) {
      ReceiptOrigin(w, s, i);
      assert i in w.stored ==> ReleaseTrue(w, w.stored[i]);
      assert s.Finish? ==> FlightTrue(w, s.id);
    }
  }

  lemma TrueFlights(w: World, s: Step)
    requires ReleasesTrue(w) && Enabled(w, s) && Truthful(w, s) && FlightsStored(w)
    ensures forall id :: id in Next(w, s).flight ==> FlightTrue(Next(w, s), id)
  {
    var w' := Next(w, s);
    forall i | i in w'.flight ensures FlightTrue(w', i) {
      assert i in w.flight ==> FlightTrue(w, i) && FlightStored(w, i);
    }
  }

  lemma TruthKept(w: World, s: Step)
    requires ReleasesTrue(w) == true && Enabled(w, s) && Truthful(w, s) && FlightsStored(w) == true
    ensures ReleasesTrue(Next(w, s)) == true
  {
    TrueReceipts(w, s);
    TrueFlights(w, s);
  }

  lemma {:induction false} TruthfulReleases(run: seq<World>, steps: seq<Step>, k: nat)
    requires IsRun(run, steps) && k < |run| && TruthfulRun(run, steps, k)
    ensures ReleasesTrue(run[k]) == true
  {
    if k > 0 {
      TruthfulReleases(run, steps, k - 1);
      RunInv(run, steps, k - 1);
      assert Goes(run, steps, k - 1) && Truthful(run[k - 1], steps[k - 1]);
      TruthKept(run[k - 1], steps[k - 1]);
    }
  }

  predicate AcknowledgedRelease(c: Call, l: Lease) {
    c.phase.Release? && c.status.Acknowledged? && Names(c, l)
  }

  /** Leases are conserved as long as answers are truthful: one that was granted and not given back holds up
      recovery until an operator acknowledges its acquire call or a release of it. */
  lemma LeaseVisible(run: seq<World>, steps: seq<Step>, k: nat, a: Id)
    requires IsRun(run, steps) && k < |run| && TruthfulRun(run, steps, k)
    requires a in run[k].granted && run[k].granted[a] !in run[k].returned
    ensures a in run[k].stored
    ensures Unresolved(run[k].stored.Values) || run[k].stored[a].status.Acknowledged?
      || exists id :: id in run[k].stored && AcknowledgedRelease(run[k].stored[id], run[k].granted[a])
  {
    LeaseHoldsUp(run, steps, k, a);
    TruthfulReleases(run, steps, k);
    var st, l := run[k].stored, run[k].granted[a];
    if RecordedAsReleased(st, l) {
      var id :| id in st && Releases(st[id]) && Names(st[id], l);
      assert ReleaseTrue(run[k], st[id]);
      assert AcknowledgedRelease(st[id], l);
    }
  }

  // ---- The other half: nothing is held up once all is settled.

  /** The call has an outcome that leaves no effect to settle. */
  predicate Closed(c: Call) {
    c.status.Completed? || c.status.Acknowledged?
      || (c.status.Failed? && !(c.enforce && External(c.effect) && (c.kind.Observer? || c.kind.Credential?)))
  }

  /** Every receipt is closed, and every granted lease is recorded as released or its acquire call acknowledged. */
  ghost predicate Settled(w: World) {
    && (forall id :: id in w.stored ==> Closed(w.stored[id]))
    && (forall a :: a in w.granted ==>
      RecordedAsReleased(w.stored, w.granted[a]) || (a in w.stored && w.stored[a].status.Acknowledged?))
  }

  lemma SettledClears(run: seq<World>, steps: seq<Step>, k: nat)
    requires IsRun(run, steps) && k < |run| && Settled(run[k])
    ensures !Unresolved(run[k].stored.Values)
  {
    RunInv(run, steps, k);
    var w := run[k];
    forall c | c in w.stored.Values && !c.status.Acknowledged? && Blocking(c) ensures Excused(w.stored.Values, c) {
      var a :| a in w.stored && w.stored[a] == c;
      assert AcquireGranted(w, a, c);
      var id :| id in w.stored && Releases(w.stored[id]) && Names(w.stored[id], w.granted[a]);
      assert w.stored[id] in w.stored.Values && SameLease(w.stored[id], c);
    }
  }

  // ---- A run that loses a lease.

  lemma Extend(run: seq<World>, steps: seq<Step>, s: Step) returns (run': seq<World>, steps': seq<Step>)
    requires IsRun(run, steps) && Enabled(run[|steps|], s)
    ensures IsRun(run', steps') && |steps'| == |steps| + 1 && run'[|steps'|] == Next(run[|steps|], s)
  {
    run', steps' := run + [Next(run[|steps|], s)], steps + [s];
    forall k: nat | k < |steps'| ensures Goes(run', steps', k) {
      assert k < |steps| ==> Goes(run, steps, k);
    }
  }

  predicate Idle(w: World) { w.live && w.current && w.known == w.stored && w.flight == map[] }

  /** A fresh call from beginning to end, every write succeeding. */
  function AfterCall(w: World, c: Call, reply: Reply, grant: Option<string>): World {
    var stored := w.stored[w.nextId := Final(c, reply)];
    w.(stored := stored, known := stored, nextId := w.nextId + 1,
       granted := if grant.Some? then w.granted[w.nextId := LeaseOf(c, grant.value)] else w.granted,
       returned := GivenBack(w.returned, c, reply, false))
  }

  lemma RunCall(run: seq<World>, steps: seq<Step>, c: Call, reply: Reply, grant: Option<string>)
    returns (run': seq<World>, steps': seq<Step>)
    requires IsRun(run, steps) && Idle(run[|steps|]) && run[|steps|].sent == {}
    requires WellFormed(c) && c.status.Pending? && Grants(c, reply, grant) && !reply.Silence?
    requires grant.Some? ==> LeaseOf(c, grant.value) !in run[|steps|].granted.Values
    ensures IsRun(run', steps') && run'[|steps'|] == AfterCall(run[|steps|], c, reply, grant)
  {
    var id := run[|steps|].nextId;
    run', steps' := RunSend(run, steps, c);
    run', steps' := Extend(run', steps', Answer(id, reply, grant, false));
    run', steps' := Extend(run', steps', Finish(id, Stored));
    var w, w' := run[|steps|], run'[|steps'|];
    assert w'.sent == w.sent && w'.flight == w.flight && w'.stored == AfterCall(w, c, reply, grant).stored;
  }

  lemma RunSend(run: seq<World>, steps: seq<Step>, c: Call) returns (run': seq<World>, steps': seq<Step>)
    requires IsRun(run, steps) && Idle(run[|steps|]) && WellFormed(c) && c.status.Pending?
    ensures IsRun(run', steps')
    ensures var w := run[|steps|]; var id, stored := w.nextId, w.stored[w.nextId := c];
      run'[|steps'|] == w.(stored := stored, known := stored, nextId := id + 1, flight := map[id := Sent(c)],
        sent := w.sent + {id})
  {
    var id := run[|steps|].nextId;
    run', steps' := Extend(run, steps, Begin(id, c, Stored));
    run', steps' := Extend(run', steps', Send(id));
  }

  function CredentialCall(phase: Phase, lease: Option<string>): Call {
    Call("vault", "app", Credential, IdempotentExternal, true, phase, lease, Pending)
  }

  /** Two leases; the release of the second is answered with the first, whose own release is refused; the
      second is then released again. */
  lemma LeaseLost(x: string, y: string) returns (run: seq<World>, steps: seq<Step>)
    requires x != y
    ensures IsRun(run, steps)
    ensures var w := run[|steps|];
      && 0 in w.granted && w.granted[0] == ("vault", "app", x) && w.granted[0] !in w.returned
      && (forall id :: id in w.stored ==> !w.stored[id].status.Acknowledged?)
      && !Unresolved(w.stored.Values)
  {
    run, steps := Extend([Nothing()], [], Start(false));
    run, steps := RunCall(run, steps, CredentialCall(Acquire, None), Done(Some(x)), Some(x));
    run, steps := RunCall(run, steps, CredentialCall(Acquire, None), Done(Some(y)), Some(y));
    run, steps := RunCall(run, steps, CredentialCall(Release, Some(y)), Done(Some(x)), None);
    run, steps := RunCall(run, steps, CredentialCall(Release, Some(x)), Refused(None), None);
    run, steps := RunCall(run, steps, CredentialCall(Release, Some(y)), Done(Some(y)), None);
    LostState(x, y, run[|steps|]);
  }

  lemma LostState(x: string, y: string, w: World)
    requires x != y
    requires w.stored == map[
      0 := CredentialCall(Acquire, Some(x)).(status := Completed),
      1 := CredentialCall(Acquire, Some(y)).(status := Completed),
      2 := CredentialCall(Release, Some(x)).(status := Completed),
      3 := CredentialCall(Release, Some(x)).(status := Failed),
      4 := CredentialCall(Release, Some(y)).(status := Completed)]
    ensures !Unresolved(w.stored.Values)
  {
    var calls := w.stored.Values;
    assert w.stored[2] in calls && w.stored[4] in calls;
    forall c | c in calls && Blocking(c) ensures Excused(calls, c) {
      var i :| i in w.stored && w.stored[i] == c;
      assert SameLease(w.stored[2], c) || SameLease(w.stored[4], c);
    }
  }
}
