/** runLevels: the level loop behind plan, apply and destroy.

    Workers of one level run concurrently; a run of the machine below is any interleaving of their
    steps.  Launch limits only remove interleavings, so they are not modelled. */
module Scheduler {
  import opened Options
  import opened Names
  import opened Graphs
  import Selections
  import Topo

  type Outputs = map<string, string>

  datatype Status = Success | Failed | NotRun

  datatype NodeRun = NodeRun(node: string, level: nat, status: Status)

  /** What a node's own action returned. */
  datatype Result = Succeeded(outputs: Option<Outputs>) | ActionFailed

  /** A launched worker either never reaches its action or runs it on the outputs it was shown. */
  datatype Worker = Skipping | Acting(seen: map<string, Outputs>)

  datatype Stage = Head | Inside | Exited(error: bool)

  datatype Config = Config(g: Graph, levels: seq<seq<string>>, keepGoing: bool)

  datatype State = State(
    li: nat, stage: Stage,
    applied: map<string, Outputs>, failed: set<string>, runs: seq<NodeRun>, firstError: bool,
    blocked: set<string>, snapshot: map<string, Outputs>,
    begun: map<string, Worker>, finished: set<string>, results: map<string, Result>)

  datatype Action =
    | Cancel                                  // the context is done when a level is about to start
    | Enter                                   // a level starts: blocked and snapshot are taken
    | Skip(name: string, because: Reason)     // a worker gives up before its action
    | Act(name: string)                       // a worker calls its action
    | Finish(name: string, result: Result)    // a worker records its outcome under the mutex
    | EndLevel(abort: bool)                   // all workers are back; `abort` is a plugin or afterLevel error
    | Done                                    // no level is left

  datatype Reason = ContextDone | Dependency(parent: string) | PluginRefused

  function Initial(): State {
    State(0, Head, map[], {}, [], false, {}, map[], map[], {}, map[])
  }

  function Before(levels: seq<seq<string>>, k: nat): set<string>
    requires k <= |levels|
  {
    if k == 0 then {} else Before(levels, k - 1) + Elems(levels[k - 1])
  }

  predicate HasBlockedParent(c: Config, s: State, name: string) {
    exists p :: p in In(c.g, name) && p in s.blocked
  }

  ghost predicate Enabled(c: Config, s: State, a: Action) {
    match a
    case Cancel => s.stage.Head? && s.li < |c.levels|
    case Enter => s.stage.Head? && s.li < |c.levels|
    case Skip(name, because) =>
      && s.stage.Inside? && s.li < |c.levels| && name in c.levels[s.li] && name !in s.begun
      && (because.Dependency? ==> c.keepGoing && because.parent in In(c.g, name) && because.parent in s.blocked)
    case Act(name) =>
      && s.stage.Inside? && s.li < |c.levels| && name in c.levels[s.li] && name !in s.begun
      && !(c.keepGoing && HasBlockedParent(c, s, name))
    case Finish(name, result) =>
      && s.stage.Inside? && s.li < |c.levels| && name in c.levels[s.li] && name in s.begun && name !in s.finished
    case EndLevel(abort) =>
      s.stage.Inside? && s.li < |c.levels| && Elems(c.levels[s.li]) <= s.finished
    case Done => s.stage.Head? && s.li == |c.levels|
  }

  function LevelRuns(level: seq<string>, number: nat): seq<NodeRun> {
    seq(|level|, i requires 0 <= i < |level| => NodeRun(level[i], number, NotRun))
  }

  function MarkNotRun(runs: seq<NodeRun>, levels: seq<seq<string>>, from: nat): seq<NodeRun>
    decreases |levels| - from
  {
    if from >= |levels| then runs
    else MarkNotRun(runs + LevelRuns(levels[from], from + 1), levels, from + 1)
  }

  /** markNotRun as the loop over the levels that were never reached. */
  method MarkRemaining(runs: seq<NodeRun>, levels: seq<seq<string>>, from: nat) returns (r: seq<NodeRun>)
    requires from <= |levels|
    ensures r == MarkNotRun(runs, levels, from)
  {
    r := runs;
    for i := from to |levels|
      invariant MarkNotRun(r, levels, i) == MarkNotRun(runs, levels, from)
    {
      ghost var before := r;
      for j := 0 to |levels[i]|
        invariant r == before + LevelRuns(levels[i], i + 1)[..j]
      {
        r := r + [NodeRun(levels[i][j], i + 1, NotRun)];
      }
      assert r == before + LevelRuns(levels[i], i + 1);
    }
  }

  /** Whether a worker of the current level failed. */
  ghost predicate LevelFailed(c: Config, s: State)
    requires s.li < |c.levels|
  {
    exists n :: n in c.levels[s.li] && n in s.failed
  }

  ghost function After(c: Config, s: State, a: Action): State
    requires Enabled(c, s, a)
  {
    match a
    case Cancel => s.(stage := Exited(true), runs := MarkNotRun(s.runs, c.levels, s.li))
    case Enter => s.(stage := Inside, blocked := s.failed, snapshot := s.applied)
    case Skip(name, _) => s.(begun := s.begun[name := Skipping])
    case Act(name) => s.(begun := s.begun[name := Acting(s.snapshot)])
    case Finish(name, result) => Finished(s, name, result)
    case EndLevel(abort) =>
      if abort || (LevelFailed(c, s) && !c.keepGoing)
      then s.(stage := Exited(true), runs := MarkNotRun(s.runs, c.levels, s.li + 1))
      else s.(stage := Head, li := s.li + 1, firstError := s.firstError || LevelFailed(c, s))
    case Done => s.(stage := Exited(s.firstError))
  }

  function Finished(s: State, name: string, result: Result): State
    requires name in s.begun
  {
    var done := s.(finished := s.finished + {name});
    if s.begun[name].Skipping? then
      done.(failed := s.failed + {name}, runs := s.runs + [NodeRun(name, s.li + 1, NotRun)])
    else if result.ActionFailed? then
      done.(failed := s.failed + {name}, runs := s.runs + [NodeRun(name, s.li + 1, Failed)],
        results := s.results[name := result])
    else
      done.(runs := s.runs + [NodeRun(name, s.li + 1, Success)], results := s.results[name := result],
            applied := if result.outputs.Some? then s.applied[name := result.outputs.value] else s.applied)
  }

  /** `t` is reached from `s` by the steps `run`. */
  ghost predicate Runs(c: Config, s: State, run: seq<Action>, t: State)
    decreases |run|
  {
    if run == [] then s == t
    else Enabled(c, s, run[0]) && Runs(c, After(c, s, run[0]), run[1..], t)
  }

  // ---- The invariant.

  /** No node is on two levels. */
  ghost predicate Layered(levels: seq<seq<string>>) {
    forall k {:trigger Before(levels, k)} :: 0 <= k < |levels| ==> Elems(levels[k]) !! Before(levels, k)
  }

  ghost predicate SortedLevels(levels: seq<seq<string>>) {
    forall k {:trigger StrictlySorted(levels[k])} :: 0 <= k < |levels| ==> StrictlySorted(levels[k])
  }

  /** The outputs produced so far by the given nodes. */
  ghost function OutputsOf(results: map<string, Result>, names: set<string>): map<string, Outputs> {
    map n | n in names && n in results && results[n].Succeeded? && results[n].outputs.Some? :: results[n].outputs.value
  }

  ghost function StatusOf(s: State, n: string): Status {
    if n in s.results then (if s.results[n].ActionFailed? then Failed else Success) else NotRun
  }

  ghost predicate Progress(c: Config, s: State) {
    && s.li <= |c.levels|
    && s.finished <= s.begun.Keys
    && (s.stage.Head? ==> s.begun.Keys == s.finished == Before(c.levels, s.li))
    && (s.stage.Inside? ==>
      s.li < |c.levels| && Before(c.levels, s.li) <= s.finished && s.begun.Keys <= Before(c.levels, s.li + 1))
    && (s.stage.Exited? ==> s.finished == s.begun.Keys && exists k ::
      0 <= k <= |c.levels| && s.finished == Before(c.levels, k))
  }

  /** A finished worker has a result exactly when it acted, and failed unless that result is a success. */
  ghost predicate Verdicts(s: State) {
    && s.results.Keys <= s.finished <= s.begun.Keys
    && s.failed <= s.finished
    && (forall n {:trigger n in s.results} :: n in s.finished ==> (n in s.results <==> s.begun[n].Acting?))
    && (forall n {:trigger n in s.failed} :: n in s.finished ==>
      (n in s.failed <==> n !in s.results || s.results[n].ActionFailed?))
    && s.applied == OutputsOf(s.results, s.finished)
  }

  ghost predicate LevelView(c: Config, s: State)
    requires s.li <= |c.levels|
  {
    && (s.stage.Inside? ==>
      s.snapshot == OutputsOf(s.results, Before(c.levels, s.li)) && s.blocked == s.failed * Before(c.levels, s.li))
    && (!c.keepGoing && !s.stage.Exited? ==> s.failed * Before(c.levels, s.li) == {})
  }

  /** What held for a worker when it called its action. */
  ghost predicate StartedWell(c: Config, s: State, k: nat, n: string)
    requires k < |c.levels| && n in s.begun && s.begun[n].Acting?
  {
    && Before(c.levels, k) <= s.finished
    && s.begun[n].seen == OutputsOf(s.results, Before(c.levels, k))
    && (!c.keepGoing ==> s.failed * Before(c.levels, k) == {})
    && (c.keepGoing ==> forall p :: p in In(c.g, n) && p in Before(c.levels, k) ==> p !in s.failed)
  }

  ghost predicate AllStartedWell(c: Config, s: State) {
    forall k, n {:trigger StartedWell(c, s, k, n)} ::
      0 <= k < |c.levels| && n in c.levels[k] && n in s.begun && s.begun[n].Acting? ==> StartedWell(c, s, k, n)
  }

  ghost predicate RunCorrect(c: Config, s: State, r: NodeRun) {
    && 0 < r.level <= |c.levels|
    && r.node in c.levels[r.level - 1]
    && r.status == StatusOf(s, r.node)
  }

  function NamesOf(runs: seq<NodeRun>): seq<string> {
    seq(|runs|, i requires 0 <= i < |runs| => runs[i].node)
  }

  /** One report entry per name, each with its level and verdict. */
  ghost predicate Covers(c: Config, s: State, runs: seq<NodeRun>, names: set<string>) {
    && multiset(NamesOf(runs)) == multiset(names)
    && (forall i :: 0 <= i < |runs| ==> RunCorrect(c, s, runs[i]))
  }

  ghost predicate Inv(c: Config, s: State) {
    && Progress(c, s)
    && Verdicts(s)
    && LevelView(c, s)
    && AllStartedWell(c, s)
    && Covers(c, s, s.runs, if s.stage.Exited? then Before(c.levels, |c.levels|) else s.finished)
  }

  // ---- Levels.

  lemma {:induction false} BeforeMonotone(levels: seq<seq<string>>, j: nat, k: nat)
    requires j <= k <= |levels|
    ensures Before(levels, j) <= Before(levels, k)
    decreases k
  {
    if j < k { BeforeMonotone(levels, j, k - 1); }
  }

  lemma {:induction false} BeforeMember(levels: seq<seq<string>>, k: nat, n: string)
    requires k <= |levels|
    ensures n in Before(levels, k) <==> exists j :: 0 <= j < k && n in levels[j]
  {
    if k > 0 { BeforeMember(levels, k - 1, n); }
  }

  lemma InLevelAfterBefore(levels: seq<seq<string>>, j: nat, k: nat, n: string)
    requires Layered(levels) && j < |levels| && k <= |levels| && n in levels[j]
    ensures n in Before(levels, k) <==> j < k
  {
    if j < k {
      BeforeMonotone(levels, j + 1, k);
    } else {
      BeforeMonotone(levels, k, j);
      assert n in Elems(levels[j]);
    }
  }

  lemma ScheduleIsLayered(g: Graph, names: set<string>, reverse: bool, levels: seq<seq<string>>)
    requires Selections.Schedule(g, names, reverse, levels)
    ensures Layered(levels) && SortedLevels(levels) && Before(levels, |levels|) == names
  {
    forall k | 0 <= k < |levels| ensures Elems(levels[k]) !! Before(levels, k) {
      forall n | n in levels[k] ensures n !in Before(levels, k) { BeforeMember(levels, k, n); }
    }
    forall n ensures n in Before(levels, |levels|) <==> n in names {
      BeforeMember(levels, |levels|, n);
      assert Topo.InSome(levels, n) <==> exists j :: 0 <= j < |levels| && n in levels[j];
    }
  }

  // ---- Every step keeps the invariant.

  lemma InitialInv(c: Config)
    requires Layered(c.levels)
    ensures Inv(c, Initial())
  {
    assert Before(c.levels, 0) == {};
    assert OutputsOf(map[], {}) == map[];
    assert NamesOf([]) == [];
  }

  lemma NamesOfAppend(runs: seq<NodeRun>, more: seq<NodeRun>)
    ensures NamesOf(runs + more) == NamesOf(runs) + NamesOf(more)
  {
  }

  // Steps that leave the workers alone carry their facts over.

  lemma FrameStarted(c: Config, s: State, t: State)
    requires AllStartedWell(c, s)
    requires t.begun == s.begun && t.finished == s.finished && t.results == s.results && t.failed == s.failed
    ensures AllStartedWell(c, t)
  {
    forall k, n | 0 <= k < |c.levels| && n in c.levels[k] && n in t.begun && t.begun[n].Acting?
      ensures StartedWell(c, t, k, n) {
      assert StartedWell(c, s, k, n);
    }
  }

  lemma FrameCovers(c: Config, s: State, t: State, runs: seq<NodeRun>, names: set<string>)
    requires Covers(c, s, runs, names) && t.results == s.results
    ensures Covers(c, t, runs, names)
  {
    forall i | 0 <= i < |runs| ensures RunCorrect(c, t, runs[i]) { assert RunCorrect(c, s, runs[i]); }
  }

  lemma EnterInv(c: Config, s: State)
    requires Inv(c, s) && Enabled(c, s, Enter)
    ensures Inv(c, After(c, s, Enter))
  {
    var t := After(c, s, Enter);
    BeforeMonotone(c.levels, s.li, s.li + 1);
    FrameStarted(c, s, t);
    FrameCovers(c, s, t, s.runs, s.finished);
  }

  lemma BeginInv(c: Config, s: State, a: Action)
    requires Layered(c.levels) && Inv(c, s) && (a.Skip? || a.Act?) && Enabled(c, s, a)
    ensures Inv(c, After(c, s, a))
  {
    var t := After(c, s, a);
    forall k, n | 0 <= k < |c.levels| && n in c.levels[k] && n in t.begun && t.begun[n].Acting?
      ensures StartedWell(c, t, k, n) {
      if n in s.begun {
        assert StartedWell(c, s, k, n);
      } else {
        InLevelAfterBefore(c.levels, s.li, k, n);
        InLevelAfterBefore(c.levels, k, s.li, n);
        assert k == s.li;
      }
    }
    FrameCovers(c, s, t, s.runs, s.finished);
  }

  lemma OutputsExtend(results: map<string, Result>, names: set<string>, name: string, result: Result)
    requires results.Keys <= names && name !in names
    ensures OutputsOf(results, names + {name}) == OutputsOf(results, names)
    ensures result.ActionFailed? || result.outputs.None? ==>
      OutputsOf(results[name := result], names + {name}) == OutputsOf(results, names)
    ensures result.Succeeded? && result.outputs.Some? ==>
              OutputsOf(results[name := result], names + {name}) ==
                OutputsOf(results, names)[name := result.outputs.value]
  {
  }

  lemma FinishVerdicts(s: State, name: string, result: Result)
    requires Verdicts(s) && name in s.begun && name !in s.finished
    ensures Verdicts(Finished(s, name, result)) == true
  {
    OutputsExtend(s.results, s.finished, name, result);
    var t := Finished(s, name, result);
    if s.begun[name].Skipping? {
      assert Verdicts(t);
    } else {
      assert t.results == s.results[name := result];
      assert Verdicts(t);
    }
  }

  lemma FinishKeepsOutputs(c: Config, s: State, name: string, result: Result, k: nat)
    requires Layered(c.levels) && name in s.begun && s.li < |c.levels| && name in c.levels[s.li] && k <= s.li
    ensures OutputsOf(Finished(s, name, result).results, Before(c.levels, k)) ==
      OutputsOf(s.results, Before(c.levels, k))
    ensures Finished(s, name, result).failed * Before(c.levels, k) == s.failed * Before(c.levels, k)
  {
    InLevelAfterBefore(c.levels, s.li, k, name);
  }

  lemma FinishStarted(c: Config, s: State, name: string, result: Result)
    requires Layered(c.levels) && AllStartedWell(c, s) && name in s.begun && s.li < |c.levels| && name in c.levels[s.li]
    requires s.begun.Keys <= Before(c.levels, s.li + 1)
    ensures AllStartedWell(c, Finished(s, name, result))
  {
    var t := Finished(s, name, result);
    forall k, n | 0 <= k < |c.levels| && n in c.levels[k] && n in t.begun && t.begun[n].Acting?
      ensures StartedWell(c, t, k, n) {
      assert StartedWell(c, s, k, n);
      InLevelAfterBefore(c.levels, k, s.li + 1, n);
      FinishKeepsOutputs(c, s, name, result, k);
      assert forall p :: p in Before(c.levels, k) ==> (p in t.failed <==> p in t.failed * Before(c.levels, k));
      assert forall p :: p in Before(c.levels, k) ==> (p in s.failed <==> p in s.failed * Before(c.levels, k));
    }
  }

  lemma FinishInv(c: Config, s: State, name: string, result: Result)
    requires Layered(c.levels) && Inv(c, s) && Enabled(c, s, Finish(name, result))
    ensures Inv(c, After(c, s, Finish(name, result))) == true
  {
    var t := Finished(s, name, result);
    FinishVerdicts(s, name, result);
    FinishKeepsOutputs(c, s, name, result, s.li);
    FinishStarted(c, s, name, result);
    FinishCovers(c, s, name, result);
    assert Progress(c, t);
    assert LevelView(c, t);
  }

  lemma CoversExtend(c: Config, s: State, t: State, runs: seq<NodeRun>, names: set<string>, more: NodeRun)
    requires Covers(c, s, runs, names) && more.node !in names && RunCorrect(c, t, more)
    requires forall n :: n in names ==> StatusOf(t, n) == StatusOf(s, n)
    ensures Covers(c, t, runs + [more], names + {more.node})
  {
    NamesOfAppend(runs, [more]);
    assert NamesOf([more]) == [more.node];
    forall i | 0 <= i < |runs| ensures RunCorrect(c, t, runs[i]) {
      assert RunCorrect(c, s, runs[i]);
      assert NamesOf(runs)[i] == runs[i].node;
      assert runs[i].node in multiset(NamesOf(runs));
    }
  }

  lemma FinishCovers(c: Config, s: State, name: string, result: Result)
    requires s.li < |c.levels| && name in c.levels[s.li] && name in s.begun && name !in s.finished && name !in s.results
    requires Covers(c, s, s.runs, s.finished)
    ensures Covers(c, Finished(s, name, result), Finished(s, name, result).runs, s.finished + {name})
  {
    var t := Finished(s, name, result);
    CoversExtend(c, s, t, s.runs, s.finished, t.runs[|s.runs|]);
  }

  lemma {:induction false} MarkNotRunCovers(c: Config, s: State, runs: seq<NodeRun>, from: nat)
    requires Layered(c.levels) && SortedLevels(c.levels) && from <= |c.levels|
      && Covers(c, s, runs, Before(c.levels, from)) == true
    requires s.results.Keys <= Before(c.levels, from)
    ensures Covers(c, s, MarkNotRun(runs, c.levels, from), Before(c.levels, |c.levels|)) == true
    decreases |c.levels| - from
  {
    if from < |c.levels| {
      assert StrictlySorted(c.levels[from]);
      LevelCovers(c, s, runs, from);
      BeforeMonotone(c.levels, from, from + 1);
      MarkNotRunCovers(c, s, runs + LevelRuns(c.levels[from], from + 1), from + 1);
    }
  }

  lemma LevelNames(level: seq<string>, number: nat)
    requires StrictlySorted(level)
    ensures NamesOf(LevelRuns(level, number)) == level && multiset(level) == multiset(Elems(level))
  {
    forall i, j | 0 <= i < j < |level| ensures level[i] != level[j] { LessIrreflexive(level[i]); }
    Topo.DistinctMultiset(level, Elems(level));
  }

  lemma LevelCovers(c: Config, s: State, runs: seq<NodeRun>, from: nat)
    requires from < |c.levels| && StrictlySorted(c.levels[from]) && Elems(c.levels[from]) !! Before(c.levels, from)
    requires Covers(c, s, runs, Before(c.levels, from)) && s.results.Keys <= Before(c.levels, from)
    ensures Covers(c, s, runs + LevelRuns(c.levels[from], from + 1), Before(c.levels, from + 1)) == true
  {
    var level := c.levels[from];
    var more := LevelRuns(level, from + 1);
    LevelNames(level, from + 1);
    forall i | 0 <= i < |more| ensures RunCorrect(c, s, more[i]) {
      assert level[i] in Elems(level);
    }
    CoversConcat(c, s, runs, Before(c.levels, from), more, Elems(level));
  }

  lemma CoversConcat(c: Config, s: State, a: seq<NodeRun>, x: set<string>, b: seq<NodeRun>, y: set<string>)
    requires Covers(c, s, a, x) && Covers(c, s, b, y) && x !! y
    ensures Covers(c, s, a + b, x + y)
  {
    NamesOfAppend(a, b);
    assert multiset(x + y) == multiset(x) + multiset(y);
  }

  /** Leaving after the first `k` levels: the others are marked "not run". */
  lemma ExitAt(c: Config, s: State, k: nat, t: State)
    requires Layered(c.levels) && SortedLevels(c.levels) && Inv(c, s)
    requires k <= |c.levels| && s.finished == s.begun.Keys == Before(c.levels, k) && !s.stage.Exited?
    requires t == s.(stage := t.stage, runs := MarkNotRun(s.runs, c.levels, k)) && t.stage.Exited?
    ensures Inv(c, t) == true
  {
    FrameStarted(c, s, t);
    MarkNotRunCovers(c, s, s.runs, k);
    FrameCovers(c, s, t, t.runs, Before(c.levels, |c.levels|));
    assert Verdicts(t);
    assert LevelView(c, t);
  }

  /** The level whose nodes an exit counts as reached, and what it reports. */
  lemma ExitShape(c: Config, s: State, a: Action)
    requires Progress(c, s) && Enabled(c, s, a) && After(c, s, a).stage.Exited?
    ensures var t, k := After(c, s, a), if a.EndLevel? then s.li + 1 else s.li;
      && k <= |c.levels| && s.finished == s.begun.Keys == Before(c.levels, k)
      && t == s.(stage := t.stage, runs := MarkNotRun(s.runs, c.levels, k))
  {
  }

  lemma InvProgress(c: Config, s: State)
    requires Inv(c, s)
    ensures Progress(c, s) == true
  {
  }

  lemma ExitInv(c: Config, s: State, a: Action)
    requires Layered(c.levels) && SortedLevels(c.levels) && Inv(c, s) == true && Enabled(c, s, a) == true
      && After(c, s, a).stage.Exited?
    ensures Inv(c, After(c, s, a)) == true
  {
    InvProgress(c, s);
    ExitShape(c, s, a);
    ExitAt(c, s, if a.EndLevel? then s.li + 1 else s.li, After(c, s, a));
  }

  lemma NextLevelInv(c: Config, s: State, a: Action)
    requires Inv(c, s) && Enabled(c, s, a) && a.EndLevel? && After(c, s, a).stage.Head?
    ensures Inv(c, After(c, s, a)) == true
  {
    var t := After(c, s, a);
    assert s.finished == s.begun.Keys == Before(c.levels, s.li + 1);
    FrameStarted(c, s, t);
    FrameCovers(c, s, t, s.runs, s.finished);
    assert Progress(c, t);
    assert Verdicts(t);
    assert LevelView(c, t);
  }

  lemma StepInv(c: Config, s: State, a: Action)
    requires Layered(c.levels) && SortedLevels(c.levels) && Inv(c, s) == true && Enabled(c, s, a)
    ensures Inv(c, After(c, s, a)) == true
  {
    match a
    case Cancel => ExitInv(c, s, a);
    case Enter => EnterInv(c, s);
    case Skip(_, _) => BeginInv(c, s, a);
    case Act(_) => BeginInv(c, s, a);
    case Finish(name, result) => FinishInv(c, s, name, result);
    case EndLevel(_) => if After(c, s, a).stage.Exited? { ExitInv(c, s, a); } else { NextLevelInv(c, s, a); }
    case Done => ExitInv(c, s, a);
  }

  lemma {:induction false} RunInv(c: Config, s: State, run: seq<Action>, t: State)
    requires Layered(c.levels) && SortedLevels(c.levels) && Inv(c, s) == true && Runs(c, s, run, t)
    ensures Inv(c, t) == true
    decreases |run|
  {
    if run != [] {
      StepInv(c, s, run[0]);
      RunInv(c, After(c, s, run[0]), run[1..], t);
    }
  }

  // ---- What every run guarantees.

  ghost predicate Reachable(c: Config, t: State) {
    exists run :: Runs(c, Initial(), run, t)
  }

  lemma ReachableInv(c: Config, t: State)
    requires Layered(c.levels) && SortedLevels(c.levels) && Reachable(c, t)
    ensures Inv(c, t) == true
  {
    var run :| Runs(c, Initial(), run, t);
    InitialInv(c);
    RunInv(c, Initial(), run, t);
  }

  predicate OnLevelBefore(levels: seq<seq<string>>, k: nat, m: string)
    requires k <= |levels|
  {
    exists j :: 0 <= j < k && m in levels[j]
  }

  /** Default mode: a node's action runs only after every selected ancestor's action succeeded
      (descendant when the order is reversed), and is shown exactly the outputs of earlier levels. */
  lemma StartsAfterAncestors(c: Config, names: set<string>, reverse: bool, t: State, k: nat, n: string)
    requires Selections.Schedule(c.g, names, reverse, c.levels) && Reachable(c, t)
    requires k < |c.levels| && n in c.levels[k] && n in t.begun && t.begun[n].Acting?
    ensures forall m, out :: m in t.begun[n].seen && t.begun[n].seen[m] == out <==>
      OnLevelBefore(c.levels, k, m) && m in t.results && t.results[m] == Succeeded(Some(out))
    ensures !c.keepGoing ==>
              forall m {:trigger m in t.results} ::
                m in names && (if reverse then ReachPlus(c.g, n, m) else ReachPlus(c.g, m, n)) ==>
                m in t.results && t.results[m].Succeeded?
  {
    ScheduleIsLayered(c.g, names, reverse, c.levels);
    ReachableInv(c, t);
    assert StartedWell(c, t, k, n);
    forall m ensures m in Before(c.levels, k) <==> OnLevelBefore(c.levels, k, m) { BeforeMember(c.levels, k, m); }
    if !c.keepGoing {
      forall m | m in names && (if reverse then ReachPlus(c.g, n, m) else ReachPlus(c.g, m, n))
        ensures m in t.results && t.results[m].Succeeded?
      {
        assert Topo.InSome(c.levels, m);
        var j :| 0 <= j < |c.levels| && m in c.levels[j];
        InLevelAfterBefore(c.levels, j, k, m);
        EarlierSucceeded(c, t, k, m);
      }
    }
  }

  lemma EarlierSucceeded(c: Config, t: State, k: nat, m: string)
    requires k <= |c.levels| && Verdicts(t) && m in Before(c.levels, k) && Before(c.levels, k) <= t.finished
    requires t.failed * Before(c.levels, k) == {}
    ensures m in t.results && t.results[m].Succeeded?
  {
    assert m !in t.failed * Before(c.levels, k);
    assert m !in t.failed;
  }

  // ---- The report.

  /** The whole selection in (level, name) order with each node's verdict. */
  ghost function Report(c: Config, s: State, k: nat): seq<NodeRun>
    requires k <= |c.levels|
  {
    if k == 0 then [] else Report(c, s, k - 1) + LevelReport(c, s, k - 1)
  }

  ghost function LevelReport(c: Config, s: State, k: nat): seq<NodeRun>
    requires k < |c.levels|
  {
    seq(|c.levels[k]|, i requires 0 <= i < |c.levels[k]| => NodeRun(c.levels[k][i], k + 1, StatusOf(s, c.levels[k][i])))
  }

  predicate RunBefore(a: NodeRun, b: NodeRun) {
    a.level < b.level || (a.level == b.level && Less(a.node, b.node))
  }

  ghost predicate RunsSorted(runs: seq<NodeRun>) {
    forall i, j :: 0 <= i < j < |runs| ==> RunBefore(runs[i], runs[j])
  }

  lemma {:induction false} ReportMembers(c: Config, s: State, k: nat, r: NodeRun)
    requires k <= |c.levels|
    ensures r in Report(c, s, k) <==>
      0 < r.level <= k && r.node in c.levels[r.level - 1] && r.status == StatusOf(s, r.node)
  {
    if k > 0 {
      ReportMembers(c, s, k - 1, r);
      if r.level == k && r.node in c.levels[k - 1] && r.status == StatusOf(s, r.node) {
        var i :| 0 <= i < |c.levels[k - 1]| && c.levels[k - 1][i] == r.node;
        assert LevelReport(c, s, k - 1)[i] == r;
      }
    }
  }

  lemma {:induction false} ReportSorted(c: Config, s: State, k: nat)
    requires SortedLevels(c.levels) && k <= |c.levels|
    ensures RunsSorted(Report(c, s, k)) && forall r :: r in Report(c, s, k) ==> r.level <= k
  {
    forall r | r in Report(c, s, k) ensures r.level <= k { ReportMembers(c, s, k, r); }
    if k > 0 {
      ReportSorted(c, s, k - 1);
      var a, b := Report(c, s, k - 1), LevelReport(c, s, k - 1);
      assert StrictlySorted(c.levels[k - 1]);
      forall i, j | 0 <= i < j < |a + b| ensures RunBefore((a + b)[i], (a + b)[j]) {
        if i < |a| { assert a[i] in a; }
      }
    }
  }

  lemma RunOrder(a: NodeRun, b: NodeRun, c: NodeRun)
    ensures !RunBefore(a, a)
    ensures RunBefore(a, b) && RunBefore(b, c) ==> RunBefore(a, c)
    ensures a.level != b.level || a.node != b.node ==> RunBefore(a, b) || RunBefore(b, a)
  {
    LessIrreflexive(a.node);
    LessTotal(a.node, b.node);
    if Less(a.node, b.node) && Less(b.node, c.node) { LessTransitive(a.node, b.node, c.node); }
  }

  /** Two sorted lists with the same entries are the same list. */
  lemma {:induction false} SortedRunsUnique(a: seq<NodeRun>, b: seq<NodeRun>)
    requires RunsSorted(a) && RunsSorted(b) && forall r :: r in a <==> r in b
    ensures a == b
  {
    SameEmptiness(a, b);
    if a != [] {
      assert a[0] in a && b[0] in b;
      var i :| 0 <= i < |b| && b[i] == a[0];
      var j :| 0 <= j < |a| && a[j] == b[0];
      RunOrder(a[0], b[0], a[0]);
      assert a[0] == b[0];
      forall r ensures r in a[1..] <==> r in b[1..] { RunTail(a, r); RunTail(b, r); }
      SortedRunsUnique(a[1..], b[1..]);
      assert a == [a[0]] + a[1..] && b == [b[0]] + b[1..];
    }
  }

  lemma SameEmptiness(a: seq<NodeRun>, b: seq<NodeRun>)
    requires forall r :: r in a <==> r in b
    ensures a == [] <==> b == []
  {
    if a != [] { assert a[0] in a; }
    if b != [] { assert b[0] in b; }
  }

  lemma RunTail(a: seq<NodeRun>, r: NodeRun)
    requires RunsSorted(a) && a != []
    ensures r in a[1..] <==> r in a && r != a[0]
  {
    RunOrder(a[0], a[0], a[0]);
    if r in a && r != a[0] {
      var k :| 0 <= k < |a| && a[k] == r;
      assert a[1..][k - 1] == r;
    }
  }

  /** The deferred sort. */
  method SortRuns(runs: seq<NodeRun>) returns (r: seq<NodeRun>)
    requires forall i, j :: 0 <= i < j < |runs| ==> runs[i].node != runs[j].node
    ensures RunsSorted(r) && forall x :: x in r <==> x in runs
  {
    r := [];
    for i := 0 to |runs|
      invariant RunsSorted(r) && forall x :: x in r <==> x in runs[..i]
    {
      var k := 0;
      while k < |r| && RunBefore(r[k], runs[i])
        invariant 0 <= k <= |r|
        invariant forall j :: 0 <= j < k ==> RunBefore(r[j], runs[i])
      {
        k := k + 1;
      }
      forall j | 0 <= j < |r| ensures r[j].node != runs[i].node {
        assert r[j] in runs[..i];
      }
      InsertRun(r, runs[i], k);
      var r' := r[..k] + [runs[i]] + r[k..];
      forall x ensures x in r' <==> x in runs[..i + 1] {
        assert r == r[..k] + r[k..];
        assert runs[..i + 1] == runs[..i] + [runs[i]];
      }
      r := r';
    }
    assert runs[..|runs|] == runs;
  }

  lemma InsertRun(s: seq<NodeRun>, x: NodeRun, k: nat)
    requires RunsSorted(s) && k <= |s| && (forall j :: 0 <= j < |s| ==> s[j].node != x.node)
    requires forall j :: 0 <= j < k ==> RunBefore(s[j], x)
    requires k < |s| ==> !RunBefore(s[k], x)
    ensures RunsSorted(s[..k] + [x] + s[k..])
  {
    forall j | k <= j < |s| ensures RunBefore(x, s[j]) {
      RunOrder(x, s[k], s[j]);
    }
    var r := s[..k] + [x] + s[k..];
    forall i, j | 0 <= i < j < |r| ensures RunBefore(r[i], r[j]) {
      var i' := if i <= k then i else i - 1;
      var j' := if j <= k then j else j - 1;
      assert i != k ==> r[i] == s[i'];
      assert j != k ==> r[j] == s[j'];
    }
  }

  lemma DistinctNames(runs: seq<NodeRun>, names: set<string>)
    requires multiset(NamesOf(runs)) == multiset(names)
    ensures forall i, j :: 0 <= i < j < |runs| ==> runs[i].node != runs[j].node
  {
    forall i, j | 0 <= i < j < |runs| ensures runs[i].node != runs[j].node {
      var s := NamesOf(runs);
      assert s == s[..i] + [s[i]] + s[i + 1..j] + [s[j]] + s[j + 1..];
      assert multiset(s)[s[i]] <= 1;
    }
  }

  lemma CoveredRuns(c: Config, s: State, runs: seq<NodeRun>)
    requires Layered(c.levels) && Covers(c, s, runs, Before(c.levels, |c.levels|))
    ensures forall r :: r in runs <==> r in Report(c, s, |c.levels|)
  {
    forall r ensures r in runs <==> r in Report(c, s, |c.levels|) {
      ReportMembers(c, s, |c.levels|, r);
      if r in Report(c, s, |c.levels|) { CoveredRun(c, s, runs, r); }
    }
  }

  lemma CoveredRun(c: Config, s: State, runs: seq<NodeRun>, r: NodeRun)
    requires Layered(c.levels) && Covers(c, s, runs, Before(c.levels, |c.levels|)) && RunCorrect(c, s, r)
    ensures r in runs
  {
    InLevelAfterBefore(c.levels, r.level - 1, |c.levels|, r.node);
    assert r.node in multiset(NamesOf(runs));
    var i :| 0 <= i < |NamesOf(runs)| && NamesOf(runs)[i] == r.node;
    assert RunCorrect(c, s, runs[i]);
    InLevelAfterBefore(c.levels, r.level - 1, runs[i].level - 1, r.node);
    InLevelAfterBefore(c.levels, runs[i].level - 1, r.level - 1, r.node);
    assert runs[i] == r;
  }

  /** On every exit path the returned report lists every selected node once, in (level, name) order. */
  method Return(c: Config, ghost names: set<string>, ghost reverse: bool, s: State) returns (report: seq<NodeRun>)
    requires Selections.Schedule(c.g, names, reverse, c.levels) && Reachable(c, s) && s.stage.Exited?
    ensures report == Report(c, s, |c.levels|)
    ensures !s.stage.error ==> forall r :: r in report ==> r.status == Success
  {
    ScheduleIsLayered(c.g, names, reverse, c.levels);
    ReachableInv(c, s);
    if !s.stage.error { NoErrorNoFailure(c, names, reverse, s); }
    DistinctNames(s.runs, Before(c.levels, |c.levels|));
    report := SortRuns(s.runs);
    CoveredRuns(c, s, s.runs);
    ReportSorted(c, s, |c.levels|);
    SortedRunsUnique(report, Report(c, s, |c.levels|));
    forall r | r in report && !s.stage.error ensures r.status == Success {
      ReportMembers(c, s, |c.levels|, r);
      InLevelAfterBefore(c.levels, r.level - 1, |c.levels|, r.node);
    }
  }

  // ---- The returned error.

  predicate Interrupts(a: Action) { a.Cancel? || (a.EndLevel? && a.abort) }

  /** A cancellation, or an error of a plugin or after a level. */
  predicate Interrupted(run: seq<Action>) {
    exists i :: 0 <= i < |run| && Interrupts(run[i])
  }

  /** An error is returned, or will be, if the run was interrupted or some node failed. */
  ghost predicate ErrorTold(c: Config, s: State, interrupted: bool)
    requires s.li <= |c.levels|
  {
    if s.stage.Exited? then
      (s.stage.error <==> interrupted || s.failed != {})
        && (!s.stage.error ==> s.finished == Before(c.levels, |c.levels|))
    else !interrupted && (s.firstError <==> s.failed * Before(c.levels, s.li) != {})
  }

  lemma StepError(c: Config, s: State, a: Action)
    requires Layered(c.levels) && SortedLevels(c.levels) && Inv(c, s) == true && Enabled(c, s, a)
      && ErrorTold(c, s, false) == true
    ensures After(c, s, a).li <= |c.levels| && ErrorTold(c, After(c, s, a), Interrupts(a)) == true
  {
    InvProgress(c, s);
    var t := After(c, s, a);
    match a
    case Finish(name, result) => FinishKeepsOutputs(c, s, name, result, s.li);
    case EndLevel(_) =>
      assert Before(c.levels, s.li + 1) == Before(c.levels, s.li) + Elems(c.levels[s.li]);
      assert LevelFailed(c, s) <==> s.failed * Elems(c.levels[s.li]) != {} by {
        if LevelFailed(c, s) {
          var n :| n in c.levels[s.li] && n in s.failed;
          assert n in s.failed * Elems(c.levels[s.li]);
        }
      }
    case Done => assert s.failed <= s.finished == Before(c.levels, s.li);
    case _ =>
  }

  lemma {:induction false} RunError(c: Config, s: State, run: seq<Action>, t: State)
    requires Layered(c.levels) && SortedLevels(c.levels) && Inv(c, s) == true && Runs(c, s, run, t)
      && ErrorTold(c, s, false) == true && !s.stage.Exited?
    ensures t.li <= |c.levels| && ErrorTold(c, t, Interrupted(run)) == true
    decreases |run|
  {
    if run != [] {
      var next := After(c, s, run[0]);
      StepInv(c, s, run[0]);
      StepError(c, s, run[0]);
      if next.stage.Exited? {
        NothingAfterExit(c, next, run[1..], t);
        assert run == [run[0]];
      } else {
        RunError(c, next, run[1..], t);
        InterruptedTail(run);
      }
    }
  }

  lemma NothingAfterExit(c: Config, s: State, run: seq<Action>, t: State)
    requires Runs(c, s, run, t) && s.stage.Exited?
    ensures run == [] && s == t
  {
  }

  lemma InterruptedTail(run: seq<Action>)
    requires run != []
    ensures Interrupted(run) <==> Interrupts(run[0]) || Interrupted(run[1..])
  {
    if i :| 0 <= i < |run| && Interrupts(run[i]) {
      assert i > 0 ==> run[1..][i - 1] == run[i];
    }
    if j :| 0 <= j < |run[1..]| && Interrupts(run[1..][j]) {
      assert run[j + 1] == run[1..][j];
    }
  }

  /** A run returns an error exactly when it was interrupted or some selected node did not succeed. */
  lemma ErrorReported(c: Config, names: set<string>, reverse: bool, run: seq<Action>, t: State)
    requires Selections.Schedule(c.g, names, reverse, c.levels) && Runs(c, Initial(), run, t) && t.stage.Exited?
    ensures t.stage.error <==> Interrupted(run) || exists n :: n in names && StatusOf(t, n) != Success
  {
    ScheduleIsLayered(c.g, names, reverse, c.levels);
    InitialInv(c);
    assert ErrorTold(c, Initial(), false);
    RunInv(c, Initial(), run, t);
    RunError(c, Initial(), run, t);
    FinishedAreSelected(c, t);
    if n :| n in t.failed {
      assert n in names && StatusOf(t, n) != Success;
    }
    if !t.stage.error {
      forall n | n in names ensures StatusOf(t, n) == Success { assert n in t.finished && n !in t.failed; }
    }
  }

  lemma FinishedAreSelected(c: Config, t: State)
    requires Inv(c, t) && t.stage.Exited?
    ensures t.failed <= t.finished <= Before(c.levels, |c.levels|)
  {
    var k :| 0 <= k <= |c.levels| && t.finished == Before(c.levels, k);
    BeforeMonotone(c.levels, k, |c.levels|);
  }

  lemma NoErrorNoFailure(c: Config, names: set<string>, reverse: bool, t: State)
    requires Selections.Schedule(c.g, names, reverse, c.levels) && Reachable(c, t) && t.stage.Exited? && !t.stage.error
    ensures forall n :: n in names ==> StatusOf(t, n) == Success
  {
    var run :| Runs(c, Initial(), run, t);
    ErrorReported(c, names, reverse, run, t);
  }

  // ---- What the report tells.

  /** The worker's place and result are what the steps so far made them. */
  ghost predicate Traced(s: State, past: seq<Action>) {
    ActsTraced(s, past) && FinishesTraced(s, past) && ResultsTraced(s, past)
  }

  ghost predicate ActsTraced(s: State, past: seq<Action>) {
    forall n :: n in s.begun && s.begun[n].Acting? <==> Act(n) in past
  }

  ghost predicate FinishesTraced(s: State, past: seq<Action>) {
    && s.results.Keys <= s.finished <= s.begun.Keys
    && forall n, result :: Finish(n, result) in past ==> n in s.finished
  }

  ghost predicate ResultsTraced(s: State, past: seq<Action>) {
    forall n, result :: Act(n) in past && Finish(n, result) in past <==> HasResult(s, n, result)
  }

  predicate HasResult(s: State, n: string, result: Result) { n in s.results && s.results[n] == result }

  lemma OneMore(past: seq<Action>, a: Action, b: Action)
    ensures b in past + [a] <==> b in past || b == a
  {
  }

  lemma StepResults(c: Config, s: State, a: Action, past: seq<Action>, n: string, result: Result)
    requires Enabled(c, s, a) && Traced(s, past)
    ensures Act(n) in past + [a] && Finish(n, result) in past + [a] <==> HasResult(After(c, s, a), n, result)
  {
    OneMore(past, a, Act(n));
    OneMore(past, a, Finish(n, result));
    assert Act(n) in past <==> n in s.begun && s.begun[n].Acting?;
    assert Finish(n, result) in past ==> n in s.finished;
    assert HasResult(s, n, result) <==> Act(n) in past && Finish(n, result) in past;
  }

  lemma StepActs(c: Config, s: State, a: Action, past: seq<Action>)
    requires Enabled(c, s, a) && ActsTraced(s, past) && s.finished <= s.begun.Keys
    ensures ActsTraced(After(c, s, a), past + [a]) == true
  {
    var t := After(c, s, a);
    forall n ensures n in t.begun && t.begun[n].Acting? <==> Act(n) in past + [a] {
      OneMore(past, a, Act(n));
      assert n in s.begun && s.begun[n].Acting? <==> Act(n) in past;
    }
  }

  lemma StepFinishes(c: Config, s: State, a: Action, past: seq<Action>)
    requires Enabled(c, s, a) && FinishesTraced(s, past)
    ensures FinishesTraced(After(c, s, a), past + [a]) == true
  {
    forall n, result | Finish(n, result) in past + [a] ensures n in After(c, s, a).finished {
      OneMore(past, a, Finish(n, result));
    }
  }

  lemma StepTraced(c: Config, s: State, a: Action, past: seq<Action>)
    requires Enabled(c, s, a) == true && Traced(s, past) == true
    ensures Traced(After(c, s, a), past + [a]) == true
  {
    StepActs(c, s, a, past);
    StepFinishes(c, s, a, past);
    forall n, result ensures
      Act(n) in past + [a] && Finish(n, result) in past + [a] <==> HasResult(After(c, s, a), n, result) {
      StepResults(c, s, a, past, n, result);
    }
  }

  lemma {:induction false} RunTraced(c: Config, s: State, run: seq<Action>, t: State, past: seq<Action>)
    requires Runs(c, s, run, t) && Traced(s, past) == true
    ensures Traced(t, past + run) == true
    decreases |run|
  {
    if run == [] {
      assert past + run == past;
    } else {
      StepTraced(c, s, run[0], past);
      RunTraced(c, After(c, s, run[0]), run[1..], t, past + [run[0]]);
      assert past + [run[0]] + run[1..] == past + run;
    }
  }

  /** A node is reported as succeeded or failed exactly when its action was called and returned that way, and
      as not run exactly when its action was never called. */
  lemma StatusTold(c: Config, names: set<string>, reverse: bool, run: seq<Action>, t: State, n: string)
    requires Selections.Schedule(c.g, names, reverse, c.levels) && Runs(c, Initial(), run, t) && t.stage.Exited?
    ensures StatusOf(t, n) == Success <==> Act(n) in run && exists outputs :: Finish(n, Succeeded(outputs)) in run
    ensures StatusOf(t, n) == Failed <==> Act(n) in run && Finish(n, ActionFailed) in run
    ensures StatusOf(t, n) == NotRun <==> Act(n) !in run
  {
    ScheduleIsLayered(c.g, names, reverse, c.levels);
    InitialInv(c);
    RunInv(c, Initial(), run, t);
    assert Traced(Initial(), []);
    RunTraced(c, Initial(), run, t, []);
    assert [] + run == run;
    if n in t.results {
      assert HasResult(t, n, t.results[n]);
      assert Act(n) in run && Finish(n, t.results[n]) in run;
      if t.results[n].Succeeded? { assert Finish(n, Succeeded(t.results[n].outputs)) in run; }
    }
  }

  // ---- Keep-going mode.

  /** No cancellation, no plugin refusal, no error after a level. */
  predicate Undisturbed(run: seq<Action>) {
    forall i :: 0 <= i < |run| ==>
      && !run[i].Cancel?
      && (run[i].Skip? ==> run[i].because.Dependency?)
      && (run[i].EndLevel? ==> !run[i].abort)
  }

  /** In an undisturbed run a skipped node has a failed parent on an earlier level. */
  ghost predicate SkipsJustified(c: Config, s: State) {
    && (forall k, n {:trigger SkipReason(c, s, k, n)} ::
          0 <= k < |c.levels| && n in c.levels[k] && n in s.begun && s.begun[n].Skipping? ==> SkipReason(c, s, k, n))
    && (s.stage.Exited? ==> s.finished == Before(c.levels, |c.levels|))
  }

  ghost predicate SkipReason(c: Config, s: State, k: nat, n: string)
    requires k < |c.levels|
  {
    exists p :: p in In(c.g, n) && p in s.failed && p in Before(c.levels, k)
  }

  lemma StepSkips(c: Config, s: State, a: Action)
    requires Layered(c.levels) && c.keepGoing && Inv(c, s) && SkipsJustified(c, s) && Enabled(c, s, a)
      && Undisturbed([a])
    ensures SkipsJustified(c, After(c, s, a))
  {
    var t := After(c, s, a);
    assert [a][0] == a;
    assert s.failed <= t.failed;
    forall k, n | 0 <= k < |c.levels| && n in c.levels[k] && n in t.begun && t.begun[n].Skipping?
      ensures SkipReason(c, t, k, n) {
      if n in s.begun {
        assert SkipReason(c, s, k, n);
        var p :| p in In(c.g, n) && p in s.failed && p in Before(c.levels, k);
        assert p in t.failed;
      } else {
        InLevelAfterBefore(c.levels, s.li, k, n);
        InLevelAfterBefore(c.levels, k, s.li, n);
        var p := a.because.parent;
        assert p in s.failed * Before(c.levels, s.li);
      }
    }
  }

  lemma {:induction false} RunSkips(c: Config, s: State, run: seq<Action>, t: State)
    requires Layered(c.levels) && SortedLevels(c.levels) && c.keepGoing && Inv(c, s) == true
      && SkipsJustified(c, s) == true
    requires Runs(c, s, run, t) && Undisturbed(run)
    ensures SkipsJustified(c, t) == true
    decreases |run|
  {
    if run != [] {
      StepInv(c, s, run[0]);
      StepSkips(c, s, run[0]);
      forall i | 0 <= i < |run[1..]| ensures run[1..][i] == run[i + 1] { }
      RunSkips(c, After(c, s, run[0]), run[1..], t);
    }
  }

  /** A chain of selected nodes, each an edge after the last, starting at a node whose own action failed. */
  ghost predicate FailureChain(c: Config, names: set<string>, s: State, p: seq<string>) {
    && |p| > 1
    && Path(c.g, p)
    && (forall i :: 0 <= i < |p| ==> p[i] in names)
    && p[0] in s.results && s.results[p[0]].ActionFailed?
  }

  lemma {:induction false} ChainBlocks(c: Config, names: set<string>, s: State, p: seq<string>, i: nat)
    requires WellFormed(c.g) == true && Selections.Schedule(c.g, names, false, c.levels) == true && c.keepGoing
    requires Verdicts(s) == true && AllStartedWell(c, s) == true && s.finished == names
      && FailureChain(c, names, s, p) == true && i < |p|
    ensures p[i] in s.failed && (i > 0 ==> s.begun[p[i]].Skipping?)
    decreases i
  {
    if i > 0 {
      ChainBlocks(c, names, s, p, i - 1);
      PathStep(c.g, p, i - 1);
      ParentFailedMeansSkipped(c, names, s, p[i - 1], p[i]);
    }
  }

  lemma ParentFailedMeansSkipped(c: Config, names: set<string>, s: State, a: string, b: string)
    requires WellFormed(c.g) == true && Selections.Schedule(c.g, names, false, c.levels) == true && c.keepGoing
    requires Verdicts(s) == true && AllStartedWell(c, s) == true && s.finished == names
    requires a in names && b in names && b in Out(c.g, a) && a in s.failed
    ensures b in s.begun && s.begun[b].Skipping? && b in s.failed
  {
    ScheduleIsLayered(c.g, names, false, c.levels);
    ReachSelf(c.g, b);
    EdgeSymmetry(c.g, a, b);
    assert ReachPlus(c.g, a, b);
    assert Topo.InSome(c.levels, a) && Topo.InSome(c.levels, b);
    var j :| 0 <= j < |c.levels| && a in c.levels[j];
    var k :| 0 <= k < |c.levels| && b in c.levels[k];
    InLevelAfterBefore(c.levels, j, k, a);
    assert b in s.begun;
    assert s.begun[b].Acting? ==> StartedWell(c, s, k, b);
    assert b in s.results <==> s.begun[b].Acting?;
  }

  lemma {:induction false} SkippedHasChain(c: Config, names: set<string>, s: State, k: nat, n: string)
    returns (p: seq<string>)
    requires WellFormed(c.g) && Layered(c.levels) && Verdicts(s) && SkipsJustified(c, s)
    requires s.finished == Before(c.levels, |c.levels|) == names
    requires k < |c.levels| && n in c.levels[k] && n in s.begun && s.begun[n].Skipping?
    ensures FailureChain(c, names, s, p) && p[|p| - 1] == n
    decreases k
  {
    assert SkipReason(c, s, k, n);
    var q :| q in In(c.g, n) && q in s.failed && q in Before(c.levels, k);
    EdgeSymmetry(c.g, q, n);
    BeforeMonotone(c.levels, k, |c.levels|);
    InLevelAfterBefore(c.levels, k, |c.levels|, n);
    if q in s.results {
      p := [q, n];
      assert p[1..] == [n];
    } else {
      BeforeMember(c.levels, k, q);
      var j :| 0 <= j < k && q in c.levels[j];
      assert q in s.begun && s.begun[q].Skipping?;
      p := SkippedHasChain(c, names, s, j, q);
      PathConcat(c.g, p, [n]);
      p := p + [n];
    }
  }

  /** Keep-going, undisturbed, all levels done: a node is left "not run" exactly when a chain of selected
      nodes leads to it from a node whose own action failed; every other node ran. */
  lemma KeepGoingSkipsExactlyDependents(c: Config, names: set<string>, run: seq<Action>, t: State, n: string)
    requires WellFormed(c.g) && Selections.Schedule(c.g, names, false, c.levels) && c.keepGoing
    requires Runs(c, Initial(), run, t) && Undisturbed(run) && t.stage.Exited? && n in names
    ensures StatusOf(t, n) == NotRun <==> exists p :: FailureChain(c, names, t, p) && p[|p| - 1] == n
  {
    ScheduleIsLayered(c.g, names, false, c.levels);
    InitialInv(c);
    RunInv(c, Initial(), run, t);
    assert SkipsJustified(c, Initial());
    RunSkips(c, Initial(), run, t);
    assert t.finished == names;
    if StatusOf(t, n) == NotRun {
      assert Topo.InSome(c.levels, n);
      var k :| 0 <= k < |c.levels| && n in c.levels[k];
      assert n !in t.results;
      var p := SkippedHasChain(c, names, t, k, n);
    }
    if p :| FailureChain(c, names, t, p) && p[|p| - 1] == n {
      ChainBlocks(c, names, t, p, |p| - 1);
      assert n !in t.results;
    }
  }
}
