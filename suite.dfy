/**
 * `Suite.lint` and `Suite.run` (lib/index.js): for each runner name in key
 * order a fresh `Runner`, then the runner's snippets in order. The first
 * failure is logged and ends the process with status 1; a missing runner
 * configuration is thrown outside any `try` and escapes.
 */
module Suites {
  import opened Basics
  import opened Exec
  import opened Lifecycle
  import opened Runners
  import opened Grouping

  /** What the logger is asked to print. */
  datatype Event =
    | RunnerSuccess(runner: string, message: string)
    | RunnerError(runner: string, error: TestError)
    | SnippetSuccess(snippet: Snippet)
    | SnippetError(snippet: Snippet, error: TestError)

  /** How a phase ends: normally, through `process.exit`, or by an escaping exception. */
  datatype Outcome = Completed | Exited(status: int) | Escaped(error: TestError)

  /** `config.runners` and `config.snippets.dest`. */
  datatype SuiteConfig = SuiteConfig(runners: map<string, RawConfig>, dest: string)

  function RawOf(sc: SuiteConfig, name: string): Option<RawConfig> {
    if name in sc.runners then Some(sc.runners[name]) else None
  }

  /** A phase's outcome, the container transcript and the logged events. */
  datatype Progress = Progress(outcome: Outcome, log: seq<Entry>, events: seq<Event>)

  /** The same for one runner, with the runner's own state. */
  datatype RunnerProgress = RunnerProgress(outcome: Outcome, state: RState, events: seq<Event>)

  predicate Keyed(tree: map<string, seq<Snippet>>, ks: seq<string>) {
    forall i :: 0 <= i < |ks| ==> ks[i] in tree
  }

  // ---------------------------------------------------------------------
  // run
  // ---------------------------------------------------------------------

  /** One runner's snippets: a success is logged per snippet, the first error ends the process. */
  function RunEach(c: Config, o: Responder, m: (string, string) -> bool, sns: seq<Snippet>, s: RState, ev: seq<Event>): RunnerProgress
    decreases |sns|
  {
    if sns == [] then RunnerProgress(Completed, s, ev)
    else
      var t := RunStep(c, o, m, sns[0], s);
      if t.result.Fail? then RunnerProgress(Exited(1), t.state, ev + [SnippetError(sns[0], t.result.error)])
      else RunEach(c, o, m, sns[1..], t.state, ev + [SnippetSuccess(sns[0])])
  }

  /** A fresh runner for `name`, then its snippets. */
  function RunRunner(sc: SuiteConfig, o: Responder, m: (string, string) -> bool, name: string, sns: seq<Snippet>, log: seq<Entry>, ev: seq<Event>): RunnerProgress {
    match ResolveConfig(name, RawOf(sc, name), sc.dest)
    case Fail(e) => RunnerProgress(Escaped(e), RState(Unset, log), ev)
    case Ok(c) => RunEach(c, o, m, sns, RState(Unset, log), ev)
  }

  function RunPhase(sc: SuiteConfig, o: Responder, m: (string, string) -> bool, tree: map<string, seq<Snippet>>, ks: seq<string>, log: seq<Entry>, ev: seq<Event>): Progress
    requires Keyed(tree, ks)
    decreases |ks|
  {
    if ks == [] then Progress(Completed, log, ev)
    else
      var t := RunRunner(sc, o, m, ks[0], tree[ks[0]], log, ev);
      if !t.outcome.Completed? then Progress(t.outcome, t.state.log, t.events)
      else RunPhase(sc, o, m, tree, ks[1..], t.state.log, t.events)
  }

  // ---------------------------------------------------------------------
  // lint
  // ---------------------------------------------------------------------

  /** Per-snippet lint: nothing is logged on success, the first error ends the process. */
  function LintEach(c: Config, o: Responder, sns: seq<Snippet>, s: RState, ev: seq<Event>): RunnerProgress
    decreases |sns|
  {
    if sns == [] then RunnerProgress(Completed, s, ev)
    else
      var t := PhaseStep(c, o, Lint, sns[0], s);
      if t.result.Fail? then RunnerProgress(Exited(1), t.state, ev + [SnippetError(sns[0], t.result.error)])
      else LintEach(c, o, sns[1..], t.state, ev)
  }

  /** A fresh runner for `name`; a global one lints once for all its snippets. */
  function LintRunner(sc: SuiteConfig, o: Responder, name: string, sns: seq<Snippet>, log: seq<Entry>, ev: seq<Event>): RunnerProgress {
    match ResolveConfig(name, RawOf(sc, name), sc.dest)
    case Fail(e) => RunnerProgress(Escaped(e), RState(Unset, log), ev)
    case Ok(c) =>
      if c.global then
        var t := LintAllStep(c, o, RState(Unset, log));
        if t.result.Fail? then RunnerProgress(Exited(1), t.state, ev + [RunnerError(name, t.result.error)])
        else RunnerProgress(Completed, t.state, ev + [RunnerSuccess(name, "lint ok")])
      else LintEach(c, o, sns, RState(Unset, log), ev)
  }

  function LintPhase(sc: SuiteConfig, o: Responder, tree: map<string, seq<Snippet>>, ks: seq<string>, log: seq<Entry>, ev: seq<Event>): Progress
    requires Keyed(tree, ks)
    decreases |ks|
  {
    if ks == [] then Progress(Completed, log, ev)
    else
      var t := LintRunner(sc, o, ks[0], tree[ks[0]], log, ev);
      if !t.outcome.Completed? then Progress(t.outcome, t.state.log, t.events)
      else LintPhase(sc, o, tree, ks[1..], t.state.log, t.events)
  }

  // ---------------------------------------------------------------------
  // What a phase executes and logs
  // ---------------------------------------------------------------------

  /** One success event per snippet, in order. */
  function SuccessEvents(sns: seq<Snippet>): (ev: seq<Event>)
    ensures |ev| == |sns|
  {
    seq(|sns|, k requires 0 <= k < |sns| => SnippetSuccess(sns[k]))
  }

  lemma SuccessEventsAppend(a: seq<Snippet>, b: seq<Snippet>)
    ensures SuccessEvents(a + b) == SuccessEvents(a) + SuccessEvents(b)
  {
  }

  lemma SliceSplit<T>(a: seq<T>, b: seq<T>, c: seq<T>)
    requires a <= b <= c
    ensures c[|a|..] == b[|a|..] + c[|b|..]
  {
  }

  /**
   * `d` completes the plan `p0` and then what follows it in `d1`, which
   * completes `p1`: the plans and their remainders concatenate.
   */
  lemma ExecutesPrefixShift(d0: seq<Entry>, d1: seq<Entry>, p0: seq<Call>, p1: seq<Call>)
    requires Executes(d0, p0, true) && |p1| <= |d1| && Executes(d1[..|p1|], p1, true)
    ensures var d := d0 + d1; var p := p0 + p1;
      |p| <= |d| && Executes(d[..|p|], p, true) && d[|p|..] == d1[|p1|..]
  {
    var d := d0 + d1;
    assert d[..|p0 + p1|] == d0 + d1[..|p1|];
    ExecutesThen(d0, p0, d1[..|p1|], p1, true);
  }

  lemma EventsPrefixShift(e0: seq<Event>, e1: seq<Event>, f1: seq<Event>)
    requires |f1| <= |e1| && e1[..|f1|] == f1
    ensures var e := e0 + e1; |e0 + f1| <= |e| && e[..|e0 + f1|] == e0 + f1 && e[|e0 + f1|..] == e1[|f1|..]
  {
    assert (e0 + e1)[..|e0 + f1|] == e0 + e1[..|f1|];
  }

  // ---------------------------------------------------------------------
  // run
  // ---------------------------------------------------------------------

  /**
   * The commands `run` issues for the snippets `sns` of one runner from the
   * latches `l`, when nothing fails: only the first snippet can run the
   * runner's before hooks.
   */
  function RunEachPlan(c: Config, l: Latches, sns: seq<Snippet>): seq<Call>
    decreases |sns|
  {
    if sns == [] then [] else RunPlan(c, l, sns[0]) + RunEachPlan(c, Spent, sns[1..])
  }

  lemma RunEachPlanCons(c: Config, l: Latches, sns: seq<Snippet>, k: nat)
    requires k < |sns|
    ensures RunEachPlan(c, l, sns[..k + 1]) == RunPlan(c, l, sns[0]) + RunEachPlan(c, Spent, sns[1..][..k])
  {
    assert sns[..k + 1][0] == sns[0] && sns[..k + 1][1..] == sns[1..][..k];
  }

  /**
   * One runner's `run` stopped at snippet `n` with the error `e`: `d`
   * carries out the plan of `sns[..n + 1]`; either a command of snippet `n`
   * exited non-zero (the last one, whose error `RunFailure` names) or none
   * did (a mismatch or no `run.cmd`).
   */
  ghost predicate RunStoppedWith(c: Config, l: Latches, sns: seq<Snippet>, d: seq<Entry>, e: TestError, n: nat)
    requires n < |sns|
  {
    Executes(d, RunEachPlan(c, l, sns[..n + 1]), e.NoCommandFailed()) &&
    (!e.NoCommandFailed() ==> |RunEachPlan(c, l, sns[..n])| < |d| && RunFailure(c, sns[n], d[|d| - 1], e))
  }

  /** `evs` logs a success for each snippet before `n`, then `n`'s error. */
  predicate LoggedUpTo(sns: seq<Snippet>, evs: seq<Event>, n: nat)
    requires n < |sns|
  {
    |evs| == n + 1 && evs[..n] == SuccessEvents(sns[..n]) && evs[n].SnippetError? && evs[n].snippet == sns[n]
  }

  /** One runner's `run` stopped at snippet `n`, as it executed (`d`) and logged (`evs`). */
  ghost predicate RunStoppedAt(c: Config, l: Latches, sns: seq<Snippet>, d: seq<Entry>, evs: seq<Event>, n: nat)
    requires n < |sns|
  {
    LoggedUpTo(sns, evs, n) && RunStoppedWith(c, l, sns, d, evs[n].error, n)
  }

  /** What one resolved runner's `run` from latches `l` executed (`d`) and logged (`evs`). */
  ghost predicate RanEach(c: Config, l: Latches, sns: seq<Snippet>, out: Outcome, d: seq<Entry>, evs: seq<Event>) {
    !out.Escaped? &&
    (out.Completed? ==> Executes(d, RunEachPlan(c, l, sns), true) && evs == SuccessEvents(sns)) &&
    (out.Exited? ==> out.status == 1 && exists n: nat :: n < |sns| && RunStoppedAt(c, l, sns, d, evs, n))
  }

  /** The first snippet fails. */
  lemma RanEachFirst(c: Config, o: Responder, m: (string, string) -> bool, sns: seq<Snippet>, s: RState)
    requires sns != [] && RunStep(c, o, m, sns[0], s).result.Fail?
    ensures var t := RunStep(c, o, m, sns[0], s);
      s.log <= t.state.log &&
      RunStoppedAt(c, s.latches, sns, Delta(s, t.state), [SnippetError(sns[0], t.result.error)], 0)
  {
    RunStepCorrect(c, o, m, sns[0], s);
    RunStepError(c, o, m, sns[0], s);
    StoppedOnStep(c, sns, s, RunStep(c, o, m, sns[0], s));
  }

  lemma StoppedOnStep(c: Config, sns: seq<Snippet>, s: RState, t: Step<ExecResult>)
    requires sns != [] && t.result.Fail?
    requires Tracks(s, t.state) && Executes(Delta(s, t.state), RunPlan(c, s.latches, sns[0]), CommandsOk(t.result))
    requires FailedOn(c, sns[0], s, t)
    ensures RunStoppedAt(c, s.latches, sns, Delta(s, t.state), [SnippetError(sns[0], t.result.error)], 0)
  {
    var d, e := Delta(s, t.state), t.result.error;
    assert CommandsOk(t.result) == e.NoCommandFailed();
    if !e.NoCommandFailed() {
      assert d[|d| - 1] == t.state.log[|t.state.log| - 1];
    }
    StoppedFirst(c, s.latches, sns, d, e);
  }

  lemma StoppedFirst(c: Config, l: Latches, sns: seq<Snippet>, d: seq<Entry>, e: TestError)
    requires sns != [] && Executes(d, RunPlan(c, l, sns[0]), e.NoCommandFailed())
    requires !e.NoCommandFailed() ==> 0 < |d| && RunFailure(c, sns[0], d[|d| - 1], e)
    ensures RunStoppedAt(c, l, sns, d, [SnippetError(sns[0], e)], 0)
  {
    assert sns[..1][1..] == [] && sns[..0] == [];
    assert RunEachPlan(c, l, sns[..1]) == RunPlan(c, l, sns[0]);
  }

  /** A first snippet that succeeds, then the rest: the facts carry over. */
  lemma RanEachCons(c: Config, l: Latches, sns: seq<Snippet>, out: Outcome, d0: seq<Entry>, d1: seq<Entry>, evs: seq<Event>)
    requires sns != [] && Executes(d0, RunPlan(c, l, sns[0]), true)
    requires RanEach(c, Spent, sns[1..], out, d1, evs)
    ensures RanEach(c, l, sns, out, d0 + d1, [SnippetSuccess(sns[0])] + evs)
  {
    if out.Completed? {
      CompletedShift(c, l, sns, d0, d1, evs);
    } else if out.Exited? {
      var n: nat :| n < |sns[1..]| && RunStoppedAt(c, Spent, sns[1..], d1, evs, n);
      StoppedAtShift(c, l, sns, d0, d1, evs, n);
    }
  }

  lemma CompletedShift(c: Config, l: Latches, sns: seq<Snippet>, d0: seq<Entry>, d1: seq<Entry>, evs: seq<Event>)
    requires sns != [] && Executes(d0, RunPlan(c, l, sns[0]), true)
    requires Executes(d1, RunEachPlan(c, Spent, sns[1..]), true) && evs == SuccessEvents(sns[1..])
    ensures Executes(d0 + d1, RunEachPlan(c, l, sns), true) && [SnippetSuccess(sns[0])] + evs == SuccessEvents(sns)
  {
    var p0, p1 := RunPlan(c, l, sns[0]), RunEachPlan(c, Spent, sns[1..]);
    assert RunEachPlan(c, l, sns) == p0 + p1;
    ExecutesThen(d0, p0, d1, p1, true);
    SuccessEventsCons(sns);
  }

  lemma SuccessEventsCons(sns: seq<Snippet>)
    requires sns != []
    ensures SuccessEvents(sns) == [SnippetSuccess(sns[0])] + SuccessEvents(sns[1..])
  {
    SuccessEventsAppend([sns[0]], sns[1..]);
    assert [sns[0]] + sns[1..] == sns;
  }

  lemma StoppedAtShift(c: Config, l: Latches, sns: seq<Snippet>, d0: seq<Entry>, d1: seq<Entry>, evs: seq<Event>, n: nat)
    requires n + 1 < |sns| && Executes(d0, RunPlan(c, l, sns[0]), true)
    requires RunStoppedAt(c, Spent, sns[1..], d1, evs, n)
    ensures RunStoppedAt(c, l, sns, d0 + d1, [SnippetSuccess(sns[0])] + evs, n + 1)
  {
    LoggedShift(sns, evs, n);
    RunStoppedShift(c, l, sns, d0, d1, evs[n].error, n);
    assert ([SnippetSuccess(sns[0])] + evs)[n + 1] == evs[n];
  }

  lemma LoggedShift(sns: seq<Snippet>, evs: seq<Event>, n: nat)
    requires n + 1 < |sns| && LoggedUpTo(sns[1..], evs, n)
    ensures LoggedUpTo(sns, [SnippetSuccess(sns[0])] + evs, n + 1)
  {
    var evs' := [SnippetSuccess(sns[0])] + evs;
    assert sns[..n + 1] == [sns[0]] + sns[1..][..n];
    SuccessEventsAppend([sns[0]], sns[1..][..n]);
    assert evs'[..n + 1] == [SnippetSuccess(sns[0])] + evs[..n];
  }

  lemma RunStoppedShift(c: Config, l: Latches, sns: seq<Snippet>, d0: seq<Entry>, d1: seq<Entry>, e: TestError, n: nat)
    requires n + 1 < |sns| && Executes(d0, RunPlan(c, l, sns[0]), true)
    requires RunStoppedWith(c, Spent, sns[1..], d1, e, n)
    ensures RunStoppedWith(c, l, sns, d0 + d1, e, n + 1)
  {
    RunEachPlanCons(c, l, sns, n + 1);
    RunEachPlanCons(c, l, sns, n);
    ExecutesThen(d0, RunPlan(c, l, sns[0]), d1, RunEachPlan(c, Spent, sns[1..][..n + 1]), e.NoCommandFailed());
    if !e.NoCommandFailed() {
      LastOfAppend(d0, d1);
      assert sns[1..][n] == sns[n + 1];
    }
  }

  lemma LastOfAppend<T>(a: seq<T>, b: seq<T>)
    requires b != []
    ensures (a + b)[|a + b| - 1] == b[|b| - 1]
  {
  }

  lemma {:induction false} RunEachTrace(c: Config, o: Responder, m: (string, string) -> bool, sns: seq<Snippet>, s: RState, ev: seq<Event>)
    ensures var p := RunEach(c, o, m, sns, s, ev);
      s.log <= p.state.log && ev <= p.events &&
      RanEach(c, s.latches, sns, p.outcome, Delta(s, p.state), p.events[|ev|..])
    decreases |sns|
  {
    var p := RunEach(c, o, m, sns, s, ev);
    if sns == [] {
      assert Delta(s, p.state) == [];
      return;
    }
    var t := RunStep(c, o, m, sns[0], s);
    if t.result.Fail? {
      RanEachFirst(c, o, m, sns, s);
      return;
    }
    var ev1 := ev + [SnippetSuccess(sns[0])];
    assert p == RunEach(c, o, m, sns[1..], t.state, ev1);
    RunEachTrace(c, o, m, sns[1..], t.state, ev1);
    RunStepCorrect(c, o, m, sns[0], s);
    DeltaSplit(s.log, t.state.log, p.state.log);
    if sns[1..] != [] {
      RunStepSpends(c, o, m, sns[0], s, sns[1]);
      RanEachSpent(c, t.state.latches, sns[1..], p.outcome, Delta(t.state, p.state), p.events[|ev1|..]);
    } else {
      assert RunEachPlan(c, t.state.latches, []) == RunEachPlan(c, Spent, []);
    }
    SliceSplit(ev, ev1, p.events);
    assert ev1[|ev|..] == [SnippetSuccess(sns[0])];
    RanEachCons(c, s.latches, sns, p.outcome, Delta(s, t.state), Delta(t.state, p.state), p.events[|ev1|..]);
  }

  /** A runner whose before hooks are spent runs what it would from `Spent`. */
  lemma RanEachSpent(c: Config, l: Latches, sns: seq<Snippet>, out: Outcome, d: seq<Entry>, evs: seq<Event>)
    requires sns != [] && RunPlan(c, l, sns[0]) == RunPlan(c, Spent, sns[0])
    requires RanEach(c, l, sns, out, d, evs)
    ensures RanEach(c, Spent, sns, out, d, evs)
  {
    forall k: nat | k <= |sns|
      ensures RunEachPlan(c, l, sns[..k]) == RunEachPlan(c, Spent, sns[..k])
    {
      if k > 0 {
        assert sns[..k][0] == sns[0];
      }
    }
    assert sns[..|sns|] == sns;
    if out.Exited? {
      var n: nat :| n < |sns| && RunStoppedAt(c, l, sns, d, evs, n);
      assert RunStoppedAt(c, Spent, sns, d, evs, n);
    }
  }

  /** The commands `run` issues for one runner from a fresh `Runner`, when nothing fails. */
  function RunRunnerPlan(sc: SuiteConfig, name: string, sns: seq<Snippet>): seq<Call> {
    match ResolveConfig(name, RawOf(sc, name), sc.dest)
    case Fail(_) => []
    case Ok(c) => RunEachPlan(c, Unset, sns)
  }

  /** The commands `run` issues over the runners `ks`, in key order, when nothing fails. */
  function RunPhasePlan(sc: SuiteConfig, tree: map<string, seq<Snippet>>, ks: seq<string>): seq<Call>
    requires Keyed(tree, ks)
    decreases |ks|
  {
    if ks == [] then [] else RunRunnerPlan(sc, ks[0], tree[ks[0]]) + RunPhasePlan(sc, tree, ks[1..])
  }

  /**
   * One runner's `run`: without a configuration, `MISSING_RUNNER_CONFIG`
   * escapes before anything is executed or logged; otherwise `RanEach` from
   * a fresh runner.
   */
  ghost predicate RanRunner(sc: SuiteConfig, name: string, sns: seq<Snippet>, out: Outcome, d: seq<Entry>, evs: seq<Event>) {
    match ResolveConfig(name, RawOf(sc, name), sc.dest)
    case Fail(_) => RawOf(sc, name).None? && out == Escaped(MissingRunnerConfig(name)) && d == [] && evs == []
    case Ok(c) => RanEach(c, Unset, sns, out, d, evs)
  }

  /**
   * `run` stopped in runner `ks[i]`: the runners before it ran all their
   * commands and logged a success per snippet, and `ks[i]` stopped as
   * `RanRunner` says.
   */
  ghost predicate RunStopsIn(sc: SuiteConfig, tree: map<string, seq<Snippet>>, ks: seq<string>, i: nat, out: Outcome, d: seq<Entry>, evs: seq<Event>)
    requires Keyed(tree, ks) && i < |ks|
  {
    var p := RunPhasePlan(sc, tree, ks[..i]);
    var f := SuccessEvents(Concat(tree, ks[..i]));
    |p| <= |d| && Executes(d[..|p|], p, true) && |f| <= |evs| && evs[..|f|] == f &&
    RanRunner(sc, ks[i], tree[ks[i]], out, d[|p|..], evs[|f|..])
  }

  /** What `run` over the runners `ks` executed (`d`) and logged (`evs`). */
  ghost predicate RunTraced(sc: SuiteConfig, tree: map<string, seq<Snippet>>, ks: seq<string>, out: Outcome, d: seq<Entry>, evs: seq<Event>)
    requires Keyed(tree, ks)
  {
    (out.Completed? ==> Executes(d, RunPhasePlan(sc, tree, ks), true) && evs == SuccessEvents(Concat(tree, ks))) &&
    (!out.Completed? ==> exists i: nat :: i < |ks| && RunStopsIn(sc, tree, ks, i, out, d, evs))
  }

  lemma RunRunnerTrace(sc: SuiteConfig, o: Responder, m: (string, string) -> bool, name: string, sns: seq<Snippet>, log: seq<Entry>, ev: seq<Event>)
    ensures var p := RunRunner(sc, o, m, name, sns, log, ev);
      log <= p.state.log && ev <= p.events && RanRunner(sc, name, sns, p.outcome, p.state.log[|log|..], p.events[|ev|..])
  {
    match ResolveConfig(name, RawOf(sc, name), sc.dest)
    case Fail(e) =>
    case Ok(c) =>
      RunEachTrace(c, o, m, sns, RState(Unset, log), ev);
  }

  lemma RunPhasePlanCons(sc: SuiteConfig, tree: map<string, seq<Snippet>>, ks: seq<string>, i: nat)
    requires Keyed(tree, ks) && i < |ks|
    ensures RunPhasePlan(sc, tree, ks[..i + 1]) == RunRunnerPlan(sc, ks[0], tree[ks[0]]) + RunPhasePlan(sc, tree, ks[1..][..i])
    ensures SuccessEvents(Concat(tree, ks[..i + 1])) == SuccessEvents(tree[ks[0]]) + SuccessEvents(Concat(tree, ks[1..][..i]))
  {
    assert ks[..i + 1][0] == ks[0] && ks[..i + 1][1..] == ks[1..][..i];
    SuccessEventsAppend(tree[ks[0]], Concat(tree, ks[1..][..i]));
  }

  /** The first runner completed, then the rest stopped in runner `i`: the phase stopped in `i + 1`. */
  lemma RunStopsShift(sc: SuiteConfig, tree: map<string, seq<Snippet>>, ks: seq<string>, i: nat, out: Outcome,
                      d0: seq<Entry>, d1: seq<Entry>, e0: seq<Event>, e1: seq<Event>)
    requires Keyed(tree, ks) && i + 1 < |ks|
    requires Executes(d0, RunRunnerPlan(sc, ks[0], tree[ks[0]]), true) && e0 == SuccessEvents(tree[ks[0]])
    requires RunStopsIn(sc, tree, ks[1..], i, out, d1, e1)
    ensures RunStopsIn(sc, tree, ks, i + 1, out, d0 + d1, e0 + e1)
  {
    RunPhasePlanCons(sc, tree, ks, i);
    var f1 := SuccessEvents(Concat(tree, ks[1..][..i]));
    ExecutesPrefixShift(d0, d1, RunRunnerPlan(sc, ks[0], tree[ks[0]]), RunPhasePlan(sc, tree, ks[1..][..i]));
    EventsPrefixShift(e0, e1, f1);
    assert ks[1..][i] == ks[i + 1];
  }

  /**
   * What `run` executes and logs over the runners `ks`: when it completes,
   * every runner's plan in key order and a success per snippet of the tree
   * in that order. Otherwise it stopped in one runner `ks[i]`: the runners
   * before it completed, and in `ks[i]` either `MISSING_RUNNER_CONFIG`
   * escaped before anything of that runner ran, or the snippets before the
   * failing one succeeded and the failing one's error was logged with exit
   * status 1. Nothing of a later snippet or runner was executed or logged.
   */
  lemma {:induction false} RunPhaseEvents(sc: SuiteConfig, o: Responder, m: (string, string) -> bool, tree: map<string, seq<Snippet>>, ks: seq<string>, log: seq<Entry>, ev: seq<Event>)
    requires Keyed(tree, ks)
    ensures var p := RunPhase(sc, o, m, tree, ks, log, ev);
      log <= p.log && ev <= p.events && RunTraced(sc, tree, ks, p.outcome, p.log[|log|..], p.events[|ev|..])
    decreases |ks|
  {
    var p := RunPhase(sc, o, m, tree, ks, log, ev);
    if ks == [] {
      return;
    }
    var t := RunRunner(sc, o, m, ks[0], tree[ks[0]], log, ev);
    RunRunnerTrace(sc, o, m, ks[0], tree[ks[0]], log, ev);
    var d0, e0 := t.state.log[|log|..], t.events[|ev|..];
    if !t.outcome.Completed? {
      assert p == Progress(t.outcome, t.state.log, t.events);
      assert ks[..0] == [];
      assert RunStopsIn(sc, tree, ks, 0, p.outcome, p.log[|log|..], p.events[|ev|..]);
      return;
    }
    assert p == RunPhase(sc, o, m, tree, ks[1..], t.state.log, t.events);
    RunPhaseEvents(sc, o, m, tree, ks[1..], t.state.log, t.events);
    SliceSplit(log, t.state.log, p.log);
    SliceSplit(ev, t.events, p.events);
    var d1, e1 := p.log[|t.state.log|..], p.events[|t.events|..];
    assert Executes(d0, RunRunnerPlan(sc, ks[0], tree[ks[0]]), true) && e0 == SuccessEvents(tree[ks[0]]);
    if p.outcome.Completed? {
      ExecutesThen(d0, RunRunnerPlan(sc, ks[0], tree[ks[0]]), d1, RunPhasePlan(sc, tree, ks[1..]), true);
      SuccessEventsAppend(tree[ks[0]], Concat(tree, ks[1..]));
    } else {
      var i: nat :| i < |ks[1..]| && RunStopsIn(sc, tree, ks[1..], i, p.outcome, d1, e1);
      RunStopsShift(sc, tree, ks, i, p.outcome, d0, d1, e0, e1);
    }
  }

  /**
   * Running the suite over the grouping of the discovered snippets: when it
   * completes, every discovered snippet was run and logged as a success
   * exactly once.
   */
  lemma RunCoversDiscovered(sc: SuiteConfig, o: Responder, m: (string, string) -> bool, files: seq<Snippet>, log: seq<Entry>)
    ensures Keyed(Tree(files), RunnerOrder(files))
    ensures var p := RunPhase(sc, o, m, Tree(files), RunnerOrder(files), log, []);
      p.outcome.Completed? ==>
        exists done: seq<Snippet> :: multiset(done) == multiset(files) && p.events == SuccessEvents(done)
  {
    TreePartition(files);
    var p := RunPhase(sc, o, m, Tree(files), RunnerOrder(files), log, []);
    RunPhaseEvents(sc, o, m, Tree(files), RunnerOrder(files), log, []);
    if p.outcome.Completed? {
      assert p.events[0..] == p.events;
      assert p.events == SuccessEvents(Concat(Tree(files), RunnerOrder(files)));
    }
  }
  // ---------------------------------------------------------------------
  // Before hooks: at most once per runner, per phase
  // ---------------------------------------------------------------------

  lemma {:induction false} RunEachTracks(c: Config, o: Responder, m: (string, string) -> bool, sns: seq<Snippet>, s: RState, ev: seq<Event>)
    ensures Tracks(s, RunEach(c, o, m, sns, s, ev).state)
    decreases |sns|
  {
    var p := RunEach(c, o, m, sns, s, ev);
    if sns == [] {
      assert Delta(s, p.state) == [];
    } else {
      var t := RunStep(c, o, m, sns[0], s);
      RunStepCorrect(c, o, m, sns[0], s);
      if t.result.Ok? {
        assert p == RunEach(c, o, m, sns[1..], t.state, ev + [SnippetSuccess(sns[0])]);
        RunEachTracks(c, o, m, sns[1..], t.state, ev + [SnippetSuccess(sns[0])]);
        TracksTrans(s, t.state, p.state);
      }
    }
  }

  /**
   * `run` creates one runner per runner name, so each before hook of that
   * runner succeeds at most once over all its snippets, and its latch ends
   * set exactly when it did.
   */
  lemma RunRunnerHooksOnce(sc: SuiteConfig, o: Responder, m: (string, string) -> bool, name: string, sns: seq<Snippet>, log: seq<Entry>, ev: seq<Event>, ph: Phase)
    ensures var p := RunRunner(sc, o, m, name, sns, log, ev);
      log <= p.state.log && Successes(p.state.log[|log|..], ph) <= 1 &&
      (p.state.latches.Get(ph) <==> Successes(p.state.log[|log|..], ph) == 1)
  {
    var p := RunRunner(sc, o, m, name, sns, log, ev);
    match ResolveConfig(name, RawOf(sc, name), sc.dest)
    case Fail(e) =>
      assert p.state.log[|log|..] == [];
    case Ok(c) =>
      RunEachTracks(c, o, m, sns, RState(Unset, log), ev);
  }

  lemma {:induction false} LintEachTracks(c: Config, o: Responder, sns: seq<Snippet>, s: RState, ev: seq<Event>)
    ensures Tracks(s, LintEach(c, o, sns, s, ev).state)
    ensures LintOrigins(Delta(s, LintEach(c, o, sns, s, ev).state), false)
    decreases |sns|
  {
    var p := LintEach(c, o, sns, s, ev);
    if sns == [] {
      assert Delta(s, p.state) == [];
    } else {
      var t := PhaseStep(c, o, Lint, sns[0], s);
      PhaseStepCorrect(c, o, Lint, sns[0], s);
      PhasePlanOrigins(c, s.latches, sns[0], Delta(s, t.state), t.result.Ok?);
      if t.result.Ok? {
        assert p == LintEach(c, o, sns[1..], t.state, ev);
        LintEachTracks(c, o, sns[1..], t.state, ev);
        TracksTrans(s, t.state, p.state);
        DeltaSplit(s.log, t.state.log, p.state.log);
      }
    }
  }

  /**
   * The commands a lint of one runner issues: its lint before hook, then the
   * runner-wide lint command when `lint.global` is set, and per-snippet lint
   * commands otherwise; never both.
   */
  ghost predicate LintOrigins(d: seq<Entry>, global: bool) {
    forall k :: 0 <= k < |d| ==>
      d[k].call.origin == PhaseBefore(Lint) ||
      (global && d[k].call.origin == LintAllCmd) ||
      (!global && d[k].call.origin.PhaseCmd? && d[k].call.origin.phase == Lint)
  }

  lemma PhasePlanOrigins(c: Config, l: Latches, sn: Snippet, d: seq<Entry>, ok: bool)
    requires Executes(d, PhasePlan(c, Lint, l, sn), ok)
    ensures LintOrigins(d, false)
  {
    var plan := PhasePlan(c, Lint, l, sn);
    forall k | 0 <= k < |d| ensures d[k].call == plan[k] {
    }
  }

  lemma LintAllPlanOrigins(c: Config, l: Latches, d: seq<Entry>, ok: bool)
    requires Executes(d, LintAllPlan(c, l), ok)
    ensures LintOrigins(d, true)
  {
    var plan := LintAllPlan(c, l);
    forall k | 0 <= k < |d| ensures d[k].call == plan[k] {
    }
  }

  lemma TracksOnce(s: RState, t: RState)
    requires Tracks(s, t)
    ensures forall ph :: Successes(Delta(s, t), ph) <= 1
  {
    forall ph ensures Successes(Delta(s, t), ph) <= 1 {
      match ph {
        case Build => assert LatchTracks(s, t, Build);
        case Lint => assert LatchTracks(s, t, Lint);
        case Run => assert LatchTracks(s, t, Run);
      }
    }
  }

  /** One lint of a resolved runner, global or per snippet. */
  lemma LintResolvedFacts(c: Config, o: Responder, name: string, sns: seq<Snippet>, s: RState, ev: seq<Event>)
    ensures var p := if c.global then LintAllStep(c, o, s).state else LintEach(c, o, sns, s, ev).state;
      Tracks(s, p) && LintOrigins(Delta(s, p), c.global)
  {
    if c.global {
      var t := LintAllStep(c, o, s);
      LintAllStepCorrect(c, o, s);
      LintAllPlanOrigins(c, s.latches, Delta(s, t.state), CommandsOk(t.result));
    } else {
      LintEachTracks(c, o, sns, s, ev);
    }
  }

  /**
   * `lint` with a fresh runner: each before hook succeeds at most once, and a
   * global runner issues only its before hook and the runner-wide command.
   */
  lemma LintRunnerFacts(sc: SuiteConfig, o: Responder, name: string, sns: seq<Snippet>, log: seq<Entry>, ev: seq<Event>)
    ensures var p := LintRunner(sc, o, name, sns, log, ev);
      log <= p.state.log &&
      (forall ph :: Successes(p.state.log[|log|..], ph) <= 1) &&
      LintOrigins(p.state.log[|log|..], IsGlobal(sc, name))
  {
    var p := LintRunner(sc, o, name, sns, log, ev);
    var s := RState(Unset, log);
    match ResolveConfig(name, RawOf(sc, name), sc.dest)
    case Fail(e) =>
      assert p.state.log[|log|..] == [];
    case Ok(c) =>
      LintResolvedFacts(c, o, name, sns, s, ev);
      var q := if c.global then LintAllStep(c, o, s).state else LintEach(c, o, sns, s, ev).state;
      assert p.state == q;
      TracksOnce(s, q);
  }

  /** The runner `name` is configured with `lint.global` set. */
  predicate IsGlobal(sc: SuiteConfig, name: string) {
    name in sc.runners && sc.runners[name].lint.global == Some(true)
  }

  // ---------------------------------------------------------------------
  // What `lint` executes and logs
  // ---------------------------------------------------------------------

  /** A "lint ok" runner success per name, in order. */
  function LintOks(names: seq<string>): (ev: seq<Event>)
    ensures |ev| == |names|
  {
    seq(|names|, k requires 0 <= k < |names| => RunnerSuccess(names[k], "lint ok"))
  }

  /** The runners of `ks` that lint globally, in order. */
  function GlobalRunners(sc: SuiteConfig, ks: seq<string>): seq<string> {
    if ks == [] then [] else (if IsGlobal(sc, ks[0]) then [ks[0]] else []) + GlobalRunners(sc, ks[1..])
  }

  lemma GlobalRunnersCons(sc: SuiteConfig, ks: seq<string>, i: nat)
    requires i < |ks|
    ensures GlobalRunners(sc, ks[..i + 1]) == (if IsGlobal(sc, ks[0]) then [ks[0]] else []) + GlobalRunners(sc, ks[1..][..i])
  {
    assert ks[..i + 1][0] == ks[0];
    assert ks[..i + 1][1..] == ks[1..][..i];
  }

  lemma LintOksAppend(a: seq<string>, b: seq<string>)
    ensures LintOks(a + b) == LintOks(a) + LintOks(b)
  {
  }

  /**
   * The commands per-snippet lint issues for the snippets `sns` of one
   * runner from the latches `l`, when nothing fails: only the first snippet
   * can run the lint before hook.
   */
  function LintEachPlan(c: Config, l: Latches, sns: seq<Snippet>): seq<Call>
    decreases |sns|
  {
    if sns == [] then [] else PhasePlan(c, Lint, l, sns[0]) + LintEachPlan(c, Spent, sns[1..])
  }

  lemma LintEachPlanCons(c: Config, l: Latches, sns: seq<Snippet>, k: nat)
    requires k < |sns|
    ensures LintEachPlan(c, l, sns[..k + 1]) == PhasePlan(c, Lint, l, sns[0]) + LintEachPlan(c, Spent, sns[1..][..k])
  {
    assert sns[..k + 1][0] == sns[0] && sns[..k + 1][1..] == sns[1..][..k];
  }

  /**
   * Per-snippet lint stopped at snippet `n`: the lints of the snippets
   * before it ran to the end, a command of snippet `n` exited non-zero (the
   * last one executed), and exactly one error is logged, against `sns[n]`.
   */
  ghost predicate LintStoppedAt(c: Config, l: Latches, sns: seq<Snippet>, d: seq<Entry>, evs: seq<Event>, n: nat)
    requires n < |sns|
  {
    Executes(d, LintEachPlan(c, l, sns[..n + 1]), false) && |LintEachPlan(c, l, sns[..n])| < |d| &&
    evs == [SnippetError(sns[n], PhaseError(Lint, d[|d| - 1]))]
  }

  /** What one non-global runner's lint from latches `l` executed (`d`) and logged (`evs`). */
  ghost predicate LintedEach(c: Config, l: Latches, sns: seq<Snippet>, out: Outcome, d: seq<Entry>, evs: seq<Event>) {
    !out.Escaped? &&
    (out.Completed? ==> Executes(d, LintEachPlan(c, l, sns), true) && evs == []) &&
    (out.Exited? ==> out.status == 1 && exists n: nat :: n < |sns| && LintStoppedAt(c, l, sns, d, evs, n))
  }

  lemma LintedEachFirst(c: Config, o: Responder, sns: seq<Snippet>, s: RState)
    requires sns != [] && PhaseStep(c, o, Lint, sns[0], s).result.Fail?
    ensures var t := PhaseStep(c, o, Lint, sns[0], s);
      s.log <= t.state.log &&
      LintStoppedAt(c, s.latches, sns, Delta(s, t.state), [SnippetError(sns[0], t.result.error)], 0)
  {
    var t := PhaseStep(c, o, Lint, sns[0], s);
    PhaseStepCorrect(c, o, Lint, sns[0], s);
    PhaseStepError(c, o, Lint, sns[0], s);
    assert sns[..1][1..] == [] && sns[..0] == [];
    assert LintEachPlan(c, s.latches, sns[..1]) == PhasePlan(c, Lint, s.latches, sns[0]);
  }

  lemma LintedEachCons(c: Config, l: Latches, sns: seq<Snippet>, out: Outcome, d0: seq<Entry>, d1: seq<Entry>, evs: seq<Event>)
    requires sns != [] && Executes(d0, PhasePlan(c, Lint, l, sns[0]), true)
    requires LintedEach(c, Spent, sns[1..], out, d1, evs)
    ensures LintedEach(c, l, sns, out, d0 + d1, evs)
  {
    var x, rest := sns[0], sns[1..];
    if out.Completed? {
      ExecutesThen(d0, PhasePlan(c, Lint, l, x), d1, LintEachPlan(c, Spent, rest), true);
    } else if out.Exited? {
      var n: nat :| n < |rest| && LintStoppedAt(c, Spent, rest, d1, evs, n);
      LintStoppedShift(c, l, sns, d0, d1, evs, n);
    }
  }

  lemma LintStoppedShift(c: Config, l: Latches, sns: seq<Snippet>, d0: seq<Entry>, d1: seq<Entry>, evs: seq<Event>, n: nat)
    requires n + 1 < |sns| && Executes(d0, PhasePlan(c, Lint, l, sns[0]), true)
    requires LintStoppedAt(c, Spent, sns[1..], d1, evs, n)
    ensures LintStoppedAt(c, l, sns, d0 + d1, evs, n + 1)
  {
    LintEachPlanCons(c, l, sns, n + 1);
    LintEachPlanCons(c, l, sns, n);
    assert sns[n + 1] == sns[1..][n];
    ExecutesThen(d0, PhasePlan(c, Lint, l, sns[0]), d1, LintEachPlan(c, Spent, sns[1..][..n + 1]), false);
    LastOfAppend(d0, d1);
  }

  /** A runner whose lint before hook is spent lints as from `Spent`. */
  lemma LintedEachSpent(c: Config, l: Latches, sns: seq<Snippet>, out: Outcome, d: seq<Entry>, evs: seq<Event>)
    requires sns != [] && PhasePlan(c, Lint, l, sns[0]) == PhasePlan(c, Lint, Spent, sns[0])
    requires LintedEach(c, l, sns, out, d, evs)
    ensures LintedEach(c, Spent, sns, out, d, evs)
  {
    forall k: nat | k <= |sns|
      ensures LintEachPlan(c, l, sns[..k]) == LintEachPlan(c, Spent, sns[..k])
    {
      if k > 0 {
        assert sns[..k][0] == sns[0];
      }
    }
    assert sns[..|sns|] == sns;
    if out.Exited? {
      var n: nat :| n < |sns| && LintStoppedAt(c, l, sns, d, evs, n);
      assert LintStoppedAt(c, Spent, sns, d, evs, n);
    }
  }

  lemma {:induction false} LintEachTrace(c: Config, o: Responder, sns: seq<Snippet>, s: RState, ev: seq<Event>)
    ensures var p := LintEach(c, o, sns, s, ev);
      s.log <= p.state.log && ev <= p.events &&
      LintedEach(c, s.latches, sns, p.outcome, Delta(s, p.state), p.events[|ev|..])
    decreases |sns|
  {
    var p := LintEach(c, o, sns, s, ev);
    if sns == [] {
      assert Delta(s, p.state) == [];
      return;
    }
    var t := PhaseStep(c, o, Lint, sns[0], s);
    if t.result.Fail? {
      LintedEachFirst(c, o, sns, s);
      return;
    }
    assert p == LintEach(c, o, sns[1..], t.state, ev);
    LintEachTrace(c, o, sns[1..], t.state, ev);
    PhaseStepCorrect(c, o, Lint, sns[0], s);
    DeltaSplit(s.log, t.state.log, p.state.log);
    if sns[1..] != [] {
      PhaseStepSpends(c, o, Lint, sns[0], s);
      LintedEachSpent(c, t.state.latches, sns[1..], p.outcome, Delta(t.state, p.state), p.events[|ev|..]);
    } else {
      assert LintEachPlan(c, t.state.latches, []) == LintEachPlan(c, Spent, []);
    }
    LintedEachCons(c, s.latches, sns, p.outcome, Delta(s, t.state), Delta(t.state, p.state), p.events[|ev|..]);
  }

  /**
   * A global runner's `lintAll`: its plan ran; on success "lint ok" is
   * logged, otherwise one runner error: `NoCommand` when `lint.cmd` is
   * absent (no command failed), else the error of the command that failed.
   */
  ghost predicate LintedAll(c: Config, name: string, out: Outcome, d: seq<Entry>, evs: seq<Event>) {
    !out.Escaped? &&
    (out.Completed? ==> Executes(d, LintAllPlan(c, Unset), true) && evs == [RunnerSuccess(name, "lint ok")]) &&
    (out.Exited? ==>
       out.status == 1 && |evs| == 1 && evs[0].RunnerError? && evs[0].runner == name &&
       var e := evs[0].error;
       Executes(d, LintAllPlan(c, Unset), e.NoCommand?) &&
       (e.NoCommand? ==> e == NoCommand(Lint) && c.lint.cmd.None?) &&
       (!e.NoCommand? ==> 0 < |d| && e == LintAllError(d[|d| - 1])))
  }

  lemma LintedAllTrace(c: Config, o: Responder, name: string, log: seq<Entry>)
    ensures var s := RState(Unset, log); var t := LintAllStep(c, o, s);
      var out := if t.result.Fail? then Exited(1) else Completed;
      var evs := if t.result.Fail? then [RunnerError(name, t.result.error)] else [RunnerSuccess(name, "lint ok")];
      log <= t.state.log && LintedAll(c, name, out, Delta(s, t.state), evs)
  {
    var s := RState(Unset, log);
    var t := LintAllStep(c, o, s);
    LintAllStepCorrect(c, o, s);
    LintAllStepError(c, o, s);
  }

  /** The commands one runner's lint issues from a fresh `Runner`, when nothing fails. */
  function LintRunnerPlan(sc: SuiteConfig, name: string, sns: seq<Snippet>): seq<Call> {
    match ResolveConfig(name, RawOf(sc, name), sc.dest)
    case Fail(_) => []
    case Ok(c) => if c.global then LintAllPlan(c, Unset) else LintEachPlan(c, Unset, sns)
  }

  /** The commands `lint` issues over the runners `ks`, in key order, when nothing fails. */
  function LintPhasePlan(sc: SuiteConfig, tree: map<string, seq<Snippet>>, ks: seq<string>): seq<Call>
    requires Keyed(tree, ks)
    decreases |ks|
  {
    if ks == [] then [] else LintRunnerPlan(sc, ks[0], tree[ks[0]]) + LintPhasePlan(sc, tree, ks[1..])
  }

  /**
   * One runner's lint: without a configuration `MISSING_RUNNER_CONFIG`
   * escapes before anything is executed or logged; otherwise `LintedAll`
   * for a global runner and `LintedEach` from a fresh runner for the rest.
   */
  ghost predicate LintedRunner(sc: SuiteConfig, name: string, sns: seq<Snippet>, out: Outcome, d: seq<Entry>, evs: seq<Event>) {
    match ResolveConfig(name, RawOf(sc, name), sc.dest)
    case Fail(_) => RawOf(sc, name).None? && out == Escaped(MissingRunnerConfig(name)) && d == [] && evs == []
    case Ok(c) => if c.global then LintedAll(c, name, out, d, evs) else LintedEach(c, Unset, sns, out, d, evs)
  }

  lemma LintRunnerTrace(sc: SuiteConfig, o: Responder, name: string, sns: seq<Snippet>, log: seq<Entry>, ev: seq<Event>)
    ensures var p := LintRunner(sc, o, name, sns, log, ev);
      log <= p.state.log && ev <= p.events && LintedRunner(sc, name, sns, p.outcome, p.state.log[|log|..], p.events[|ev|..])
  {
    match ResolveConfig(name, RawOf(sc, name), sc.dest)
    case Fail(e) =>
    case Ok(c) =>
      if c.global {
        LintedAllTrace(c, o, name, log);
      } else {
        LintEachTrace(c, o, sns, RState(Unset, log), ev);
      }
  }

  /** A runner whose lint completed ran its whole plan and logged "lint ok" if global. */
  lemma LintedRunnerCompleted(sc: SuiteConfig, name: string, sns: seq<Snippet>, out: Outcome, d: seq<Entry>, evs: seq<Event>)
    requires out.Completed? && LintedRunner(sc, name, sns, out, d, evs)
    ensures Executes(d, LintRunnerPlan(sc, name, sns), true)
    ensures evs == LintOks(if IsGlobal(sc, name) then [name] else [])
  {
  }

  /**
   * `lint` stopped in runner `ks[i]`: the runners before it ran all their
   * commands and logged "lint ok" if global, and `ks[i]` stopped as
   * `LintedRunner` says.
   */
  ghost predicate LintStopsIn(sc: SuiteConfig, tree: map<string, seq<Snippet>>, ks: seq<string>, i: nat, out: Outcome, d: seq<Entry>, evs: seq<Event>)
    requires Keyed(tree, ks) && i < |ks|
  {
    var p := LintPhasePlan(sc, tree, ks[..i]);
    var f := LintOks(GlobalRunners(sc, ks[..i]));
    |p| <= |d| && Executes(d[..|p|], p, true) && |f| <= |evs| && evs[..|f|] == f &&
    LintedRunner(sc, ks[i], tree[ks[i]], out, d[|p|..], evs[|f|..])
  }

  /** What `lint` over the runners `ks` executed (`d`) and logged (`evs`). */
  ghost predicate LintTraced(sc: SuiteConfig, tree: map<string, seq<Snippet>>, ks: seq<string>, out: Outcome, d: seq<Entry>, evs: seq<Event>)
    requires Keyed(tree, ks)
  {
    (out.Completed? ==> Executes(d, LintPhasePlan(sc, tree, ks), true) && evs == LintOks(GlobalRunners(sc, ks))) &&
    (!out.Completed? ==> exists i: nat :: i < |ks| && LintStopsIn(sc, tree, ks, i, out, d, evs))
  }

  lemma LintPhasePlanCons(sc: SuiteConfig, tree: map<string, seq<Snippet>>, ks: seq<string>, i: nat)
    requires Keyed(tree, ks) && i < |ks|
    ensures LintPhasePlan(sc, tree, ks[..i + 1]) == LintRunnerPlan(sc, ks[0], tree[ks[0]]) + LintPhasePlan(sc, tree, ks[1..][..i])
    ensures LintOks(GlobalRunners(sc, ks[..i + 1])) ==
      LintOks(if IsGlobal(sc, ks[0]) then [ks[0]] else []) + LintOks(GlobalRunners(sc, ks[1..][..i]))
  {
    assert ks[..i + 1][0] == ks[0] && ks[..i + 1][1..] == ks[1..][..i];
    GlobalRunnersCons(sc, ks, i);
    LintOksAppend(if IsGlobal(sc, ks[0]) then [ks[0]] else [], GlobalRunners(sc, ks[1..][..i]));
  }

  /** The first runner completed, then the rest stopped in runner `i`: the phase stopped in `i + 1`. */
  lemma LintStopsShift(sc: SuiteConfig, tree: map<string, seq<Snippet>>, ks: seq<string>, i: nat, out: Outcome,
                       d0: seq<Entry>, d1: seq<Entry>, e0: seq<Event>, e1: seq<Event>)
    requires Keyed(tree, ks) && i + 1 < |ks|
    requires Executes(d0, LintRunnerPlan(sc, ks[0], tree[ks[0]]), true)
    requires e0 == LintOks(if IsGlobal(sc, ks[0]) then [ks[0]] else [])
    requires LintStopsIn(sc, tree, ks[1..], i, out, d1, e1)
    ensures LintStopsIn(sc, tree, ks, i + 1, out, d0 + d1, e0 + e1)
  {
    LintPhasePlanCons(sc, tree, ks, i);
    var f1 := LintOks(GlobalRunners(sc, ks[1..][..i]));
    ExecutesPrefixShift(d0, d1, LintRunnerPlan(sc, ks[0], tree[ks[0]]), LintPhasePlan(sc, tree, ks[1..][..i]));
    EventsPrefixShift(e0, e1, f1);
    assert ks[1..][i] == ks[i + 1];
  }

  /**
   * What `lint` executes and logs over the runners `ks`: when it completes,
   * every runner's plan in key order (one `lintAll` for a global runner,
   * `lint(snippet)` for each snippet in bucket order otherwise) and "lint ok"
   * per global runner. Otherwise it stopped in one runner `ks[i]` after the
   * runners before it completed: `MISSING_RUNNER_CONFIG` escaped before
   * anything of `ks[i]` ran, or its runner error was logged, or the error of
   * its first failing snippet was; the exit status is 1. Nothing of a later
   * snippet or runner was executed or logged.
   */
  lemma {:induction false} LintPhaseEvents(sc: SuiteConfig, o: Responder, tree: map<string, seq<Snippet>>, ks: seq<string>, log: seq<Entry>, ev: seq<Event>)
    requires Keyed(tree, ks)
    ensures var p := LintPhase(sc, o, tree, ks, log, ev);
      log <= p.log && ev <= p.events && LintTraced(sc, tree, ks, p.outcome, p.log[|log|..], p.events[|ev|..])
    decreases |ks|
  {
    var p := LintPhase(sc, o, tree, ks, log, ev);
    if ks == [] {
      return;
    }
    var t := LintRunner(sc, o, ks[0], tree[ks[0]], log, ev);
    LintRunnerTrace(sc, o, ks[0], tree[ks[0]], log, ev);
    var d0, e0 := t.state.log[|log|..], t.events[|ev|..];
    if !t.outcome.Completed? {
      assert p == Progress(t.outcome, t.state.log, t.events);
      assert ks[..0] == [];
      assert LintStopsIn(sc, tree, ks, 0, p.outcome, p.log[|log|..], p.events[|ev|..]);
      return;
    }
    assert p == LintPhase(sc, o, tree, ks[1..], t.state.log, t.events);
    LintPhaseEvents(sc, o, tree, ks[1..], t.state.log, t.events);
    LintedRunnerCompleted(sc, ks[0], tree[ks[0]], t.outcome, d0, e0);
    SliceSplit(log, t.state.log, p.log);
    SliceSplit(ev, t.events, p.events);
    var d1, e1 := p.log[|t.state.log|..], p.events[|t.events|..];
    if p.outcome.Completed? {
      ExecutesThen(d0, LintRunnerPlan(sc, ks[0], tree[ks[0]]), d1, LintPhasePlan(sc, tree, ks[1..]), true);
      LintOksAppend(if IsGlobal(sc, ks[0]) then [ks[0]] else [], GlobalRunners(sc, ks[1..]));
    } else {
      var i: nat :| i < |ks[1..]| && LintStopsIn(sc, tree, ks[1..], i, p.outcome, d1, e1);
      LintStopsShift(sc, tree, ks, i, p.outcome, d0, d1, e0, e1);
    }
  }

  // ---------------------------------------------------------------------
  // The Suite class
  // ---------------------------------------------------------------------

  /** The bucket `r` had before `init`, or none. */
  function Prior(tree: map<string, seq<Snippet>>, r: string): seq<Snippet> {
    if r in tree then tree[r] else []
  }

  /**
   * `tree` and `order` are the grouping `init` builds by adding `sns` to the
   * grouping `t0`, `o0`.
   */
  ghost predicate Grouped(tree: map<string, seq<Snippet>>, order: seq<string>, t0: map<string, seq<Snippet>>, o0: seq<string>, sns: seq<Snippet>) {
    GroupedKeys(tree, order, t0, o0, sns) && GroupedBuckets(tree, t0, sns)
  }

  /** The keys: distinct, exactly those of the tree, first-seen order. */
  ghost predicate GroupedKeys(tree: map<string, seq<Snippet>>, order: seq<string>, t0: map<string, seq<Snippet>>, o0: seq<string>, sns: seq<Snippet>) {
    Distinct(order) && Keyed(tree, order) && (forall r :: r in tree ==> r in order) &&
    order == Extend(o0, sns) && (forall r :: r in t0 ==> r in tree)
  }

  /** The buckets: what was there, then the new snippets of that runner. */
  ghost predicate GroupedBuckets(tree: map<string, seq<Snippet>>, t0: map<string, seq<Snippet>>, sns: seq<Snippet>) {
    (forall r :: r in tree ==> tree[r] == Prior(t0, r) + Bucket(sns, r)) &&
    (forall r :: r in t0 ==> r in tree) &&
    (forall r :: r !in tree ==> Bucket(sns, r) == [])
  }

  /** The tree after `init` adds `sn`. */
  function AddSnippet(tree: map<string, seq<Snippet>>, sn: Snippet): map<string, seq<Snippet>> {
    tree[sn.runner := Prior(tree, sn.runner) + [sn]]
  }

  /** The key order after `init` adds `sn`. */
  function AddKey(tree: map<string, seq<Snippet>>, order: seq<string>, sn: Snippet): seq<string> {
    if sn.runner in tree then order else order + [sn.runner]
  }

  lemma GroupedStep(tree: map<string, seq<Snippet>>, order: seq<string>, t0: map<string, seq<Snippet>>, o0: seq<string>, files: seq<Snippet>, i: nat)
    requires i < |files| && Grouped(tree, order, t0, o0, files[..i])
    ensures Grouped(AddSnippet(tree, files[i]), AddKey(tree, order, files[i]), t0, o0, files[..i + 1])
  {
    GroupedKeysStep(tree, order, t0, o0, files, i);
    GroupedBucketsStep(tree, t0, files, i);
  }

  lemma GroupedKeysStep(tree: map<string, seq<Snippet>>, order: seq<string>, t0: map<string, seq<Snippet>>, o0: seq<string>, files: seq<Snippet>, i: nat)
    requires i < |files| && GroupedKeys(tree, order, t0, o0, files[..i])
    ensures GroupedKeys(AddSnippet(tree, files[i]), AddKey(tree, order, files[i]), t0, o0, files[..i + 1])
  {
    ExtendStep(o0, files, i);
  }

  lemma GroupedBucketsStep(tree: map<string, seq<Snippet>>, t0: map<string, seq<Snippet>>, files: seq<Snippet>, i: nat)
    requires i < |files| && GroupedBuckets(tree, t0, files[..i])
    ensures GroupedBuckets(AddSnippet(tree, files[i]), t0, files[..i + 1])
  {
    var t2 := AddSnippet(tree, files[i]);
    forall r
      ensures r in t2 ==> t2[r] == Prior(t0, r) + Bucket(files[..i + 1], r)
      ensures r !in t2 ==> Bucket(files[..i + 1], r) == []
    {
      BucketStepAt(tree, t0, files, i, r);
    }
  }

  /** The bucket of one runner `r` after adding the next snippet. */
  lemma BucketStepAt(tree: map<string, seq<Snippet>>, t0: map<string, seq<Snippet>>, files: seq<Snippet>, i: nat, r: string)
    requires i < |files|
    requires r in tree ==> tree[r] == Prior(t0, r) + Bucket(files[..i], r)
    requires r !in tree ==> Bucket(files[..i], r) == []
    requires r in t0 ==> r in tree
    ensures r in AddSnippet(tree, files[i]) ==> AddSnippet(tree, files[i])[r] == Prior(t0, r) + Bucket(files[..i + 1], r)
    ensures r !in AddSnippet(tree, files[i]) ==> Bucket(files[..i + 1], r) == []
  {
    BucketStep(files, i, r);
    if r !in tree {
      assert Prior(t0, r) == [] && Prior(tree, r) == [];
    }
  }

  /** The tree after `init` has added `sns`, one snippet at a time, to `t0`. */
  function GrownTree(t0: map<string, seq<Snippet>>, sns: seq<Snippet>): map<string, seq<Snippet>>
    decreases |sns|
  {
    if sns == [] then t0 else AddSnippet(GrownTree(t0, sns[..|sns| - 1]), sns[|sns| - 1])
  }

  /** The key order after `init` has added `sns` to `t0` keyed by `o0`. */
  function GrownOrder(t0: map<string, seq<Snippet>>, o0: seq<string>, sns: seq<Snippet>): seq<string>
    decreases |sns|
  {
    if sns == [] then o0
    else
      var init := sns[..|sns| - 1];
      AddKey(GrownTree(t0, init), GrownOrder(t0, o0, init), sns[|sns| - 1])
  }

  /** Adding snippets one at a time builds the grouping `Grouped` describes. */
  lemma {:induction false} GrownGrouped(t0: map<string, seq<Snippet>>, o0: seq<string>, sns: seq<Snippet>)
    requires Distinct(o0) && Keyed(t0, o0) && (forall r :: r in t0 ==> r in o0)
    ensures Grouped(GrownTree(t0, sns), GrownOrder(t0, o0, sns), t0, o0, sns)
    decreases |sns|
  {
    if sns == [] {
      assert GroupedBuckets(t0, t0, sns);
    } else {
      var n := |sns| - 1;
      GrownGrouped(t0, o0, sns[..n]);
      GroupedStep(GrownTree(t0, sns[..n]), GrownOrder(t0, o0, sns[..n]), t0, o0, sns, n);
      assert sns[..n + 1] == sns;
    }
  }

  /**
   * `init` on a fresh suite builds exactly the reference grouping: the tree
   * `Tree(files)` with its keys in first-seen order.
   */
  lemma InitFresh(tree: map<string, seq<Snippet>>, order: seq<string>, files: seq<Snippet>)
    requires Keyed(tree, order) && (forall r :: r in tree ==> r in order)
    requires order == Extend([], files)
    requires forall r :: r in tree ==> tree[r] == Prior(map[], r) + Bucket(files, r)
    ensures tree == Tree(files) && order == RunnerOrder(files)
  {
    var t := Tree(files);
    forall r ensures r in tree <==> r in t {
      if r in order {
        var i :| 0 <= i < |order| && order[i] == r;
      }
    }
    forall r | r in tree ensures tree[r] == t[r] {
      assert Prior(map[], r) == [];
    }
  }

  class Suite {
    const config: SuiteConfig
    /** The docker service: every container of the compose network. */
    const container: Container
    const matches: (string, string) -> bool
    /** `snippetsTree`, with `order` the iteration order of its keys. */
    var tree: map<string, seq<Snippet>>
    var order: seq<string>
    /** What the logger has been asked to print. */
    var events: seq<Event>

    /** The keys of the tree are exactly the names of `order`, each once. */
    ghost predicate Valid()
      reads this
    {
      Distinct(order) && Keyed(tree, order) && forall r :: r in tree ==> r in order
    }

    constructor (config: SuiteConfig, container: Container, matches: (string, string) -> bool)
      ensures this.config == config && this.container == container && this.matches == matches
      ensures tree == map[] && order == [] && events == []
      ensures Valid()
    {
      this.config := config;
      this.container := container;
      this.matches := matches;
      tree := map[];
      order := [];
      events := [];
    }

    /**
     * `init`: each discovered snippet is appended to the bucket of its
     * runner, a runner seen for the first time getting a new key at the end.
     */
    method Init(files: seq<Snippet>)
      requires Valid()
      modifies this
      ensures Valid() && events == old(events)
      ensures order == Extend(old(order), files)
      ensures forall r :: r in tree ==> tree[r] == Prior(old(tree), r) + Bucket(files, r)
    {
      for i := 0 to |files|
        invariant events == old(events)
        invariant tree == GrownTree(old(tree), files[..i]) && order == GrownOrder(old(tree), old(order), files[..i])
      {
        var sn := files[i];
        ghost var t0, o0 := tree, order;
        if sn.runner !in tree {
          tree := tree[sn.runner := []];
          order := order + [sn.runner];
        }
        assert tree[sn.runner] == Prior(t0, sn.runner) && order == AddKey(t0, o0, sn);
        tree := tree[sn.runner := tree[sn.runner] + [sn]];
        assert tree == AddSnippet(t0, sn);
        assert files[..i + 1][..i] == files[..i];
      }
      assert files[..|files|] == files;
      GrownGrouped(old(tree), old(order), files);
    }

    /** One non-global runner's lint: every snippet in order, the first error logged. */
    method LintSnippets(runner: Runner, sns: seq<Snippet>) returns (out: Outcome)
      requires runner.container == container
      modifies this, runner, container
      ensures tree == old(tree) && order == old(order)
      ensures RunnerProgress(out, runner.State(), events) == LintEach(runner.config, container.respond, sns, old(runner.State()), old(events))
    {
      for j := 0 to |sns|
        invariant tree == old(tree) && order == old(order)
        invariant LintEach(runner.config, container.respond, sns, old(runner.State()), old(events))
               == LintEach(runner.config, container.respond, sns[j..], runner.State(), events)
      {
        assert sns[j..][0] == sns[j] && sns[j..][1..] == sns[j + 1..];
        var r := runner.Lint(sns[j]);
        if r.Fail? {
          events := events + [SnippetError(sns[j], r.error)];
          return Exited(1);
        }
      }
      return Completed;
    }

    /** One runner's lint phase, from its construction on. */
    method LintOne(name: string) returns (out: Outcome)
      requires name in tree
      modifies this, container
      ensures tree == old(tree) && order == old(order)
      ensures var p := LintRunner(config, container.respond, name, tree[name], old(container.log), old(events));
        out == p.outcome && container.log == p.state.log && events == p.events
    {
      var created := NewRunner(name, RawOf(config, name), config.dest, container, matches);
      if created.Fail? {
        return Escaped(created.error);
      }
      var runner := created.value;
      if runner.config.global {
        var r := runner.LintAll();
        if r.Fail? {
          events := events + [RunnerError(name, r.error)];
          return Exited(1);
        }
        events := events + [RunnerSuccess(name, "lint ok")];
        return Completed;
      }
      out := LintSnippets(runner, tree[name]);
    }

    /** `lint`: every runner in key order, each with a fresh `Runner`. */
    method Lint() returns (out: Outcome)
      requires Valid()
      modifies this, container
      ensures tree == old(tree) && order == old(order)
      ensures Progress(out, container.log, events) == LintPhase(config, container.respond, tree, order, old(container.log), old(events))
    {
      for i := 0 to |order|
        invariant tree == old(tree) && order == old(order)
        invariant LintPhase(config, container.respond, tree, order, old(container.log), old(events))
               == LintPhase(config, container.respond, tree, order[i..], container.log, events)
      {
        assert order[i..][0] == order[i] && order[i..][1..] == order[i + 1..];
        out := LintOne(order[i]);
        if !out.Completed? {
          return;
        }
      }
      return Completed;
    }

    /** One runner's snippets: every snippet run in order, the first error logged. */
    method RunSnippets(runner: Runner, sns: seq<Snippet>) returns (out: Outcome)
      requires runner.container == container && runner.matches == matches
      modifies this, runner, container
      ensures tree == old(tree) && order == old(order)
      ensures RunnerProgress(out, runner.State(), events) == RunEach(runner.config, container.respond, matches, sns, old(runner.State()), old(events))
    {
      for j := 0 to |sns|
        invariant tree == old(tree) && order == old(order)
        invariant RunEach(runner.config, container.respond, matches, sns, old(runner.State()), old(events))
               == RunEach(runner.config, container.respond, matches, sns[j..], runner.State(), events)
      {
        assert sns[j..][0] == sns[j] && sns[j..][1..] == sns[j + 1..];
        var r := runner.Run(sns[j]);
        if r.Fail? {
          events := events + [SnippetError(sns[j], r.error)];
          return Exited(1);
        }
        events := events + [SnippetSuccess(sns[j])];
      }
      return Completed;
    }

    /** One runner's run phase, from its construction on. */
    method RunOne(name: string) returns (out: Outcome)
      requires name in tree
      modifies this, container
      ensures tree == old(tree) && order == old(order)
      ensures var p := RunRunner(config, container.respond, matches, name, tree[name], old(container.log), old(events));
        out == p.outcome && container.log == p.state.log && events == p.events
    {
      var created := NewRunner(name, RawOf(config, name), config.dest, container, matches);
      if created.Fail? {
        return Escaped(created.error);
      }
      var runner := created.value;
      out := RunSnippets(runner, tree[name]);
    }

    /** `run`: every runner in key order, each with a fresh `Runner`, every snippet in order. */
    method Run() returns (out: Outcome)
      requires Valid()
      modifies this, container
      ensures tree == old(tree) && order == old(order)
      ensures Progress(out, container.log, events) == RunPhase(config, container.respond, matches, tree, order, old(container.log), old(events))
    {
      for i := 0 to |order|
        invariant tree == old(tree) && order == old(order)
        invariant RunPhase(config, container.respond, matches, tree, order, old(container.log), old(events))
               == RunPhase(config, container.respond, matches, tree, order[i..], container.log, events)
      {
        assert order[i..][0] == order[i] && order[i..][1..] == order[i + 1..];
        out := RunOne(order[i]);
        if !out.Completed? {
          return;
        }
      }
      return Completed;
    }
  }
}
