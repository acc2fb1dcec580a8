/**
 * What a `Runner` (lib/runner.js) does, as functions of its configuration,
 * the container oracle and its state (the three once-only latches and the
 * container transcript). The class in runner.dfy is proved to follow them.
 */
module Lifecycle {
  import opened Basics
  import opened Text
  import opened Exec
  import opened Templating
  import opened Matching

  /** `hooks.before` / `hooks.after` of a snippet: absent, one command or a list. */
  datatype HookSpec = NoHook | OneHook(cmd: string) | HookList(cmds: seq<string>) {
    /** A falsy entry runs nothing; a single command is a one-element list. */
    function Commands(): seq<string> {
      match this
      case NoHook => []
      case OneHook(c) => if c == "" then [] else [c]
      case HookList(cs) => cs
    }
  }

  datatype SnippetHooks = SnippetHooks(before: HookSpec, after: HookSpec)

  /** A rendered snippet, as lib/snippet.js hands it over. */
  datatype Snippet = Snippet(
    name: string,
    description: string,
    extension: string,
    destDir: string,
    hooks: SnippetHooks,
    expected: Expected<string>,
    runner: string)
  {
    /** The `source` getter: the generated file name. */
    function Source(): string {
      name + "." + extension
    }

    function Hooks(kind: HookKind): HookSpec {
      if kind == Before then hooks.before else hooks.after
    }
  }

  /** `_templateSnippetCommand(cmd, snippet)`. */
  function SnippetCommand(cmd: string, sn: Snippet): string {
    TemplateSnippetCommand(cmd, sn.name, sn.Source(), sn.destDir)
  }

  datatype PhaseConfig = PhaseConfig(before: Option<string>, cmd: Option<string>)

  datatype LintConfig = LintConfig(before: Option<string>, cmd: Option<string>, global: Option<bool>)

  /** A runner entry of the configuration file, as written. */
  datatype RawConfig = RawConfig(
    service: string,
    path: Option<string>,
    build: PhaseConfig,
    lint: LintConfig,
    run: PhaseConfig)

  /** A runner configuration once the constructor has filled in its defaults. */
  datatype Config = Config(
    service: string,
    path: string,
    build: PhaseConfig,
    lint: PhaseConfig,
    global: bool,
    run: PhaseConfig)
  {
    function Of(ph: Phase): PhaseConfig {
      match ph
      case Build => build
      case Lint => lint
      case Run => run
    }
  }

  /**
   * The error codes a `TestError` carries, with their messages; `NoCommand`
   * stands for the `TypeError` raised when an absent `lint.cmd` or `run.cmd`
   * is templated (`undefined.replace`).
   */
  datatype TestError =
    | MissingRunnerConfig(runner: string)
    | BeforeHookFailed(phase: Phase, output: string)
    | CommandFailed(phase: Phase, message: string)
    | HookFailed(kind: HookKind, message: string)
    | OrderMismatch(pattern: string, previous: string, output: string)
    | AssertionMismatch(pattern: string, output: string)
    | NoCommand(phase: Phase)
  {
    function Code(): string {
      match this
      case MissingRunnerConfig(_) => "MISSING_RUNNER_CONFIG"
      case BeforeHookFailed(ph, _) =>
        (match ph case Build => "BUILD_BEFORE_ERR" case Lint => "LINT_BEFORE_ERR" case Run => "RUN_BEFORE_ERR")
      case CommandFailed(ph, _) =>
        (match ph case Build => "BUILD_ERR" case Lint => "LINT_ERR" case Run => "RUN_ERR")
      case HookFailed(kind, _) => if kind == Before then "ERR_HOOK_BEFORE" else "ERR_HOOK_AFTER"
      case OrderMismatch(_, _, _) => "ERR_ORDER"
      case AssertionMismatch(_, _) => "ERR_ASSERTION"
      case NoCommand(_) => "TypeError"
    }

    /** Raised by the output assertion rather than by a failing command. */
    predicate IsMismatch() {
      OrderMismatch? || AssertionMismatch?
    }

    /** Raised although no command exited non-zero. */
    predicate NoCommandFailed() {
      IsMismatch() || NoCommand?
    }
  }

  /** A value, or the `TestError` thrown instead. */
  datatype Result<T> = Ok(value: T) | Fail(error: TestError)

  /** The output assertion was reached: success, or a mismatch it reported. */
  predicate Asserted<T>(r: Result<T>) {
    r.Ok? || r.error.IsMismatch()
  }

  /**
   * No command exited non-zero: the operation succeeded, its assertion
   * failed, or it stopped on an absent command without executing it.
   */
  predicate CommandsOk<T>(r: Result<T>) {
    Asserted(r) || r.error.NoCommand?
  }

  /**
   * The constructor: `MISSING_RUNNER_CONFIG` without a configuration;
   * otherwise `lint.global` defaults to false and an absent or empty `path`
   * to the suite's snippet destination.
   */
  function ResolveConfig(name: string, raw: Option<RawConfig>, dest: string): (r: Result<Config>)
    ensures r.Fail? <==> raw.None?
    ensures r.Fail? ==> r.error == MissingRunnerConfig(name)
    ensures r.Ok? ==> (r.value.global <==> raw.value.lint.global == Some(true))
    ensures r.Ok? && raw.value.lint.global.None? ==> !r.value.global
    ensures r.Ok? && Truthy(raw.value.path) ==> r.value.path == raw.value.path.value
    ensures r.Ok? && !Truthy(raw.value.path) ==> r.value.path == dest
    ensures r.Ok? ==> r.value.service == raw.value.service && r.value.build == raw.value.build &&
                      r.value.run == raw.value.run &&
                      r.value.lint == PhaseConfig(raw.value.lint.before, raw.value.lint.cmd)
  {
    match raw
    case None => Fail(MissingRunnerConfig(name))
    case Some(c) =>
      Ok(Config(
        c.service,
        if Truthy(c.path) then c.path.value else dest,
        c.build,
        PhaseConfig(c.lint.before, c.lint.cmd),
        c.lint.global.GetOr(false),
        c.run))
  }

  /** `_hasRunBeforeBuild`, `_hasRunBeforeLint`, `_hasRunBeforeRun`. */
  datatype Latches = Latches(build: bool, lint: bool, run: bool) {
    function Get(ph: Phase): bool {
      match ph
      case Build => build
      case Lint => lint
      case Run => run
    }

    function Set(ph: Phase): (l: Latches)
      ensures l.Get(ph)
      ensures forall q: Phase :: q != ph ==> l.Get(q) == Get(q)
    {
      match ph
      case Build => this.(build := true)
      case Lint => this.(lint := true)
      case Run => this.(run := true)
    }
  }

  const Unset: Latches := Latches(false, false, false)

  /** Every latch set: no before hook runs again. */
  const Spent: Latches := Latches(true, true, true)

  /** A runner's latches and the container transcript. */
  datatype RState = RState(latches: Latches, log: seq<Entry>)

  /** The outcome of one runner operation and the state after it. */
  datatype Step<T> = Step(result: Result<T>, state: RState)

  function Append(o: Responder, s: RState, call: Call): RState {
    RState(s.latches, Issue(o, s.log, call))
  }

  /** The result the oracle gives `call` in state `s`. */
  function Answer(o: Responder, s: RState, call: Call): ExecResult {
    o(s.log, call.service, call.cmd)
  }

  /** The command of a phase's before hook, templated twice as the source does. */
  function BeforeCall(c: Config, ph: Phase): Call
    requires c.Of(ph).before.Some?
  {
    Call(PhaseBefore(ph), c.service, TemplateCommand(c.path, TemplateCommand(c.path, c.Of(ph).before.value)))
  }

  /** `beforeBuild` / `beforeLint` / `beforeRun`. */
  function BeforeStep(c: Config, o: Responder, ph: Phase, s: RState): Step<()> {
    if !Truthy(c.Of(ph).before) || s.latches.Get(ph) then Step(Ok(()), s)
    else
      var call := BeforeCall(c, ph);
      var e := Answer(o, s, call);
      if e.exitCode != 0 then Step(Fail(BeforeHookFailed(ph, e.output)), Append(o, s, call))
      else Step(Ok(()), RState(s.latches.Set(ph), Issue(o, s.log, call)))
  }

  function LintAllCall(c: Config): Call
    requires c.lint.cmd.Some?
  {
    Call(LintAllCmd, c.service, TemplateCommand(c.path, c.lint.cmd.value))
  }

  /** `lintAll`: the lint before hook, then the runner-wide lint command. */
  function LintAllStep(c: Config, o: Responder, s: RState): Step<ExecResult> {
    var t := BeforeStep(c, o, Lint, s);
    if t.result.Fail? then Step(Fail(t.result.error), t.state)
    else if c.lint.cmd.None? then Step(Fail(NoCommand(Lint)), t.state)
    else
      var call := LintAllCall(c);
      var e := Answer(o, t.state, call);
      var s' := Append(o, t.state, call);
      if e.exitCode != 0 then Step(Fail(CommandFailed(Lint, call.cmd + "\n" + e.output)), s')
      else Step(Ok(e), s')
  }

  function PhaseCall(c: Config, ph: Phase, sn: Snippet): Call
    requires c.Of(ph).cmd.Some?
  {
    Call(PhaseCmd(ph, sn.name), c.service, SnippetCommand(c.Of(ph).cmd.value, sn))
  }

  /**
   * `lint(snippet)` (phase `Lint`) and `build(snippet)` (phase `Build`): the
   * phase's before hook, then its command; without the command nothing more
   * is executed.
   */
  function PhaseStep(c: Config, o: Responder, ph: Phase, sn: Snippet, s: RState): Step<Option<ExecResult>> {
    var t := BeforeStep(c, o, ph, s);
    if t.result.Fail? then Step(Fail(t.result.error), t.state)
    else if !Truthy(c.Of(ph).cmd) then Step(Ok(None), t.state)
    else
      var call := PhaseCall(c, ph, sn);
      var e := Answer(o, t.state, call);
      var s' := Append(o, t.state, call);
      if e.exitCode != 0 then Step(Fail(CommandFailed(ph, e.output)), s')
      else Step(Ok(Some(e)), s')
  }

  function HookCall(c: Config, sn: Snippet, kind: HookKind, hook: string): Call {
    Call(SnippetHook(kind, sn.name), c.service, SnippetCommand(hook, sn))
  }

  /** `_runHooks(snippet, kind)` over the remaining hook commands, in order. */
  function HooksStep(c: Config, o: Responder, sn: Snippet, kind: HookKind, hooks: seq<string>, s: RState): Step<()>
    decreases |hooks|
  {
    if hooks == [] then Step(Ok(()), s)
    else
      var call := HookCall(c, sn, kind, hooks[0]);
      var e := Answer(o, s, call);
      if e.exitCode != 0 then Step(Fail(HookFailed(kind, hooks[0] + "\n" + e.output)), Append(o, s, call))
      else HooksStep(c, o, sn, kind, hooks[1..], Append(o, s, call))
  }

  /**
   * The output assertion: only the run command's output is matched, split
   * into rows. It passes exactly when the expected patterns can be placed on
   * strictly increasing rows; `ERR_ASSERTION` names a pattern that matches
   * no row at all, `ERR_ORDER` one that matches only rows at or before the
   * row its predecessor took.
   */
  function Report(v: Verdict<string>, e: ExecResult): Result<ExecResult> {
    match v
    case Pass => Ok(e)
    case Missing(p) => Fail(AssertionMismatch(p, e.output))
    case OutOfOrder(p, q) => Fail(OrderMismatch(p, q, e.output))
  }

  function AssertOutput(sn: Snippet, m: (string, string) -> bool, e: ExecResult): (r: Result<ExecResult>)
    ensures r.Ok? <==> Embeds(sn.expected.Patterns(), SplitLines(e.output), m)
    ensures r.Ok? ==> r.value == e
    ensures r.Fail? ==> r.error.IsMismatch() && r.error.output == e.output
    ensures r.Fail? && r.error.AssertionMismatch? ==>
              r.error.pattern in sn.expected.Patterns() && !MatchesSomewhere(r.error.pattern, SplitLines(e.output), m)
    ensures r.Fail? && r.error.OrderMismatch? ==>
              exists j: nat :: 0 < j < |sn.expected.Patterns()| &&
                sn.expected.Patterns()[j] == r.error.pattern && sn.expected.Patterns()[j - 1] == r.error.previous &&
                MatchesSomewhere(r.error.pattern, SplitLines(e.output), m)
  {
    CheckCorrect(sn.expected.Patterns(), SplitLines(e.output), m);
    Report(Check(sn.expected.Patterns(), SplitLines(e.output), m), e)
  }

  function RunCall(c: Config, sn: Snippet): Call
    requires c.run.cmd.Some?
  {
    Call(PhaseCmd(Run, sn.name), c.service, SnippetCommand(c.run.cmd.value, sn))
  }

  /** The end of `run(snippet)`: after hooks, then the assertion on the run output `e`. */
  function FinishStep(c: Config, o: Responder, m: (string, string) -> bool, sn: Snippet, e: ExecResult, s: RState): Step<ExecResult> {
    var t := HooksStep(c, o, sn, After, sn.Hooks(After).Commands(), s);
    if t.result.Fail? then Step(Fail(t.result.error), t.state)
    else Step(AssertOutput(sn, m, e), t.state)
  }

  /** The run command itself; a non-zero exit is `RUN_ERR` with the output. */
  function RunCommandStep(c: Config, o: Responder, m: (string, string) -> bool, sn: Snippet, s: RState): Step<ExecResult> {
    if c.run.cmd.None? then Step(Fail(NoCommand(Run)), s)
    else
      var call := RunCall(c, sn);
      var e := Answer(o, s, call);
      var s1 := Append(o, s, call);
      if e.exitCode != 0 then Step(Fail(CommandFailed(Run, e.output)), s1)
      else FinishStep(c, o, m, sn, e, s1)
  }

  /** The part of `run(snippet)` after the build: before hooks, then the run command. */
  function ExecuteStep(c: Config, o: Responder, m: (string, string) -> bool, sn: Snippet, s: RState): Step<ExecResult> {
    var t := HooksStep(c, o, sn, Before, sn.Hooks(Before).Commands(), s);
    if t.result.Fail? then Step(Fail(t.result.error), t.state)
    else RunCommandStep(c, o, m, sn, t.state)
  }

  /** The build of `run(snippet)`, then the rest of it. */
  function BuildExecuteStep(c: Config, o: Responder, m: (string, string) -> bool, sn: Snippet, s: RState): Step<ExecResult> {
    var t := PhaseStep(c, o, Build, sn, s);
    if t.result.Fail? then Step(Fail(t.result.error), t.state)
    else ExecuteStep(c, o, m, sn, t.state)
  }

  /**
   * `run(snippet)`: before-run hook, build, before hooks, run command, after
   * hooks, output assertion; the first failure ends it.
   */
  function RunStep(c: Config, o: Responder, m: (string, string) -> bool, sn: Snippet, s: RState): Step<ExecResult> {
    var t := BeforeStep(c, o, Run, s);
    if t.result.Fail? then Step(Fail(t.result.error), t.state)
    else BuildExecuteStep(c, o, m, sn, t.state)
  }

  // ---------------------------------------------------------------------
  // Execution plans: the commands an operation issues when nothing fails.
  // ---------------------------------------------------------------------

  function BeforePlan(c: Config, ph: Phase, l: Latches): seq<Call> {
    if Truthy(c.Of(ph).before) && !l.Get(ph) then [BeforeCall(c, ph)] else []
  }

  function LintAllPlan(c: Config, l: Latches): seq<Call> {
    BeforePlan(c, Lint, l) + if c.lint.cmd.Some? then [LintAllCall(c)] else []
  }

  function PhasePlan(c: Config, ph: Phase, l: Latches, sn: Snippet): seq<Call> {
    BeforePlan(c, ph, l) + if Truthy(c.Of(ph).cmd) then [PhaseCall(c, ph, sn)] else []
  }

  function HookPlan(c: Config, sn: Snippet, kind: HookKind, hooks: seq<string>): seq<Call> {
    if hooks == [] then [] else [HookCall(c, sn, kind, hooks[0])] + HookPlan(c, sn, kind, hooks[1..])
  }

  function RunCommandPlan(c: Config, sn: Snippet): seq<Call> {
    if c.run.cmd.Some? then [RunCall(c, sn)] + HookPlan(c, sn, After, sn.Hooks(After).Commands()) else []
  }

  function ExecutePlan(c: Config, sn: Snippet): seq<Call> {
    HookPlan(c, sn, Before, sn.Hooks(Before).Commands()) + RunCommandPlan(c, sn)
  }

  /** The run pipeline's commands in order, when nothing fails. */
  function RunPlan(c: Config, l: Latches, sn: Snippet): seq<Call> {
    BeforePlan(c, Run, l) + (PhasePlan(c, Build, l, sn) + ExecutePlan(c, sn))
  }

  /**
   * `delta` carries out a prefix of `plan`: every command but the last exited
   * 0, and it stopped short of the plan only because its last command failed.
   * `ok` says that no command failed.
   */
  ghost predicate Executes(delta: seq<Entry>, plan: seq<Call>, ok: bool) {
    |delta| <= |plan| &&
    (forall k :: 0 <= k < |delta| ==> delta[k].call == plan[k]) &&
    (forall k :: 0 <= k < |delta| - 1 ==> delta[k].result.exitCode == 0) &&
    (ok <==> (delta == [] || delta[|delta| - 1].result.exitCode == 0)) &&
    (ok ==> |delta| == |plan|)
  }

  lemma ExecutesThen(d1: seq<Entry>, p1: seq<Call>, d2: seq<Entry>, p2: seq<Call>, ok: bool)
    requires Executes(d1, p1, true) && Executes(d2, p2, ok)
    ensures Executes(d1 + d2, p1 + p2, ok)
  {
    var d, p := d1 + d2, p1 + p2;
    forall k | 0 <= k < |d| ensures d[k].call == p[k] {
      if k >= |d1| {
        assert d[k] == d2[k - |d1|] && p[k] == p2[k - |d1|];
      }
    }
    forall k | 0 <= k < |d| - 1 ensures d[k].result.exitCode == 0 {
      if k >= |d1| {
        assert d[k] == d2[k - |d1|];
      }
    }
    if d2 == [] {
      assert d == d1;
    } else {
      assert d[|d| - 1] == d2[|d2| - 1];
    }
  }

  lemma ExecutesStop(d: seq<Entry>, p1: seq<Call>, p2: seq<Call>)
    requires Executes(d, p1, false)
    ensures Executes(d, p1 + p2, false)
  {
  }

  /** The part of the transcript an operation from `s` to `t` added. */
  function Delta(s: RState, t: RState): seq<Entry>
    requires |s.log| <= |t.log|
  {
    t.log[|s.log|..]
  }

  lemma DeltaSplit(a: seq<Entry>, b: seq<Entry>, c: seq<Entry>)
    requires a <= b <= c
    ensures c[|a|..] == b[|a|..] + c[|b|..]
  {
  }

  // ---------------------------------------------------------------------
  // The once-only latches.
  // ---------------------------------------------------------------------

  /** How many before-hook executions of phase `ph` in `d` exited 0. */
  function Successes(d: seq<Entry>, ph: Phase): nat {
    if d == [] then 0
    else (if d[0].call.origin == PhaseBefore(ph) && d[0].result.exitCode == 0 then 1 else 0) + Successes(d[1..], ph)
  }

  lemma {:induction false} SuccessesAppend(a: seq<Entry>, b: seq<Entry>, ph: Phase)
    ensures Successes(a + b, ph) == Successes(a, ph) + Successes(b, ph)
  {
    if a == [] {
      assert a + b == b;
    } else {
      assert (a + b)[1..] == a[1..] + b;
      SuccessesAppend(a[1..], b, ph);
    }
  }

  /**
   * From `s` to `t` the latch of `ph` behaves as the source promises: a set
   * latch stays set and no successful hook of that phase runs; an unset one
   * ends set exactly when one successful hook ran, and never more than one.
   */
  ghost predicate LatchTracks(s: RState, t: RState, ph: Phase)
    requires s.log <= t.log
  {
    var n := Successes(Delta(s, t), ph);
    n <= 1 &&
    (s.latches.Get(ph) ==> n == 0 && t.latches.Get(ph)) &&
    (!s.latches.Get(ph) ==> (t.latches.Get(ph) <==> n == 1))
  }

  ghost predicate Tracks(s: RState, t: RState) {
    s.log <= t.log && LatchTracks(s, t, Build) && LatchTracks(s, t, Lint) && LatchTracks(s, t, Run)
  }

  lemma TracksTrans(a: RState, b: RState, c: RState)
    requires Tracks(a, b) && Tracks(b, c)
    ensures Tracks(a, c)
  {
    DeltaSplit(a.log, b.log, c.log);
    SuccessesAppend(Delta(a, b), Delta(b, c), Build);
    SuccessesAppend(Delta(a, b), Delta(b, c), Lint);
    SuccessesAppend(Delta(a, b), Delta(b, c), Run);
  }

  /** A command other than a before hook leaves the latches alone. */
  lemma AppendTracks(o: Responder, s: RState, call: Call)
    requires !call.origin.PhaseBefore?
    ensures Tracks(s, Append(o, s, call))
    ensures Delta(s, Append(o, s, call)) == [Entry(call, Answer(o, s, call))]
  {
    var t := Append(o, s, call);
    assert Delta(s, t) == [Entry(call, Answer(o, s, call))];
  }

  /** The error a failing entry of `lint(snippet)` / `build(snippet)` throws. */
  function PhaseError(ph: Phase, last: Entry): TestError {
    if last.call.origin.PhaseBefore? then BeforeHookFailed(ph, last.result.output)
    else CommandFailed(ph, last.result.output)
  }

  /** The error a failing entry of `lintAll` throws: the command text leads the message. */
  function LintAllError(last: Entry): TestError {
    if last.call.origin.PhaseBefore? then BeforeHookFailed(Lint, last.result.output)
    else CommandFailed(Lint, last.call.cmd + "\n" + last.result.output)
  }

  lemma {:induction false} BeforeStepCorrect(c: Config, o: Responder, ph: Phase, s: RState)
    ensures var t := BeforeStep(c, o, ph, s);
      Tracks(s, t.state) && Executes(Delta(s, t.state), BeforePlan(c, ph, s.latches), t.result.Ok?)
    ensures var t := BeforeStep(c, o, ph, s); CommandsOk(t.result) == t.result.Ok?
    ensures var t := BeforeStep(c, o, ph, s);
      forall q: Phase :: q != ph ==> t.state.latches.Get(q) == s.latches.Get(q)
  {
    var t := BeforeStep(c, o, ph, s);
    if !Truthy(c.Of(ph).before) || s.latches.Get(ph) {
      assert Delta(s, t.state) == [];
    } else {
      var call := BeforeCall(c, ph);
      assert Delta(s, t.state) == [Entry(call, Answer(o, s, call))];
    }
  }

  lemma LintAllStepCorrect(c: Config, o: Responder, s: RState)
    ensures var t := LintAllStep(c, o, s);
      Tracks(s, t.state) && Executes(Delta(s, t.state), LintAllPlan(c, s.latches), CommandsOk(t.result))
    ensures var t := LintAllStep(c, o, s); t.result.Fail? && t.result.error.NoCommand? ==> c.lint.cmd.None?
    ensures var t := LintAllStep(c, o, s);
      BeforeStep(c, o, Lint, s).result.Ok? && c.lint.cmd.None? ==> t.result == Fail(NoCommand(Lint))
    ensures var t := LintAllStep(c, o, s); var n := |t.state.log|;
      t.result.Ok? ==> c.lint.cmd.Some? && |s.log| < n && t.state.log[n - 1] == Entry(LintAllCall(c), t.result.value)
  {
    LintAllStepTrace(c, o, s);
    LintAllStepValue(c, o, s);
  }

  lemma LintAllStepTrace(c: Config, o: Responder, s: RState)
    ensures var t := LintAllStep(c, o, s);
      Tracks(s, t.state) && Executes(Delta(s, t.state), LintAllPlan(c, s.latches), CommandsOk(t.result))
  {
    var t1 := BeforeStep(c, o, Lint, s);
    BeforeStepCorrect(c, o, Lint, s);
    var t := LintAllStep(c, o, s);
    if t1.result.Fail? {
      assert t.state == t1.state;
      ExecutesStop(Delta(s, t.state), BeforePlan(c, Lint, s.latches), if c.lint.cmd.Some? then [LintAllCall(c)] else []);
    } else if c.lint.cmd.None? {
      assert t.state == t1.state;
      assert LintAllPlan(c, s.latches) == BeforePlan(c, Lint, s.latches);
    } else {
      var call := LintAllCall(c);
      assert t.state == Append(o, t1.state, call);
      AppendTracks(o, t1.state, call);
      Chain(s, t1.state, t.state, BeforePlan(c, Lint, s.latches), [call], t.result.Ok?);
    }
  }

  lemma LintAllStepValue(c: Config, o: Responder, s: RState)
    ensures var t := LintAllStep(c, o, s); t.result.Fail? && t.result.error.NoCommand? ==> c.lint.cmd.None?
    ensures var t := LintAllStep(c, o, s);
      BeforeStep(c, o, Lint, s).result.Ok? && c.lint.cmd.None? ==> t.result == Fail(NoCommand(Lint))
    ensures var t := LintAllStep(c, o, s); var n := |t.state.log|;
      t.result.Ok? ==> c.lint.cmd.Some? && |s.log| < n && t.state.log[n - 1] == Entry(LintAllCall(c), t.result.value)
  {
    var t1 := BeforeStep(c, o, Lint, s);
    if t1.result.Ok? && c.lint.cmd.Some? {
      var call := LintAllCall(c);
      var s' := Append(o, t1.state, call);
      assert s'.log[|s'.log| - 1] == Entry(call, Answer(o, t1.state, call));
      assert |s.log| <= |t1.state.log|;
    }
  }

  lemma PhaseStepCorrect(c: Config, o: Responder, ph: Phase, sn: Snippet, s: RState)
    ensures var t := PhaseStep(c, o, ph, sn, s);
      Tracks(s, t.state) && Executes(Delta(s, t.state), PhasePlan(c, ph, s.latches, sn), t.result.Ok?)
    ensures var t := PhaseStep(c, o, ph, sn, s); CommandsOk(t.result) == t.result.Ok?
    ensures var t := PhaseStep(c, o, ph, sn, s);
      forall q: Phase :: q != ph ==> t.state.latches.Get(q) == s.latches.Get(q)
  {
    PhaseStepTrace(c, o, ph, sn, s);
    PhaseStepLatches(c, o, ph, sn, s);
  }

  /** `lint(snippet)` / `build(snippet)` can set only its own phase's latch. */
  lemma PhaseStepLatches(c: Config, o: Responder, ph: Phase, sn: Snippet, s: RState)
    ensures var t := PhaseStep(c, o, ph, sn, s); CommandsOk(t.result) == t.result.Ok?
    ensures var t := PhaseStep(c, o, ph, sn, s);
      forall q: Phase :: q != ph ==> t.state.latches.Get(q) == s.latches.Get(q)
  {
    var t1 := BeforeStep(c, o, ph, s);
    var l := PhaseStep(c, o, ph, sn, s).state.latches;
    assert l == t1.state.latches;
    assert t1.state.latches == s.latches || t1.state.latches == s.latches.Set(ph);
  }

  lemma PhaseStepTrace(c: Config, o: Responder, ph: Phase, sn: Snippet, s: RState)
    ensures var t := PhaseStep(c, o, ph, sn, s);
      Tracks(s, t.state) && Executes(Delta(s, t.state), PhasePlan(c, ph, s.latches, sn), t.result.Ok?)
  {
    var t1 := BeforeStep(c, o, ph, s);
    BeforeStepCorrect(c, o, ph, s);
    var t := PhaseStep(c, o, ph, sn, s);
    var p1 := BeforePlan(c, ph, s.latches);
    if t1.result.Fail? {
      assert t.state == t1.state;
      ExecutesStop(Delta(s, t.state), p1, if Truthy(c.Of(ph).cmd) then [PhaseCall(c, ph, sn)] else []);
    } else if !Truthy(c.Of(ph).cmd) {
      assert t.state == t1.state;
      assert PhasePlan(c, ph, s.latches, sn) == p1;
    } else {
      var call := PhaseCall(c, ph, sn);
      assert t.state == Append(o, t1.state, call) && (t.result.Ok? <==> Answer(o, t1.state, call).exitCode == 0);
      AppendAfter(o, s, t1.state, call, p1);
      assert PhasePlan(c, ph, s.latches, sn) == p1 + [call];
    }
  }

  /** A command that is not a before hook, issued after an operation that succeeded. */
  lemma AppendAfter(o: Responder, s: RState, a: RState, call: Call, p: seq<Call>)
    requires !call.origin.PhaseBefore?
    requires Tracks(s, a) && Executes(Delta(s, a), p, true)
    ensures var b := Append(o, a, call);
      Tracks(s, b) && b.latches == a.latches &&
      Executes(Delta(s, b), p + [call], Answer(o, a, call).exitCode == 0)
  {
    AppendTracks(o, a, call);
    Chain(s, a, Append(o, a, call), p, [call], Answer(o, a, call).exitCode == 0);
  }

  lemma {:induction false} HooksStepCorrect(c: Config, o: Responder, sn: Snippet, kind: HookKind, hooks: seq<string>, s: RState)
    ensures var t := HooksStep(c, o, sn, kind, hooks, s);
      Tracks(s, t.state) && t.state.latches == s.latches &&
      Executes(Delta(s, t.state), HookPlan(c, sn, kind, hooks), t.result.Ok?)
    ensures var t := HooksStep(c, o, sn, kind, hooks, s); CommandsOk(t.result) == t.result.Ok?
    decreases |hooks|
  {
    var t := HooksStep(c, o, sn, kind, hooks, s);
    if hooks == [] {
      assert Delta(s, t.state) == [];
    } else {
      var call := HookCall(c, sn, kind, hooks[0]);
      var s1 := Append(o, s, call);
      AppendTracks(o, s, call);
      if Answer(o, s, call).exitCode != 0 {
        assert t.state == s1;
        ExecutesStop(Delta(s, t.state), [call], HookPlan(c, sn, kind, hooks[1..]));
      } else {
        HooksStepCorrect(c, o, sn, kind, hooks[1..], s1);
        HooksCons(c, o, sn, kind, hooks, s);
      }
    }
  }

  /** `_runHooks` from hook `i` on: hook `i` runs, then the rest unless it failed. */
  lemma HooksStepNext(c: Config, o: Responder, sn: Snippet, kind: HookKind, hooks: seq<string>, i: nat, s: RState)
    requires i < |hooks|
    ensures var call := HookCall(c, sn, kind, hooks[i]); var e := Answer(o, s, call);
      HooksStep(c, o, sn, kind, hooks[i..], s) ==
        if e.exitCode != 0 then Step(Fail(HookFailed(kind, hooks[i] + "\n" + e.output)), Append(o, s, call))
        else HooksStep(c, o, sn, kind, hooks[i + 1..], Append(o, s, call))
  {
    assert hooks[i..][0] == hooks[i] && hooks[i..][1..] == hooks[i + 1..];
  }

  /** A first hook that exits 0, then the rest: the facts about the rest extend to all hooks. */
  lemma HooksCons(c: Config, o: Responder, sn: Snippet, kind: HookKind, hooks: seq<string>, s: RState)
    requires hooks != [] && Answer(o, s, HookCall(c, sn, kind, hooks[0])).exitCode == 0
    requires var s1 := Append(o, s, HookCall(c, sn, kind, hooks[0]));
      var t := HooksStep(c, o, sn, kind, hooks[1..], s1);
      Tracks(s1, t.state) && t.state.latches == s1.latches &&
      Executes(Delta(s1, t.state), HookPlan(c, sn, kind, hooks[1..]), t.result.Ok?)
    ensures var t := HooksStep(c, o, sn, kind, hooks, s);
      Tracks(s, t.state) && t.state.latches == s.latches &&
      Executes(Delta(s, t.state), HookPlan(c, sn, kind, hooks), t.result.Ok?)
  {
    var call := HookCall(c, sn, kind, hooks[0]);
    var s1 := Append(o, s, call);
    var t := HooksStep(c, o, sn, kind, hooks[1..], s1);
    assert t == HooksStep(c, o, sn, kind, hooks, s);
    AppendTracks(o, s, call);
    Chain(s, s1, t.state, [call], HookPlan(c, sn, kind, hooks[1..]), t.result.Ok?);
  }

  /** A failing before hook throws its phase's code with the hook's output, and only it ran. */
  lemma BeforeStepError(c: Config, o: Responder, ph: Phase, s: RState)
    ensures var t := BeforeStep(c, o, ph, s);
      t.result.Fail? ==>
        |t.state.log| == |s.log| + 1 && t.state.log[|s.log|].call == BeforeCall(c, ph) &&
        t.result.error == BeforeHookFailed(ph, t.state.log[|s.log|].result.output) && !t.state.latches.Get(ph)
  {
  }

  /**
   * A failing `lint(snippet)` / `build(snippet)` throws the phase's before
   * hook code or command code, with the output of the command that failed.
   */
  lemma PhaseStepError(c: Config, o: Responder, ph: Phase, sn: Snippet, s: RState)
    ensures var t := PhaseStep(c, o, ph, sn, s); var n := |t.state.log|;
      t.result.Fail? ==> |s.log| < n && t.result.error == PhaseError(ph, t.state.log[n - 1])
    ensures var t := PhaseStep(c, o, ph, sn, s); var n := |t.state.log|;
      t.result.Fail? ==> |s.log| < n && t.state.log[n - 1].call.origin in {PhaseBefore(ph), PhaseCmd(ph, sn.name)}
  {
    BeforeStepError(c, o, ph, s);
  }

  /**
   * A failing `lintAll` throws `LINT_BEFORE_ERR` with the hook's output, or
   * `LINT_ERR` whose message is the command, a newline and its output.
   */
  lemma LintAllStepError(c: Config, o: Responder, s: RState)
    ensures var t := LintAllStep(c, o, s); var n := |t.state.log|;
      t.result.Fail? && !t.result.error.NoCommand? ==>
        |s.log| < n && t.result.error == LintAllError(t.state.log[n - 1])
  {
    BeforeStepError(c, o, Lint, s);
  }

  /**
   * A failing `_runHooks` throws `ERR_HOOK_BEFORE` / `ERR_HOOK_AFTER` naming
   * the hook that failed (the last one executed) and its output.
   */
  lemma {:induction false} HooksStepError(c: Config, o: Responder, sn: Snippet, kind: HookKind, hooks: seq<string>, s: RState)
    ensures HookFailedLast(c, sn, kind, hooks, s, HooksStep(c, o, sn, kind, hooks, s))
    decreases |hooks|, 1
  {
    if hooks != [] {
      var call := HookCall(c, sn, kind, hooks[0]);
      if Answer(o, s, call).exitCode == 0 {
        HooksStepErrorTail(c, o, sn, kind, hooks, s);
      } else {
        var s1 := Append(o, s, call);
        assert s1.log[|s1.log| - 1] == Entry(call, Answer(o, s, call));
      }
    }
  }

  /**
   * `t` failing means the hook that failed is the `n`-th of `hooks`, where
   * `n` hooks ran, and the error names it with its output.
   */
  ghost predicate HookFailedLast(c: Config, sn: Snippet, kind: HookKind, hooks: seq<string>, s: RState, t: Step<()>) {
    var n := |t.state.log| - |s.log|;
    t.result.Fail? ==>
      0 < n <= |hooks| && t.state.log[|t.state.log| - 1].call == HookCall(c, sn, kind, hooks[n - 1]) &&
      t.result.error == HookFailed(kind, hooks[n - 1] + "\n" + t.state.log[|t.state.log| - 1].result.output)
  }

  lemma {:induction false} HooksStepErrorTail(c: Config, o: Responder, sn: Snippet, kind: HookKind, hooks: seq<string>, s: RState)
    requires hooks != [] && Answer(o, s, HookCall(c, sn, kind, hooks[0])).exitCode == 0
    ensures HookFailedLast(c, sn, kind, hooks, s, HooksStep(c, o, sn, kind, hooks, s))
    decreases |hooks|, 0
  {
    var s1 := Append(o, s, HookCall(c, sn, kind, hooks[0]));
    var t := HooksStep(c, o, sn, kind, hooks[1..], s1);
    HooksStepError(c, o, sn, kind, hooks[1..], s1);
    HookFailedShift(c, sn, kind, hooks, s, s1, t);
  }

  /** A hook failing after the first succeeded is found one place further on. */
  lemma HookFailedShift(c: Config, sn: Snippet, kind: HookKind, hooks: seq<string>, s: RState, s1: RState, t: Step<()>)
    requires hooks != [] && |s1.log| == |s.log| + 1
    requires HookFailedLast(c, sn, kind, hooks[1..], s1, t)
    ensures HookFailedLast(c, sn, kind, hooks, s, t)
  {
    if t.result.Fail? {
      var n := |t.state.log| - |s1.log|;
      assert hooks[1..][n - 1] == hooks[n];
    }
  }

  /** Two operations in a row: their transcripts and plans concatenate. */
  lemma Chain(s: RState, a: RState, b: RState, p1: seq<Call>, p2: seq<Call>, ok: bool)
    requires Tracks(s, a) && Executes(Delta(s, a), p1, true)
    requires Tracks(a, b) && Executes(Delta(a, b), p2, ok)
    ensures Tracks(s, b) && Executes(Delta(s, b), p1 + p2, ok)
    ensures Delta(s, b) == Delta(s, a) + Delta(a, b)
  {
    TracksTrans(s, a, b);
    DeltaSplit(s.log, a.log, b.log);
    ExecutesThen(Delta(s, a), p1, Delta(a, b), p2, ok);
  }

  /** `r` is the assertion's verdict on the output of a run command of `sn` recorded in `d`. */
  ghost predicate AssertedOn(d: seq<Entry>, c: Config, m: (string, string) -> bool, sn: Snippet, r: Result<ExecResult>) {
    c.run.cmd.Some? &&
    exists k :: 0 <= k < |d| && d[k].call == RunCall(c, sn) && r == AssertOutput(sn, m, d[k].result)
  }

  lemma AssertedOnExtend(d1: seq<Entry>, d2: seq<Entry>, c: Config, m: (string, string) -> bool, sn: Snippet, r: Result<ExecResult>)
    requires AssertedOn(d2, c, m, sn, r)
    ensures AssertedOn(d1 + d2, c, m, sn, r)
  {
    var k :| 0 <= k < |d2| && d2[k].call == RunCall(c, sn) && r == AssertOutput(sn, m, d2[k].result);
    assert (d1 + d2)[|d1| + k] == d2[k];
  }

  lemma FinishStepCorrect(c: Config, o: Responder, m: (string, string) -> bool, sn: Snippet, e: ExecResult, s: RState)
    ensures var t := FinishStep(c, o, m, sn, e, s);
      Tracks(s, t.state) && t.state.latches == s.latches &&
      Executes(Delta(s, t.state), HookPlan(c, sn, After, sn.Hooks(After).Commands()), CommandsOk(t.result))
    ensures var t := FinishStep(c, o, m, sn, e, s);
      CommandsOk(t.result) ==> t.result == AssertOutput(sn, m, e)
  {
    HooksStepCorrect(c, o, sn, After, sn.Hooks(After).Commands(), s);
  }

  lemma RunCommandStepCorrect(c: Config, o: Responder, m: (string, string) -> bool, sn: Snippet, s: RState)
    ensures var t := RunCommandStep(c, o, m, sn, s);
      Tracks(s, t.state) && t.state.latches == s.latches &&
      Executes(Delta(s, t.state), RunCommandPlan(c, sn), CommandsOk(t.result))
    ensures var t := RunCommandStep(c, o, m, sn, s);
      Asserted(t.result) ==> AssertedOn(Delta(s, t.state), c, m, sn, t.result)
  {
    var t := RunCommandStep(c, o, m, sn, s);
    if c.run.cmd.None? {
      assert Delta(s, t.state) == [];
      return;
    }
    var call := RunCall(c, sn);
    var e := Answer(o, s, call);
    var s1 := Append(o, s, call);
    var p := HookPlan(c, sn, After, sn.Hooks(After).Commands());
    AppendTracks(o, s, call);
    if e.exitCode != 0 {
      assert t.state == s1;
      ExecutesStop(Delta(s, s1), [call], p);
    } else {
      RunCommandSucceeds(c, o, m, sn, s);
    }
  }

  /** The run command exited 0: the after hooks and the assertion on its output follow. */
  lemma RunCommandSucceeds(c: Config, o: Responder, m: (string, string) -> bool, sn: Snippet, s: RState)
    requires c.run.cmd.Some? && Answer(o, s, RunCall(c, sn)).exitCode == 0
    ensures var t := RunCommandStep(c, o, m, sn, s);
      Tracks(s, t.state) && t.state.latches == s.latches &&
      Executes(Delta(s, t.state), RunCommandPlan(c, sn), CommandsOk(t.result))
    ensures var t := RunCommandStep(c, o, m, sn, s);
      Asserted(t.result) ==> AssertedOn(Delta(s, t.state), c, m, sn, t.result)
  {
    var call := RunCall(c, sn);
    var e := Answer(o, s, call);
    var s1 := Append(o, s, call);
    var p := HookPlan(c, sn, After, sn.Hooks(After).Commands());
    var t := FinishStep(c, o, m, sn, e, s1);
    assert t == RunCommandStep(c, o, m, sn, s);
    AppendTracks(o, s, call);
    FinishStepCorrect(c, o, m, sn, e, s1);
    Chain(s, s1, t.state, [call], p, CommandsOk(t.result));
    if Asserted(t.result) {
      assert Delta(s, t.state)[0] == Entry(call, e);
    }
  }

  lemma ExecuteStepCorrect(c: Config, o: Responder, m: (string, string) -> bool, sn: Snippet, s: RState)
    ensures var t := ExecuteStep(c, o, m, sn, s);
      Tracks(s, t.state) && Executes(Delta(s, t.state), ExecutePlan(c, sn), CommandsOk(t.result))
    ensures var t := ExecuteStep(c, o, m, sn, s); var d := Delta(s, t.state);
      Asserted(t.result) ==> AssertedOn(d, c, m, sn, t.result)
  {
    var t := ExecuteStep(c, o, m, sn, s);
    var p3 := HookPlan(c, sn, Before, sn.Hooks(Before).Commands());
    var p4 := RunCommandPlan(c, sn);
    var t3 := HooksStep(c, o, sn, Before, sn.Hooks(Before).Commands(), s);
    HooksStepCorrect(c, o, sn, Before, sn.Hooks(Before).Commands(), s);
    if t3.result.Fail? {
      assert t.state == t3.state;
      ExecutesStop(Delta(s, t.state), p3, p4);
    } else {
      assert t == RunCommandStep(c, o, m, sn, t3.state);
      RunCommandStepCorrect(c, o, m, sn, t3.state);
      Chain(s, t3.state, t.state, p3, p4, CommandsOk(t.result));
      if Asserted(t.result) {
        AssertedOnExtend(Delta(s, t3.state), Delta(t3.state, t.state), c, m, sn, t.result);
      }
    }
  }

  lemma BuildExecuteStepCorrect(c: Config, o: Responder, m: (string, string) -> bool, sn: Snippet, s: RState)
    ensures var t := BuildExecuteStep(c, o, m, sn, s);
      Tracks(s, t.state) && Executes(Delta(s, t.state), PhasePlan(c, Build, s.latches, sn) + ExecutePlan(c, sn), CommandsOk(t.result))
    ensures var t := BuildExecuteStep(c, o, m, sn, s); var d := Delta(s, t.state);
      Asserted(t.result) ==> AssertedOn(d, c, m, sn, t.result)
  {
    var t := BuildExecuteStep(c, o, m, sn, s);
    var p2 := PhasePlan(c, Build, s.latches, sn);
    var p3 := ExecutePlan(c, sn);
    var t2 := PhaseStep(c, o, Build, sn, s);
    PhaseStepCorrect(c, o, Build, sn, s);
    if t2.result.Fail? {
      assert t.state == t2.state;
      ExecutesStop(Delta(s, t.state), p2, p3);
    } else {
      assert t == ExecuteStep(c, o, m, sn, t2.state);
      ExecuteStepCorrect(c, o, m, sn, t2.state);
      Chain(s, t2.state, t.state, p2, p3, CommandsOk(t.result));
      if Asserted(t.result) {
        AssertedOnExtend(Delta(s, t2.state), Delta(t2.state, t.state), c, m, sn, t.result);
      }
    }
  }

  /**
   * The run pipeline issues a prefix of `RunPlan` in order, stopping at the
   * first command that exits non-zero; the assertion runs only when every
   * command succeeded, on the run command's own output.
   */
  lemma RunStepCorrect(c: Config, o: Responder, m: (string, string) -> bool, sn: Snippet, s: RState)
    ensures var t := RunStep(c, o, m, sn, s);
      Tracks(s, t.state) && Executes(Delta(s, t.state), RunPlan(c, s.latches, sn), CommandsOk(t.result))
    ensures var t := RunStep(c, o, m, sn, s); var d := Delta(s, t.state);
      Asserted(t.result) ==> AssertedOn(d, c, m, sn, t.result)
  {
    var t := RunStep(c, o, m, sn, s);
    var p1 := BeforePlan(c, Run, s.latches);
    var p2 := PhasePlan(c, Build, s.latches, sn) + ExecutePlan(c, sn);
    var t1 := BeforeStep(c, o, Run, s);
    BeforeStepCorrect(c, o, Run, s);
    if t1.result.Fail? {
      assert t.state == t1.state;
      ExecutesStop(Delta(s, t.state), p1, p2);
    } else {
      assert t == BuildExecuteStep(c, o, m, sn, t1.state);
      BuildExecuteStepCorrect(c, o, m, sn, t1.state);
      assert PhasePlan(c, Build, t1.state.latches, sn) == PhasePlan(c, Build, s.latches, sn);
      Chain(s, t1.state, t.state, p1, p2, CommandsOk(t.result));
      if Asserted(t.result) {
        AssertedOnExtend(Delta(s, t1.state), Delta(t1.state, t.state), c, m, sn, t.result);
      }
    }
  }

  // ---------------------------------------------------------------------
  // Which error `run(snippet)` throws.
  // ---------------------------------------------------------------------

  /**
   * The error `run(snippet)` throws when the command `last` exits non-zero,
   * told by the step that issued it: the before hook's `*_BEFORE_ERR`,
   * `BUILD_ERR` or `RUN_ERR` with the output, or `ERR_HOOK_BEFORE` /
   * `ERR_HOOK_AFTER` naming the snippet hook's own text.
   */
  ghost predicate RunFailure(c: Config, sn: Snippet, last: Entry, e: TestError) {
    match last.call.origin
    case PhaseBefore(ph) => e == BeforeHookFailed(ph, last.result.output)
    case PhaseCmd(ph, _) => e == CommandFailed(ph, last.result.output)
    case SnippetHook(kind, _) =>
      exists j :: 0 <= j < |sn.Hooks(kind).Commands()| &&
        last.call == HookCall(c, sn, kind, sn.Hooks(kind).Commands()[j]) &&
        e == HookFailed(kind, sn.Hooks(kind).Commands()[j] + "\n" + last.result.output)
    case LintAllCmd => false
  }

  /**
   * The errors `run(snippet)` can throw: never a lint error nor
   * `MISSING_RUNNER_CONFIG`, and `NoCommand` only without a `run.cmd`.
   */
  predicate RunThrowable(c: Config, e: TestError) {
    match e
    case MissingRunnerConfig(_) => false
    case BeforeHookFailed(ph, _) => ph != Lint
    case CommandFailed(ph, _) => ph != Lint
    case NoCommand(ph) => ph == Run && c.run.cmd.None?
    case _ => true
  }

  /**
   * A failure of part of `run(snippet)` from `s` to `t` is one `run` can
   * throw; when a command exited non-zero, `RunFailure` names its error.
   */
  ghost predicate FailedOn<T>(c: Config, sn: Snippet, s: RState, t: Step<T>) {
    var n := |t.state.log|;
    (t.result.Fail? ==> RunThrowable(c, t.result.error)) &&
    (t.result.Fail? && !CommandsOk(t.result) ==> |s.log| < n && RunFailure(c, sn, t.state.log[n - 1], t.result.error))
  }

  lemma HooksFailure(c: Config, o: Responder, sn: Snippet, kind: HookKind, s: RState)
    ensures FailedOn(c, sn, s, HooksStep(c, o, sn, kind, sn.Hooks(kind).Commands(), s))
  {
    var hooks := sn.Hooks(kind).Commands();
    var t := HooksStep(c, o, sn, kind, hooks, s);
    HooksStepError(c, o, sn, kind, hooks, s);
    HooksStepCorrect(c, o, sn, kind, hooks, s);
    HookFailedRun(c, sn, kind, s, t);
  }

  /** A hook failure is one `run` can throw, with the hook's text. */
  lemma HookFailedRun(c: Config, sn: Snippet, kind: HookKind, s: RState, t: Step<()>)
    requires HookFailedLast(c, sn, kind, sn.Hooks(kind).Commands(), s, t)
    requires CommandsOk(t.result) == t.result.Ok?
    ensures FailedOn(c, sn, s, t)
  {
    if t.result.Fail? {
      var hooks := sn.Hooks(kind).Commands();
      var j := |t.state.log| - |s.log| - 1;
      var last := t.state.log[|t.state.log| - 1];
      assert last.call == HookCall(c, sn, kind, hooks[j]);
      assert RunFailure(c, sn, last, t.result.error);
    }
  }

  lemma RunCommandStepError(c: Config, o: Responder, m: (string, string) -> bool, sn: Snippet, s: RState)
    ensures FailedOn(c, sn, s, RunCommandStep(c, o, m, sn, s))
  {
    if c.run.cmd.Some? {
      var call := RunCall(c, sn);
      var e := Answer(o, s, call);
      var s1 := Append(o, s, call);
      assert |s1.log| == |s.log| + 1 && s1.log[|s1.log| - 1] == Entry(call, e);
      if e.exitCode == 0 {
        FinishStepError(c, o, m, sn, e, s1);
      }
    }
  }

  lemma FinishStepError(c: Config, o: Responder, m: (string, string) -> bool, sn: Snippet, e: ExecResult, s: RState)
    ensures FailedOn(c, sn, s, FinishStep(c, o, m, sn, e, s))
  {
    var t := HooksStep(c, o, sn, After, sn.Hooks(After).Commands(), s);
    HooksFailure(c, o, sn, After, s);
    if t.result.Ok? {
      var r := AssertOutput(sn, m, e);
      assert r.Fail? ==> r.error.IsMismatch();
    }
  }

  lemma ExecuteStepError(c: Config, o: Responder, m: (string, string) -> bool, sn: Snippet, s: RState)
    ensures FailedOn(c, sn, s, ExecuteStep(c, o, m, sn, s))
  {
    var t := HooksStep(c, o, sn, Before, sn.Hooks(Before).Commands(), s);
    HooksFailure(c, o, sn, Before, s);
    if t.result.Ok? {
      HooksStepCorrect(c, o, sn, Before, sn.Hooks(Before).Commands(), s);
      RunCommandStepError(c, o, m, sn, t.state);
    }
  }

  lemma BuildExecuteStepError(c: Config, o: Responder, m: (string, string) -> bool, sn: Snippet, s: RState)
    ensures FailedOn(c, sn, s, BuildExecuteStep(c, o, m, sn, s))
  {
    var t := PhaseStep(c, o, Build, sn, s);
    PhaseStepError(c, o, Build, sn, s);
    PhaseStepCorrect(c, o, Build, sn, s);
    if t.result.Ok? {
      ExecuteStepError(c, o, m, sn, t.state);
    }
  }

  /**
   * A failing `run(snippet)` throws, for the command that exited non-zero
   * (the last one executed), the error of the step that issued it; a
   * mismatch is the assertion's (`RunStepCorrect`), and `NoCommand` means
   * there is no `run.cmd`. It never throws a lint code or
   * `MISSING_RUNNER_CONFIG`.
   */
  lemma RunStepError(c: Config, o: Responder, m: (string, string) -> bool, sn: Snippet, s: RState)
    ensures FailedOn(c, sn, s, RunStep(c, o, m, sn, s))
    ensures var t := RunStep(c, o, m, sn, s);
      t.result.Fail? && t.result.error.NoCommand? ==> t.result.error == NoCommand(Run) && c.run.cmd.None?
    ensures var t := RunStep(c, o, m, sn, s);
      t.result.Fail? ==> t.result.error.Code() !in {"LINT_BEFORE_ERR", "LINT_ERR", "MISSING_RUNNER_CONFIG"}
  {
    var t := BeforeStep(c, o, Run, s);
    BeforeStepError(c, o, Run, s);
    if t.result.Ok? {
      BuildExecuteStepError(c, o, m, sn, t.state);
    }
  }

  // ---------------------------------------------------------------------
  // After a success, the runner's before hooks are spent.
  // ---------------------------------------------------------------------

  lemma BeforeStepSpends(c: Config, o: Responder, ph: Phase, s: RState)
    ensures var t := BeforeStep(c, o, ph, s); t.result.Ok? ==> BeforePlan(c, ph, t.state.latches) == []
  {
  }

  /** A successful `lint(snippet)` / `build(snippet)` leaves nothing of its before hook to run. */
  lemma PhaseStepSpends(c: Config, o: Responder, ph: Phase, sn: Snippet, s: RState)
    ensures var t := PhaseStep(c, o, ph, sn, s); t.result.Ok? ==> BeforePlan(c, ph, t.state.latches) == []
    ensures var t := PhaseStep(c, o, ph, sn, s);
      t.result.Ok? ==> PhasePlan(c, ph, t.state.latches, sn) == PhasePlan(c, ph, Spent, sn)
  {
    BeforeStepSpends(c, o, ph, s);
  }

  lemma ExecuteStepLatches(c: Config, o: Responder, m: (string, string) -> bool, sn: Snippet, s: RState)
    ensures ExecuteStep(c, o, m, sn, s).state.latches == s.latches
  {
    var t := HooksStep(c, o, sn, Before, sn.Hooks(Before).Commands(), s);
    HooksStepCorrect(c, o, sn, Before, sn.Hooks(Before).Commands(), s);
    if t.result.Ok? {
      RunCommandStepCorrect(c, o, m, sn, t.state);
    }
  }

  /**
   * A successful `run(snippet)` leaves neither the before-run nor the build
   * before hook to run, so the next snippet's plan is the one from `Spent`.
   */
  lemma RunStepSpends(c: Config, o: Responder, m: (string, string) -> bool, sn: Snippet, s: RState, next: Snippet)
    ensures var t := RunStep(c, o, m, sn, s);
      t.result.Ok? ==> RunPlan(c, t.state.latches, next) == RunPlan(c, Spent, next)
  {
    var t1 := BeforeStep(c, o, Run, s);
    BeforeStepSpends(c, o, Run, s);
    if t1.result.Ok? {
      var t2 := PhaseStep(c, o, Build, sn, t1.state);
      PhaseStepSpends(c, o, Build, sn, t1.state);
      PhaseStepCorrect(c, o, Build, sn, t1.state);
      if t2.result.Ok? {
        ExecuteStepLatches(c, o, m, sn, t2.state);
        assert t2.state.latches.Get(Run) == t1.state.latches.Get(Run);
      }
    }
  }
}
