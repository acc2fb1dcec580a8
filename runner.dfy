/**
 * The `Runner` class of lib/runner.js: one runner configuration, the
 * container channel it executes on, and its three once-only latches. Every
 * method is proved to do what the matching function of `Lifecycle` says,
 * so the properties proved there hold of the class.
 */
module Runners {
  import opened Basics
  import opened Text
  import opened Exec
  import opened Templating
  import opened Matching
  import opened Lifecycle

  class Runner {
    const name: string
    const config: Config
    const container: Container
    /** `row.match(pattern)` succeeding, for the output assertion. */
    const matches: (string, string) -> bool
    var hasRunBeforeBuild: bool
    var hasRunBeforeLint: bool
    var hasRunBeforeRun: bool

    function Latches(): Latches
      reads this
    {
      Lifecycle.Latches(hasRunBeforeBuild, hasRunBeforeLint, hasRunBeforeRun)
    }

    function State(): RState
      reads this, container
    {
      RState(Latches(), container.log)
    }

    /** A runner over an already resolved configuration; no hook has run yet. */
    constructor (name: string, config: Config, container: Container, matches: (string, string) -> bool)
      ensures this.name == name && this.config == config && this.container == container && this.matches == matches
      ensures Latches() == Unset
    {
      this.name := name;
      this.config := config;
      this.container := container;
      this.matches := matches;
      hasRunBeforeBuild := false;
      hasRunBeforeLint := false;
      hasRunBeforeRun := false;
    }

    /** `beforeBuild`, `beforeLint` and `beforeRun`: the phase's before hook, at most once. */
    method Before(ph: Phase) returns (r: Result<()>)
      modifies this, container
      ensures Step(r, State()) == BeforeStep(config, container.respond, ph, old(State()))
      ensures Tracks(old(State()), State())
      ensures Executes(Delta(old(State()), State()), BeforePlan(config, ph, old(Latches())), r.Ok?)
    {
      BeforeStepCorrect(config, container.respond, ph, State());
      var pc := config.Of(ph);
      if !Truthy(pc.before) {
        return Ok(());
      }
      var done := match ph case Build => hasRunBeforeBuild case Lint => hasRunBeforeLint case Run => hasRunBeforeRun;
      if done {
        return Ok(());
      }
      var cmd := TemplateCommand(config.path, pc.before.value);
      var e := container.Exec(Call(PhaseBefore(ph), config.service, TemplateCommand(config.path, cmd)));
      if e.exitCode != 0 {
        return Fail(BeforeHookFailed(ph, e.output));
      }
      match ph {
        case Build => hasRunBeforeBuild := true;
        case Lint => hasRunBeforeLint := true;
        case Run => hasRunBeforeRun := true;
      }
      return Ok(());
    }

    /** `lintAll`: the lint before hook, then the lint command once for the whole runner. */
    method LintAll() returns (r: Result<ExecResult>)
      modifies this, container
      ensures Step(r, State()) == LintAllStep(config, container.respond, old(State()))
      ensures Tracks(old(State()), State())
      ensures Executes(Delta(old(State()), State()), LintAllPlan(config, old(Latches())), CommandsOk(r))
    {
      LintAllStepCorrect(config, container.respond, State());
      var b := Before(Phase.Lint);
      if b.Fail? {
        return Fail(b.error);
      }
      if config.lint.cmd.None? {
        return Fail(NoCommand(Phase.Lint));
      }
      var cmd := TemplateCommand(config.path, config.lint.cmd.value);
      var e := container.Exec(Call(LintAllCmd, config.service, cmd));
      if e.exitCode != 0 {
        return Fail(CommandFailed(Phase.Lint, cmd + "\n" + e.output));
      }
      return Ok(e);
    }

    /** The shared body of `lint(snippet)` and `build(snippet)`. */
    method PhaseCommand(ph: Phase, sn: Snippet) returns (r: Result<Option<ExecResult>>)
      modifies this, container
      ensures Step(r, State()) == PhaseStep(config, container.respond, ph, sn, old(State()))
      ensures Tracks(old(State()), State())
      ensures Executes(Delta(old(State()), State()), PhasePlan(config, ph, old(Latches()), sn), r.Ok?)
    {
      PhaseStepCorrect(config, container.respond, ph, sn, State());
      var b := Before(ph);
      if b.Fail? {
        return Fail(b.error);
      }
      if !Truthy(config.Of(ph).cmd) {
        return Ok(None);
      }
      var e := container.Exec(PhaseCall(config, ph, sn));
      if e.exitCode != 0 {
        return Fail(CommandFailed(ph, e.output));
      }
      return Ok(Some(e));
    }

    /** `lint(snippet)`. */
    method Lint(sn: Snippet) returns (r: Result<Option<ExecResult>>)
      modifies this, container
      ensures Step(r, State()) == PhaseStep(config, container.respond, Phase.Lint, sn, old(State()))
    {
      r := PhaseCommand(Phase.Lint, sn);
    }

    /** `build(snippet)`. */
    method Build(sn: Snippet) returns (r: Result<Option<ExecResult>>)
      modifies this, container
      ensures Step(r, State()) == PhaseStep(config, container.respond, Phase.Build, sn, old(State()))
    {
      r := PhaseCommand(Phase.Build, sn);
    }

    /** `_runHooks(snippet, kind)`: every hook command in order, stopping at the first failure. */
    method RunHooks(sn: Snippet, kind: HookKind) returns (r: Result<()>)
      modifies container
      ensures Step(r, State()) == HooksStep(config, container.respond, sn, kind, sn.Hooks(kind).Commands(), old(State()))
    {
      var hooks := sn.Hooks(kind).Commands();
      var i := 0;
      while i < |hooks|
        invariant 0 <= i <= |hooks|
        invariant HooksStep(config, container.respond, sn, kind, hooks, old(State()))
               == HooksStep(config, container.respond, sn, kind, hooks[i..], State())
      {
        var call := HookCall(config, sn, kind, hooks[i]);
        ghost var s := State();
        HooksStepNext(config, container.respond, sn, kind, hooks, i, s);
        var e := container.Exec(call);
        assert State() == Append(container.respond, s, call);
        if e.exitCode != 0 {
          return Fail(HookFailed(kind, hooks[i] + "\n" + e.output));
        }
        i := i + 1;
      }
      return Ok(());
    }

    /**
     * `run(snippet)`: before-run hook, build, before hooks, run command, after
     * hooks, then the rows of the run output are matched against the
     * expected patterns in order.
     */
    method Run(sn: Snippet) returns (r: Result<ExecResult>)
      modifies this, container
      ensures Step(r, State()) == RunStep(config, container.respond, matches, sn, old(State()))
      ensures Tracks(old(State()), State())
      ensures Executes(Delta(old(State()), State()), RunPlan(config, old(Latches()), sn), CommandsOk(r))
      ensures Asserted(r) ==> AssertedOn(Delta(old(State()), State()), config, matches, sn, r)
    {
      RunStepCorrect(config, container.respond, matches, sn, State());
      var b := Before(Phase.Run);
      if b.Fail? {
        return Fail(b.error);
      }
      var bl := Build(sn);
      if bl.Fail? {
        return Fail(bl.error);
      }
      var h := RunHooks(sn, HookKind.Before);
      if h.Fail? {
        return Fail(h.error);
      }
      if config.run.cmd.None? {
        return Fail(NoCommand(Phase.Run));
      }
      var e := container.Exec(RunCall(config, sn));
      if e.exitCode != 0 {
        return Fail(CommandFailed(Phase.Run, e.output));
      }
      var a := RunHooks(sn, HookKind.After);
      if a.Fail? {
        return Fail(a.error);
      }
      var v := CheckRows(sn.expected.Patterns(), SplitLines(e.output), matches);
      r := Report(v, e);
    }
  }

  /**
   * `new Runner(suite, name, config)`: `MISSING_RUNNER_CONFIG` without a
   * configuration entry, otherwise a runner whose latches are all unset.
   */
  method NewRunner(name: string, raw: Option<RawConfig>, dest: string, container: Container, matches: (string, string) -> bool)
    returns (r: Result<Runner>)
    ensures r.Fail? <==> raw.None?
    ensures r.Fail? ==> r.error == MissingRunnerConfig(name)
    ensures r.Ok? ==> fresh(r.value) && r.value.name == name && r.value.container == container &&
                      r.value.matches == matches && Ok(r.value.config) == ResolveConfig(name, raw, dest) &&
                      r.value.Latches() == Unset
  {
    var c := ResolveConfig(name, raw, dest);
    if c.Fail? {
      return Fail(c.error);
    }
    var runner := new Runner(name, c.value, container, matches);
    return Ok(runner);
  }
}
