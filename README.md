# Snippet testing engine: a Dafny model

This project models the core of a documentation snippet tester. Snippets are grouped by the runner that executes them. Each runner is a compose service with optional build, lint and run commands. A `Runner` drives one snippet through:

1. a once-only before hook of the phase;
2. build;
3. the snippet's before hooks;
4. the run command;
5. the snippet's after hooks;
6. an ordered match of the run output against the expected patterns.

The `Suite` groups the discovered snippets by runner. It then drives the lint and run phases over fresh runners and stops at the first failure.

Modules:

- `Basics`: `Option`, and the JavaScript truthiness of an optional string.
- `Text`: first-occurrence `replace` and `split(/\r?\n/)`, with their lemmas.
- `Exec`: the container as an oracle `respond(history, service, cmd)` plus a transcript of executed commands. The class `Exec.Container` appends one entry per `exec`.
- `Templating`: `_templateCommand` and `_templateSnippetCommand`.
- `Matching`: the ordered output matcher. `Check` is the source loop. `Embeds` is the independent specification: strictly increasing matching rows exist.
- `Lifecycle`: everything a `Runner` does, as pure functions of the configuration, the oracle and the state. The state is the three latches plus the transcript. The lemmas say which commands run, in which order, with which latch effect and which error.
- `Runners`: the `Runner` class. Each method is proved to do what its `Lifecycle` function says, so the lemmas carry over to the object.
- `Grouping`: the reference grouping `Tree(files)` with key order `RunnerOrder(files)`, and the partition theorem.
- `Suites`: the `Suite` class (`Init`, `Lint`, `Run`) and the phase functions it is proved against. Their lemmas tie the transcript of executed commands to the logged events: which plan ran, where the phase stopped, which snippet or runner the error names, and how before hooks behave per runner.
- `Scenarios`: concrete matcher runs on literal outputs.

Two behaviours of the code are easy to misread; the model follows the code as written:

- After a pattern matches row `i`, the next pattern is searched from row `i + 1`, not from row `i`. The `for` update runs once more after the hit (lib/runner.js:182, 201). So two consecutive patterns cannot share a row (`Matching.SameRowIsOutOfOrder`).
- Each snippet runs exactly once per phase. There is no repetition per protocol.

## Model

| member | source | states |
|---|---|---|
| Lifecycle.ResolveConfig | lib/runner.js:6-23 | Fails with `MISSING_RUNNER_CONFIG(name)` exactly when the runner has no configuration. Otherwise `lint.global` is true only when configured true (default false). `path` is the configured one when truthy, else the suite's snippet destination. Every other field is kept. |
| Runners.NewRunner | lib/runner.js:6-33 | `new Runner`: fails exactly when the configuration is absent. Otherwise a fresh runner with the resolved configuration and all three latches unset. |
| Runners.Runner.constructor | lib/runner.js:25-32 | The runner starts with `_hasRunBeforeBuild/Lint/Run` all false. |
| Lifecycle.BeforeStepCorrect | lib/runner.js:35-96 | A before hook runs only when configured and its latch is unset, so the executed commands are a prefix of `BeforePlan`. A set latch stays set with no new success. An unset latch ends set exactly when one successful hook ran, never more. Other phases' latches are untouched. |
| Lifecycle.BeforeStepError | lib/runner.js:47-53 | A failing before hook throws `BUILD_BEFORE_ERR`/`LINT_BEFORE_ERR`/`RUN_BEFORE_ERR` with the hook's output. Exactly that command ran, and the latch stays false. |
| Runners.Runner.Before | lib/runner.js:35-96 | The latch fields and the container transcript change exactly as `BeforeStep` says, and the latch and plan facts hold of the object. |
| Lifecycle.LintAllStepCorrect | lib/runner.js:98-109 | `lintAll` runs the lint before hook, then the runner-wide lint command, stopping at the first non-zero exit. `NoCommand` (the TypeError path) is thrown if and only if the hook passed and `lint.cmd` is absent. A success returns the result of the runner-wide command, which is the last transcript entry. |
| Lifecycle.LintAllStepError | lib/runner.js:98-106 | A failing `lintAll` throws `LINT_BEFORE_ERR`, or `LINT_ERR` whose message is the command, a newline, then the output. |
| Runners.Runner.LintAll | lib/runner.js:98-109 | The object does what `LintAllStep` says, with the plan and latch facts. |
| Lifecycle.PhaseStepCorrect | lib/runner.js:115-149 | `lint`/`build` always run their before hook first. Without a truthy command nothing more is executed. Otherwise the templated snippet command runs, and the executed commands are a prefix of `PhasePlan`. |
| Lifecycle.PhaseStepError | lib/runner.js:115-149 | A failing `lint`/`build` throws the phase's before-hook code or `LINT_ERR`/`BUILD_ERR`, carrying the output of the last command executed. That command is the phase's before hook or the snippet's own phase command. |
| Runners.Runner.PhaseCommand | lib/runner.js:115-149 | The object does what `PhaseStep` says, with the plan and latch facts. |
| Runners.Runner.Lint | lib/runner.js:115-129 | `lint(snippet)` is `PhaseStep` for the lint phase. |
| Runners.Runner.Build | lib/runner.js:135-149 | `build(snippet)` is `PhaseStep` for the build phase. |
| Lifecycle.HooksStepCorrect | lib/runner.js:220-233 | Hooks run in list order; a single hook is a one-element list. Execution stops at the first non-zero exit, and no latch changes. |
| Lifecycle.HooksStepError | lib/runner.js:220-233 | A failing hook throws `ERR_HOOK_BEFORE`/`ERR_HOOK_AFTER` whose message is that hook's text, a newline, then its output. If `n` hooks ran, the failing hook is the `n`-th in list order, and it is the last command in the transcript. |
| Runners.Runner.RunHooks | lib/runner.js:220-233 | The loop over hooks does what `HooksStep` says. |
| Lifecycle.RunStepCorrect | lib/runner.js:155-206 | `run(snippet)` executes a prefix of: before-run hook, build before hook, build, before hooks, run command, after hooks. It stops at the first failure. The assertion is reached only when every command succeeded, and it judges the run command's own output. |
| Lifecycle.RunStepError | lib/runner.js:155-167 | When a command of `run(snippet)` exits non-zero, the error comes from the step that issued that command, which is the last one executed. A before hook gives `RUN_BEFORE_ERR`/`BUILD_BEFORE_ERR`, the build command `BUILD_ERR`, and the run command `RUN_ERR`, each with that command's output. A snippet hook gives `ERR_HOOK_BEFORE`/`ERR_HOOK_AFTER` with that hook's text and output. `NoCommand` is thrown only without `run.cmd`. `run` never throws `LINT_BEFORE_ERR`, `LINT_ERR` or `MISSING_RUNNER_CONFIG`. |
| Runners.Runner.Run | lib/runner.js:155-206 | The object does what `RunStep` says, with the pipeline-order, latch and assertion facts. |
| Lifecycle.AssertOutput | lib/runner.js:169-203 | Passes exactly when the expected patterns embed in strictly increasing rows of the split output. `ERR_ASSERTION` names a pattern matching no row. `ERR_ORDER` names pattern j > 0, matching some row, together with pattern j-1. |
| Matching.CheckCorrect | lib/runner.js:169-203 | The literal scan passes iff a strictly increasing row assignment exists. `Missing(p)`: p matches no row. `OutOfOrder(p, q)`: p is pattern j > 0, q is pattern j-1, and p matches some row. |
| Matching.SameRowIsOutOfOrder | lib/runner.js:182-201 | Two consecutive patterns that can only match the same row give `ERR_ORDER`, not a pass. |
| Matching.CheckRows | lib/runner.js:171-203 | The nested loops with `lastIndex` and `previous` compute `Check`, and pass iff the patterns embed. |
| Text.SplitJoin | lib/runner.js:175 | Splitting at line breaks inverts joining rows that hold no line breaks. |
| Text.JoinSplit | lib/runner.js:175 | Joining the rows of a text without carriage returns gives the text back. |
| Text.SplitLf | lib/runner.js:175 | A row followed by `\n` is split off as one row. |
| Text.SplitCrLf | lib/runner.js:175 | A row followed by `\r\n` is split off without the `\r`. |
| Text.ReplaceFirst | lib/runner.js:208-218 | `replace` substitutes only the first occurrence of the token. |
| Templating.TemplatePlain | lib/runner.js:208-211 | Without the dir token, `_templateCommand` only prepends `cd <path> && `. |
| Templating.TemplateFirstDir | lib/runner.js:208-211 | The first `{{ snippet.dir }}` becomes the runner path. |
| Templating.TemplateTwice | lib/runner.js:44-47 | A before hook, templated twice, carries the `cd` prefix twice. |
| Templating.TemplateSnippetPlain | lib/runner.js:213-218 | Without tokens, `_templateSnippetCommand` only prepends `cd <destDir> && `. |
| Templating.TemplateSnippetSource | lib/runner.js:213-218 | The first `{{ snippet.source }}` becomes the snippet's file name. |
| Scenarios.InOrderPasses | lib/runner.js:169-205 | Output `connecting`, `connected` against the same two patterns passes. |
| Scenarios.SwappedIsOutOfOrder | lib/runner.js:182-195 | Output `B`, `A` against patterns `A`, `B` is `ERR_ORDER` for `B` after `A`. |
| Scenarios.AbsentIsMissing | lib/runner.js:186-198 | A first pattern found nowhere is `ERR_ASSERTION`. |
| Scenarios.SilentIsMissing | lib/runner.js:175-198 | Empty output against one non-empty pattern is `ERR_ASSERTION`. |
| Grouping.ExtendPrefix | lib/index.js:50-57 | Existing runner keys keep their place; new keys are appended. |
| Grouping.ExtendMembers | lib/index.js:53-55 | A key is present afterwards iff it was before or some snippet names that runner. |
| Grouping.ExtendDistinct | lib/index.js:53-55 | No runner key is added twice. |
| Grouping.BucketAppend | lib/index.js:56 | Buckets keep discovery order: grouping distributes over concatenation. |
| Grouping.TreePartition | lib/index.js:50-57 | Runner keys are distinct. The buckets in key order are a permutation of the discovered snippets, so each snippet is in exactly one bucket. |
| Suites.InitFresh | lib/index.js:50-57 | `init` on an empty suite builds exactly `Tree(files)` with keys in first-seen order. |
| Suites.Suite.Init | lib/index.js:50-57 | Each snippet is appended to its runner's bucket; a new runner gets a key at the end. Keys stay distinct and equal the tree's keys. |
| Suites.RunEachTrace | lib/index.js:100-107 | For one runner's snippets, either every snippet's `run` plan executed in bucket order and one success per snippet was logged, or it stopped at snippet `n`. In that case the plans of snippets `0..n` executed in order, the earlier snippets were logged as successes, and exactly one error event names snippet `n`. If a command failed, the error is the one the last executed command's step throws (`RunFailure`). The exit status is 1, and nothing of a later snippet ran. Only the first snippet's plan includes the runner's before hooks. |
| Suites.RunPhaseEvents | lib/index.js:96-110 | With a fresh runner per key, either the whole phase plan executed in key order and every snippet of the tree was logged as a success in that order, or the phase stopped in one runner `ks[i]`. The runners before `ks[i]` executed their whole plan and logged their successes. Then `ks[i]` either escaped `MISSING_RUNNER_CONFIG` with nothing executed or logged, or stopped as `RunEachTrace` states, from unset latches. Nothing of a later runner ran. |
| Suites.RunCoversDiscovered | lib/index.js:96-110 | A completed run phase over the grouping of the discovered snippets logged one success per discovered snippet, each exactly once. |
| Suites.RunRunnerHooksOnce | lib/index.js:97-108 | With a fresh runner per phase, each before hook succeeds at most once across all of a runner's snippets. Its latch ends set exactly when it did. |
| Suites.LintRunnerFacts | lib/index.js:71-92 | A fresh runner per phase; each before hook succeeds at most once. A global runner issues only its lint hook and the runner-wide command, never a per-snippet lint. A non-global runner never issues the runner-wide command. |
| Suites.LintEachTrace | lib/index.js:84-90 | A non-global runner lints its snippets in bucket order and logs nothing on success. If it stops at snippet `n`, the lints of snippets `0..n` executed in order and the last command of snippet `n` exited non-zero. A single error event then names snippet `n`, with that command's `LINT_BEFORE_ERR`/`LINT_ERR` and output. The exit status is 1, and nothing of a later snippet ran. |
| Suites.LintRunnerTrace | lib/index.js:71-92 | One runner's lint: an absent configuration escapes `MISSING_RUNNER_CONFIG` with nothing executed. A global runner runs `lintAll`. On success it logs `lint ok`. On failure it logs one runner error, either `NoCommand` (no `lint.cmd`) or the error of the failing command, and exits with status 1. A non-global runner behaves as `LintEachTrace` states. |
| Suites.LintPhaseEvents | lib/index.js:70-94 | With a fresh runner per key, either every runner's lint plan executed in key order and `lint ok` was logged once per global runner, or the phase stopped in one runner `ks[i]`. The runners before `ks[i]` completed. `ks[i]` stopped as `LintRunnerTrace` states. Nothing of a later runner ran. |
| Suites.Suite.Lint | lib/index.js:70-94 | The suite's events, transcript and outcome are those of `LintPhase`. |
| Suites.Suite.Run | lib/index.js:96-110 | The suite's events, transcript and outcome are those of `RunPhase`. |

## Left out

- Container transport: dockerode exec, stream demultiplexing, `inspect` and network discovery (lib/services/docker). A command's result is the oracle `respond`, which may depend on every earlier command.
- The logger's text and colours. Logging is recorded as `Event` values only.
- Snippet loading and rendering (YAML, hashing, file writes, glob). A snippet is a record, and `source` is `name + "." + extension`.
- The `Suite` constructor, `render`, the glob in `init` and `services.init()`. `Init` receives the discovered snippets in glob order.
- JavaScript regular expressions and the coercion of a string pattern into one. Matching a row is the parameter `matches`.
- `$` patterns in `String.prototype.replace`. The replacement text is inserted literally.
- lodash `defaultsDeep` in general. Only the two defaults the constructor relies on are modelled, field by field.
- JavaScript key order for integer-like runner names. `order` is insertion order.
- Async/await. Calls are sequential.
- `process.exit(1)` is the outcome `Exited(1)`. An exception escaping a phase is `Escaped(error)`.
- Lifecycle.AssertOutput: the `ERR_ORDER`/`ERR_ASSERTION` errors keep only the pattern, the previous pattern and the output, not the `JSON.stringify` text.
- An absent `run.cmd` (or `lint.cmd` in `lintAll`) makes the source throw a `TypeError` when templating it. This is modelled as the error `NoCommand`, which the phase logs like any other error.
- A runner configured as `false`/`null` is an absent configuration. A non-boolean `lint.global` is not modelled; it is an optional boolean.
- No timeout or cancellation of a hung command exists in the source, and none is modelled.
- The runner's before-hook log line (`logRunner`, lib/runner.js:46, 67, 88) is not recorded as an `Event`. Only the hook's execution appears in the transcript.
