/**
 * The execution target: a command run with `sh -c` inside the container of a
 * compose service, giving an exit code and the interleaved stdout/stderr
 * text. The transport (dockerode exec, stream demultiplexing, `inspect`) is
 * not modelled: what a command returns is an oracle `respond` that may depend
 * on everything executed before it, and the container keeps a transcript.
 */
module Exec {

  datatype ExecResult = ExecResult(exitCode: int, output: string)

  datatype Phase = Build | Lint | Run

  datatype HookKind = Before | After

  /**
   * Which step of the runner issued a command. This is a label of the model
   * (the container only sees the command text); it lets the proofs speak of
   * "the before-run hook" or "the run command of snippet n".
   */
  datatype Origin =
    | PhaseBefore(phase: Phase)
    | LintAllCmd
    | PhaseCmd(phase: Phase, snippet: string)
    | SnippetHook(kind: HookKind, snippet: string)

  datatype Call = Call(origin: Origin, service: string, cmd: string)

  datatype Entry = Entry(call: Call, result: ExecResult)

  /** The environment: the result of running `cmd` on `service` after `history`. */
  type Responder = (seq<Entry>, string, string) -> ExecResult

  /** The transcript after executing `call` on top of `log`. */
  function Issue(respond: Responder, log: seq<Entry>, call: Call): (log': seq<Entry>)
    ensures |log'| == |log| + 1 && log'[..|log|] == log
    ensures log'[|log|] == Entry(call, respond(log, call.service, call.cmd))
  {
    log + [Entry(call, respond(log, call.service, call.cmd))]
  }

  /** All containers of the compose network, seen as one execution oracle. */
  class Container {
    const respond: Responder
    var log: seq<Entry>

    constructor (respond: Responder)
      ensures this.respond == respond && log == []
    {
      this.respond := respond;
      log := [];
    }

    /** `Container.exec(cmd)` on the container of `call.service`. */
    method Exec(call: Call) returns (r: ExecResult)
      modifies this
      ensures r == respond(old(log), call.service, call.cmd)
      ensures log == Issue(respond, old(log), call)
    {
      r := respond(log, call.service, call.cmd);
      log := log + [Entry(call, r)];
    }
  }
}
