/** The wrappers that print around every step and section: `log_step` (skip, or
    start and then succeed or fail), `log_section` and `last_words`. The wrapped
    callables of the core are few, so they are named by an `Action`; `exit(1)` is
    an outcome that the caller does not continue past. */
module Logging {
  import opened Documents
  import opened DictObjects
  import opened Runtime

  /** How a wrapped call ends: it returns, the process exits, or an exception escapes
      (one that the wrapper itself raised while reporting another). */
  datatype Outcome<+T> = Returned(value: T) | Exited(code: int) | Raised(error: Error)

  /** The `_run` bodies the steps hand to `log_step`. */
  datatype Action =
    | RunShell(command: string, keepLog: bool)   // `ShellStep._run`: returns the log, or `None`
    | SetGate(gate: bool)                        // `Context.run_step = run_step`
    | EvalGate(conditions: seq<string>)          // `Context.run_step = all([eval(c) for c in conditions])`
    | NoOp                                       // `pass`

  /** What calling an action does: its result, the commands it ran, the gate after it. */
  datatype Invocation = Invocation(result: Result<Option<string>>, ran: seq<string>, gate: bool)

  /** The raised error of a failing shell command: `Exception(log, status)`. */
  function ShellFailure(log: string, status: int): Error {
    Error(PlainException, [AStr(log), AInt(status)])
  }

  function Invoke(action: Action, host: Host, gate: bool): (inv: Invocation)
    ensures action.RunShell? ==>
      && inv.ran == [action.command] && inv.gate == gate
      && (inv.result.Ok? <==> host.shell(action.command).status.None?)
    ensures !action.RunShell? ==> inv.ran == []
    ensures action.SetGate? ==> inv.gate == action.gate && inv.result == Ok(None)
    ensures action.NoOp? ==> inv.gate == gate && inv.result == Ok(None)
    ensures action.EvalGate? ==>
      (inv.result.Ok? <==> AllTrue(host.eval, action.conditions).Ok?) &&
      inv.gate == (if inv.result.Ok? then AllTrue(host.eval, action.conditions).value else gate)
  {
    match action
    case RunShell(cmd, keepLog) =>
      var reply := host.shell(cmd);
      if reply.status.Some? then Invocation(Err(ShellFailure(reply.log, reply.status.value)), [cmd], gate)
      else Invocation(Ok(if keepLog then Some(reply.log) else None), [cmd], gate)
    case SetGate(b) => Invocation(Ok(None), [], b)
    case EvalGate(conditions) =>
      (match AllTrue(host.eval, conditions)
       case Err(e) => Invocation(Err(e), [], gate)
       case Ok(b) => Invocation(Ok(None), [], b))
    case NoOp => Invocation(Ok(None), [], gate)
  }

  /** `for arg in e.args[0]`: a list yields its items, a string its characters; an
      int is not iterable, and no args at all is an index error. */
  function ArgItems(e: Error): (r: Result<seq<Line>>)
    ensures r.Err? <==> |e.args| == 0 || e.args[0].AInt?
    ensures |e.args| > 0 && e.args[0].AList? ==> r == Ok(e.args[0].lines)
    ensures |e.args| > 0 && e.args[0].AStr? ==>
      r.Ok? && |r.value| == |e.args[0].s| && forall i :: 0 <= i < |r.value| ==> r.value[i] == Text([e.args[0].s[i]])
  {
    if |e.args| == 0 then Err(Error(IndexError, [AStr("tuple index out of range")]))
    else
      match e.args[0]
      case AList(lines) => Ok(lines)
      case AStr(s) => Ok(seq(|s|, i requires 0 <= i < |s| => Text([s[i]])))
      case AInt(_) => Err(Error(TypeError, [AStr("'int' object is not iterable")]))
  }

  function PrintedAll(lines: seq<Line>): (r: seq<Event>)
    ensures |r| == |lines| && forall i :: 0 <= i < |r| ==> r[i] == Printed(lines[i])
  {
    seq(|lines|, i requires 0 <= i < |lines| => Printed(lines[i]))
  }

  /** Printing two runs of lines one after the other prints their concatenation. */
  lemma PrintedAllConcat(a: seq<Line>, b: seq<Line>)
    ensures PrintedAll(a + b) == PrintedAll(a) + PrintedAll(b)
  {
    assert forall i :: 0 <= i < |a| + |b| ==> PrintedAll(a + b)[i] == (PrintedAll(a) + PrintedAll(b))[i];
  }

  /** Everything one wrapped step does. */
  datatype StepEffect = StepEffect(trace: seq<Event>, outcome: Outcome<Option<string>>, ran: seq<string>, gate: bool)

  /** What `log_step` prints after STARTED, and what it yields, once `f` has given
      `result`. */
  datatype Conclusion = Conclusion(trace: seq<Event>, outcome: Outcome<Option<string>>)

  function Conclude(name: string, verbose: bool, result: Result<Option<string>>): Conclusion {
    match result
    case Ok(output) =>
      var echo := if verbose && output.Some? then [OutputsHeader, OutputPrinted(output.value)] else [];
      Conclusion([Succeeded(name)] + echo, Returned(output))
    case Err(e) =>
      match ArgItems(e)
      case Ok(lines) => Conclusion([Failed(name)] + PrintedAll(lines), Exited(1))
      case Err(e2) => Conclusion([Failed(name)], Raised(e2))
  }

  /** `log_step(name, run_step)(f)()` where `f` is `action`; `gate` is the value of
      `Context.run_step` when `f` starts and `verbose` that of `Context.verbose`. */
  function StepRun(name: string, runStep: bool, verbose: bool, action: Action, host: Host, gate: bool): StepEffect {
    if !runStep then StepEffect([Skipped(name)], Returned(None), [], gate)
    else
      var inv := Invoke(action, host, gate);
      var c := Conclude(name, verbose, inv.result);
      StepEffect([Started(name)] + c.trace, c.outcome, inv.ran, inv.gate)
  }

  /** A step that runs prints STARTED, then what `Conclude` gives for the result
      of `f`. */
  lemma StepRunConcludes(name: string, verbose: bool, action: Action, host: Host, gate: bool)
    ensures var inv := Invoke(action, host, gate);
      var c := Conclude(name, verbose, inv.result);
      StepRun(name, true, verbose, action, host, gate) == StepEffect([Started(name)] + c.trace, c.outcome, inv.ran, inv.gate)
  {
  }

  /** A skipped step prints only SKIPPED, returns `None` and never calls `f`. */
  lemma StepSkipped(name: string, verbose: bool, action: Action, host: Host, gate: bool)
    ensures var eff := StepRun(name, false, verbose, action, host, gate);
      eff.trace == [Skipped(name)] && eff.outcome == Returned(None) && eff.ran == [] && eff.gate == gate
  {
  }

  /** A step that runs prints STARTED first, then exactly one of SUCCESS and ERROR. */
  lemma StepStartsThenEnds(name: string, verbose: bool, action: Action, host: Host, gate: bool)
    ensures var eff := StepRun(name, true, verbose, action, host, gate);
      && |eff.trace| >= 2 && eff.trace[0] == Started(name)
      && (eff.trace[1] == Succeeded(name) <==> Invoke(action, host, gate).result.Ok?)
      && (eff.trace[1] == Failed(name) <==> Invoke(action, host, gate).result.Err?)
      && Skipped(name) !in eff.trace
  {
  }

  /** On success the output of `f` is returned unchanged, and it is echoed exactly
      when `Context.verbose` is set and the output is not `None`. */
  lemma StepSucceeds(name: string, verbose: bool, action: Action, host: Host, gate: bool)
    requires Invoke(action, host, gate).result.Ok?
    ensures var eff := StepRun(name, true, verbose, action, host, gate);
      && eff.outcome == Returned(Invoke(action, host, gate).result.value)
      && (OutputsHeader in eff.trace <==> verbose && Invoke(action, host, gate).result.value.Some?)
      && eff.trace[..2] == [Started(name), Succeeded(name)]
  {
  }

  /** On an exception ERROR is printed, then each item of `e.args[0]` on a line of its
      own, and the process exits with 1; SUCCESS never follows. */
  lemma StepFails(name: string, verbose: bool, action: Action, host: Host, gate: bool)
    requires Invoke(action, host, gate).result.Err?
    ensures var e := Invoke(action, host, gate).result.error;
      var eff := StepRun(name, true, verbose, action, host, gate);
      && Succeeded(name) !in eff.trace
      && (ArgItems(e).Ok? ==> eff.outcome == Exited(1) && eff.trace == [Started(name), Failed(name)] + PrintedAll(ArgItems(e).value))
      && (ArgItems(e).Err? ==> eff.outcome == Raised(ArgItems(e).error))
  {
    var e := Invoke(action, host, gate).result.error;
    var eff := StepRun(name, true, verbose, action, host, gate);
    if ArgItems(e).Ok? {
      assert eff.trace == [Started(name), Failed(name)] + PrintedAll(ArgItems(e).value);
      assert forall i :: 2 <= i < |eff.trace| ==> eff.trace[i].Printed?;
    }
  }

  /** A failing shell command prints its log one character per line: the log is the
      first argument of the exception and a string is iterated by character. */
  lemma ShellFailurePrintsCharacters(log: string, status: int)
    ensures ArgItems(ShellFailure(log, status)) == Ok(seq(|log|, i requires 0 <= i < |log| => Text([log[i]])))
  {
  }

  /** `print(arg)` for each item, in order. */
  method PrintLines(ctx: Context, lines: seq<Line>)
    modifies ctx
    ensures ctx.trace == old(ctx.trace) + PrintedAll(lines)
    ensures ctx.runStep == old(ctx.runStep) && ctx.verbose == old(ctx.verbose)
    ensures ctx.packages == old(ctx.packages) && ctx.executed == old(ctx.executed)
  {
    for i := 0 to |lines|
      invariant ctx.trace == old(ctx.trace) + PrintedAll(lines[..i])
      invariant ctx.runStep == old(ctx.runStep) && ctx.verbose == old(ctx.verbose)
      invariant ctx.packages == old(ctx.packages) && ctx.executed == old(ctx.executed)
    {
      assert lines[..i + 1] == lines[..i] + [lines[i]];
      PrintedAllConcat(lines[..i], [lines[i]]);
      ctx.trace := ctx.trace + [Printed(lines[i])];
    }
    assert lines[..|lines|] == lines;
  }

  /** Calls the wrapped `_run` body. */
  method Perform(ctx: Context, action: Action, host: Host) returns (r: Result<Option<string>>)
    modifies ctx
    ensures var inv := Invoke(action, host, old(ctx.runStep));
      r == inv.result && ctx.runStep == inv.gate && ctx.executed == old(ctx.executed) + inv.ran
    ensures ctx.trace == old(ctx.trace) && ctx.verbose == old(ctx.verbose) && ctx.packages == old(ctx.packages)
  {
    match action
    case RunShell(cmd, keepLog) =>
      var reply := host.shell(cmd);
      ctx.executed := ctx.executed + [cmd];
      if reply.status.Some? {
        r := Err(ShellFailure(reply.log, reply.status.value));
      } else {
        r := Ok(if keepLog then Some(reply.log) else None);
      }
    case SetGate(b) =>
      ctx.runStep := b;
      r := Ok(None);
    case EvalGate(conditions) =>
      var verdict := AllTrue(host.eval, conditions);
      if verdict.Err? {
        r := Err(verdict.error);
      } else {
        ctx.runStep := verdict.value;
        r := Ok(None);
      }
    case NoOp =>
      r := Ok(None);
  }

  /** `log_step(name, run_step)(f)()`; `run_step` was fixed when the wrapper was made. */
  method LogStep(ctx: Context, name: string, runStep: bool, action: Action, host: Host)
    returns (out: Outcome<Option<string>>)
    modifies ctx
    ensures var eff := StepRun(name, runStep, old(ctx.verbose), action, host, old(ctx.runStep));
      && ctx.trace == old(ctx.trace) + eff.trace && out == eff.outcome
      && ctx.executed == old(ctx.executed) + eff.ran && ctx.runStep == eff.gate
    ensures ctx.verbose == old(ctx.verbose) && ctx.packages == old(ctx.packages)
  {
    if !runStep {
      ctx.trace := ctx.trace + [Skipped(name)];
      return Returned(None);
    }
    ghost var verbose, gate := ctx.verbose, ctx.runStep;
    StepRunConcludes(name, verbose, action, host, gate);
    out := StartAndReport(ctx, name, action, host);
  }

  /** The `else` branch of `log_step`: STARTED, the call of `f`, then its report. */
  method StartAndReport(ctx: Context, name: string, action: Action, host: Host) returns (out: Outcome<Option<string>>)
    modifies ctx
    ensures var inv := Invoke(action, host, old(ctx.runStep));
      var c := Conclude(name, old(ctx.verbose), inv.result);
      && ctx.trace == old(ctx.trace) + ([Started(name)] + c.trace) && out == c.outcome
      && ctx.executed == old(ctx.executed) + inv.ran && ctx.runStep == inv.gate
    ensures ctx.verbose == old(ctx.verbose) && ctx.packages == old(ctx.packages)
  {
    ghost var t0, verbose := ctx.trace, ctx.verbose;
    ctx.trace := ctx.trace + [Started(name)];
    var r := Perform(ctx, action, host);
    out := Report(ctx, name, r);
    assert ctx.trace == t0 + ([Started(name)] + Conclude(name, verbose, r).trace);
  }

  /** The part of `log_step` after `f` has returned or raised. */
  method Report(ctx: Context, name: string, r: Result<Option<string>>) returns (out: Outcome<Option<string>>)
    modifies ctx
    ensures ctx.trace == old(ctx.trace) + Conclude(name, old(ctx.verbose), r).trace
    ensures out == Conclude(name, old(ctx.verbose), r).outcome
    ensures ctx.runStep == old(ctx.runStep) && ctx.verbose == old(ctx.verbose)
    ensures ctx.packages == old(ctx.packages) && ctx.executed == old(ctx.executed)
  {
    if r.Err? {
      ctx.trace := ctx.trace + [Failed(name)];
      var items := ArgItems(r.error);
      if items.Err? {
        return Raised(items.error);
      }
      PrintLines(ctx, items.value);
      return Exited(1);
    }
    ctx.trace := ctx.trace + [Succeeded(name)];
    if ctx.verbose && r.value.Some? {
      ctx.trace := ctx.trace + [OutputsHeader, OutputPrinted(r.value.value)];
    }
    return Returned(r.value);
  }

  // ---------------------------------------------------------------- sections

  /** What the end of `log_section(name)` prints and yields once `f` has given `r`. */
  datatype SectionEffect<+T> = SectionEffect(trace: seq<Event>, outcome: Outcome<T>)

  function SectionEnd<T>(name: string, r: Result<T>): SectionEffect<T> {
    match r
    case Ok(x) => SectionEffect([], Returned(x))
    case Err(e) =>
      if |e.args| == 0 then SectionEffect([SectionFailed(name)], Raised(Error(IndexError, [AStr("tuple index out of range")])))
      else if e.args[0].AList? then
        SectionEffect([SectionFailed(name)] + PrintedAll(e.args[0].lines) + [TracebackPrinted], Exited(1))
      else SectionEffect([SectionFailed(name), ErrorPrinted(e), TracebackPrinted], Exited(1))
  }

  /** A section returns what `f` returned and prints nothing more; a failed one prints
      ERROR, the message list (or the exception), the traceback, and exits with 1. */
  lemma SectionEndMeaning<T>(name: string, r: Result<T>)
    ensures r.Ok? ==> SectionEnd(name, r) == SectionEffect([], Returned(r.value))
    ensures r.Err? && |r.error.args| > 0 ==>
      && SectionEnd(name, r).outcome == Exited(1)
      && SectionEnd(name, r).trace[0] == SectionFailed(name)
      && SectionEnd(name, r).trace[|SectionEnd(name, r).trace| - 1] == TracebackPrinted
    ensures r.Err? && |r.error.args| > 0 && r.error.args[0].AList? ==>
      SectionEnd(name, r).trace[1..|SectionEnd(name, r).trace| - 1] == PrintedAll(r.error.args[0].lines)
  {
  }

  /** The header `log_section` prints before calling `f`. */
  method BeginSection(ctx: Context, name: string)
    modifies ctx
    ensures ctx.trace == old(ctx.trace) + [SectionStarted(name)]
    ensures ctx.runStep == old(ctx.runStep) && ctx.verbose == old(ctx.verbose)
    ensures ctx.packages == old(ctx.packages) && ctx.executed == old(ctx.executed)
  {
    ctx.trace := ctx.trace + [SectionStarted(name)];
  }

  /** The `try`/`except` of `log_section` once `f` has given `r`. */
  method EndSection<T>(ctx: Context, name: string, r: Result<T>) returns (out: Outcome<T>)
    modifies ctx
    ensures ctx.trace == old(ctx.trace) + SectionEnd(name, r).trace && out == SectionEnd(name, r).outcome
    ensures ctx.runStep == old(ctx.runStep) && ctx.verbose == old(ctx.verbose)
    ensures ctx.packages == old(ctx.packages) && ctx.executed == old(ctx.executed)
  {
    if r.Ok? {
      return Returned(r.value);
    }
    ctx.trace := ctx.trace + [SectionFailed(name)];
    if |r.error.args| == 0 {
      return Raised(Error(IndexError, [AStr("tuple index out of range")]));
    }
    if r.error.args[0].AList? {
      PrintLines(ctx, r.error.args[0].lines);
    } else {
      ctx.trace := ctx.trace + [ErrorPrinted(r.error)];
    }
    ctx.trace := ctx.trace + [TracebackPrinted];
    return Exited(1);
  }

  /** `last_words(logs)`: a lone string is one log; every log is printed in order and
      the process exits with 1. */
  method LastWords(ctx: Context, logs: Strings) returns (out: Outcome<()>)
    modifies ctx
    ensures out == Exited(1)
    ensures ctx.trace == old(ctx.trace) + [LastWordsHeader] + PrintedAll(seq(|Listify(logs)|, i requires 0 <= i < |Listify(logs)| => Text(Listify(logs)[i])))
    ensures logs.One? ==> ctx.trace == old(ctx.trace) + [LastWordsHeader, Printed(Text(logs.s))]
    ensures ctx.runStep == old(ctx.runStep) && ctx.verbose == old(ctx.verbose)
    ensures ctx.packages == old(ctx.packages) && ctx.executed == old(ctx.executed)
  {
    ctx.trace := ctx.trace + [LastWordsHeader];
    var items := Listify(logs);
    for i := 0 to |items|
      invariant ctx.trace == old(ctx.trace) + [LastWordsHeader] + PrintedAll(seq(i, j requires 0 <= j < i => Text(items[j])))
      invariant ctx.runStep == old(ctx.runStep) && ctx.verbose == old(ctx.verbose)
      invariant ctx.packages == old(ctx.packages) && ctx.executed == old(ctx.executed)
    {
      assert seq(i + 1, j requires 0 <= j < i + 1 => Text(items[j]))
          == seq(i, j requires 0 <= j < i => Text(items[j])) + [Text(items[i])];
      PrintedAllConcat(seq(i, j requires 0 <= j < i => Text(items[j])), [Text(items[i])]);
      ctx.trace := ctx.trace + [Printed(Text(items[i]))];
    }
    return Exited(1);
  }
}
