/** The process-wide state the steps share and the outside world they call into.
    `Context` keeps only the fields the core reads and writes (the gate, the verbose
    flag, the selected packages), plus an explicit record of what was printed and
    which commands were handed to the shell. The shell, Python `eval` and
    `str.format` substitution are oracles supplied by the caller. */
module Runtime {
  import opened Documents

  /** What `os.popen(cmd)` yields: everything read from the pipe, and the value of
      `close()` (`None` on a zero exit status). */
  datatype ShellReply = ShellReply(log: string, status: Option<int>)

  /** The three oracles. `eval` gives the truth value of the evaluated expression;
      `sub` is `line.format(settings=…, context=…, env=…)`; both may raise. */
  datatype Host = Host(
    shell: string -> ShellReply,
    eval: string -> Result<bool>,
    sub: string -> Result<string>)

  /** One printed line, in the order the wrappers print them. Colours, upper-casing
      and YAML layout are not modelled. */
  datatype Event =
    | Skipped(name: string)
    | Started(name: string)
    | Succeeded(name: string)
    | Failed(name: string)
    | Printed(line: Line)
    | OutputsHeader
    | OutputPrinted(output: string)
    | SectionStarted(section: string)
    | SectionFailed(section: string)
    | ErrorPrinted(error: Error)
    | TracebackPrinted
    | LastWordsHeader

  /** The `Context` class: its `run_step`, `verbose` and `packages` attributes. */
  class Context {
    var runStep: bool
    var verbose: bool
    var packages: seq<string>
    /** Everything printed so far. */
    var trace: seq<Event>
    /** Every command handed to the shell so far. */
    var executed: seq<string>

    /** The class attributes' defaults: the gate is open and no package is selected. */
    constructor(verbose: bool)
      ensures runStep && this.verbose == verbose && packages == [] && trace == [] && executed == []
    {
      runStep := true;
      this.verbose := verbose;
      packages := [];
      trace := [];
      executed := [];
    }
  }

  /** `all([test(item) for item in items])`: every item is tested, in order, before
      the conjunction is taken; the first test that raises is what is raised. */
  function AllTrue(test: string -> Result<bool>, items: seq<string>): Result<bool>
    decreases |items|
  {
    if |items| == 0 then Ok(true)
    else
      match test(items[0])
      case Err(e) => Err(e)
      case Ok(b) =>
        match AllTrue(test, items[1..])
        case Err(e) => Err(e)
        case Ok(c) => Ok(b && c)
  }

  /** The list is built in full: a false item does not stop a later one from
      raising, so the result is a value exactly when no test raises; that value is
      true exactly when every test is true. */
  lemma {:induction false} AllTrueMeaning(test: string -> Result<bool>, items: seq<string>)
    ensures AllTrue(test, items).Ok? <==> forall i :: 0 <= i < |items| ==> test(items[i]).Ok?
    ensures AllTrue(test, items) == Ok(true) <==> forall i :: 0 <= i < |items| ==> test(items[i]) == Ok(true)
    decreases |items|
  {
    if |items| > 0 {
      AllTrueMeaning(test, items[1..]);
      assert forall i :: 1 <= i < |items| ==> items[i] == items[1..][i - 1];
    }
  }

  /** What is raised is the error of the first item whose test raises. */
  lemma {:induction false} AllTrueFirstError(test: string -> Result<bool>, items: seq<string>)
    requires AllTrue(test, items).Err?
    ensures exists i ::
      && 0 <= i < |items|
      && test(items[i]) == Err(AllTrue(test, items).error)
      && (forall j :: 0 <= j < i ==> test(items[j]).Ok?)
    decreases |items|
  {
    if test(items[0]).Ok? {
      AllTrueFirstError(test, items[1..]);
      var i :| 0 <= i < |items[1..]| && test(items[1..][i]) == Err(AllTrue(test, items[1..]).error)
        && (forall j :: 0 <= j < i ==> test(items[1..][j]).Ok?);
      assert items[i + 1] == items[1..][i];
      forall j | 0 <= j < i + 1 ensures test(items[j]).Ok? {
        if j > 0 { assert items[j] == items[1..][j - 1]; }
      }
    } else {
      assert test(items[0]) == Err(AllTrue(test, items).error);
    }
  }
}
