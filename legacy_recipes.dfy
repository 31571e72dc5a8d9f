/** The step variants and recipe classes of `simple_env_setup`, the older of the two
    packages: steps store their strings as written (no substitution), a guard keeps
    its conditions and evaluates them only when it runs, an update step has no
    sections or markers, the dispatch has no fallback branch, and the part classes
    are `InstallModel` and `ConfigModel`. */
module LegacyRecipes {
  import opened Text
  import opened Documents
  import opened DictObjects
  import opened Runtime
  import opened Logging
  import opened RecipeTree
  import Steps

  datatype LegacyStep =
    | LShell(command: string)
    | LGuard(conditions: seq<string>)
    | LOverwrite(source: string, target: string)
    | LUpdate(source: string, target: string)

  const ShellKeys: seq<KeySpec> := [KeySpec("command", StrType)]
  const GuardKeys: seq<KeySpec> := [KeySpec("conditions", StringListCheck)]
  const CopyKeys: seq<KeySpec> := [KeySpec("source", StrType), KeySpec("target", StrType)]

  // ---------------------------------------------------------------- construction

  function ParseShell(root: Value, path: seq<string>): Result<LegacyStep> {
    Construct("ShellStep",
      match Check(root, path, ShellKeys)
      case Err(e) => Err(e)
      case Ok(region) =>
        CheckedKey(root, path, ShellKeys, 0);
        Ok(LShell(region.m["command"].s)))
  }

  function ParseGuard(root: Value, path: seq<string>): Result<LegacyStep> {
    Construct("GuardStep",
      match Check(root, path, GuardKeys)
      case Err(e) => Err(e)
      case Ok(region) =>
        CheckedKey(root, path, GuardKeys, 0);
        Ok(LGuard(StringsOf(region.m["conditions"]))))
  }

  /** `OverwriteStep` and `UpdateStep` read the same two keys. */
  function ParseCopy(name: string, root: Value, path: seq<string>, overwrite: bool): Result<LegacyStep> {
    Construct(name,
      match Check(root, path, CopyKeys)
      case Err(e) => Err(e)
      case Ok(region) =>
        CheckedKey(root, path, CopyKeys, 0);
        CheckedKey(root, path, CopyKeys, 1);
        var source := region.m["source"].s;
        var target := region.m["target"].s;
        Ok(if overwrite then LOverwrite(source, target) else LUpdate(source, target)))
  }

  /** `Step.from_dict`: the `kind` check, then the variant's `from_dict`. The `match`
      has no default case; the key check has already limited `kind` to the four
      names, so the last branch is reached only by `"update"`. */
  function ParseStep(root: Value, path: seq<string>): Result<LegacyStep> {
    Construct("Step",
      match Check(root, path, Steps.StepKeys)
      case Err(e) => Err(e)
      case Ok(region) =>
        CheckedKey(root, path, Steps.StepKeys, 0);
        var kind := region.m["kind"].s;
        if kind == "shell" then ParseShell(root, path)
        else if kind == "guard" then ParseGuard(root, path)
        else if kind == "overwrite" then ParseCopy("OverwriteStep", root, path, true)
        else
          assert kind == "update";
          ParseCopy("UpdateStep", root, path, false))
  }

  // ---------------------------------------------------------------- what parsing means

  /** A Shell step parses exactly when `command` is a string, and keeps it verbatim. */
  lemma ParseShellMeaning(root: Value, path: seq<string>, m: map<string, Value>)
    requires Follow(root, path) == Some(VMap(m))
    ensures ParseShell(root, path).Ok? <==> "command" in m && m["command"].VStr?
    ensures ParseShell(root, path).Ok? ==> ParseShell(root, path).value == LShell(m["command"].s)
  {
    CheckMapRegion(root, path, ShellKeys, m);
  }

  /** A Guard parses exactly when `conditions` is a string list; nothing is evaluated. */
  lemma ParseGuardMeaning(root: Value, path: seq<string>, m: map<string, Value>)
    requires Follow(root, path) == Some(VMap(m))
    ensures ParseGuard(root, path).Ok? <==> "conditions" in m && IsStringList(m["conditions"])
    ensures ParseGuard(root, path).Ok? ==> ParseGuard(root, path).value == LGuard(StringsOf(m["conditions"]))
  {
    CheckMapRegion(root, path, GuardKeys, m);
  }

  /** Overwrite and Update parse exactly when `source` and `target` are strings, and
      keep both verbatim; an Update needs no other key. */
  lemma ParseCopyMeaning(name: string, root: Value, path: seq<string>, overwrite: bool, m: map<string, Value>)
    requires Follow(root, path) == Some(VMap(m))
    ensures ParseCopy(name, root, path, overwrite).Ok? <==>
      "source" in m && m["source"].VStr? && "target" in m && m["target"].VStr?
    ensures ParseCopy(name, root, path, overwrite).Ok? ==>
      ParseCopy(name, root, path, overwrite).value ==
        (if overwrite then LOverwrite(m["source"].s, m["target"].s) else LUpdate(m["source"].s, m["target"].s))
  {
    CheckMapRegion(root, path, CopyKeys, m);
  }

  /** `kind` must name one of the four variants, and it selects that variant's parser. */
  lemma ParseStepDispatch(root: Value, path: seq<string>, m: map<string, Value>)
    requires Follow(root, path) == Some(VMap(m))
    ensures ParseStep(root, path).Ok? ==> "kind" in m && m["kind"].VStr? && m["kind"].s in StepKinds
    ensures "kind" !in m ==> ParseStep(root, path).Err? && ParseStep(root, path).error.kind == KeyError
    ensures "kind" in m && !(m["kind"].VStr? && m["kind"].s in StepKinds) ==>
      ParseStep(root, path).Err? && ParseStep(root, path).error.kind == ValueError
    ensures "kind" in m && m["kind"] == VStr("shell") ==> ParseStep(root, path) == Construct("Step", ParseShell(root, path))
    ensures "kind" in m && m["kind"] == VStr("guard") ==> ParseStep(root, path) == Construct("Step", ParseGuard(root, path))
    ensures "kind" in m && m["kind"] == VStr("overwrite") ==>
      ParseStep(root, path) == Construct("Step", ParseCopy("OverwriteStep", root, path, true))
    ensures "kind" in m && m["kind"] == VStr("update") ==>
      ParseStep(root, path) == Construct("Step", ParseCopy("UpdateStep", root, path, false))
  {
    CheckMapRegion(root, path, Steps.StepKeys, m);
    if "kind" !in m {
      LocateFollow(root, path);
      assert CheckKey(root, Join(path, " => "), VMap(m), Steps.StepKeys[0]).value.kind == KeyError;
    } else {
      ValidateMeaning(KindCheck, m["kind"]);
      var kind := m["kind"];
      if !(kind.VStr? && kind.s in StepKinds) {
        LocateFollow(root, path);
        assert CheckKey(root, Join(path, " => "), VMap(m), Steps.StepKeys[0]).value.kind == ValueError;
      } else if kind == VStr("shell") {
        assert ParseStep(root, path) == Construct("Step", ParseShell(root, path));
      } else if kind == VStr("guard") {
        assert ParseStep(root, path) == Construct("Step", ParseGuard(root, path));
      } else if kind == VStr("overwrite") {
        assert ParseStep(root, path) == Construct("Step", ParseCopy("OverwriteStep", root, path, true));
      } else if kind == VStr("update") {
        assert ParseStep(root, path) == Construct("Step", ParseCopy("UpdateStep", root, path, false));
      }
    }
  }

  // ---------------------------------------------------------------- descriptions

  /** `to_dict` of a step: a guard lists its conditions without a verdict. */
  function Describe(step: LegacyStep): string {
    match step
    case LShell(command) => "CMD: " + command
    case LGuard(conditions) => "Guards: " + Join(conditions, ", ")
    case LOverwrite(source, target) => "Overwrite: " + target + " with " + source
    case LUpdate(source, target) => "Update: " + target + " with " + source
  }

  /** Each description gives back what the step holds after its prefix: the command,
      or the joined conditions. */
  lemma DescribeShape(step: LegacyStep)
    ensures step.LShell? ==> |Describe(step)| >= 5 && Describe(step)[..5] == "CMD: " && Describe(step)[5..] == step.command
    ensures step.LGuard? ==>
      |Describe(step)| >= 8 && Describe(step)[..8] == "Guards: " && Describe(step)[8..] == Join(step.conditions, ", ")
    ensures step.LOverwrite? ==> |Describe(step)| >= 11 && Describe(step)[..11] == "Overwrite: "
    ensures step.LUpdate? ==> |Describe(step)| >= 8 && Describe(step)[..8] == "Update: "
  {
    var d := Describe(step);
    match step {
      case LShell(c) =>
        assert d == "CMD: " + c;
      case LGuard(cs) =>
        assert d == "Guards: " + Join(cs, ", ");
      case LOverwrite(s, t) =>
        assert d == "Overwrite: " + t + " with " + s;
        assert d[..11] == "Overwrite: ";
      case LUpdate(s, t) =>
        assert d == "Update: " + t + " with " + s;
        assert d[..8] == "Update: ";
    }
  }

  /** `f"{self}"` without the memory address. */
  function ObjectName(step: LegacyStep): string {
    match step
    case LShell(_) => "<simple_env_setup.models.recipes.ShellStep object>"
    case LGuard(_) => "<simple_env_setup.models.recipes.GuardStep object>"
    case LOverwrite(_, _) => "<simple_env_setup.models.recipes.OverwriteStep object>"
    case LUpdate(_, _) => "<simple_env_setup.models.recipes.UpdateStep object>"
  }

  /** The step type, parser and part names of `simple_env_setup.models.recipes`. */
  function LegacyDialect(): (d: Dialect<LegacyStep>)
    ensures d.installName == "InstallModel" && d.configName == "ConfigModel"
    ensures forall root, path :: d.parseStep(root, path) == ParseStep(root, path)
    ensures forall step :: d.describe(step) == Describe(step)
  {
    Dialect("InstallModel", "ConfigModel", ParseStep, Describe)
  }

  // ---------------------------------------------------------------- running

  /** The `_run` body each variant hands to `log_step`: a shell step's output is
      discarded, a guard evaluates its raw conditions now. */
  function RunAction(step: LegacyStep): Action {
    match step
    case LShell(command) => RunShell(command, false)
    case LGuard(conditions) => EvalGate(conditions)
    case LOverwrite(_, _) => NoOp
    case LUpdate(_, _) => NoOp
  }

  /** Shell passes the gate's current value; every other variant passes `True`. */
  function RunGate(step: LegacyStep, gate: bool): bool {
    if step.LShell? then gate else true
  }

  /** `step.run()`. */
  method Run(ctx: Context, step: LegacyStep, host: Host) returns (out: Outcome<Option<string>>)
    modifies ctx
    ensures var eff := StepRun(ObjectName(step), RunGate(step, old(ctx.runStep)), old(ctx.verbose),
                               RunAction(step), host, old(ctx.runStep));
      && ctx.trace == old(ctx.trace) + eff.trace && out == eff.outcome
      && ctx.executed == old(ctx.executed) + eff.ran && ctx.runStep == eff.gate
    ensures ctx.verbose == old(ctx.verbose) && ctx.packages == old(ctx.packages)
  {
    match step
    case LShell(command) =>
      out := LogStep(ctx, ObjectName(step), ctx.runStep, RunShell(command, false), host);
    case LGuard(conditions) =>
      out := LogStep(ctx, ObjectName(step), true, EvalGate(conditions), host);
    case LOverwrite(_, _) =>
      out := LogStep(ctx, ObjectName(step), true, NoOp, host);
    case LUpdate(_, _) =>
      out := LogStep(ctx, ObjectName(step), true, NoOp, host);
  }

  /** A closed gate skips a Shell step and runs nothing; an open one runs the command
      verbatim, returns `None` on success (so nothing is echoed) and fails on a
      non-`None` close status. */
  lemma ShellRunGate(command: string, verbose: bool, host: Host, gate: bool)
    ensures var step := LShell(command);
      var eff := StepRun(ObjectName(step), RunGate(step, gate), verbose, RunAction(step), host, gate);
      && (!gate ==> eff.trace == [Skipped(ObjectName(step))] && eff.outcome == Returned(None) && eff.ran == [])
      && (gate ==> eff.ran == [command] && OutputsHeader !in eff.trace)
      && (gate && host.shell(command).status.None? ==> eff.outcome == Returned(None))
      && (gate && host.shell(command).status.Some? ==> Succeeded(ObjectName(step)) !in eff.trace)
  {
    var step := LShell(command);
    if gate && host.shell(command).status.Some? {
      StepFails(ObjectName(step), verbose, RunAction(step), host, gate);
    }
  }

  /** A Guard always runs: the gate becomes the conjunction of its evaluated
      conditions (true for none); when a condition raises, the step fails and the
      gate is left as it was. */
  lemma GuardRunEvaluates(conditions: seq<string>, verbose: bool, host: Host, gate: bool)
    ensures var step := LGuard(conditions);
      var eff := StepRun(ObjectName(step), RunGate(step, gate), verbose, RunAction(step), host, gate);
      && eff.ran == [] && Skipped(ObjectName(step)) !in eff.trace
      && (conditions == [] ==> eff.gate && eff.outcome == Returned(None))
      && ((forall i :: 0 <= i < |conditions| ==> host.eval(conditions[i]).Ok?) ==>
            eff.outcome == Returned(None) &&
            (eff.gate <==> forall i :: 0 <= i < |conditions| ==> host.eval(conditions[i]) == Ok(true)))
      && (!(forall i :: 0 <= i < |conditions| ==> host.eval(conditions[i]).Ok?) ==>
            eff.gate == gate && !eff.outcome.Returned?)
  {
    AllTrueMeaning(host.eval, conditions);
  }
}
