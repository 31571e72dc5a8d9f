/** The four step variants of `setitup`: parsing one step from the document (the
    `kind` dispatch and each variant's own key check), the values fixed at
    construction (substituted strings, a guard's verdict), the description
    `to_dict` gives, and running a step through `log_step` with the shared gate
    `Context.run_step`. */
module Steps {
  import opened Text
  import opened Documents
  import opened DictObjects
  import opened Runtime
  import opened Logging

  datatype Step =
    | Shell(command: string)
    | Guard(conditions: seq<string>, runStep: bool)
    | Overwrite(source: string, target: string)
    | Update(source: string, target: string, sections: seq<string>, markers: seq<string>)

  const StepKeys: seq<KeySpec> := [KeySpec("kind", KindCheck)]
  const ShellKeys: seq<KeySpec> := [KeySpec("command", StrType)]
  const GuardKeys: seq<KeySpec> := [KeySpec("conditions", StringListCheck)]
  const OverwriteKeys: seq<KeySpec> := [KeySpec("source", StrType), KeySpec("target", StrType)]
  const UpdateKeys: seq<KeySpec> :=
    [KeySpec("source", StrType), KeySpec("target", StrType),
     KeySpec("sections", StringListCheck), KeySpec("markers", StringListCheck)]

  // ---------------------------------------------------------------- construction

  /** `eval(sub(item))` for one guard condition. */
  function SubEval(host: Host): string -> Result<bool> {
    c => match host.sub(c) case Err(e) => Err(e) case Ok(s) => host.eval(s)
  }

  /** `GuardStep.__init__`'s verdict: true for no conditions, otherwise the
      conjunction of every substituted and evaluated condition. */
  function GuardVerdict(conditions: seq<string>, host: Host): Result<bool> {
    if |conditions| == 0 then Ok(true) else AllTrue(SubEval(host), conditions)
  }

  /** The verdict is true for no conditions; otherwise it is a value exactly when no
      condition raises, and true exactly when every condition is. */
  lemma GuardVerdictMeaning(conditions: seq<string>, host: Host)
    ensures conditions == [] ==> GuardVerdict(conditions, host) == Ok(true)
    ensures GuardVerdict(conditions, host).Ok? <==> forall i :: 0 <= i < |conditions| ==> SubEval(host)(conditions[i]).Ok?
    ensures GuardVerdict(conditions, host) == Ok(true) <==>
      forall i :: 0 <= i < |conditions| ==> SubEval(host)(conditions[i]) == Ok(true)
  {
    AllTrueMeaning(SubEval(host), conditions);
  }

  /** `ShellStep.from_dict`: `command` must be a string; it is substituted once. */
  function ParseShell(root: Value, path: seq<string>, host: Host): Result<Step> {
    Construct("ShellStep",
      match Check(root, path, ShellKeys)
      case Err(e) => Err(e)
      case Ok(region) =>
        CheckedKey(root, path, ShellKeys, 0);
        match host.sub(region.m["command"].s)
        case Err(e) => Err(e)
        case Ok(command) => Ok(Shell(command)))
  }

  /** `GuardStep.from_dict`: `conditions` must be a string list, stored as given;
      the verdict is computed here, once. */
  function ParseGuard(root: Value, path: seq<string>, host: Host): Result<Step> {
    Construct("GuardStep",
      match Check(root, path, GuardKeys)
      case Err(e) => Err(e)
      case Ok(region) =>
        CheckedKey(root, path, GuardKeys, 0);
        var conditions := StringsOf(region.m["conditions"]);
        match GuardVerdict(conditions, host)
        case Err(e) => Err(e)
        case Ok(b) => Ok(Guard(conditions, b)))
  }

  /** `OverwriteStep.from_dict`: `source` and `target` must be strings; each is
      substituted, `source` first. */
  function ParseOverwrite(root: Value, path: seq<string>, host: Host): Result<Step> {
    Construct("OverwriteStep",
      match Check(root, path, OverwriteKeys)
      case Err(e) => Err(e)
      case Ok(region) =>
        CheckedKey(root, path, OverwriteKeys, 0);
        CheckedKey(root, path, OverwriteKeys, 1);
        match host.sub(region.m["source"].s)
        case Err(e) => Err(e)
        case Ok(source) =>
          match host.sub(region.m["target"].s)
          case Err(e) => Err(e)
          case Ok(target) => Ok(Overwrite(source, target)))
  }

  /** `UpdateStep.from_dict`: as Overwrite, plus `sections` and `markers`, string
      lists stored as given. */
  function ParseUpdate(root: Value, path: seq<string>, host: Host): Result<Step> {
    Construct("UpdateStep",
      match Check(root, path, UpdateKeys)
      case Err(e) => Err(e)
      case Ok(region) =>
        CheckedKey(root, path, UpdateKeys, 0);
        CheckedKey(root, path, UpdateKeys, 1);
        CheckedKey(root, path, UpdateKeys, 2);
        CheckedKey(root, path, UpdateKeys, 3);
        match host.sub(region.m["source"].s)
        case Err(e) => Err(e)
        case Ok(source) =>
          match host.sub(region.m["target"].s)
          case Err(e) => Err(e)
          case Ok(target) =>
            Ok(Update(source, target, StringsOf(region.m["sections"]), StringsOf(region.m["markers"]))))
  }

  /** `Step.from_dict`: the `kind` check, then the variant's own `from_dict` at the
      same path, all under the `Step` frame. The `case _` branch raises. */
  function ParseStep(root: Value, path: seq<string>, host: Host): Result<Step> {
    Construct("Step",
      match Check(root, path, StepKeys)
      case Err(e) => Err(e)
      case Ok(region) =>
        CheckedKey(root, path, StepKeys, 0);
        var kind := region.m["kind"].s;
        if kind == "shell" then ParseShell(root, path, host)
        else if kind == "guard" then ParseGuard(root, path, host)
        else if kind == "overwrite" then ParseOverwrite(root, path, host)
        else if kind == "update" then ParseUpdate(root, path, host)
        else Err(Error(ShutilError, [AStr("Something is very wrong")])))
  }

  // ---------------------------------------------------------------- what parsing means

  /** A Shell step parses exactly when `command` is a string whose substitution
      succeeds, and it holds the substituted command. */
  lemma ParseShellMeaning(root: Value, path: seq<string>, host: Host, m: map<string, Value>)
    requires Follow(root, path) == Some(VMap(m))
    ensures ParseShell(root, path, host).Ok? <==>
      "command" in m && m["command"].VStr? && host.sub(m["command"].s).Ok?
    ensures ParseShell(root, path, host).Ok? ==>
      ParseShell(root, path, host).value == Shell(host.sub(m["command"].s).value)
  {
    CheckMapRegion(root, path, ShellKeys, m);
  }

  /** A Guard parses exactly when `conditions` is a string list whose verdict can be
      computed; the conditions are kept raw, the verdict is fixed. */
  lemma ParseGuardMeaning(root: Value, path: seq<string>, host: Host, m: map<string, Value>)
    requires Follow(root, path) == Some(VMap(m))
    ensures ParseGuard(root, path, host).Ok? <==>
      "conditions" in m && IsStringList(m["conditions"]) && GuardVerdict(StringsOf(m["conditions"]), host).Ok?
    ensures ParseGuard(root, path, host).Ok? ==>
      ParseGuard(root, path, host).value ==
        Guard(StringsOf(m["conditions"]), GuardVerdict(StringsOf(m["conditions"]), host).value)
  {
    CheckMapRegion(root, path, GuardKeys, m);
  }

  lemma ParseOverwriteMeaning(root: Value, path: seq<string>, host: Host, m: map<string, Value>)
    requires Follow(root, path) == Some(VMap(m))
    ensures ParseOverwrite(root, path, host).Ok? <==>
      && "source" in m && m["source"].VStr? && "target" in m && m["target"].VStr?
      && host.sub(m["source"].s).Ok? && host.sub(m["target"].s).Ok?
    ensures ParseOverwrite(root, path, host).Ok? ==>
      ParseOverwrite(root, path, host).value ==
        Overwrite(host.sub(m["source"].s).value, host.sub(m["target"].s).value)
  {
    CheckMapRegion(root, path, OverwriteKeys, m);
  }

  /** Update needs `sections` and `markers` besides `source` and `target`; only the
      latter two are substituted. */
  lemma ParseUpdateMeaning(root: Value, path: seq<string>, host: Host, m: map<string, Value>)
    requires Follow(root, path) == Some(VMap(m))
    ensures ParseUpdate(root, path, host).Ok? <==>
      && "source" in m && m["source"].VStr? && "target" in m && m["target"].VStr?
      && "sections" in m && IsStringList(m["sections"]) && "markers" in m && IsStringList(m["markers"])
      && host.sub(m["source"].s).Ok? && host.sub(m["target"].s).Ok?
    ensures ParseUpdate(root, path, host).Ok? ==>
      ParseUpdate(root, path, host).value ==
        Update(host.sub(m["source"].s).value, host.sub(m["target"].s).value,
               StringsOf(m["sections"]), StringsOf(m["markers"]))
  {
    CheckMapRegion(root, path, UpdateKeys, m);
    UpdateKeysMeaning(m);
  }

  lemma UpdateKeysMeaning(m: map<string, Value>)
    ensures Satisfies(m, UpdateKeys) <==>
      && "source" in m && m["source"].VStr? && "target" in m && m["target"].VStr?
      && "sections" in m && IsStringList(m["sections"]) && "markers" in m && IsStringList(m["markers"])
  {
    if "source" in m && m["source"].VStr? && "target" in m && m["target"].VStr?
      && "sections" in m && IsStringList(m["sections"]) && "markers" in m && IsStringList(m["markers"]) {
      forall i | 0 <= i < |UpdateKeys|
        ensures UpdateKeys[i].key in m && Validate(UpdateKeys[i].validator, m[UpdateKeys[i].key]) == Ok(true)
      {
        assert i == 0 || i == 1 || i == 2 || i == 3;
      }
    }
    if Satisfies(m, UpdateKeys) {
      assert UpdateKeys[0].key in m && UpdateKeys[1].key in m && UpdateKeys[2].key in m && UpdateKeys[3].key in m;
    }
  }

  /** `kind` must name one of the four variants; the step is then whatever that
      variant's parser gives at the same path, so the `case _` branch is never taken. */
  lemma ParseStepDispatch(root: Value, path: seq<string>, host: Host, m: map<string, Value>)
    requires Follow(root, path) == Some(VMap(m))
    ensures Check(root, path, StepKeys).Ok? <==> "kind" in m && m["kind"].VStr? && m["kind"].s in StepKinds
    ensures "kind" !in m ==> ParseStep(root, path, host).Err? && ParseStep(root, path, host).error.kind == KeyError
    ensures "kind" in m && !(m["kind"].VStr? && m["kind"].s in StepKinds) ==>
      ParseStep(root, path, host).Err? && ParseStep(root, path, host).error.kind == ValueError
    ensures "kind" in m && m["kind"] == VStr("shell") ==> ParseStep(root, path, host) == Construct("Step", ParseShell(root, path, host))
    ensures "kind" in m && m["kind"] == VStr("guard") ==> ParseStep(root, path, host) == Construct("Step", ParseGuard(root, path, host))
    ensures "kind" in m && m["kind"] == VStr("overwrite") ==>
      ParseStep(root, path, host) == Construct("Step", ParseOverwrite(root, path, host))
    ensures "kind" in m && m["kind"] == VStr("update") ==>
      ParseStep(root, path, host) == Construct("Step", ParseUpdate(root, path, host))
  {
    CheckMapRegion(root, path, StepKeys, m);
    if "kind" !in m {
      LocateFollow(root, path);
      assert CheckKey(root, Join(path, " => "), VMap(m), StepKeys[0]).value.kind == KeyError;
    } else {
      ValidateMeaning(KindCheck, m["kind"]);
      var kind := m["kind"];
      if !(kind.VStr? && kind.s in StepKinds) {
        LocateFollow(root, path);
        assert CheckKey(root, Join(path, " => "), VMap(m), StepKeys[0]).value.kind == ValueError;
      } else if kind == VStr("shell") {
        assert ParseStep(root, path, host) == Construct("Step", ParseShell(root, path, host));
      } else if kind == VStr("guard") {
        assert ParseStep(root, path, host) == Construct("Step", ParseGuard(root, path, host));
      } else if kind == VStr("overwrite") {
        assert ParseStep(root, path, host) == Construct("Step", ParseOverwrite(root, path, host));
      } else if kind == VStr("update") {
        assert ParseStep(root, path, host) == Construct("Step", ParseUpdate(root, path, host));
      }
    }
  }

  /** Whatever the document, a step that passed the `kind` check is parsed by one of
      the four variants. */
  lemma ParseStepNoFallback(root: Value, path: seq<string>, host: Host)
    requires Check(root, path, StepKeys).Ok?
    ensures ParseStep(root, path, host) in
      {Construct("Step", ParseShell(root, path, host)), Construct("Step", ParseGuard(root, path, host)),
       Construct("Step", ParseOverwrite(root, path, host)), Construct("Step", ParseUpdate(root, path, host))}
  {
    CheckedKey(root, path, StepKeys, 0);
    var region := Check(root, path, StepKeys).value;
    ValidateMeaning(KindCheck, region.m["kind"]);
    var kind := region.m["kind"].s;
    if kind == "shell" {
      assert ParseStep(root, path, host) == Construct("Step", ParseShell(root, path, host));
    } else if kind == "guard" {
      assert ParseStep(root, path, host) == Construct("Step", ParseGuard(root, path, host));
    } else if kind == "overwrite" {
      assert ParseStep(root, path, host) == Construct("Step", ParseOverwrite(root, path, host));
    } else {
      assert kind == "update";
      assert ParseStep(root, path, host) == Construct("Step", ParseUpdate(root, path, host));
    }
  }

  // ---------------------------------------------------------------- descriptions

  /** `to_dict` of a step. */
  function Describe(step: Step): string {
    match step
    case Shell(command) => "CMD: " + command
    case Guard(conditions, runStep) => "Guards: [" + Join(conditions, ", ") + "] => " + (if runStep then "RUN" else "SKIP")
    case Overwrite(source, target) => "Overwrite: " + target + " with " + source
    case Update(source, target, _, _) => "Update: " + target + " with " + source
  }

  /** The description names the variant by its first word, gives a Shell step's
      command back after the prefix, and ends a Guard's with its verdict. */
  lemma DescribeShape(step: Step)
    ensures step.Shell? <==> |Describe(step)| >= 5 && Describe(step)[..5] == "CMD: "
    ensures step.Shell? ==> Describe(step)[5..] == step.command
    ensures step.Guard? <==> |Describe(step)| >= 9 && Describe(step)[..9] == "Guards: ["
    ensures step.Overwrite? <==> |Describe(step)| >= 11 && Describe(step)[..11] == "Overwrite: "
    ensures step.Update? <==> |Describe(step)| >= 8 && Describe(step)[..8] == "Update: "
    ensures step.Guard? ==>
      var d := Describe(step);
      if step.runStep then |d| >= 3 && d[|d| - 3..] == "RUN" else |d| >= 4 && d[|d| - 4..] == "SKIP"
  {
    var d := Describe(step);
    match step {
      case Shell(c) =>
        assert d[..5] == "CMD: ";
        assert d[0] == 'C';
      case Guard(cs, b) =>
        var tail := Join(cs, ", ") + "] => " + (if b then "RUN" else "SKIP");
        assert d == "Guards: [" + tail;
        assert d[..9] == "Guards: [";
        assert d[0] == 'G';
      case Overwrite(s, t) =>
        assert d == "Overwrite: " + t + " with " + s;
        assert d[..11] == "Overwrite: ";
        assert d[0] == 'O';
      case Update(s, t, _, _) =>
        assert d == "Update: " + t + " with " + s;
        assert d[..8] == "Update: ";
        assert d[0] == 'U';
    }
  }

  /** `f"{self}"`: the default object representation, which is the name `log_step`
      prints (the memory address is not modelled). */
  function ObjectName(step: Step): string {
    match step
    case Shell(_) => "<setitup.models.steps.ShellStep object>"
    case Guard(_, _) => "<setitup.models.steps.GuardStep object>"
    case Overwrite(_, _) => "<setitup.models.steps.OverwriteStep object>"
    case Update(_, _, _, _) => "<setitup.models.steps.UpdateStep object>"
  }

  // ---------------------------------------------------------------- running

  /** The `_run` body each variant hands to `log_step`. */
  function RunAction(step: Step): Action {
    match step
    case Shell(command) => RunShell(command, true)
    case Guard(_, runStep) => SetGate(runStep)
    case Overwrite(_, _) => NoOp
    case Update(_, _, _, _) => NoOp
  }

  /** The `run_step` each variant passes to `log_step`: Shell passes the gate's
      current value, every other variant passes `True`. */
  function RunGate(step: Step, gate: bool): bool {
    if step.Shell? then gate else true
  }

  /** `step.run()`. */
  method Run(ctx: Context, step: Step, host: Host) returns (out: Outcome<Option<string>>)
    modifies ctx
    ensures var eff := StepRun(ObjectName(step), RunGate(step, old(ctx.runStep)), old(ctx.verbose),
                               RunAction(step), host, old(ctx.runStep));
      && ctx.trace == old(ctx.trace) + eff.trace && out == eff.outcome
      && ctx.executed == old(ctx.executed) + eff.ran && ctx.runStep == eff.gate
    ensures ctx.verbose == old(ctx.verbose) && ctx.packages == old(ctx.packages)
  {
    match step
    case Shell(command) =>
      out := LogStep(ctx, ObjectName(step), ctx.runStep, RunShell(command, true), host);
    case Guard(_, runStep) =>
      out := LogStep(ctx, ObjectName(step), true, SetGate(runStep), host);
    case Overwrite(_, _) =>
      out := LogStep(ctx, ObjectName(step), true, NoOp, host);
    case Update(_, _, _, _) =>
      out := LogStep(ctx, ObjectName(step), true, NoOp, host);
  }

  /** A closed gate skips a Shell step: SKIPPED only, `None`, no command run. An open
      gate runs the substituted command and returns its log, or fails on a non-`None`
      close status. */
  lemma ShellRunGate(command: string, verbose: bool, host: Host, gate: bool)
    ensures var step := Shell(command);
      var eff := StepRun(ObjectName(step), RunGate(step, gate), verbose, RunAction(step), host, gate);
      && (!gate ==> eff.trace == [Skipped(ObjectName(step))] && eff.outcome == Returned(None) && eff.ran == [])
      && (gate ==> eff.ran == [command])
      && (gate && host.shell(command).status.None? ==> eff.outcome == Returned(Some(host.shell(command).log)))
      && (gate && host.shell(command).status.Some? ==> Succeeded(ObjectName(step)) !in eff.trace)
  {
    var step := Shell(command);
    if gate && host.shell(command).status.Some? {
      StepFails(ObjectName(step), verbose, RunAction(step), host, gate);
    }
  }

  /** A Guard is never skipped, runs nothing, and leaves the gate at its verdict. */
  lemma GuardRunSetsGate(conditions: seq<string>, verdict: bool, verbose: bool, host: Host, gate: bool)
    ensures var step := Guard(conditions, verdict);
      var eff := StepRun(ObjectName(step), RunGate(step, gate), verbose, RunAction(step), host, gate);
      eff.gate == verdict && eff.ran == [] && eff.outcome == Returned(None) &&
      eff.trace == [Started(ObjectName(step)), Succeeded(ObjectName(step))]
  {
  }

  /** Overwrite and Update always run, do nothing and leave the gate alone. */
  lemma CopyRunIsInert(step: Step, verbose: bool, host: Host, gate: bool)
    requires step.Overwrite? || step.Update?
    ensures var eff := StepRun(ObjectName(step), RunGate(step, gate), verbose, RunAction(step), host, gate);
      eff.gate == gate && eff.ran == [] && eff.outcome == Returned(None) &&
      eff.trace == [Started(ObjectName(step)), Succeeded(ObjectName(step))]
  {
  }

  // ---------------------------------------------------------------- DotDict

  /** The attribute names a `DotDict` already has before its `__getattr__` is
      consulted: the methods and special attributes of `dict` (as of Python 3.10)
      and those its own class body defines. Attribute lookup finds these first. */
  const DotDictAttributes: set<string> := {
    "clear", "copy", "fromkeys", "get", "items", "keys", "pop", "popitem", "setdefault", "update", "values",
    "__class__", "__class_getitem__", "__contains__", "__delattr__", "__delitem__", "__dir__", "__doc__",
    "__eq__", "__format__", "__ge__", "__getattribute__", "__getitem__", "__gt__", "__hash__", "__init__",
    "__init_subclass__", "__ior__", "__iter__", "__le__", "__len__", "__lt__", "__ne__", "__new__", "__or__",
    "__reduce__", "__reduce_ex__", "__repr__", "__reversed__", "__ror__", "__setattr__", "__setitem__",
    "__sizeof__", "__str__", "__subclasshook__",
    "__getattr__", "__annotations__", "__dict__", "__module__", "__weakref__"}

  /** What `d.name` evaluates to: an attribute the object already has, or the
      result of `dict.get`. */
  datatype Attribute = ClassAttribute(name: string) | Entry(value: Option<string>)

  /** `DotDict`: a string dictionary whose attributes are its entries. */
  class DotDict {
    var entries: map<string, string>

    constructor(entries: map<string, string>)
      ensures this.entries == entries
    {
      this.entries := entries;
    }

    /** `d.key`: the regular lookup finds the names of `DotDictAttributes`; only
        when it fails does `__getattr__`, which is `dict.get`, give the entry or
        `None`. */
    function Get(key: string): (r: Attribute)
      reads this
      ensures r.ClassAttribute? <==> key in DotDictAttributes
      ensures r.ClassAttribute? ==> r.name == key
      ensures r.Entry? ==> (r.value.Some? <==> key in entries) && (r.value.Some? ==> r.value.value == entries[key])
    {
      if key in DotDictAttributes then ClassAttribute(key)
      else if key in entries then Entry(Some(entries[key]))
      else Entry(None)
    }

    /** `d.key = value` is `dict.__setitem__`: the entry is stored even under a
        name that attribute lookup shadows, and no other attribute changes. */
    method Set(key: string, value: string)
      modifies this
      ensures entries == old(entries)[key := value]
      ensures key !in DotDictAttributes ==> Get(key) == Entry(Some(value))
      ensures key in DotDictAttributes ==> Get(key) == ClassAttribute(key)
      ensures forall k :: k != key ==> Get(k) == old(Get(k))
    {
      entries := entries[key := value];
    }

    /** `del d.key` is `dict.__delitem__`, which raises `KeyError` for a missing key. */
    method Delete(key: string) returns (r: Result<()>)
      modifies this
      ensures r.Ok? <==> key in old(entries)
      ensures r.Ok? ==> entries == old(entries) - {key}
      ensures r.Err? ==> entries == old(entries) && r.error == Error(KeyError, [AStr(key)])
      ensures r.Ok? && key !in DotDictAttributes ==> Get(key) == Entry(None)
      ensures forall k :: k != key ==> Get(k) == old(Get(k))
    {
      if key !in entries {
        return Err(Error(KeyError, [AStr(key)]));
      }
      entries := entries - {key};
      return Ok(());
    }
  }
}
