/** `setitup`'s recipe classes: the recipe tree instantiated with its step parser
    (`Step.from_dict`, which substitutes at construction), its step description and
    the part classes `InstallSpec` and `ConfigSpec`. */
module Recipes {
  import opened Text
  import opened Documents
  import opened DictObjects
  import opened Runtime
  import opened Steps
  import opened RecipeTree

  /** The step type, parser and part names of `setitup.models.recipes`. */
  function SetitupDialect(host: Host): (d: Dialect<Step>)
    ensures d.installName == "InstallSpec" && d.configName == "ConfigSpec"
    ensures forall root, path :: d.parseStep(root, path) == ParseStep(root, path, host)
    ensures forall step :: d.describe(step) == Describe(step)
  {
    Dialect("InstallSpec", "ConfigSpec", (root, path) => ParseStep(root, path, host), Describe)
  }

  /** The first line of the `KeyError` for a missing `command` at `path`. */
  function MissingCommandLine(path: seq<string>): Line {
    MissingKeyLine("command", Join(path, " => "))
  }

  /** A shell step's own check fails on a missing `command`. */
  lemma MissingCommandCheck(root: Value, path: seq<string>, step: map<string, Value>)
    requires Follow(root, path) == Some(VMap(step)) && "command" !in step
    ensures var c := Check(root, path, ShellKeys);
      && c.Err? && c.error.kind == KeyError && c.error.args[0].AList? && |c.error.args[0].lines| > 0
      && c.error.args[0].lines[0] == MissingCommandLine(path)
  {
    CheckMissingFirstKey(root, path, ShellKeys, step);
  }

  /** A shell step without `command` fails under the `Step` and `ShellStep` frames,
      followed by the check's message. */
  lemma MissingCommandStep(root: Value, path: seq<string>, host: Host, step: map<string, Value>)
    requires Follow(root, path) == Some(VMap(step))
    requires "kind" in step && step["kind"] == VStr("shell") && "command" !in step
    ensures var r := ParseStep(root, path, host);
      && r.Err? && r.error.kind == KeyError && |Frames(r.error)| >= 3
      && Frames(r.error)[..3] ==
        [Text(ConstructingFrame("Step")), Text(ConstructingFrame("ShellStep")), MissingCommandLine(path)]
  {
    MissingCommandCheck(root, path, step);
    ParseStepDispatch(root, path, host, step);
    var c := Check(root, path, ShellKeys);
    assert ParseShell(root, path, host) == Construct("ShellStep", Err(c.error));
  }

  /** An install spec whose first step is such a step fails with that step's error
      under one `InstallSpec` frame. */
  lemma MissingCommandSpec(root: Value, path: seq<string>, host: Host, install: map<string, Value>, step: map<string, Value>)
    requires Follow(root, path) == Some(VMap(install))
    requires "steps" in install && install["steps"].VList? && |install["steps"].items| > 0
    requires install["steps"].items[0] == VMap(step)
    requires "kind" in step && step["kind"] == VStr("shell") && "command" !in step
    ensures var r := ParseSpec("InstallSpec", root, path, SetitupDialect(host).parseStep);
      && r.Err? && r.error.kind == KeyError && |r.error.args| > 0 && |Frames(r.error)| >= 4
      && Frames(r.error)[..4] ==
        [Text(ConstructingFrame("InstallSpec")), Text(ConstructingFrame("Step")), Text(ConstructingFrame("ShellStep")),
         MissingCommandLine(StepPath(path, 0))]
  {
    var head := [Text(ConstructingFrame("Step")), Text(ConstructingFrame("ShellStep")), MissingCommandLine(StepPath(path, 0))];
    var d := SetitupDialect(host);
    StepPathResolves(root, path, install, 0);
    MissingCommandStep(root, StepPath(path, 0), host, step);
    assert d.parseStep(root, StepPath(path, 0)) == ParseStep(root, StepPath(path, 0), host);
    SpecFirstStepFrames("InstallSpec", root, path, d.parseStep, install, head);
    assert [Text(ConstructingFrame("InstallSpec"))] + head ==
      [Text(ConstructingFrame("InstallSpec")), Text(ConstructingFrame("Step")), Text(ConstructingFrame("ShellStep")),
       MissingCommandLine(StepPath(path, 0))];
  }

  /** The error of a missing key deep in the tree carries one frame per class being
      constructed, outermost first, and then the check's own message with the full
      path `path => install => steps => 0`. */
  lemma MissingCommandFrames(root: Value, path: seq<string>, host: Host,
                             recipe: map<string, Value>, install: map<string, Value>, step: map<string, Value>)
    requires Follow(root, path) == Some(VMap(recipe))
    requires "install" in recipe && recipe["install"] == VMap(install)
    requires "steps" in install && install["steps"].VList? && |install["steps"].items| > 0
    requires install["steps"].items[0] == VMap(step)
    requires "kind" in step && step["kind"] == VStr("shell") && "command" !in step
    ensures var r := ParseRecipe(SetitupDialect(host), root, path);
      && r.Err? && r.error.kind == KeyError && |Frames(r.error)| >= 5
      && Frames(r.error)[..5] ==
        [Text(ConstructingFrame("Recipe")), Text(ConstructingFrame("InstallSpec")),
         Text(ConstructingFrame("Step")), Text(ConstructingFrame("ShellStep")),
         MissingCommandLine(StepPath(path + ["install"], 0))]
  {
    var sub := path + ["install"];
    var head := [Text(ConstructingFrame("InstallSpec")), Text(ConstructingFrame("Step")), Text(ConstructingFrame("ShellStep")),
                 MissingCommandLine(StepPath(sub, 0))];
    FollowSnoc(root, path, "install");
    MissingCommandSpec(root, sub, host, install, step);
    RecipeInstallFrames(SetitupDialect(host), root, path, recipe, head);
  }
}
