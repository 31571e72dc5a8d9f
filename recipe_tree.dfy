/** The recipe tree both packages build from the recipes document: a recipe has an
    optional install part and an optional config part, each a list of steps parsed
    at `path + ["steps", str(i)]`; the `Recipes` singleton maps every top-level key
    to its recipe. The tree is generic in the step type, which each package
    supplies with its step parser, its description and the names of its two part
    classes (`InstallSpec`/`ConfigSpec` or `InstallModel`/`ConfigModel`). */
module RecipeTree {
  import opened Text
  import opened Documents
  import opened DictObjects

  datatype Spec<S> = Spec(steps: seq<S>)

  datatype Recipe<S> = Recipe(install: Option<Spec<S>>, config: Option<Spec<S>>)

  datatype Dialect<!S> = Dialect(
    installName: string,
    configName: string,
    parseStep: (Value, seq<string>) -> Result<S>,
    describe: S -> string)

  const SpecKeys: seq<KeySpec> := [KeySpec("steps", ListType)]

  /** `path + ["steps", str(i)]`. */
  function StepPath(path: seq<string>, i: nat): seq<string> {
    path + ["steps", NatToString(i)]
  }

  /** The list comprehension over the step indices `i .. count`, first index first:
      the first step that raises is what is raised. */
  function ParseSteps<S>(root: Value, path: seq<string>, parseStep: (Value, seq<string>) -> Result<S>,
                         count: nat, i: nat): Result<seq<S>>
    requires i <= count
    decreases count - i
  {
    if i == count then Ok([])
    else
      match parseStep(root, StepPath(path, i))
      case Err(e) => Err(e)
      case Ok(step) =>
        match ParseSteps(root, path, parseStep, count, i + 1)
        case Err(e) => Err(e)
        case Ok(rest) => Ok([step] + rest)
  }

  /** The steps come out in document order, one per index, each parsed at its own
      path; they all parse or the whole list fails. */
  lemma {:induction false} ParseStepsMeaning<S>(root: Value, path: seq<string>, parseStep: (Value, seq<string>) -> Result<S>,
                                               count: nat, i: nat)
    requires i <= count
    ensures ParseSteps(root, path, parseStep, count, i).Ok? <==>
      forall j :: i <= j < count ==> parseStep(root, StepPath(path, j)).Ok?
    ensures ParseSteps(root, path, parseStep, count, i).Ok? ==>
      var steps := ParseSteps(root, path, parseStep, count, i).value;
      |steps| == count - i && forall k :: 0 <= k < |steps| ==> Ok(steps[k]) == parseStep(root, StepPath(path, i + k))
    decreases count - i
  {
    if i < count {
      ParseStepsMeaning(root, path, parseStep, count, i + 1);
    }
  }

  /** When the steps fail, the error is that of the first step that fails. */
  lemma {:induction false} ParseStepsFirstError<S>(root: Value, path: seq<string>, parseStep: (Value, seq<string>) -> Result<S>,
                                                  count: nat, i: nat)
    requires i <= count && ParseSteps(root, path, parseStep, count, i).Err?
    ensures exists j ::
      && i <= j < count
      && parseStep(root, StepPath(path, j)) == Err(ParseSteps(root, path, parseStep, count, i).error)
      && (forall k :: i <= k < j ==> parseStep(root, StepPath(path, k)).Ok?)
    decreases count - i
  {
    if parseStep(root, StepPath(path, i)).Ok? {
      ParseStepsFirstError(root, path, parseStep, count, i + 1);
    }
  }

  /** Step `i`'s path leads to item `i` of the spec's `steps` list. */
  lemma StepPathResolves(root: Value, path: seq<string>, m: map<string, Value>, i: nat)
    requires Follow(root, path) == Some(VMap(m)) && "steps" in m && m["steps"].VList? && i < |m["steps"].items|
    ensures Follow(root, StepPath(path, i)) == Some(m["steps"].items[i])
  {
    FollowSnoc(root, path, "steps");
    FollowSnoc(root, path + ["steps"], NatToString(i));
    assert path + ["steps"] + [NatToString(i)] == StepPath(path, i);
    LookupIndex(m["steps"].items, i);
  }

  /** `InstallSpec.from_dict` / `ConfigSpec.from_dict`: a `steps` list is required,
      and each item is parsed as a step. */
  function ParseSpec<S>(name: string, root: Value, path: seq<string>, parseStep: (Value, seq<string>) -> Result<S>): Result<Spec<S>> {
    Construct(name,
      match Check(root, path, SpecKeys)
      case Err(e) => Err(e)
      case Ok(region) =>
        CheckedKey(root, path, SpecKeys, 0);
        match ParseSteps(root, path, parseStep, |region.m["steps"].items|, 0)
        case Err(e) => Err(e)
        case Ok(steps) => Ok(Spec(steps)))
  }

  /** At a dict, a spec parses exactly when `steps` is a list all of whose items
      parse; it then has one step per item, in order, parsed at that item's path. */
  lemma ParseSpecMeaning<S>(name: string, root: Value, path: seq<string>, parseStep: (Value, seq<string>) -> Result<S>,
                            m: map<string, Value>)
    requires Follow(root, path) == Some(VMap(m))
    ensures ParseSpec(name, root, path, parseStep).Ok? <==>
      && "steps" in m && m["steps"].VList?
      && forall j :: 0 <= j < |m["steps"].items| ==> parseStep(root, StepPath(path, j)).Ok?
    ensures ParseSpec(name, root, path, parseStep).Ok? ==>
      var steps := ParseSpec(name, root, path, parseStep).value.steps;
      |steps| == |m["steps"].items| && forall k :: 0 <= k < |steps| ==> Ok(steps[k]) == parseStep(root, StepPath(path, k))
  {
    CheckMapRegion(root, path, SpecKeys, m);
    if "steps" in m && m["steps"].VList? {
      ParseStepsMeaning(root, path, parseStep, |m["steps"].items|, 0);
    }
  }

  /** A spec whose first step fails raises that step's error under the spec's
      frame, so the step's leading lines follow that frame. */
  lemma SpecFirstStepFrames<S>(name: string, root: Value, path: seq<string>, parseStep: (Value, seq<string>) -> Result<S>,
                               m: map<string, Value>, head: seq<Line>)
    requires Follow(root, path) == Some(VMap(m))
    requires "steps" in m && m["steps"].VList? && |m["steps"].items| > 0
    requires var first := parseStep(root, StepPath(path, 0));
      first.Err? && |first.error.args| > 0 && |head| <= |Frames(first.error)| && Frames(first.error)[..|head|] == head
    ensures var r := ParseSpec(name, root, path, parseStep);
      && r.Err? && r.error.kind == parseStep(root, StepPath(path, 0)).error.kind && |r.error.args| > 0
      && |Frames(r.error)| >= 1 + |head| && Frames(r.error)[..1 + |head|] == [Text(ConstructingFrame(name))] + head
  {
    var e := parseStep(root, StepPath(path, 0)).error;
    assert ParseSpec(name, root, path, parseStep) == Construct(name, Err(e)) by {
      CheckMapRegion(root, path, SpecKeys, m);
    }
    ConstructKeepsHead<Spec<S>>(name, e, head);
  }

  function SomeSpec<S>(r: Result<Spec<S>>): Result<Option<Spec<S>>> {
    match r
    case Err(e) => Err(e)
    case Ok(spec) => Ok(Some(spec))
  }

  /** `Recipe.from_dict`: no required keys; `install` is parsed when `"install" in
      context`, then `config` likewise, each at its own sub-path. */
  function ParseRecipe<S>(d: Dialect<S>, root: Value, path: seq<string>): Result<Recipe<S>> {
    Construct("Recipe",
      match Check(root, path, [])
      case Err(e) => Err(e)
      case Ok(region) =>
        match Contains(region, "install")
        case Err(e) => Err(e)
        case Ok(hasInstall) =>
          match (if hasInstall then SomeSpec(ParseSpec(d.installName, root, path + ["install"], d.parseStep)) else Ok(None))
          case Err(e) => Err(e)
          case Ok(install) =>
            match Contains(region, "config")
            case Err(e) => Err(e)
            case Ok(hasConfig) =>
              match (if hasConfig then SomeSpec(ParseSpec(d.configName, root, path + ["config"], d.parseStep)) else Ok(None))
              case Err(e) => Err(e)
              case Ok(config) => Ok(Recipe(install, config)))
  }

  /** At a dict, a recipe has an install part exactly when the dict has the key
      `install`, and a config part exactly when it has `config`; each part is the
      spec parsed at the sub-path, and the recipe fails only when a present part does. */
  lemma ParseRecipeMeaning<S>(d: Dialect<S>, root: Value, path: seq<string>, m: map<string, Value>)
    requires Follow(root, path) == Some(VMap(m))
    ensures ParseRecipe(d, root, path).Ok? <==>
      && ("install" in m ==> ParseSpec(d.installName, root, path + ["install"], d.parseStep).Ok?)
      && ("config" in m ==> ParseSpec(d.configName, root, path + ["config"], d.parseStep).Ok?)
    ensures ParseRecipe(d, root, path).Ok? ==>
      var recipe := ParseRecipe(d, root, path).value;
      && (recipe.install.Some? <==> "install" in m)
      && (recipe.config.Some? <==> "config" in m)
      && (recipe.install.Some? ==> Ok(recipe.install.value) == ParseSpec(d.installName, root, path + ["install"], d.parseStep))
      && (recipe.config.Some? ==> Ok(recipe.config.value) == ParseSpec(d.configName, root, path + ["config"], d.parseStep))
  {
    CheckMapRegion(root, path, [], m);
  }

  /** A failing install part fails the recipe, under the `Recipe` frame, before the
      config part is looked at. */
  lemma ParseRecipeInstallFails<S>(d: Dialect<S>, root: Value, path: seq<string>, m: map<string, Value>)
    requires Follow(root, path) == Some(VMap(m))
    requires "install" in m && ParseSpec(d.installName, root, path + ["install"], d.parseStep).Err?
    ensures ParseRecipe(d, root, path) ==
      Construct("Recipe", Err(ParseSpec(d.installName, root, path + ["install"], d.parseStep).error))
  {
    CheckMapRegion(root, path, [], m);
  }

  /** A recipe whose `install` part fails raises that part's error under the
      `Recipe` frame, so the part's leading lines follow that frame. */
  lemma RecipeInstallFrames<S>(d: Dialect<S>, root: Value, path: seq<string>, m: map<string, Value>, head: seq<Line>)
    requires Follow(root, path) == Some(VMap(m)) && "install" in m
    requires var spec := ParseSpec(d.installName, root, path + ["install"], d.parseStep);
      spec.Err? && |spec.error.args| > 0 && |head| <= |Frames(spec.error)| && Frames(spec.error)[..|head|] == head
    ensures var r := ParseRecipe(d, root, path);
      && r.Err? && r.error.kind == ParseSpec(d.installName, root, path + ["install"], d.parseStep).error.kind
      && |Frames(r.error)| >= 1 + |head| && Frames(r.error)[..1 + |head|] == [Text(ConstructingFrame("Recipe"))] + head
  {
    var e := ParseSpec(d.installName, root, path + ["install"], d.parseStep).error;
    ParseRecipeInstallFails(d, root, path, m);
    ConstructKeepsHead<Recipe<S>>("Recipe", e, head);
  }

  // ---------------------------------------------------------------- to_dict

  /** A spec's `to_dict`: `{"steps": [each step's description]}`. */
  function SpecToDict<S>(d: Dialect<S>, spec: Spec<S>): (v: Value)
    ensures v.VMap? && v.m.Keys == {"steps"} && v.m["steps"].VList?
    ensures |v.m["steps"].items| == |spec.steps|
    ensures forall i :: 0 <= i < |spec.steps| ==> v.m["steps"].items[i] == VStr(d.describe(spec.steps[i]))
  {
    VMap(map["steps" := VList(seq(|spec.steps|, i requires 0 <= i < |spec.steps| => VStr(d.describe(spec.steps[i]))))])
  }

  /** `Recipe.to_dict`: the parts that are present, under their keys. */
  function RecipeToDict<S>(d: Dialect<S>, recipe: Recipe<S>): (v: Value)
    ensures v.VMap?
    ensures "install" in v.m <==> recipe.install.Some?
    ensures "config" in v.m <==> recipe.config.Some?
    ensures v.m.Keys <= {"install", "config"}
    ensures recipe.install.Some? ==> v.m["install"] == SpecToDict(d, recipe.install.value)
    ensures recipe.config.Some? ==> v.m["config"] == SpecToDict(d, recipe.config.value)
  {
    var withInstall := if recipe.install.Some? then map["install" := SpecToDict(d, recipe.install.value)] else map[];
    VMap(if recipe.config.Some? then withInstall["config" := SpecToDict(d, recipe.config.value)] else withInstall)
  }

  /** An empty recipe serialises to `{}`. */
  lemma EmptyRecipeToDict<S>(d: Dialect<S>)
    ensures RecipeToDict(d, Recipe(None, None)) == VMap(map[])
  {
  }

  // ---------------------------------------------------------------- the Recipes singleton

  /** The `Recipes` singleton: its `recipes` dict and its `_initialized` flag. */
  class Registry<S> {
    var initialized: bool
    var recipes: map<string, Recipe<S>>

    constructor()
      ensures !initialized && recipes == map[]
    {
      initialized := false;
      recipes := map[];
    }

    /** `Recipes.ready`. */
    function Ready(): (r: bool)
      reads this
      ensures r <==> initialized
    {
      initialized
    }

    /** `Recipes.ok(item)`. */
    function OkItem<T>(item: Option<T>): (r: Result<T>)
      reads this
      ensures r.Ok? <==> Ready() && item.Some?
      ensures r.Ok? ==> r.value == item.value
      ensures r.Err? ==> r.error.kind == ValueError
    {
      SingletonOk("Recipes", initialized, item)
    }

    /** `Recipes.to_dict()`: the same keys, each recipe serialised. */
    function ToDict(d: Dialect<S>): (v: Value)
      reads this
      ensures v.VMap? && v.m.Keys == recipes.Keys
      ensures forall k :: k in recipes ==> v.m[k] == RecipeToDict(d, recipes[k])
    {
      VMap(map k | k in recipes :: RecipeToDict(d, recipes[k]))
    }

    /** `Recipes.init(document, path)`: the check (no required keys), then one recipe
        per key of the region, each parsed from the region at path `[k]`; the table
        and the flag change only when every recipe parses. Keys are visited in some
        order (the document's order is not modelled), so the error reported is that
        of some failing recipe. */
    method Init(root: Value, path: seq<string>, d: Dialect<S>) returns (r: Result<()>)
      modifies this
      ensures r.Ok? ==> Ready()
      ensures r.Err? ==> Ready() == old(Ready())
      ensures r.Ok? <==>
        && Check(root, path, []).Ok? && Check(root, path, []).value.VMap?
        && forall k :: k in Check(root, path, []).value.m ==> ParseRecipe(d, Check(root, path, []).value, [k]).Ok?
      ensures r.Ok? ==>
        && initialized
        && recipes.Keys == Check(root, path, []).value.m.Keys
        && forall k :: k in recipes ==> Ok(recipes[k]) == ParseRecipe(d, Check(root, path, []).value, [k])
      ensures r.Err? ==> initialized == old(initialized) && recipes == old(recipes)
      ensures r.Err? ==>
        && |r.error.args| == 1 && r.error.args[0].AList? && |r.error.args[0].lines| > 0
        && r.error.args[0].lines[0] == Text(UpdatingFrame("Recipes"))
      ensures r.Err? && Check(root, path, []).Err? ==>
        r.error == Reraise(UpdatingFrame("Recipes"), Check(root, path, []).error)
      ensures r.Err? && Check(root, path, []).Ok? && Check(root, path, []).value.VMap? ==>
        exists k :: k in Check(root, path, []).value.m && ParseRecipe(d, Check(root, path, []).value, [k]).Err? &&
          r.error == Reraise(UpdatingFrame("Recipes"), ParseRecipe(d, Check(root, path, []).value, [k]).error)
    {
      var checked := CheckDict(root, path, []);
      if checked.Err? {
        return Err(Reraise(UpdatingFrame("Recipes"), checked.error));
      }
      var region := checked.value;
      if !region.VMap? {
        return Err(Reraise(UpdatingFrame("Recipes"),
          Error(AttributeError, [AStr("'" + TypeName(region) + "' object has no attribute 'keys'")])));
      }
      var built: map<string, Recipe<S>> := map[];
      var todo := region.m.Keys;
      while todo != {}
        invariant todo <= region.m.Keys
        invariant built.Keys == region.m.Keys - todo
        invariant forall k :: k in built ==> Ok(built[k]) == ParseRecipe(d, region, [k])
        decreases |todo|
      {
        var k :| k in todo;
        var recipe := ParseRecipe(d, region, [k]);
        if recipe.Err? {
          return Err(Reraise(UpdatingFrame("Recipes"), recipe.error));
        }
        built := built[k := recipe.value];
        todo := todo - {k};
      }
      recipes := built;
      initialized := true;
      return Ok(());
    }
  }
}
