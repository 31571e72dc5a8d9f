/** `parse_package`: the package named on the command line is expanded through the
    settings' bundles, every resulting package must have a recipe, and only then
    is the selection stored in `Context.packages`; all of it inside the
    "Parsing packages" section. */
module Parsing {
  import opened Documents
  import opened Runtime
  import opened Logging
  import opened RecipeTree
  import opened Steps
  import Settings

  const SectionName: string := "Parsing packages"

  /** A bundle stands for its packages, in their stored order; any other name for
      itself. The bundle table is consulted first. */
  function Expansion(bundles: map<string, seq<string>>, package: string): seq<string> {
    if package in bundles then bundles[package] else [package]
  }

  /** The first package, in order, that has no recipe. */
  function FirstMissing(packages: seq<string>, known: set<string>): Option<string>
    decreases |packages|
  {
    if |packages| == 0 then None
    else if packages[0] !in known then Some(packages[0])
    else FirstMissing(packages[1..], known)
  }

  /** Nothing is missing exactly when every package has a recipe; what is reported
      missing is a package without one, and every package before it has one. */
  lemma {:induction false} FirstMissingMeaning(packages: seq<string>, known: set<string>)
    ensures FirstMissing(packages, known).None? <==> forall i :: 0 <= i < |packages| ==> packages[i] in known
    ensures FirstMissing(packages, known).Some? ==>
      exists i ::
        && 0 <= i < |packages| && packages[i] == FirstMissing(packages, known).value
        && packages[i] !in known
        && (forall j :: 0 <= j < i ==> packages[j] in known)
    decreases |packages|
  {
    if |packages| > 0 && packages[0] in known {
      var rest := packages[1..];
      FirstMissingMeaning(rest, known);
      assert forall i :: 1 <= i < |packages| ==> packages[i] == rest[i - 1];
      if FirstMissing(rest, known).Some? {
        var i :| 0 <= i < |rest| && rest[i] == FirstMissing(rest, known).value && rest[i] !in known
          && (forall j :: 0 <= j < i ==> rest[j] in known);
        assert packages[i + 1] == rest[i];
        assert forall j :: 0 <= j < i + 1 ==> packages[j] in known by {
          forall j | 0 <= j < i + 1 ensures packages[j] in known {
            if j > 0 { assert packages[j] == rest[j - 1]; }
          }
        }
      }
    } else if |packages| > 0 {
      assert packages[0] == FirstMissing(packages, known).value;
    }
  }

  /** The loop `for pk in packages: if pk not in Recipes.recipes: raise`. */
  method FindMissing(packages: seq<string>, known: set<string>) returns (missing: Option<string>)
    ensures missing == FirstMissing(packages, known)
  {
    var i := 0;
    while i < |packages|
      invariant 0 <= i <= |packages|
      invariant FirstMissing(packages, known) == FirstMissing(packages[i..], known)
    {
      assert packages[i..][1..] == packages[i + 1..];
      if packages[i] !in known {
        return Some(packages[i]);
      }
      i := i + 1;
    }
    return None;
  }

  /** The `KeyError` the source raises for a package without a recipe. The string
      is not an f-string, so its braces are printed literally and it is the same
      whichever package is missing. */
  const MissingRecipeAsWritten: Error := Error(KeyError, [AStr("Missing recipe for package {pk}")])

  /** The evidently intended `KeyError`, naming the missing package. */
  function MissingRecipe(pk: string): Error {
    Error(KeyError, [AStr("Missing recipe for package " + pk)])
  }

  /** The intended message determines the missing package: different packages give
      different errors. */
  lemma MissingRecipeNamesPackage(p: string, q: string)
    ensures MissingRecipe(p) == MissingRecipe(q) <==> p == q
  {
    var prefix := "Missing recipe for package ";
    if MissingRecipe(p) == MissingRecipe(q) {
      assert prefix + p == prefix + q;
      assert (prefix + p)[|prefix|..] == p;
      assert (prefix + q)[|prefix|..] == q;
    }
  }

  const NoBundles: Error := Error(AttributeError, [AStr("type object 'Settings' has no attribute 'bundles'")])

  /** What the body of `parse_package` computes: the packages to select, or the
      error it raises. `bundles` is `None` while `Settings` has not been
      initialized. */
  function Resolve(bundles: Option<map<string, seq<string>>>, known: set<string>, package: string): Result<seq<string>> {
    match bundles
    case None => Err(NoBundles)
    case Some(table) =>
      var packages := Expansion(table, package);
      match FirstMissing(packages, known)
      case Some(_) => Err(MissingRecipeAsWritten)
      case None => Ok(packages)
  }

  /** The selection is all-or-nothing: it succeeds exactly when every package of
      the expansion has a recipe, and it is then the expansion itself; a bundle
      wins over a recipe of the same name; a failure means some package of the
      expansion has no recipe, and its message is the literal one. */
  lemma ResolveMeaning(bundles: Option<map<string, seq<string>>>, known: set<string>, package: string)
    ensures Resolve(bundles, known, package).Ok? <==>
      bundles.Some? && forall i :: 0 <= i < |Expansion(bundles.value, package)| ==> Expansion(bundles.value, package)[i] in known
    ensures Resolve(bundles, known, package).Ok? ==>
      var packages := Resolve(bundles, known, package).value;
      && (package in bundles.value ==> packages == bundles.value[package])
      && (package !in bundles.value ==> packages == [package])
      && forall i :: 0 <= i < |packages| ==> packages[i] in known
    ensures bundles.None? ==> Resolve(bundles, known, package) == Err(NoBundles)
    ensures bundles.Some? && Resolve(bundles, known, package).Err? ==>
      && Resolve(bundles, known, package).error == MissingRecipeAsWritten
      && exists pk :: pk in Expansion(bundles.value, package) && pk !in known
  {
    if bundles.Some? {
      FirstMissingMeaning(Expansion(bundles.value, package), known);
    }
  }

  /** A name that is neither a bundle nor a recipe is rejected, with the literal
      message. */
  lemma UnknownPackageRejected(table: map<string, seq<string>>, known: set<string>, package: string)
    requires package !in table && package !in known
    ensures Resolve(Some(table), known, package) == Err(MissingRecipeAsWritten)
  {
  }

  /** As written, two different unknown packages are rejected with the very same
      error, so the message cannot tell which package lacks a recipe. */
  lemma ResolveHidesPackage(table: map<string, seq<string>>, known: set<string>, p: string, q: string)
    requires p != q && p !in table && p !in known && q !in table && q !in known
    ensures Resolve(Some(table), known, p).Err? && Resolve(Some(table), known, q).Err?
    ensures Resolve(Some(table), known, p) == Resolve(Some(table), known, q)
  {
  }

  /** `parse_package` with the message it evidently intends: an f-string naming the
      first package without a recipe. */
  function ResolveIntended(bundles: Option<map<string, seq<string>>>, known: set<string>, package: string): Result<seq<string>> {
    match bundles
    case None => Err(NoBundles)
    case Some(table) =>
      var packages := Expansion(table, package);
      match FirstMissing(packages, known)
      case Some(pk) => Err(MissingRecipe(pk))
      case None => Ok(packages)
  }

  /** The intended version differs from the code as written only in the message:
      the same inputs succeed with the same selection, and a failure names a
      package of the expansion that has no recipe, all earlier ones having one. */
  lemma ResolveIntendedMeaning(bundles: Option<map<string, seq<string>>>, known: set<string>, package: string)
    ensures ResolveIntended(bundles, known, package).Ok? <==> Resolve(bundles, known, package).Ok?
    ensures ResolveIntended(bundles, known, package).Ok? ==>
      ResolveIntended(bundles, known, package).value == Resolve(bundles, known, package).value
    ensures bundles.None? ==> ResolveIntended(bundles, known, package) == Err(NoBundles)
    ensures bundles.Some? && ResolveIntended(bundles, known, package).Err? ==>
      var packages := Expansion(bundles.value, package);
      exists i ::
        && 0 <= i < |packages| && packages[i] !in known
        && (forall j :: 0 <= j < i ==> packages[j] in known)
        && ResolveIntended(bundles, known, package).error == MissingRecipe(packages[i])
  {
    if bundles.Some? {
      FirstMissingMeaning(Expansion(bundles.value, package), known);
    }
  }

  /** With the intended message, two different unknown packages are told apart. */
  lemma ResolveIntendedNamesPackage(table: map<string, seq<string>>, known: set<string>, p: string, q: string)
    requires p != q && p !in table && p !in known && q !in table && q !in known
    ensures ResolveIntended(Some(table), known, p) == Err(MissingRecipe(p))
    ensures ResolveIntended(Some(table), known, p) != ResolveIntended(Some(table), known, q)
  {
    MissingRecipeNamesPackage(p, q);
  }

  /** `Ok(())` for a value, the error for an error. */
  function Done<T>(r: Result<T>): Result<()> {
    match r
    case Ok(_) => Ok(())
    case Err(e) => Err(e)
  }

  /** `parse_package(package)` under its `log_section`. */
  method ParsePackage(ctx: Context, settings: Settings.Settings, registry: Registry<Step>, package: string)
    returns (out: Outcome<()>)
    modifies ctx
    ensures var r := Resolve(settings.bundles, registry.recipes.Keys, package);
      && ctx.packages == (if r.Ok? then r.value else old(ctx.packages))
      && ctx.trace == old(ctx.trace) + [SectionStarted(SectionName)] + SectionEnd(SectionName, Done(r)).trace
      && out == SectionEnd(SectionName, Done(r)).outcome
    ensures ctx.runStep == old(ctx.runStep) && ctx.verbose == old(ctx.verbose) && ctx.executed == old(ctx.executed)
  {
    BeginSection(ctx, SectionName);
    var r: Result<()>;
    if settings.bundles.None? {
      r := Err(NoBundles);
    } else {
      var packages := Expansion(settings.bundles.value, package);
      var missing := FindMissing(packages, registry.recipes.Keys);
      if missing.Some? {
        r := Err(MissingRecipeAsWritten);
      } else {
        ctx.packages := packages;
        r := Ok(());
      }
    }
    out := EndSection(ctx, SectionName, r);
  }

  /** A rejected package ends the section: ERROR, the exception, the traceback,
      exit 1. */
  lemma ParsePackageFailureExits(bundles: Option<map<string, seq<string>>>, known: set<string>, package: string)
    requires Resolve(bundles, known, package).Err?
    ensures var e := Resolve(bundles, known, package).error;
      SectionEnd(SectionName, Done(Resolve(bundles, known, package))) ==
        SectionEffect([SectionFailed(SectionName), ErrorPrinted(e), TracebackPrinted], Exited(1))
  {
  }
}
