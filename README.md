# setitup / simple_env_setup core in Dafny

This project models the core of two near-duplicate environment setup tools, `setitup` and its older copy `simple_env_setup`. Each tool reads TOML recipes and settings into a nested document, checks that document against key specifications along a path, and builds a tree from it: recipes made of install and config step lists, with steps of kind shell, guard, overwrite or update. It then runs the steps under a shared gate, `Context.run_step`, logging every step and section.

The model covers these parts:

- **Documents** (`documents.dfy`): an untyped document value, made of dicts, lists, strings, booleans and integers. Python's `in` and `[]` on such values. Errors that carry a Python exception kind and an argument list.
- **Text** (`text.dfy`): `" => ".join`, `str(n)` and `int(key)` on decimal digit strings, `str.strip`, replacement of a literal, and `str.split`.
- **Schema checker** (`dict_objects.dfy`): `check_dict` as a method with both of its loops. It is proved equal to a specification function `Check`. The file also holds the re-raise frames of `from_dict` and `init`, the singleton's `ok`, `listify` and `splitfy`.
- **Runtime** (`runtime.dfy`): the process `Context` as a class. It holds the gate, the verbose flag, the selected packages, a trace of everything printed and the list of commands handed to the shell. Guard evaluation, string substitution and the shell are oracles in a `Host` value.
- **Logging** (`logging.dfy`): the `log_step`, `log_section` and `last_words` protocol, as events appended to the trace. It is shared by both packages, whose copies behave identically.
- **Steps** (`steps.dfy`, `legacy_recipes.dfy`): the two step dialects.
  - `setitup` substitutes strings and evaluates guards at construction.
  - `simple_env_setup` stores strings raw and evaluates guards at run time.
  - Each dialect has its own key specs, dispatch, descriptions and `run`.
- **Recipe tree** (`recipe_tree.dfy`, `recipes.dfy`): `InstallSpec`/`ConfigSpec` (in the older copy `InstallModel`/`ConfigModel`), `Recipe` and the `Recipes` singleton.
  - The tree is generic over the step dialect.
  - `recipes.dfy` instantiates it for `setitup` and works one rejected document through all of its error frames.
- **Settings** (`settings.dfy`, `legacy_settings.dfy`): the two `Settings` singletons as classes, with their key specs and `_init` assignments.
- **Package selection** (`parsing.dfy`): `parse_package`, with bundle expansion, the all-or-nothing recipe check and the assignment to `Context.packages`, inside its log section.
- **Utilities** (`utils.dfy`): `trim_empty` as written, and the behaviour its documentation describes.

Dict iteration order is not modelled, because documents are Dafny maps. Where the source iterates over a dict and raises on the first failure, the model proves that the error raised belongs to one of the failures.

## Model

| member | source | states |
|---|---|---|
| Documents.StringListExactly | setitup/utils/utils.py:47-55 | `is_string_list` holds for `[]`, fails for every non-list, and on a list holds exactly when every element is a string |
| Documents.StringsRoundTrip | simple_env_setup/models/dict_objects.py:7-12 | the strings read back from a string list built from `strs` are `strs` |
| Documents.StringsOf | simple_env_setup/models/dict_objects.py:7-12 | the strings of an accepted list are its elements, in order, with the same length |
| Text.ParseIndexOfNat | simple_env_setup/models/dict_objects.py:38-41 | `int(str(i)) == i` for every index, so the step path `str(i)` addresses list element `i` |
| Text.ParseIndexDigits | simple_env_setup/models/dict_objects.py:38-41 | a key parses to a non-negative index exactly when it is a non-empty digit string; otherwise it becomes `-1` |
| Text.StripShape | setitup/utils/utils.py:38 | `strip` returns the slice of the string left after cutting a whitespace prefix and a whitespace suffix, and that slice has no whitespace at either end |
| Text.JoinSplit | simple_env_setup/models/dict_objects.py:19-20 | joining the pieces of `split(sep)` with `sep` gives the original string |
| Text.SplitPiecesFree | simple_env_setup/models/dict_objects.py:19-20 | no piece of a split contains the separator |
| Text.SplitAbsent | simple_env_setup/models/dict_objects.py:19-20 | `split(sep)` returns the string itself as the only piece exactly when the separator does not occur in it |
| DictObjects.ValidateMeaning | simple_env_setup/models/dict_objects.py:87-100 | the `kind` validator accepts exactly the four step kinds; the bundles validator raises on a non-dict and otherwise accepts exactly dicts of string lists; the string-list validator is `stringy_check` |
| DictObjects.LookupCases | simple_env_setup/models/dict_objects.py:38-48 | a dict is looked up by key first; a list only by a non-negative in-range decimal index; a scalar never resolves |
| DictObjects.LookupIndex | simple_env_setup/models/dict_objects.py:47-48 | the stringified index `i` of a list resolves to element `i` |
| DictObjects.LocateFollow | simple_env_setup/models/dict_objects.py:35-48 | the path loop reaches a region exactly when successive lookups do, and it reaches the same value |
| DictObjects.LocateMissing | simple_env_setup/models/dict_objects.py:49-60 | the loop stops at element `i` exactly when the prefix before `i` resolves and key `path[i]` does not |
| DictObjects.CheckDict | simple_env_setup/models/dict_objects.py:26-102 | the imperative `check_dict`, with its path loop and key loop, returns exactly the specification `Check` |
| DictObjects.CheckResolves | simple_env_setup/models/dict_objects.py:102 | on success the region returned is the value the path reaches, unmodified, and it is not a list |
| DictObjects.CheckTerminal | simple_env_setup/models/dict_objects.py:63-72 | a path ending on a list raises `ValueError` even with no key specs; a non-list terminal with no specs is returned as is |
| DictObjects.CheckStopsAt | simple_env_setup/models/dict_objects.py:49-60 | if element `i` is the first that fails to resolve, `KeyError` is raised and reports the stop prefix `path[:i+1]` |
| DictObjects.CheckKeyOutcomes | simple_env_setup/models/dict_objects.py:76-100 | for a dict region: a missing key raises `KeyError`; a `None` spec needs only presence; a failed type or validator raises `ValueError`; a passed one raises nothing |
| DictObjects.CheckKeysFirstFailure | simple_env_setup/models/dict_objects.py:75-100 | the error raised by the key loop is the one for the first failing spec, and every earlier spec passed |
| DictObjects.CheckKeysPassed | simple_env_setup/models/dict_objects.py:75-100 | when the key loop raises nothing, every spec's key is present and its validator accepted the value |
| DictObjects.CheckedKey | simple_env_setup/models/dict_objects.py:75-102 | after a successful check, every spec's key is in the returned region and its validator holds |
| DictObjects.CheckMissingFirstKey | simple_env_setup/models/dict_objects.py:75-85 | when the first spec's key is absent from the dict the path reaches, the check raises `KeyError` whose first message names that key and the full path |
| DictObjects.CheckKeysMap | simple_env_setup/models/dict_objects.py:75-100 | the key loop on a dict raises nothing exactly when the dict satisfies every spec |
| DictObjects.CheckMapRegion | simple_env_setup/models/dict_objects.py:26-102 | when the path reaches a dict, the check returns that dict exactly when the dict satisfies the specs |
| DictObjects.Reraise | simple_env_setup/models/dict_objects.py:121-127 | the re-raised error keeps the exception type and carries one message list headed by the frame; an exception without arguments makes `e.args[0]` raise `IndexError("tuple index out of range")` instead |
| DictObjects.ReraiseFrame | simple_env_setup/models/dict_objects.py:121-127 | the re-raised message list is exactly the frame followed by the inner message list, whether that list arrived as a list or as plain arguments |
| DictObjects.ReraiseTwice | simple_env_setup/models/dict_objects.py:121-127 | nested constructions stack their frames outermost first, and the type is kept |
| DictObjects.Construct | simple_env_setup/models/dict_objects.py:117-128 | `from_dict` passes a result through unchanged, and prepends exactly one "Error constructing X from dict" frame to an error of the same type; an error without arguments becomes the `IndexError` of `e.args[0]` |
| DictObjects.ConstructKeepsHead | simple_env_setup/models/dict_objects.py:117-128 | constructing over an error keeps its type and keeps its leading messages, now behind the new "Error constructing X from dict" frame |
| DictObjects.SingletonOk | simple_env_setup/models/dict_objects.py:160-164 | `ok(item)` returns the item exactly when the singleton is initialized and the item is not `None`, and otherwise raises `ValueError` naming the class |
| DictObjects.ListifySplitfy | simple_env_setup/models/dict_objects.py:15-20 | `listify` and `splitfy` give the same list exactly for an iterable or for a string without the delimiter: `listify` never splits a lone string |
| DictObjects.SplitfyRoundTrip | simple_env_setup/models/dict_objects.py:19-20 | an iterable is listed unchanged; a string is split into separator-free pieces that join back to it; an empty separator raises |
| Runtime.Context.constructor | setitup/models/context.py:27-32 | the class attributes start with the gate open (`run_step` true), no packages and nothing printed |
| Runtime.AllTrueMeaning | setitup/models/steps.py:86 | `all([test(c) for c in cs])` raises nothing exactly when no test raises, and is true exactly when every test gives true |
| Runtime.AllTrueFirstError | setitup/models/steps.py:86 | an error from the comprehension is the error of the first condition whose test raised |
| Logging.Invoke | setitup/models/steps.py:61-68 | a shell action runs its command once and fails exactly when the close status is set; a gate action sets the gate; a no-op changes nothing; a run-time guard sets the gate to the conjunction, or raises |
| Logging.ArgItems | setitup/utils/logging.py:90-91 | what `for arg in e.args[0]` prints: a list's items, a string's characters, and an error for an integer |
| Logging.StepSkipped | setitup/utils/logging.py:72-77 | with `run_step` false only SKIPPED is printed, `None` is returned and the function is never called |
| Logging.StepStartsThenEnds | setitup/utils/logging.py:78-92 | with `run_step` true, STARTED comes first, followed by SUCCESS exactly when the call succeeds and ERROR exactly when it raises; SKIPPED never appears |
| Logging.StepSucceeds | setitup/utils/logging.py:93-100 | on success the output is returned unchanged, and the output is echoed exactly when the verbose flag is set and the output is not `None` |
| Logging.StepFails | setitup/utils/logging.py:85-92 | on an exception ERROR is printed, then each item of `e.args[0]`, then the process exits with 1; SUCCESS never follows |
| Logging.ShellFailurePrintsCharacters | setitup/models/steps.py:66-67 | a failed shell step's exception has the log string as `args[0]`, so its log is printed one character per line |
| Logging.PrintLines | setitup/utils/logging.py:111-112 | the printing loop appends exactly the printed lines to the trace and changes nothing else |
| Logging.PrintedAllConcat | setitup/utils/logging.py:111-112 | printing two runs of lines in turn prints their concatenation, which is what each loop step relies on |
| Logging.Perform | setitup/utils/logging.py:83-84 | calling the wrapped function changes the gate and the shell history exactly as the action does, and prints nothing |
| Logging.LogStep | simple_env_setup/utils/logging.py:44-80 | the imperative `log_step` wrapper produces exactly the trace, outcome, commands and gate of the step protocol; the gate it uses is the value it was given |
| Logging.StartAndReport | setitup/utils/logging.py:78-100 | a step that runs prints STARTED, calls `f` with the action's effect on the gate and the shell history, then prints and yields exactly what `Conclude` gives for its result |
| Logging.Report | setitup/utils/logging.py:85-100 | after `f` returns or raises, the trace grows by exactly ERROR and the items of `e.args[0]`, or SUCCESS and the echoed output when verbose and not `None`, and the outcome is the matching exit, raise or return; the context is otherwise unchanged |
| Logging.SectionEndMeaning | setitup/utils/logging.py:33-50 | `log_section` returns the function's output; on an exception it prints the section's ERROR line, then each list element of `args[0]` (otherwise the exception), then the traceback, and exits with 1 |
| Logging.BeginSection | simple_env_setup/utils/logging.py:20 | the section header is printed and nothing else changes |
| Logging.EndSection | simple_env_setup/utils/logging.py:21-37 | what follows the header is exactly the section protocol's trace and outcome |
| Logging.LastWords | setitup/utils/logging.py:107-113 | the ERROR header and every log of `listify(logs)` are printed in order, a lone string being printed as one log, and the process exits with 1 |
| Steps.GuardVerdictMeaning | setitup/models/steps.py:81-86 | a guard with no conditions has `run_step` true; otherwise `run_step` is raised-free exactly when every substituted condition evaluates without error, and true exactly when every one is true |
| Steps.ParseShellMeaning | setitup/components/shell_step.py:11-19 | a shell step needs a string `command`, and stores it substituted once |
| Steps.ParseGuardMeaning | setitup/components/guard_step.py:10-17 | a guard needs a string list `conditions`, stores it raw, and fixes its verdict at construction |
| Steps.ParseOverwriteMeaning | setitup/models/steps.py:105-113 | an overwrite step needs string `source` and `target`, and both are substituted |
| Steps.ParseUpdateMeaning | setitup/components/update_step.py:9-19 | an update step also needs string lists `sections` and `markers`; `source`/`target` are substituted, `sections`/`markers` stored raw |
| Steps.UpdateKeysMeaning | setitup/components/update_step.py:9-10 | the update key specs hold of a dict exactly when `source` and `target` are strings and `sections` and `markers` are string lists |
| Steps.ParseStepDispatch | setitup/models/steps.py:26-41 | the `kind` check passes exactly for the four tags; a missing `kind` raises `KeyError` and any other value of `kind` raises `ValueError`; each tag dispatches to its variant at the same path under a `Step` frame |
| Steps.ParseStepNoFallback | setitup/models/steps.py:33-43 | once the kind check passes, the result is one of the four variants' constructions, so the `case _` branch is unreachable |
| Steps.DescribeShape | setitup/models/steps.py:70-71 | the descriptions: "CMD: " followed by the command; "Guards: [" ending in RUN or SKIP by verdict; "Overwrite: "; "Update: "; each prefix identifies its variant |
| Steps.Run | setitup/models/steps.py:73-74 | `run` logs the step under its object name; only a shell step reads `Context.run_step`, at call time |
| Steps.ShellRunGate | setitup/components/shell_step.py:21-34 | a closed gate gives SKIPPED and `None` without running the command; an open gate runs it once, returns the log on a clear status, and never reports SUCCESS on a set status |
| Steps.GuardRunSetsGate | setitup/components/guard_step.py:23-31 | a guard's run is never skipped, runs nothing, and sets the gate to its precomputed verdict |
| Steps.CopyRunIsInert | setitup/components/update_step.py:22-30 | overwrite and update steps always pass gate `True`, run nothing and leave the gate as it was |
| Steps.DotDict.constructor | setitup/models/steps.py:14-17 | a dot dict starts with the given entries |
| Steps.DotDict.Set | setitup/models/steps.py:14-16 | attribute assignment is `__setitem__`: the entry is stored, reading the attribute back gives it unless the name is one of `dict`'s own attributes, which shadow it, and every other attribute reads as before |
| Steps.DotDict.Delete | setitup/models/steps.py:14-17 | attribute deletion removes a present key, after which reading it gives `None` (`dict.get`) unless `dict` shadows the name; a missing key raises `KeyError` naming it and nothing changes; every other attribute reads as before |
| LegacyRecipes.ParseShellMeaning | simple_env_setup/models/recipes.py:42-50 | a shell step needs a string `command`, stored raw |
| LegacyRecipes.ParseGuardMeaning | simple_env_setup/models/recipes.py:69-76 | a guard needs a string list `conditions`, stored raw and not evaluated |
| LegacyRecipes.ParseCopyMeaning | simple_env_setup/models/recipes.py:91-122 | overwrite and update steps need only string `source` and `target`, stored raw |
| LegacyRecipes.ParseStepDispatch | simple_env_setup/models/recipes.py:19-34 | a parsed step has one of the four tags; a missing `kind` raises `KeyError` and any other value raises `ValueError`; each tag dispatches to its variant at the same path, with no fallback |
| LegacyRecipes.DescribeShape | simple_env_setup/models/recipes.py:60-61 | "CMD: " followed by the command; "Guards: " followed by the conditions joined with ", ", with no brackets and no verdict; "Overwrite: "; "Update: " |
| LegacyRecipes.LegacyDialect | simple_env_setup/models/recipes.py:135-162 | the older tree names its parts `InstallModel`/`ConfigModel` and uses the older step parser and descriptions |
| LegacyRecipes.Run | simple_env_setup/models/recipes.py:63-64 | `run` logs the step under its object name; only a shell step reads `Context.run_step` |
| LegacyRecipes.ShellRunGate | simple_env_setup/models/recipes.py:53-64 | a closed gate skips; an open gate runs the command once and returns `None` on a clear status, so there is no output to echo; a set status raises |
| LegacyRecipes.GuardRunEvaluates | simple_env_setup/models/recipes.py:78-86 | a guard is never skipped and evaluates its conditions when run; no conditions opens the gate; otherwise the gate becomes their conjunction, and an evaluation error leaves it unchanged and ends the step |
| RecipeTree.ParseStepsMeaning | setitup/models/recipes.py:19 | the spec's step list succeeds exactly when every step parses; it has the document list's length and order, and step `i` is parsed at `path + ["steps", str(i)]` |
| RecipeTree.ParseStepsFirstError | setitup/models/recipes.py:19 | a failing step list raises the error of the first step that fails |
| RecipeTree.StepPathResolves | simple_env_setup/models/recipes.py:144 | the path `path + ["steps", str(i)]` reaches exactly element `i` of the steps list |
| RecipeTree.ParseSpecMeaning | setitup/models/recipes.py:10-34 | a spec needs `steps` holding a list, and then holds one parsed step per element, in order |
| RecipeTree.SpecFirstStepFrames | setitup/models/recipes.py:17-19 | a spec whose first step fails raises that step's error type, with the spec's frame in front of the step's leading messages |
| RecipeTree.ParseRecipeMeaning | setitup/models/recipes.py:44-57 | a recipe has no required keys; its install (config) part is present exactly when `install` (`config`) is in the region, and it is that part parsed |
| RecipeTree.ParseRecipeInstallFails | setitup/models/recipes.py:51-57 | a failing install part fails the recipe with the install error re-raised under the `Recipe` frame |
| RecipeTree.RecipeInstallFrames | setitup/models/recipes.py:51-57 | a recipe whose install part fails raises that part's error type, with the `Recipe` frame in front of the part's leading messages |
| RecipeTree.SpecToDict | setitup/models/recipes.py:21-22 | a spec serialises to `{"steps": [...]}` holding each step's description, in order |
| RecipeTree.RecipeToDict | setitup/models/recipes.py:59-68 | a recipe's dict has `install` (`config`) exactly when that part is present, and nothing else |
| RecipeTree.EmptyRecipeToDict | simple_env_setup/models/recipes.py:184-193 | an empty recipe serialises to `{}` |
| RecipeTree.Registry.constructor | setitup/models/recipes.py:71-72 | `Recipes` starts uninitialized with no recipes |
| RecipeTree.Registry.OkItem | simple_env_setup/models/dict_objects.py:160-169 | `Recipes.ok(item)` returns the item exactly when the singleton is `ready` and the item is not `None`, and raises `ValueError` otherwise |
| RecipeTree.Registry.ToDict | setitup/models/recipes.py:79-81 | `Recipes.to_dict` has the recipes' keys, each mapped to that recipe's dict |
| RecipeTree.Registry.Init | setitup/models/recipes.py:74-77 | `init` succeeds exactly when the region is a dict whose every key parses as a recipe at path `[k]`; it then holds one recipe per key and is `ready`; on failure the state, `ready` included, is unchanged and the error is the check's error, or the error of some recipe that fails to parse, under the "Error updating Recipes from dict" frame |
| Recipes.SetitupDialect | setitup/models/recipes.py:10-37 | the `setitup` tree names its parts `InstallSpec`/`ConfigSpec` and uses the `setitup` step parser and descriptions |
| Recipes.MissingCommandCheck | simple_env_setup/models/dict_objects.py:75-85 | at any path reaching a dict without `command`, the shell step's key check raises `KeyError` whose first message names `command` and the full path |
| Recipes.MissingCommandStep | setitup/models/steps.py:30-59 | any shell step without `command` fails with `KeyError` whose messages start with the `Step` frame, the `ShellStep` frame and the check's message |
| Recipes.MissingCommandSpec | setitup/models/recipes.py:17-19 | any install spec whose first step is such a step fails with `KeyError` whose messages start with the `InstallSpec` frame followed by that step's three lines |
| Recipes.MissingCommandFrames | setitup/models/recipes.py:51-57 | any recipe whose first install step is a shell step without `command` raises `KeyError` whose messages start with the Recipe, InstallSpec, Step and ShellStep frames, outermost first, then the check's message for the path `path => install => steps => 0` |
| Settings.BundleTable | setitup/models/settings.py:12 | the stored bundle table has the validated dict's keys, and each entry denotes the same string list |
| Settings.CheckSettingsMeaning | setitup/models/settings.py:14-15 | the settings check passes exactly when `root` is a bool and `bundles` is a dict of string lists (an empty one included); other keys are ignored; a non-dict `bundles` makes the validator raise `AttributeError` |
| Settings.Settings.constructor | setitup/models/settings.py:11-12 | `root` defaults to true; `bundles` has no value; the singleton is uninitialized |
| Settings.Settings.OkItem | simple_env_setup/models/dict_objects.py:160-169 | `ok(item)` returns the item exactly when the singleton is `ready` and the item is not `None`, and raises `ValueError` otherwise |
| Settings.Settings.Init | setitup/models/settings.py:18-20 | `init` succeeds exactly when the check does; `root` and `bundles` then equal the region's values and the singleton is `ready`; on failure nothing changes, `ready` included, and the error gets the "Error updating Settings from dict" frame |
| LegacySettings.CheckSettingsMeaning | simple_env_setup/models/settings.py:12 | the older settings check passes exactly when `root` is present and a bool; no other key is checked |
| LegacySettings.Settings.constructor | simple_env_setup/models/settings.py:10 | `root` defaults to true and the singleton is uninitialized |
| LegacySettings.Settings.Init | simple_env_setup/models/settings.py:15-16 | `init` succeeds exactly when the check does, and `root` then equals the region's value; on failure nothing changes and the error gets the `Settings` frame |
| Parsing.FirstMissingMeaning | setitup/utils/parsing.py:20-22 | the loop finds nothing missing exactly when every package has a recipe; what it reports lacks one, and every earlier package has one |
| Parsing.FindMissing | setitup/utils/parsing.py:20-22 | the imperative loop with its early exit returns exactly the first package without a recipe |
| Parsing.ResolveMeaning | setitup/utils/parsing.py:14-22 | selection succeeds exactly when every package of the expansion has a recipe; the bundle wins over a recipe of the same name; a non-bundle gives `[package]`; without bundles it raises `AttributeError`; otherwise a failure means some package of the expansion has no recipe, and the `KeyError` carries the literal text "Missing recipe for package {pk}" |
| Parsing.UnknownPackageRejected | setitup/utils/parsing.py:16-22 | a name that is neither a bundle nor a recipe is rejected with the literal "Missing recipe for package {pk}" `KeyError` |
| Parsing.ResolveHidesPackage | setitup/utils/parsing.py:22 | as written, two different unknown packages are rejected with the very same error |
| Parsing.MissingRecipeNamesPackage | setitup/utils/parsing.py:22 | the intended f-string message determines the missing package: two packages give the same error exactly when they are equal |
| Parsing.ResolveIntendedMeaning | setitup/utils/parsing.py:14-22 | the intended version accepts the same inputs with the same selection as the code as written, and its failure names the first package of the expansion without a recipe |
| Parsing.ResolveIntendedNamesPackage | setitup/utils/parsing.py:22 | with the intended message, an unknown package is rejected by name, and two different unknown packages give different errors |
| Parsing.ParsePackage | setitup/utils/parsing.py:9-24 | under its section: on success `Context.packages` is the expansion; on failure it is unchanged and the section ends with ERROR, the error as written (the literal "{pk}" message for a missing recipe) and exit 1; the gate and verbose flag never change |
| Parsing.ParsePackageFailureExits | setitup/utils/logging.py:35-49 | a rejected package ends the section with ERROR, the exception, the traceback and exit 1 |
| Utils.Marker | setitup/utils/utils.py:38 | the pattern the regex actually matches starts with a newline and ends with a comma |
| Utils.TrimEmptyMeaning | simple_env_setup/utils/utils.py:18-22 | `max_lines < 1` is the identity; otherwise the result has no whitespace at either end, and content without the literal pattern comes back as exactly `content.strip()` |
| Utils.TrimEmptyReplacesMarker | simple_env_setup/utils/utils.py:20 | the first literal `"\n<max_lines>,"` is replaced by `max_lines` newlines, and so is every later one, before stripping |
| Utils.CollapseBounded | setitup/utils/utils.py:26-36 | the intended collapse leaves no run of more than `max_lines` newlines |
| Utils.CollapseKeeps | setitup/utils/utils.py:26-36 | the intended collapse leaves text that has no long run unchanged |
| Utils.RunsAtMostNoLongRun | setitup/utils/utils.py:26-36 | text with bounded runs contains no `max_lines + 1` consecutive newlines |
| Utils.TrimEmptyIntendedMeaning | setitup/utils/utils.py:26-40 | the intended `trim_empty` is the identity below 1; otherwise it leaves no run of more than `max_lines` newlines, no whitespace at the ends, and good text unchanged |
| Utils.IntendedNoLongRun | setitup/utils/utils.py:26-40 | after the intended collapse and strip, no run of more than `max_lines` newlines is left |
| Utils.IntendedKeepsTrimmed | setitup/utils/utils.py:26-40 | stripped text with no run longer than `max_lines` comes back unchanged |
| Utils.TrimEmptyMissesRuns | setitup/utils/utils.py:38 | as written, three consecutive newlines between two letters survive `trim_empty(_, 2)`, while the intended version collapses them to two |
| Utils.TrimEmptyReplacesLiteral | setitup/utils/utils.py:38 | as written, `trim_empty(_, 2)` turns the literal text `"\n2,"` into two newlines |

## Left out

- Python `eval` of guard conditions, `str.format` substitution (`sub`, `format`) and `os.popen` are oracles in `Runtime.Host`. Their semantics are host-language behaviour.
- File and TOML input are not modelled, and neither are the command-line group and the CLI entry points. This covers `parse_recipes`, `parse_settings`, `read_local_tomls`, `should_exist`, the `HOME` assertions and `erm.py`. The model starts from the parsed document.
- `merge_dicts` is not modelled: it is a thin wrapper over the `flatdict` library, whose merge semantics are not visible.
- `Context` keeps only `run_step`, `verbose` and `packages`. The temporary directory, the captured environment, `force` and the `atexit` clean-up are left out. The trace of printed events and the list of shell commands stand in for the terminal and the shell.
- Colours, bold attributes and the upper-casing of section names are left out, as is the YAML dump `pf` used in messages. A dumped value is modelled as an abstract `Dump` line, the traceback text as a single event, and `exit(1)` as the outcome `Exited(1)`.
- A step's log name is Python's default object repr. It is modelled as `<module.Class object>` without the memory address, which is not determined.
- Path indices follow decimal digit strings only. Python `int()` also accepts signs, surrounding whitespace and underscores, and those forms are not modelled.
- Document values cover dicts, lists, strings, booleans and integers. TOML floats and dates are not part of the model.
- RecipeTree.Registry.Init: dict iteration order is not modelled, so when several recipes fail the contract says only that the error raised belongs to one of them, not to the first in document order.
- Steps.DotDict.Get: the names that shadow entries are those of `dict` and `object` as of Python 3.10 plus the class's own. Later versions add `__getstate__`, which is not listed. What a shadowing attribute evaluates to (a bound method, or `None` for `__hash__`) is not modelled beyond its name.
- The `Step` base class's `run`, which raises `NotImplementedError`, is not modelled, and neither is `to_dict` on the base classes. No concrete step or spec reaches them.
- `setitup/models/steps.py`, `setitup/utils/parsing.py`, `setitup/utils/logging.py`, `setitup/components/shell_step.py`, `setitup/components/guard_step.py`, `setitup/components/checks.py` and `setitup/main.py` import `Context` from `setitup.utils.click`. That module exists but defines no `Context`, so these imports fail as written. The model uses the `Context` fields of `setitup/models/context.py` instead.
- `setitup.models.dict_objects` is not part of this model. The `setitup` classes are modelled on the `simple_env_setup/models/dict_objects.py` version they import under that name.
- The older `Settings` singleton's `ready`/`ok` are the shared `DictObjects.SingletonOk`. They are not given members of their own in `LegacySettings`.
- Settings.Settings.OkItem: the contract states the `ValueError` kind but not its message text. The exact message is stated by `DictObjects.SingletonOk`, which it calls.
- RecipeTree.Registry.OkItem: the contract states the `ValueError` kind but not its message text. The exact message is stated by `DictObjects.SingletonOk`, which it calls.
- `setitup/components/checks.py` (a wrapper over `shutil.which`) and `simple_env_setup/components/simple.py` (which uses undefined names) are not modelled.

## Findings

| source | as written | input that shows it | evidently intended | confidence | as-written member | corrected member |
|---|---|---|---|---|---|---|
| setitup/utils/utils.py:38 (same at simple_env_setup/utils/utils.py:20) | the pattern `f"\n{max_lines,}"` renders the tuple `(max_lines,)`, giving the regex `\n(2,)` whose parentheses are a group, so only the literal text `"\n2,"` (in general `"\n<max_lines>,"`) is replaced | `trim_empty("a\n\n\nb", 2)` keeps all three newlines | runs of more than `max_lines` newlines collapse to `max_lines`, as the docstring says (`"a\n\nb"`) | not executed | Utils.TrimEmptyMissesRuns | Utils.TrimEmptyIntendedMeaning |
| setitup/utils/parsing.py:22 | `KeyError("Missing recipe for package {pk}")` lacks the `f` prefix, so the message never names the package | `parse_package("git")` and `parse_package("zsh")` with no recipes raise the same message | the message names the missing package | not executed | Parsing.ResolveHidesPackage | Parsing.ResolveIntendedNamesPackage |
