/** The schema checker behind every configuration object: walk a path of string
    keys into the document, refuse a list at the end, check each required key
    against its validator, and hand back the region found. Also the frame that a
    failed construction or update prepends to the error, the singleton readiness
    test, and the `listify` / `splitfy` helpers. */
module DictObjects {
  import opened Text
  import opened Documents

  // ---------------------------------------------------------------- key specs

  /** The second half of a key spec: a type tag, one of the validator callables the
      core passes, or `None` (presence only). */
  datatype Validator =
    | StrType          // `str`
    | ListType         // `list`
    | BoolType         // `bool`
    | StringListCheck  // `is_string_list` / `stringy_check`
    | KindCheck        // `lambda x: x in ["shell", "guard", "overwrite", "update"]`
    | BundlesCheck     // `lambda x: all(is_string_list(v) for v in x.values())`
    | NoCheck          // `None`

  datatype KeySpec = KeySpec(key: string, validator: Validator)

  const StepKinds: seq<string> := ["shell", "guard", "overwrite", "update"]

  /** Applies a validator to a value: `isinstance` for a type tag, a call for a
      callable. Only the bundles validator can raise, on a value without `.values()`. */
  function Validate(validator: Validator, v: Value): Result<bool>
    requires validator != NoCheck
  {
    match validator
    case StrType => Ok(v.VStr?)
    case ListType => Ok(v.VList?)
    case BoolType => Ok(v.VBool?)
    case StringListCheck => Ok(IsStringList(v))
    case KindCheck => Ok(v in [VStr("shell"), VStr("guard"), VStr("overwrite"), VStr("update")])
    case BundlesCheck =>
      if v.VMap? then Ok(forall k | k in v.m :: IsStringList(v.m[k]))
      else Err(Error(AttributeError, [AStr("'" + TypeName(v) + "' object has no attribute 'values'")]))
  }

  /** What each validator accepts, stated without evaluating it. */
  lemma ValidateMeaning(validator: Validator, v: Value)
    requires validator != NoCheck
    ensures validator == KindCheck ==> (Validate(validator, v) == Ok(true) <==> v.VStr? && v.s in StepKinds)
    ensures validator == BundlesCheck ==>
      (Validate(validator, v).Ok? <==> v.VMap?) &&
      (Validate(validator, v) == Ok(true) <==> v.VMap? && forall k :: k in v.m ==> IsStringList(v.m[k]))
    ensures validator == StringListCheck ==> (Validate(validator, v) == Ok(true) <==> IsStringList(v))
    ensures validator != BundlesCheck ==> Validate(validator, v).Ok?
  {
  }

  // ---------------------------------------------------------------- the path walk

  /** One step of the walk: a key of a dict is tried first; otherwise a list is
      indexed by the key read as a non-negative integer in range; anything else stops. */
  function Lookup(curr: Value, key: string): Option<Value> {
    if curr.VMap? && key in curr.m then Some(curr.m[key])
    else if curr.VList? && ParseIndex(key) >= 0 && |curr.items| > ParseIndex(key) then
      Some(curr.items[ParseIndex(key)])
    else None
  }

  /** Map lookup comes before list indexing: a numeric key on a dict is a string
      key; a list is only indexed by a digit string naming an index in range; a
      scalar is never entered. */
  lemma LookupCases(curr: Value, key: string)
    ensures curr.VMap? ==> Lookup(curr, key) == (if key in curr.m then Some(curr.m[key]) else None)
    ensures curr.VList? ==>
      (Lookup(curr, key).Some? <==> |key| > 0 && AllDigits(key) && DigitsValue(key) < |curr.items|)
    ensures !curr.VMap? && !curr.VList? ==> Lookup(curr, key) == None
  {
    ParseIndexDigits(key);
  }

  /** `str(i)` indexes element `i` of a list. */
  lemma LookupIndex(items: seq<Value>, i: nat)
    requires i < |items|
    ensures Lookup(VList(items), NatToString(i)) == Some(items[i])
  {
    ParseIndexOfNat(i);
  }

  /** Where a walk ends: at a region, or at the first key (its index and the value
      it was looked up in) that could not be followed. */
  datatype Located = Found(region: Value) | Missing(index: nat, at: Value)

  /** The walk over a whole path, as the loop performs it: the last key is taken
      from wherever the walk of the path without it arrived. */
  function Locate(root: Value, path: seq<string>): (r: Located)
    ensures r.Missing? ==> r.index < |path|
    decreases |path|
  {
    if |path| == 0 then Found(root)
    else
      match Locate(root, path[..|path| - 1])
      case Missing(i, at) => Missing(i, at)
      case Found(v) =>
        match Lookup(v, path[|path| - 1])
        case Some(w) => Found(w)
        case None => Missing(|path| - 1, v)
  }

  /** Successive lookups, first key first: the reference meaning of a path. */
  function Follow(v: Value, path: seq<string>): Option<Value>
    decreases |path|
  {
    if |path| == 0 then Some(v)
    else
      match Lookup(v, path[0])
      case None => None
      case Some(w) => Follow(w, path[1..])
  }

  lemma {:induction false} FollowSnoc(v: Value, path: seq<string>, key: string)
    ensures Follow(v, path + [key]) ==
      (match Follow(v, path) case None => None case Some(w) => Lookup(w, key))
    decreases |path|
  {
    if |path| == 0 {
      assert ([] + [key])[1..] == [];
    } else {
      assert (path + [key])[0] == path[0];
      assert (path + [key])[1..] == path[1..] + [key];
      match Lookup(v, path[0]) {
        case None =>
        case Some(w) => FollowSnoc(w, path[1..], key);
      }
    }
  }

  /** A path resolves exactly when successive lookups succeed, and it yields the
      value they reach. */
  lemma {:induction false} LocateFollow(root: Value, path: seq<string>)
    ensures Locate(root, path).Found? <==> Follow(root, path).Some?
    ensures Locate(root, path).Found? ==> Follow(root, path) == Some(Locate(root, path).region)
    decreases |path|
  {
    if |path| > 0 {
      var init := path[..|path| - 1];
      LocateFollow(root, init);
      assert path == init + [path[|path| - 1]];
      FollowSnoc(root, init, path[|path| - 1]);
    }
  }

  /** Once a prefix of the path fails, so does the path, at the same key. */
  lemma {:induction false} LocateExtend(root: Value, path: seq<string>, j: nat)
    requires j <= |path| && Locate(root, path[..j]).Missing?
    ensures Locate(root, path) == Locate(root, path[..j])
    decreases |path|
  {
    if j < |path| {
      var init := path[..|path| - 1];
      assert init[..j] == path[..j];
      LocateExtend(root, init, j);
    } else {
      assert path[..j] == path;
    }
  }

  /** The walk stops at key `i` exactly when the keys before it resolve to `at` and
      key `i` cannot be looked up in `at`. */
  lemma {:induction false} LocateMissing(root: Value, path: seq<string>, i: nat, at: Value)
    ensures Locate(root, path) == Missing(i, at) <==>
      i < |path| && Locate(root, path[..i]) == Found(at) && Lookup(at, path[i]) == None
    decreases |path|
  {
    if |path| > 0 {
      var init := path[..|path| - 1];
      LocateMissing(root, init, i, at);
      if i < |path| && Locate(root, path[..i]) == Found(at) && Lookup(at, path[i]) == None {
        var p := path[..i + 1];
        assert p[..i] == path[..i];
        assert Locate(root, p) == Missing(i, at);
        LocateExtend(root, path, i + 1);
      }
      if Locate(root, path) == Missing(i, at) && i < |path| - 1 {
        assert init[..i] == path[..i];
        assert init[i] == path[i];
      }
    }
  }

  // ---------------------------------------------------------------- the key checks

  /** The lines every check failure ends with. */
  function ContextLines(region: Value, root: Value): seq<Line> {
    [Text("Current Context:"), Dump(region), Text("Context:"), Dump(root)]
  }

  /** The first line of the `KeyError` for a key missing from the region at `full`. */
  function MissingKeyLine(key: string, full: string): Line {
    Text("Error looking for key " + key + " at path " + full + "...")
  }

  /** One key spec at the located region, as the loop body does it: membership
      (Python `in`), then — for a type or a callable — the item and its test. */
  function CheckKey(root: Value, full: string, region: Value, spec: KeySpec): (r: Option<Error>)
    ensures r.Some? ==> |r.value.args| == 1
  {
    match Contains(region, spec.key)
    case Err(e) => Some(e)
    case Ok(false) => Some(Error(KeyError, [AList([MissingKeyLine(spec.key, full)] + ContextLines(region, root))]))
    case Ok(true) =>
      if spec.validator == NoCheck then None
      else
        match GetItem(region, spec.key)
        case Err(e) => Some(e)
        case Ok(v) =>
          match Validate(spec.validator, v)
          case Err(e) => Some(e)
          case Ok(true) => None
          case Ok(false) =>
            Some(Error(ValueError, [AList([Shown("Invalid value ", v, " at path " + full + " => " + spec.key + "...")]
                                          + ContextLines(region, root))]))
  }

  /** The key specs in order; the first failure is the one raised. */
  function CheckKeys(root: Value, full: string, region: Value, specs: seq<KeySpec>): (r: Option<Error>)
    ensures r.Some? ==> |r.value.args| == 1
    decreases |specs|
  {
    if |specs| == 0 then None
    else
      match CheckKey(root, full, region, specs[0])
      case Some(e) => Some(e)
      case None => CheckKeys(root, full, region, specs[1..])
  }

  /** `check_dict` as a value: the walk, the list test, then the key checks. */
  function Check(root: Value, path: seq<string>, specs: seq<KeySpec>): (r: Result<Value>)
    ensures r.Err? ==> |r.error.args| == 1
  {
    var full := Join(path, " => ");
    match Locate(root, path)
    case Missing(i, at) =>
      Err(Error(KeyError, [AList([Text("Error looking for value at path " + full + "..."),
                                  Text("Stopped at " + Join(path[..i + 1], " => ") + "...")]
                                 + ContextLines(at, root))]))
    case Found(region) =>
      if region.VList? then
        Err(Error(ValueError, [AList([Text("List found at path " + full + "...")] + ContextLines(region, root))]))
      else
        match CheckKeys(root, full, region, specs)
        case Some(e) => Err(e)
        case None => Ok(region)
  }

  /** `check_dict`: a loop down the path, then a loop over the key specs, raising at
      the first failure. */
  method CheckDict(root: Value, path: seq<string>, specs: seq<KeySpec>) returns (r: Result<Value>)
    ensures r == Check(root, path, specs)
  {
    var full := Join(path, " => ");
    var curr := root;
    for i := 0 to |path|
      invariant Locate(root, path[..i]) == Found(curr)
    {
      var key := path[i];
      var keyInt := ParseIndex(key);
      assert path[..i + 1][..i] == path[..i];
      if curr.VMap? && key in curr.m {
        curr := curr.m[key];
      } else if curr.VList? && keyInt >= 0 && |curr.items| > keyInt {
        curr := curr.items[keyInt];
      } else {
        LocateMissing(root, path, i, curr);
        return Err(Error(KeyError, [AList([Text("Error looking for value at path " + full + "..."),
                                           Text("Stopped at " + Join(path[..i + 1], " => ") + "...")]
                                          + ContextLines(curr, root))]));
      }
    }
    assert path[..|path|] == path;
    if curr.VList? {
      return Err(Error(ValueError, [AList([Text("List found at path " + full + "...")] + ContextLines(curr, root))]));
    }
    for j := 0 to |specs|
      invariant CheckKeys(root, full, curr, specs) == CheckKeys(root, full, curr, specs[j..])
    {
      assert specs[j..][1..] == specs[j + 1..];
      var failure := CheckKey(root, full, curr, specs[j]);
      if failure.Some? {
        return Err(failure.value);
      }
    }
    return Ok(curr);
  }

  /** On success the region is the value the path leads to, unmodified, and it is
      not a list. */
  lemma CheckResolves(root: Value, path: seq<string>, specs: seq<KeySpec>)
    requires Check(root, path, specs).Ok?
    ensures Follow(root, path) == Some(Check(root, path, specs).value)
    ensures !Check(root, path, specs).value.VList?
  {
    LocateFollow(root, path);
  }

  /** A path to a list is refused with a `ValueError`, whatever the key specs (so
      also with none); a path to a scalar passes when there is nothing to check. */
  lemma CheckTerminal(root: Value, path: seq<string>, specs: seq<KeySpec>)
    requires Follow(root, path).Some?
    ensures Follow(root, path).value.VList? ==>
      Check(root, path, specs).Err? && Check(root, path, specs).error.kind == ValueError
    ensures !Follow(root, path).value.VList? && specs == [] ==>
      Check(root, path, specs) == Ok(Follow(root, path).value)
  {
    LocateFollow(root, path);
  }

  /** When key `i` is the first that cannot be followed, a `KeyError` is raised whose
      second line names exactly the prefix `path[..i+1]`. */
  lemma CheckStopsAt(root: Value, path: seq<string>, specs: seq<KeySpec>, i: nat)
    requires i < |path| && Follow(root, path[..i]).Some? && Lookup(Follow(root, path[..i]).value, path[i]) == None
    ensures Check(root, path, specs).Err?
    ensures Check(root, path, specs).error.kind == KeyError
    ensures Check(root, path, specs).error.args[0].AList? && |Check(root, path, specs).error.args[0].lines| > 1
    ensures Check(root, path, specs).error.args[0].lines[1] == Text("Stopped at " + Join(path[..i + 1], " => ") + "...")
  {
    LocateFollow(root, path[..i]);
    LocateMissing(root, path, i, Follow(root, path[..i]).value);
  }

  /** Every spec passed on success: the key is in the region, and unless the spec
      is `None` the region is a dict whose value at the key the validator accepts. */
  lemma {:induction false} CheckKeysPassed(root: Value, full: string, region: Value, specs: seq<KeySpec>, i: nat)
    requires CheckKeys(root, full, region, specs) == None && i < |specs|
    ensures Contains(region, specs[i].key) == Ok(true)
    ensures specs[i].validator != NoCheck ==>
      region.VMap? && specs[i].key in region.m && Validate(specs[i].validator, region.m[specs[i].key]) == Ok(true)
    decreases |specs|
  {
    if i > 0 {
      CheckKeysPassed(root, full, region, specs[1..], i - 1);
    }
  }

  lemma CheckedKey(root: Value, path: seq<string>, specs: seq<KeySpec>, i: nat)
    requires Check(root, path, specs).Ok? && i < |specs|
    ensures var region := Check(root, path, specs).value;
      Contains(region, specs[i].key) == Ok(true) &&
      (specs[i].validator != NoCheck ==>
        region.VMap? && specs[i].key in region.m && Validate(specs[i].validator, region.m[specs[i].key]) == Ok(true))
  {
    var region := Check(root, path, specs).value;
    CheckKeysPassed(root, Join(path, " => "), region, specs, i);
  }

  /** The specs are checked in order: the error raised is that of the first failing
      spec, and every spec before it passed. */
  lemma {:induction false} CheckKeysFirstFailure(root: Value, full: string, region: Value, specs: seq<KeySpec>)
    requires CheckKeys(root, full, region, specs).Some?
    ensures exists i ::
      && 0 <= i < |specs|
      && CheckKey(root, full, region, specs[i]) == CheckKeys(root, full, region, specs)
      && (forall j :: 0 <= j < i ==> CheckKey(root, full, region, specs[j]) == None)
    decreases |specs|
  {
    if CheckKey(root, full, region, specs[0]).None? {
      CheckKeysFirstFailure(root, full, region, specs[1..]);
      var i :| 0 <= i < |specs[1..]| && CheckKey(root, full, region, specs[1..][i]) == CheckKeys(root, full, region, specs[1..]) &&
        (forall j :: 0 <= j < i ==> CheckKey(root, full, region, specs[1..][j]) == None);
      assert specs[i + 1] == specs[1..][i];
      forall j | 0 <= j < i + 1 ensures CheckKey(root, full, region, specs[j]) == None {
        if j > 0 { assert specs[j] == specs[1..][j - 1]; }
      }
    } else {
      assert CheckKey(root, full, region, specs[0]) == CheckKeys(root, full, region, specs);
    }
  }

  /** A missing key is a `KeyError`; a present key with no validator passes; a
      rejected value is a `ValueError` (for a dict region). */
  lemma CheckKeyOutcomes(root: Value, full: string, m: map<string, Value>, spec: KeySpec)
    ensures spec.key !in m ==> CheckKey(root, full, VMap(m), spec).Some? && CheckKey(root, full, VMap(m), spec).value.kind == KeyError
    ensures spec.key in m && spec.validator == NoCheck ==> CheckKey(root, full, VMap(m), spec) == None
    ensures spec.key in m && spec.validator != NoCheck && Validate(spec.validator, m[spec.key]) == Ok(false) ==>
      CheckKey(root, full, VMap(m), spec).Some? && CheckKey(root, full, VMap(m), spec).value.kind == ValueError
    ensures spec.key in m && spec.validator != NoCheck && Validate(spec.validator, m[spec.key]) == Ok(true) ==>
      CheckKey(root, full, VMap(m), spec) == None
  {
  }

  /** Every spec holds of a dict region: the key is present and, unless the spec is
      `None`, the validator accepts its value. */
  predicate Satisfies(m: map<string, Value>, specs: seq<KeySpec>) {
    forall i :: 0 <= i < |specs| ==>
      specs[i].key in m && (specs[i].validator != NoCheck ==> Validate(specs[i].validator, m[specs[i].key]) == Ok(true))
  }

  lemma {:induction false} CheckKeysMap(root: Value, full: string, m: map<string, Value>, specs: seq<KeySpec>)
    ensures CheckKeys(root, full, VMap(m), specs) == None <==> Satisfies(m, specs)
    decreases |specs|
  {
    if |specs| > 0 {
      CheckKeysMap(root, full, m, specs[1..]);
      assert forall i :: 1 <= i < |specs| ==> specs[i] == specs[1..][i - 1];
    }
  }

  /** When the first key spec names a key the dict at the path lacks, the check
      raises `KeyError` with that key and the full path on its first line. */
  lemma CheckMissingFirstKey(root: Value, path: seq<string>, specs: seq<KeySpec>, m: map<string, Value>)
    requires Follow(root, path) == Some(VMap(m)) && |specs| > 0 && specs[0].key !in m
    ensures var c := Check(root, path, specs);
      && c.Err? && c.error.kind == KeyError && c.error.args[0].AList? && |c.error.args[0].lines| > 0
      && c.error.args[0].lines[0] == MissingKeyLine(specs[0].key, Join(path, " => "))
  {
    LocateFollow(root, path);
  }

  /** For a path that leads to a dict, the check passes — handing back that dict —
      exactly when the dict satisfies every spec. */
  lemma CheckMapRegion(root: Value, path: seq<string>, specs: seq<KeySpec>, m: map<string, Value>)
    requires Follow(root, path) == Some(VMap(m))
    ensures Check(root, path, specs) == Ok(VMap(m)) <==> Satisfies(m, specs)
    ensures Check(root, path, specs).Ok? <==> Satisfies(m, specs)
  {
    LocateFollow(root, path);
    CheckKeysMap(root, Join(path, " => "), m, specs);
  }

  // ---------------------------------------------------------------- error frames

  function AsLine(a: Arg): Line {
    match a
    case AStr(s) => Text(s)
    case AInt(n) => Num(n)
    case AList(lines) => Nested(lines)
  }

  /** The message list an error carries: `args[0]` when it is a list, otherwise the
      whole `args` tuple. */
  function Frames(e: Error): seq<Line> {
    if |e.args| > 0 && e.args[0].AList? then e.args[0].lines
    else seq(|e.args|, i requires 0 <= i < |e.args| => AsLine(e.args[i]))
  }

  /** The handler `raise type(e)([frame] + e.args[0])`, or `[frame] + list(e.args)`
      when `args[0]` is not a list; with no args at all, `e.args[0]` itself raises. */
  function Reraise(frame: string, e: Error): (r: Error)
    ensures |r.args| == 1
    ensures |e.args| == 0 ==> r == Error(IndexError, [AStr("tuple index out of range")])
    ensures |e.args| > 0 ==> r.kind == e.kind && r.args[0].AList? && |r.args[0].lines| > 0 && r.args[0].lines[0] == Text(frame)
  {
    if |e.args| == 0 then Error(IndexError, [AStr("tuple index out of range")])
    else Error(e.kind, [AList([Text(frame)] + Frames(e))])
  }

  /** Re-raising keeps the exception class and puts exactly one frame in front of the
      messages it had. */
  lemma ReraiseFrame(frame: string, e: Error)
    requires |e.args| > 0
    ensures Reraise(frame, e).kind == e.kind
    ensures Frames(Reraise(frame, e)) == [Text(frame)] + Frames(e)
  {
  }

  /** Two nested wrappers stack their frames outermost first. */
  lemma ReraiseTwice(outer: string, inner: string, e: Error)
    requires |e.args| > 0
    ensures Reraise(outer, Reraise(inner, e)).kind == e.kind
    ensures Frames(Reraise(outer, Reraise(inner, e))) == [Text(outer), Text(inner)] + Frames(e)
  {
  }

  function ConstructingFrame(name: string): string { "Error constructing " + name + " from dict" }

  function UpdatingFrame(name: string): string { "Error updating " + name + " from dict" }

  /** The handler of `DictObject.from_dict` around its body (the check and the
      class's own `_from_dict`): a result passes through, an error gets the
      class's frame. */
  function Construct<T>(name: string, inner: Result<T>): (r: Result<T>)
    ensures r.Ok? <==> inner.Ok?
    ensures inner.Ok? ==> r == inner
    ensures r.Err? ==> |r.error.args| == 1
    ensures inner.Err? && |inner.error.args| == 0 ==> r.error == Error(IndexError, [AStr("tuple index out of range")])
    ensures inner.Err? && |inner.error.args| > 0 ==>
      r.error.kind == inner.error.kind && r.error.args[0].AList? &&
      Frames(r.error) == [Text(ConstructingFrame(name))] + Frames(inner.error)
  {
    match inner
    case Ok(_) => inner
    case Err(e) => Err(Reraise(ConstructingFrame(name), e))
  }

  // ---------------------------------------------------------------- singletons

  /** Constructing over an error keeps its leading lines behind the new frame. */
  lemma ConstructKeepsHead<T>(name: string, e: Error, head: seq<Line>)
    requires |e.args| > 0 && |head| <= |Frames(e)| && Frames(e)[..|head|] == head
    ensures var r := Construct<T>(name, Err(e));
      && r.Err? && r.error.kind == e.kind && |r.error.args| > 0 && |Frames(r.error)| >= 1 + |head|
      && Frames(r.error)[..1 + |head|] == [Text(ConstructingFrame(name))] + head
  {
    var r := Construct<T>(name, Err(e));
    assert Frames(r.error) == [Text(ConstructingFrame(name))] + Frames(e);
  }

  /** `DictSingleton.ok(item)`. */
  function SingletonOk<T>(name: string, initialized: bool, item: Option<T>): (r: Result<T>)
    ensures r.Ok? <==> initialized && item.Some?
    ensures r.Ok? ==> r.value == item.value
    ensures r.Err? ==> r.error == Error(ValueError, [AStr("Singleton " + name + " not yet initialized.")])
  {
    if item.None? || !initialized then Err(Error(ValueError, [AStr("Singleton " + name + " not yet initialized.")]))
    else Ok(item.value)
  }

  // ---------------------------------------------------------------- listify / splitfy

  /** A `str | Iterable[str]` argument. */
  datatype Strings = One(s: string) | Many(items: seq<string>)

  /** `listify`: a lone string becomes a one-element list, a list is kept. */
  function Listify(stuff: Strings): (r: seq<string>)
    ensures stuff.One? ==> r == [stuff.s]
    ensures stuff.Many? ==> r == stuff.items
  {
    match stuff
    case One(s) => [s]
    case Many(items) => items
  }

  /** `splitfy`: a lone string is split on the delimiter (an empty delimiter raises),
      a list is kept. */
  function Splitfy(stuff: Strings, delimiter: string): Result<seq<string>> {
    match stuff
    case Many(items) => Ok(items)
    case One(s) =>
      if |delimiter| == 0 then Err(Error(ValueError, [AStr("empty separator")]))
      else Ok(Split(s, delimiter))
  }

  /** The pieces of a split string join back to it and none holds the delimiter;
      only an empty delimiter fails. */
  lemma SplitfyRoundTrip(stuff: Strings, delimiter: string)
    ensures Splitfy(stuff, delimiter).Err? <==> stuff.One? && delimiter == ""
    ensures stuff.Many? ==> Splitfy(stuff, delimiter) == Ok(stuff.items)
    ensures stuff.One? && delimiter != "" ==>
      var pieces := Splitfy(stuff, delimiter).value;
      |pieces| > 0 && Join(pieces, delimiter) == stuff.s &&
      forall p :: p in pieces ==> !Occurs(delimiter, p)
  {
    if stuff.One? && delimiter != "" {
      JoinSplit(stuff.s, delimiter);
      SplitPiecesFree(stuff.s, delimiter);
    }
  }
  /** `listify` and `splitfy` agree exactly on lists and on strings that do not
      contain the delimiter: `listify` never splits. */
  lemma ListifySplitfy(stuff: Strings, delimiter: string)
    ensures Splitfy(stuff, delimiter) == Ok(Listify(stuff)) <==>
      stuff.Many? || (delimiter != "" && !Occurs(delimiter, stuff.s))
  {
    if stuff.One? && delimiter != "" {
      SplitAbsent(stuff.s, delimiter);
    }
  }
}
