/** `setitup`'s `Settings` singleton: a boolean `root` and a `bundles` table naming,
    for each bundle, the packages it stands for. */
module Settings {
  import opened Text
  import opened Documents
  import opened DictObjects

  const SettingsKeys: seq<KeySpec> := [KeySpec("root", BoolType), KeySpec("bundles", BundlesCheck)]

  /** The bundle table a validated `bundles` dict denotes. */
  function BundleTable(v: Value): (t: map<string, seq<string>>)
    requires v.VMap? && forall k :: k in v.m ==> IsStringList(v.m[k])
    ensures t.Keys == v.m.Keys
    ensures forall k :: k in v.m ==> FromStrings(t[k]) == v.m[k]
  {
    forall k | k in v.m ensures FromStrings(StringsOf(v.m[k])) == v.m[k] {
      StringListExactly(v.m[k]);
    }
    map k | k in v.m :: StringsOf(v.m[k])
  }

  /** What a settings dict must hold: a boolean `root` and a dict of string lists
      under `bundles`; any other key is ignored. */
  predicate Acceptable(m: map<string, Value>) {
    && "root" in m && m["root"].VBool?
    && "bundles" in m && m["bundles"].VMap?
    && forall k :: k in m["bundles"].m ==> IsStringList(m["bundles"].m[k])
  }

  /** At a dict, the check passes exactly when the dict is acceptable; a `bundles`
      that is not a dict makes the validator itself raise `AttributeError`. */
  lemma CheckSettingsMeaning(root: Value, path: seq<string>, m: map<string, Value>)
    requires Follow(root, path) == Some(VMap(m))
    ensures Check(root, path, SettingsKeys).Ok? <==> Acceptable(m)
    ensures "root" in m && m["root"].VBool? && "bundles" in m && !m["bundles"].VMap? ==>
      Check(root, path, SettingsKeys).error.kind == AttributeError
  {
    CheckMapRegion(root, path, SettingsKeys, m);
    if "root" in m && m["root"].VBool? && "bundles" in m && !m["bundles"].VMap? {
      LocateFollow(root, path);
      var full := Join(path, " => ");
      assert CheckKey(root, full, VMap(m), SettingsKeys[0]).None?;
      assert CheckKeys(root, full, VMap(m), SettingsKeys) == CheckKey(root, full, VMap(m), SettingsKeys[1]);
    }
  }

  class Settings {
    var initialized: bool
    var root: bool
    /** `None` while the class attribute is only annotated, not assigned. */
    var bundles: Option<map<string, seq<string>>>

    /** The class attributes before `init`: `root` defaults to true, `bundles` has
        no value. */
    constructor()
      ensures !initialized && root && bundles == None
    {
      initialized := false;
      root := true;
      bundles := None;
    }

    /** `Settings.ready`. */
    function Ready(): (r: bool)
      reads this
      ensures r <==> initialized
    {
      initialized
    }

    /** `Settings.ok(item)`. */
    function OkItem<T>(item: Option<T>): (r: Result<T>)
      reads this
      ensures r.Ok? <==> Ready() && item.Some?
      ensures r.Ok? ==> r.value == item.value
      ensures r.Err? ==> r.error.kind == ValueError
    {
      SingletonOk("Settings", initialized, item)
    }

    /** `Settings.init(document, path)`: the check, then `root` and `bundles` are
        taken from the region and the singleton is marked initialized; on an error
        nothing changes and the error gets the `Settings` frame. */
    method Init(document: Value, path: seq<string>) returns (r: Result<()>)
      modifies this
      ensures r.Ok? ==> Ready()
      ensures r.Err? ==> Ready() == old(Ready())
      ensures r.Ok? <==> Check(document, path, SettingsKeys).Ok?
      ensures r.Ok? ==>
        var region := Check(document, path, SettingsKeys).value;
        && region.VMap? && Acceptable(region.m)
        && initialized && root == region.m["root"].b && bundles == Some(BundleTable(region.m["bundles"]))
      ensures r.Err? ==>
        && initialized == old(initialized) && root == old(root) && bundles == old(bundles)
        && r.error == Reraise(UpdatingFrame("Settings"), Check(document, path, SettingsKeys).error)
    {
      var checked := CheckDict(document, path, SettingsKeys);
      if checked.Err? {
        return Err(Reraise(UpdatingFrame("Settings"), checked.error));
      }
      var region := checked.value;
      CheckedKey(document, path, SettingsKeys, 0);
      CheckedKey(document, path, SettingsKeys, 1);
      root := region.m["root"].b;
      bundles := Some(BundleTable(region.m["bundles"]));
      initialized := true;
      return Ok(());
    }
  }
}
