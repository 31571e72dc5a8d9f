/** `simple_env_setup`'s `Settings` singleton, which holds only the boolean `root`. */
module LegacySettings {
  import opened Documents
  import opened DictObjects

  const SettingsKeys: seq<KeySpec> := [KeySpec("root", BoolType)]

  /** At a dict, the check passes exactly when `root` is a boolean; any other key
      is ignored. */
  lemma CheckSettingsMeaning(root: Value, path: seq<string>, m: map<string, Value>)
    requires Follow(root, path) == Some(VMap(m))
    ensures Check(root, path, SettingsKeys).Ok? <==> "root" in m && m["root"].VBool?
  {
    CheckMapRegion(root, path, SettingsKeys, m);
  }

  class Settings {
    var initialized: bool
    var root: bool

    constructor()
      ensures !initialized && root
    {
      initialized := false;
      root := true;
    }

    /** `Settings.init(document, path)`: `root` is taken from the region; on an error
        nothing changes and the error gets the `Settings` frame. */
    method Init(document: Value, path: seq<string>) returns (r: Result<()>)
      modifies this
      ensures r.Ok? <==> Check(document, path, SettingsKeys).Ok?
      ensures r.Ok? ==>
        var region := Check(document, path, SettingsKeys).value;
        && region.VMap? && "root" in region.m && region.m["root"].VBool?
        && initialized && root == region.m["root"].b
      ensures r.Err? ==>
        && initialized == old(initialized) && root == old(root)
        && r.error == Reraise(UpdatingFrame("Settings"), Check(document, path, SettingsKeys).error)
    {
      var checked := CheckDict(document, path, SettingsKeys);
      if checked.Err? {
        return Err(Reraise(UpdatingFrame("Settings"), checked.error));
      }
      var region := checked.value;
      CheckedKey(document, path, SettingsKeys, 0);
      root := region.m["root"].b;
      initialized := true;
      return Ok(());
    }
  }
}
