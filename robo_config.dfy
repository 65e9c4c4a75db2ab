/**
 * Robo's process-wide configuration (`Robo::Config()`) and the two YAML
 * layers the commands keep it in: roboConfDrupalEnv.yml, shared with the
 * team, and roboConfDrupalEnv.local.yml, for this machine only. The YAML
 * files are held decoded; `options` is the key under which Robo keeps the
 * command line's runtime options, which must never be written to a layer.
 */
module RoboConfig {
  import opened Results
  import opened Json

  const MainFile := "roboConfDrupalEnv.yml"
  const LocalFile := "roboConfDrupalEnv.local.yml"
  const OptionsKey := "options"

  /** The layer `switchConfig($local)` selects. */
  function ConfigFile(local: bool): string {
    if local then LocalFile else MainFile
  }

  /** `unset($config['options'])` on an exported configuration; nothing else is touched. */
  function StripOptions(j: Json): (r: Json)
    ensures Get(r, [OptionsKey]) == None
    ensures forall q :: |q| > 0 && q[0] != OptionsKey ==> Get(r, q) == Get(j, q)
  {
    if j.Obj? then Obj(j.fields - {OptionsKey}) else j
  }

  /** The content of a layer file; a file that does not exist contributes nothing. */
  function Layer(files: map<string, Json>, name: string): Json {
    if name in files then files[name] else Obj(map[])
  }

  /**
   * `Robo::loadConfiguration([$file])`: the configuration becomes what the
   * file holds, while the runtime options of the running command stay.
   */
  function Reload(active: Json, contents: Json): (r: Json)
    ensures Get(r, [OptionsKey]) == Get(active, [OptionsKey])
    ensures forall q :: |q| > 0 && q[0] != OptionsKey ==> Get(r, q) == Get(contents, q)
  {
    match Get(active, [OptionsKey])
    case Some(o) =>
      var r := Set(StripOptions(contents), [OptionsKey], o);
      GetSet(StripOptions(contents), [OptionsKey], o);
      forall q | |q| > 0 && q[0] != OptionsKey
        ensures Get(r, q) == Get(contents, q)
      {
        GetSetOther(StripOptions(contents), [OptionsKey], q, o);
      }
      r
    case None => StripOptions(contents)
  }

  /** `Robo::config()->get($key, $default)`: the stored value, or the default for a missing key. */
  function Lookup(active: Json, key: Path, default: Json): (v: Json)
    ensures Get(active, key).Some? ==> v == Get(active, key).value
    ensures Get(active, key).None? ==> v == default
  {
    match Get(active, key)
    case Some(x) => x
    case None => default
  }

  class Config {
    /** `Robo::Config()`, as `export()` would show it. */
    var active: Json
    /** The layer files on disk. */
    var files: map<string, Json>

    constructor (active: Json, files: map<string, Json>)
      ensures this.active == active && this.files == files
    {
      this.active := active;
      this.files := files;
    }

    /** `switchConfig($local)`: load the selected layer and name its file. */
    method SwitchConfig(local: bool) returns (file: string)
      modifies this
      ensures file == ConfigFile(local)
      ensures active == Reload(old(active), Layer(old(files), file))
      ensures files == old(files)
    {
      if local {
        file := LocalFile;
      } else {
        file := MainFile;
      }
      active := Reload(active, Layer(files, file));
    }

    /**
     * `saveConfig($key, $value, $local)` of the shared trait: the selected
     * layer is loaded, the key is set, and the whole configuration without
     * its runtime options is written back to that layer. `writable` is
     * whether `file_put_contents` succeeds.
     */
    method SaveConfig(key: Path, value: Json, local: bool, writable: bool) returns (ok: bool)
      modifies this
      ensures active == Set(Reload(old(active), Layer(old(files), ConfigFile(local))), key, value)
      ensures ok == writable
      ensures files == if writable then old(files)[ConfigFile(local) := StripOptions(active)] else old(files)
    {
      var file := SwitchConfig(local);
      active := Set(active, key, value);
      if writable {
        files := files[file := StripOptions(active)];
      }
      ok := writable;
    }

    /** `getConfig($key, $default, $local)` of the shared trait: the selected layer is loaded and read. */
    method GetConfig(key: Path, default: Json, local: bool) returns (v: Json)
      modifies this
      ensures active == Reload(old(active), Layer(old(files), ConfigFile(local)))
      ensures files == old(files)
      ensures v == Lookup(active, key, default)
    {
      var file := SwitchConfig(local);
      v := Lookup(active, key, default);
    }

    /** `saveConfig()` of CommonCommands: the configuration as it is, without options, to roboConfDrupalEnv.yml. */
    method SaveShared(writable: bool) returns (ok: bool)
      modifies this
      ensures active == old(active)
      ensures ok == writable
      ensures files == if writable then old(files)[MainFile := StripOptions(active)] else old(files)
    {
      if writable {
        files := files[MainFile := StripOptions(active)];
      }
      ok := writable;
    }
  }

  /** The trait's `saveConfig` followed by its `getConfig` of the same key on the same layer reads the saved value back. */
  lemma SaveThenGet(active: Json, files: map<string, Json>, key: Path, value: Json, local: bool, later: Json, default: Json)
    requires |key| > 0 && key[0] != OptionsKey
    ensures var saved := StripOptions(Set(Reload(active, Layer(files, ConfigFile(local))), key, value));
      Lookup(Reload(later, Layer(files[ConfigFile(local) := saved], ConfigFile(local))), key, default) == value
  {
    var a := Set(Reload(active, Layer(files, ConfigFile(local))), key, value);
    GetSet(Reload(active, Layer(files, ConfigFile(local))), key, value);
    assert Layer(files[ConfigFile(local) := StripOptions(a)], ConfigFile(local)) == StripOptions(a);
  }

  /**
   * Saving one key writes back every other key of the layer as the file held
   * it, whatever the configuration held before the switch.
   */
  lemma SaveKeepsLayer(active: Json, files: map<string, Json>, key: Path, value: Json, local: bool, q: Path)
    requires Diverge(key, q) && q[0] != OptionsKey
    ensures Get(StripOptions(Set(Reload(active, Layer(files, ConfigFile(local))), key, value)), q)
      == Get(Layer(files, ConfigFile(local)), q)
  {
    GetSetOther(Reload(active, Layer(files, ConfigFile(local))), key, q, value);
  }
}
