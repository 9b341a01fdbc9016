/** The generic configuration manager of `app/core/config_manager.py`:
    configurations keyed by file stem, read from `*.json`, `*.yaml` and
    `*.yml` files, looked up by dotted key paths and reloaded. The files are
    an input: each found file with the value its loader produced, or none
    when the loader raised. */
module CoreConfig {
  import opened Wrappers
  import opened Text
  import opened JsonModel

  /** A file of the configuration directory: `stem` and `suffix` as
      `pathlib` splits its name, and what `json.load` or `yaml.safe_load`
      made of it. */
  datatype ConfigFile = ConfigFile(stem: string, suffix: string, loaded: Option<Json>)

  const Extensions: seq<string> := [".json", ".yaml", ".yml"]

  /** The files of one `glob("*<suffix>")`, in directory order. */
  function WithSuffix(dir: seq<ConfigFile>, suffix: string): (r: seq<ConfigFile>)
    ensures forall f :: f in r <==> f in dir && f.suffix == suffix
    ensures |r| <= |dir|
  {
    if |dir| == 0 then []
    else (if dir[0].suffix == suffix then [dir[0]] else []) + WithSuffix(dir[1..], suffix)
  }

  /** The file list `_load_all_configs` walks: the JSON files, then the YAML
      files, then the YML files. */
  function Globbed(dir: seq<ConfigFile>): (r: seq<ConfigFile>)
    ensures forall f :: f in r <==> f in dir && f.suffix in Extensions
  {
    WithSuffix(dir, ".json") + WithSuffix(dir, ".yaml") + WithSuffix(dir, ".yml")
  }

  /** Every JSON file comes before every YAML or YML file. */
  lemma GlobbedJsonFirst(dir: seq<ConfigFile>, i: nat, j: nat)
    requires i < |Globbed(dir)| && j < |Globbed(dir)|
    requires Globbed(dir)[i].suffix == ".json" && Globbed(dir)[j].suffix in {".yaml", ".yml"}
    ensures i < j
  {
  }

  /** One file of the walk: a file that loaded is stored under its stem; one
      whose loader raised is skipped. */
  function AddFile(m: map<string, Json>, f: ConfigFile): (r: map<string, Json>)
    ensures m.Keys <= r.Keys
  {
    if f.loaded.Some? then m[f.stem := f.loaded.value] else m
  }

  /** The map after walking the files in order. */
  function Load(m: map<string, Json>, files: seq<ConfigFile>): (r: map<string, Json>)
    ensures m.Keys <= r.Keys
  {
    if |files| == 0 then m else AddFile(Load(m, files[..|files| - 1]), files[|files| - 1])
  }

  /** Walking one more file is adding it to the map walked so far. */
  lemma LoadStep(m: map<string, Json>, files: seq<ConfigFile>, i: nat)
    requires i < |files|
    ensures Load(m, files[..i + 1]) == AddFile(Load(m, files[..i]), files[i])
  {
    assert files[..i + 1][..i] == files[..i];
  }

  /** The value of the last file with stem `k` that loaded, if any. */
  function LastLoaded(files: seq<ConfigFile>, k: string): (r: Option<Json>)
    ensures r.None? <==> forall i | 0 <= i < |files| :: !(files[i].stem == k && files[i].loaded.Some?)
  {
    if |files| == 0 then None
    else
      var f := files[|files| - 1];
      if f.stem == k && f.loaded.Some? then Some(f.loaded.value)
      else
        var r := LastLoaded(files[..|files| - 1], k);
        assert forall i | 0 <= i < |files| - 1 :: files[..|files| - 1][i] == files[i];
        r
  }

  /** Each stem ends up with the value of its last file that loaded; a stem
      with no such file keeps what it had. */
  lemma {:induction false} LoadIsLastLoaded(m: map<string, Json>, files: seq<ConfigFile>, k: string)
    ensures LastLoaded(files, k).Some? ==> k in Load(m, files) && Load(m, files)[k] == LastLoaded(files, k).value
    ensures LastLoaded(files, k).None? ==> (k in Load(m, files) <==> k in m)
    ensures LastLoaded(files, k).None? && k in m ==> Load(m, files)[k] == m[k]
  {
    if |files| > 0 {
      LoadIsLastLoaded(m, files[..|files| - 1], k);
    }
  }

  /** The first file of the directory with this stem and suffix: what
      `Path.exists()` finds. */
  function FindFile(dir: seq<ConfigFile>, stem: string, suffix: string): (r: Option<ConfigFile>)
    ensures r.None? <==> forall i | 0 <= i < |dir| :: !(dir[i].stem == stem && dir[i].suffix == suffix)
    ensures r.Some? ==> r.value in dir && r.value.stem == stem && r.value.suffix == suffix
  {
    if |dir| == 0 then None
    else if dir[0].stem == stem && dir[0].suffix == suffix then Some(dir[0])
    else
      var r := FindFile(dir[1..], stem, suffix);
      assert forall i | 1 <= i < |dir| :: dir[i] == dir[1..][i - 1];
      r
  }

  /** The file `reload_config` uses: the JSON one if it exists, else the
      YAML one, else the YML one. */
  function ReloadSource(dir: seq<ConfigFile>, appName: string): (r: Option<ConfigFile>)
    ensures r.Some? ==> r.value in dir && r.value.stem == appName && r.value.suffix in Extensions
    ensures FindFile(dir, appName, ".json").Some? ==> r == FindFile(dir, appName, ".json")
    ensures r.None? <==> forall i | 0 <= i < |dir| :: !(dir[i].stem == appName && dir[i].suffix in Extensions)
  {
    if FindFile(dir, appName, ".json").Some? then FindFile(dir, appName, ".json")
    else if FindFile(dir, appName, ".yaml").Some? then FindFile(dir, appName, ".yaml")
    else FindFile(dir, appName, ".yml")
  }

  /** The steps of a dotted key path: `value[key]` succeeds only on a mapping
      holding the key; `None` stands for the `KeyError` or `TypeError`. */
  function Walk(value: Json, keys: seq<string>): (r: Option<Json>)
    ensures |keys| == 0 ==> r == Some(value)
    ensures |keys| > 0 && !(value.JObj? && keys[0] in value.fields) ==> r.None?
  {
    if |keys| == 0 then Some(value)
    else if value.JObj? && keys[0] in value.fields then Walk(value.fields[keys[0]], keys[1..])
    else None
  }

  /** Walking a path in two parts is walking the first part, then the second from there. */
  lemma {:induction false} WalkAppend(value: Json, a: seq<string>, b: seq<string>)
    ensures Walk(value, a + b) == match Walk(value, a) case None => None case Some(w) => Walk(w, b)
  {
    if |a| == 0 {
      assert a + b == b;
    } else {
      assert (a + b)[0] == a[0];
      assert (a + b)[1..] == a[1..] + b;
      if value.JObj? && a[0] in value.fields {
        WalkAppend(value.fields[a[0]], a[1..], b);
      }
    }
  }

  /** One key of a mapping is found exactly when the mapping holds it. */
  lemma WalkOneKey(fields: map<string, Json>, k: string)
    ensures Walk(JObj(fields), [k]) == if k in fields then Some(fields[k]) else None
  {
  }

  /** One entry of `get_app_list_with_info`. */
  datatype AppInfo = AppInfo(name: Json, version: Json, description: Json)

  /** The entry for one configuration, or `None` where Python raises
      `AttributeError`: the configuration, or its `app` entry, is not a mapping. */
  function InfoOf(appName: string, config: Json): (r: Option<AppInfo>)
    ensures r.Some? <==> config.JObj? && ("app" in config.fields ==> config.fields["app"].JObj?)
    ensures r.Some? && "app" !in config.fields ==>
      r.value == AppInfo(JStr(appName), JStr("unknown"), JStr("No description available"))
  {
    if !config.JObj? then None
    else
      var app := Get(config.fields, "app", JObj(map[]));
      if !app.JObj? then None
      else Some(AppInfo(
        Get(app.fields, "name", JStr(appName)),
        Get(app.fields, "version", JStr("unknown")),
        Get(app.fields, "description", JStr("No description available"))))
  }

  /** Stands for the text of the `AttributeError` Python raises. */
  const AttributeErrorText := "object has no attribute 'get'"

  class ConfigManager {
    var configs: map<string, Json>
    /** The insertion order of the keys of `configs`. */
    var names: seq<string>

    ghost predicate Valid()
      reads this
    {
      && (forall k :: k in configs <==> k in names)
      && (forall i, j | 0 <= i < j < |names| :: names[i] != names[j])
    }

    /** `ConfigManager()`: the directory is created if missing, then loaded. */
    constructor (dir: seq<ConfigFile>)
      ensures Valid()
      ensures configs == Load(map[], Globbed(dir))
    {
      configs := map[];
      names := [];
      new;
      LoadAllConfigs(dir);
    }

    /** `self._configs[name] = config`. */
    method Put(name: string, config: Json)
      requires Valid()
      modifies this
      ensures Valid()
      ensures configs == old(configs)[name := config]
      ensures names == InsertionOrder(old(names), name)
    {
      if name !in names {
        forall i, j | 0 <= i < j < |names + [name]| ensures (names + [name])[i] != (names + [name])[j] {
          if j == |names| {
            assert (names + [name])[i] == names[i];
            assert names[i] in names;
          }
        }
      }
      names := InsertionOrder(names, name);
      configs := configs[name := config];
    }

    /** One file of the walk: a file that loaded is stored under its stem. */
    method Store(f: ConfigFile)
      requires Valid()
      modifies this
      ensures Valid()
      ensures configs == AddFile(old(configs), f)
    {
      if f.loaded.Some? {
        Put(f.stem, f.loaded.value);
      }
    }

    /** `_load_all_configs`: every file that loads is stored under its stem,
        JSON files first, then YAML, then YML, so a later one replaces an
        earlier one with the same stem. */
    method LoadAllConfigs(dir: seq<ConfigFile>)
      requires Valid()
      modifies this
      ensures Valid()
      ensures configs == Load(old(configs), Globbed(dir))
    {
      var files := Globbed(dir);
      ghost var start := configs;
      var i := 0;
      while i < |files|
        invariant 0 <= i <= |files|
        invariant Valid()
        invariant configs == Load(start, files[..i])
      {
        LoadStep(start, files, i);
        Store(files[i]);
        i := i + 1;
      }
      assert files[..|files|] == files;
    }

    /** `list_available_apps()`: every configured app exactly once. */
    function ListAvailableApps(): (r: seq<string>)
      reads this
      requires Valid()
      ensures forall k :: k in r <==> k in configs
      ensures forall i, j | 0 <= i < j < |r| :: r[i] != r[j]
    {
      names
    }

    /** `get_config(app_name)`. */
    function GetConfig(appName: string): (r: Option<Json>)
      reads this
      ensures r.Some? <==> appName in configs
      ensures r.Some? ==> r.value == configs[appName]
    {
      if appName in configs then Some(configs[appName]) else None
    }

    /** `config_exists(app_name)`. */
    predicate ConfigExists(appName: string)
      reads this
    {
      appName in configs
    }

    /** `get_config_value`: the value at the dotted path, or `default` when the
        configuration is missing or empty or the path leaves it. */
    method GetConfigValue(appName: string, keyPath: string, default: Json) returns (r: Json)
      requires Valid()
      ensures appName !in configs || !Truthy(configs[appName]) ==> r == default
      ensures appName in configs && Truthy(configs[appName]) ==>
        r == Walk(configs[appName], Split(keyPath, '.')).GetOr(default)
    {
      var config := GetConfig(appName);
      if config.None? || !Truthy(config.value) {
        return default;
      }
      var keys := Split(keyPath, '.');
      var value := config.value;
      var i := 0;
      while i < |keys|
        invariant 0 <= i <= |keys|
        invariant Walk(config.value, keys) == Walk(value, keys[i..])
      {
        if !(value.JObj? && keys[i] in value.fields) {
          return default;
        }
        assert keys[i..][1..] == keys[i + 1..];
        value := value.fields[keys[i]];
        i := i + 1;
      }
      return value;
    }

    /** `reload_config`: the first of `<app>.json`, `<app>.yaml`, `<app>.yml`
        that exists is loaded into that app's entry alone; false when none
        exists or its loader raises. */
    method ReloadConfig(appName: string, dir: seq<ConfigFile>) returns (ok: bool)
      requires Valid()
      modifies this
      ensures Valid()
      ensures var src := ReloadSource(dir, appName);
        ok <==> src.Some? && src.value.loaded.Some?
      ensures var src := ReloadSource(dir, appName);
        ok ==> configs == old(configs)[appName := src.value.loaded.value] && names == InsertionOrder(old(names), appName)
      ensures !ok ==> configs == old(configs) && names == old(names)
    {
      var k := 0;
      while k < |Extensions|
        invariant 0 <= k <= |Extensions|
        invariant forall j | 0 <= j < k :: FindFile(dir, appName, Extensions[j]).None?
        invariant configs == old(configs) && names == old(names)
      {
        var configFile := FindFile(dir, appName, Extensions[k]);
        if configFile.Some? {
          assert ReloadSource(dir, appName) == configFile;
          if configFile.value.loaded.Some? {
            Put(appName, configFile.value.loaded.value);
            return true;
          }
          return false;
        }
        k := k + 1;
      }
      assert ReloadSource(dir, appName).None?;
      return false;
    }

    /** `reload_all_configs`: the map is cleared before loading, so an app
        whose files are gone disappears. */
    method ReloadAllConfigs(dir: seq<ConfigFile>)
      requires Valid()
      modifies this
      ensures Valid()
      ensures configs == Load(map[], Globbed(dir))
    {
      configs := map[];
      names := [];
      LoadAllConfigs(dir);
    }

    /** `get_app_list_with_info`: one entry per app with the `app` section's
        name, version and description, defaulting to the app key,
        "unknown" and "No description available". */
    method GetAppListWithInfo() returns (r: Result<map<string, AppInfo>, string>)
      requires Valid()
      ensures r.Ok? <==> forall k | k in configs :: InfoOf(k, configs[k]).Some?
      ensures r.Ok? ==> r.value.Keys == configs.Keys
      ensures r.Ok? ==> forall k | k in configs :: r.value[k] == InfoOf(k, configs[k]).value
      ensures r.Err? ==> r.error == AttributeErrorText
    {
      var appsInfo: map<string, AppInfo> := map[];
      var i := 0;
      while i < |names|
        invariant 0 <= i <= |names|
        invariant forall k :: k in appsInfo <==> k in names[..i]
        invariant forall k | k in appsInfo :: k in configs && InfoOf(k, configs[k]).Some? && appsInfo[k] == InfoOf(k, configs[k]).value
      {
        var appName := names[i];
        assert names[..i + 1] == names[..i] + [appName];
        var info := InfoOf(appName, configs[appName]);
        if info.None? {
          return Err(AttributeErrorText);
        }
        appsInfo := appsInfo[appName := info.value];
        i := i + 1;
      }
      assert names[..i] == names;
      return Ok(appsInfo);
    }
  }

  /** `config_exists(a)` holds iff `a` is listed by `list_available_apps()`. */
  lemma ConfigExistsIffListed(m: ConfigManager, appName: string)
    requires m.Valid()
    ensures m.ConfigExists(appName) <==> appName in m.ListAvailableApps()
  {
  }

  /** After `reload_all_configs`, an app is configured exactly when one of
      its files with a known extension loaded. */
  lemma ReloadedAppsHaveFiles(dir: seq<ConfigFile>, k: string)
    ensures k in Load(map[], Globbed(dir)) <==>
      exists f | f in dir :: f.stem == k && f.suffix in Extensions && f.loaded.Some?
  {
    var g := Globbed(dir);
    LoadIsLastLoaded(map[], g, k);
    if exists f | f in dir :: f.stem == k && f.suffix in Extensions && f.loaded.Some? {
      var f :| f in dir && f.stem == k && f.suffix in Extensions && f.loaded.Some?;
      assert f in g;
      var i :| 0 <= i < |g| && g[i] == f;
    }
  }

  /** A list without repeats has as many entries as the set of its entries. */
  lemma {:induction false} DistinctCard(xs: seq<string>, s: set<string>)
    requires forall k :: k in xs <==> k in s
    requires forall i, j | 0 <= i < j < |xs| :: xs[i] != xs[j]
    ensures |xs| == |s|
  {
    if |xs| > 0 {
      var rest := xs[1..];
      forall k ensures k in rest <==> k in s - {xs[0]} {
        if k in rest {
          var j :| 0 <= j < |rest| && rest[j] == k;
          assert xs[j + 1] == k;
        }
        if k in s - {xs[0]} {
          var j :| 0 <= j < |xs| && xs[j] == k;
          assert j != 0;
          assert rest[j - 1] == k;
        }
      }
      DistinctCard(rest, s - {xs[0]});
    } else {
      assert forall k :: k !in s;
      assert s == {};
    }
  }

  /** `list_available_apps()` has one entry per configured app. */
  lemma ListedCount(m: ConfigManager)
    requires m.Valid()
    ensures |m.ListAvailableApps()| == |m.configs.Keys|
  {
    DistinctCard(m.ListAvailableApps(), m.configs.Keys);
  }
}
