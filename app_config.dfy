/** The app-configuration store of `app/config_manager.py`: `AppConfig`
    records with their defaults, and the manager that registers them by
    their `app_name`. Reading and writing the files is not modelled: the
    contents of the `*.json` files found are an input. */
module AppConfigs {
  import opened Wrappers
  import opened JsonModel

  /** `AppConfig` after pydantic validation. */
  datatype AppConfig = AppConfig(
    appName: string,
    appVersion: string,
    description: string,
    mcpTools: seq<map<string, Json>>,
    filterConstraints: seq<map<string, Json>>,
    uiHandlers: seq<map<string, Json>>,
    categories: seq<string>,
    aiScope: string,
    fallbackMessage: string,
    maxSteps: int,
    includeConversationHistory: bool,
    maxConversationTurns: int)

  /** A list of JSON objects, as `List[Dict[str, Any]]` accepts it. */
  function ObjectList(items: seq<Json>): (r: Option<seq<map<string, Json>>>)
    ensures r.Some? <==> forall i | 0 <= i < |items| :: items[i].JObj?
    ensures r.Some? ==> |r.value| == |items| && forall i | 0 <= i < |items| :: r.value[i] == items[i].fields
  {
    if |items| == 0 then Some([])
    else if !items[0].JObj? then None
    else match ObjectList(items[1..])
      case None => None
      case Some(rest) => Some([items[0].fields] + rest)
  }

  /** A list of strings, as `List[str]` accepts it. */
  function StringList(items: seq<Json>): (r: Option<seq<string>>)
    ensures r.Some? <==> forall i | 0 <= i < |items| :: items[i].JStr?
    ensures r.Some? ==> |r.value| == |items| && forall i | 0 <= i < |items| :: r.value[i] == items[i].s
  {
    if |items| == 0 then Some([])
    else if !items[0].JStr? then None
    else match StringList(items[1..])
      case None => None
      case Some(rest) => Some([items[0].s] + rest)
  }

  predicate IsInt(n: real) {
    n == n.Floor as real
  }

  /** A required string field. */
  function StrField(d: map<string, Json>, k: string): Option<string> {
    if k in d && d[k].JStr? then Some(d[k].s) else None
  }

  /** An optional list-of-objects field: `[]` when absent. */
  function ObjListField(d: map<string, Json>, k: string): Option<seq<map<string, Json>>> {
    if k !in d then Some([]) else if d[k].JArr? then ObjectList(d[k].items) else None
  }

  /** An optional integer field with its default. */
  function IntField(d: map<string, Json>, k: string, default: int): Option<int> {
    if k !in d then Some(default) else if d[k].JNum? && IsInt(d[k].n) then Some(d[k].n.Floor) else None
  }

  /** An optional boolean field with its default. */
  function BoolField(d: map<string, Json>, k: string, default: bool): Option<bool> {
    if k !in d then Some(default) else if d[k].JBool? then Some(d[k].b) else None
  }

  /** `k` holds a string. */
  predicate StrKey(d: map<string, Json>, k: string) {
    k in d && d[k].JStr?
  }

  /** An optional list-of-objects key: absent, or a list of objects. */
  predicate ObjListKey(d: map<string, Json>, k: string) {
    k in d ==> d[k].JArr? && forall i | 0 <= i < |d[k].items| :: d[k].items[i].JObj?
  }

  /** An optional integer key: absent, or a whole number. */
  predicate IntKey(d: map<string, Json>, k: string) {
    k in d ==> d[k].JNum? && IsInt(d[k].n)
  }

  /** The fields `AppConfig` requires, each of its declared type. */
  predicate RequiredFields(d: map<string, Json>) {
    && StrKey(d, "app_name") && StrKey(d, "app_version") && StrKey(d, "description")
    && StrKey(d, "ai_scope") && StrKey(d, "fallback_message")
    && "categories" in d && d["categories"].JArr?
    && forall i | 0 <= i < |d["categories"].items| :: d["categories"].items[i].JStr?
  }

  /** The fields with defaults: each absent or of its declared type. */
  predicate OptionalFields(d: map<string, Json>) {
    && ObjListKey(d, "mcp_tools") && ObjListKey(d, "filter_constraints") && ObjListKey(d, "ui_handlers")
    && IntKey(d, "max_steps") && IntKey(d, "max_conversation_turns")
    && ("include_conversation_history" in d ==> d["include_conversation_history"].JBool?)
  }

  /** `AppConfig(**data)`: `None` when validation fails. */
  function Validate(d: map<string, Json>): (r: Option<AppConfig>)
    ensures r.Some? ==> "app_name" in d && d["app_name"] == JStr(r.value.appName)
    ensures r.Some? ==> "fallback_message" in d && d["fallback_message"] == JStr(r.value.fallbackMessage)
    ensures r.Some? ==> "categories" in d && "ai_scope" in d && "app_version" in d && "description" in d
    ensures r.Some? && "mcp_tools" !in d ==> r.value.mcpTools == []
    ensures r.Some? && "filter_constraints" !in d ==> r.value.filterConstraints == []
    ensures r.Some? && "ui_handlers" !in d ==> r.value.uiHandlers == []
    ensures r.Some? && "max_steps" !in d ==> r.value.maxSteps == 4
    ensures r.Some? && "include_conversation_history" !in d ==> r.value.includeConversationHistory
    ensures r.Some? && "max_conversation_turns" !in d ==> r.value.maxConversationTurns == 10
    ensures "app_name" !in d || "fallback_message" !in d || "categories" !in d ==> r.None?
  {
    var name := StrField(d, "app_name");
    var version := StrField(d, "app_version");
    var desc := StrField(d, "description");
    var tools := ObjListField(d, "mcp_tools");
    var filters := ObjListField(d, "filter_constraints");
    var handlers := ObjListField(d, "ui_handlers");
    var cats := if "categories" in d && d["categories"].JArr? then StringList(d["categories"].items) else None;
    var scope := StrField(d, "ai_scope");
    var fallback := StrField(d, "fallback_message");
    var steps := IntField(d, "max_steps", 4);
    var history := BoolField(d, "include_conversation_history", true);
    var turns := IntField(d, "max_conversation_turns", 10);
    if name.Some? && version.Some? && desc.Some? && tools.Some? && filters.Some? && handlers.Some?
       && cats.Some? && scope.Some? && fallback.Some? && steps.Some? && history.Some? && turns.Some?
    then Some(AppConfig(name.value, version.value, desc.value, tools.value, filters.value, handlers.value,
                        cats.value, scope.value, fallback.value, steps.value, history.value, turns.value))
    else None
  }

  /** An optional list-of-objects field is accepted exactly when it is
      absent or a list of objects. */
  lemma ObjListFieldAccepts(d: map<string, Json>, k: string)
    ensures ObjListField(d, k).Some? <==> ObjListKey(d, k)
  {
  }

  /** Validation succeeds exactly on data whose required fields are present
      with their types and whose optional fields are absent or well typed. */
  lemma ValidateAcceptsWellTyped(d: map<string, Json>)
    ensures Validate(d).Some? <==> RequiredFields(d) && OptionalFields(d)
  {
    ObjListFieldAccepts(d, "mcp_tools");
    ObjListFieldAccepts(d, "filter_constraints");
    ObjListFieldAccepts(d, "ui_handlers");
  }

  /** A validated configuration carries the data's values: the strings, the
      categories in order, and every optional field that is present. */
  lemma ValidatedValues(d: map<string, Json>)
    requires Validate(d).Some?
    ensures var c := Validate(d).value;
      && c.appVersion == d["app_version"].s && c.description == d["description"].s && c.aiScope == d["ai_scope"].s
      && c.categories == StringList(d["categories"].items).value
      && ("mcp_tools" in d ==> c.mcpTools == ObjectList(d["mcp_tools"].items).value)
      && ("filter_constraints" in d ==> c.filterConstraints == ObjectList(d["filter_constraints"].items).value)
      && ("ui_handlers" in d ==> c.uiHandlers == ObjectList(d["ui_handlers"].items).value)
      && ("max_steps" in d ==> c.maxSteps == d["max_steps"].n.Floor)
      && ("max_conversation_turns" in d ==> c.maxConversationTurns == d["max_conversation_turns"].n.Floor)
      && ("include_conversation_history" in d ==> c.includeConversationHistory == d["include_conversation_history"].b)
  {
  }

  const NextshopFallback: string :=
    "I'm here to help you with shopping on NextShop. I can help you find products, check prices, and guide you through your purchase. For general questions outside of shopping, I'd recommend asking elsewhere."

  const NextshopScope: string :=
    "I am a NextShop AI assistant focused on helping customers find, compare, and purchase products. I can search products, apply filters, check availability, and guide you through the shopping process."

  /** The four generic filter constraints of the default configuration. */
  function NextshopFilters(): seq<map<string, Json>> {
    [ map["name" := JStr("price_range"), "type" := JStr("range"), "description" := JStr("Product price range"),
          "min_value" := JNum(0.0), "max_value" := JNum(10000.0)],
      map["name" := JStr("rating"), "type" := JStr("range"), "description" := JStr("Product rating"),
          "min_value" := JNum(1.0), "max_value" := JNum(5.0)],
      map["name" := JStr("availability"), "type" := JStr("categorical"), "description" := JStr("Product availability"),
          "options" := JArr([JStr("in_stock"), JStr("out_of_stock"), JStr("pre_order")])],
      map["name" := JStr("brand"), "type" := JStr("categorical"), "description" := JStr("Product brand"),
          "options" := JArr([])] ]
  }

  /** The configuration `_create_nextshop_config` validates and registers. */
  function NextshopConfig(): AppConfig {
    AppConfig("nextshop", "1.0.0", "NextShop E-commerce AI Assistant", [], NextshopFilters(), [], [],
              NextshopScope, NextshopFallback, 4, true, 10)
  }

  /** Registering one found file: a file that validates is stored under its own `app_name`. */
  function AddFile(m: map<string, AppConfig>, f: Option<map<string, Json>>): (r: map<string, AppConfig>)
    ensures m.Keys <= r.Keys
  {
    if f.None? then m
    else
      var c := Validate(f.value);
      if c.Some? then m[c.value.appName := c.value] else m
  }

  /** The store after loading the found files in order. */
  function Register(m: map<string, AppConfig>, files: seq<Option<map<string, Json>>>): (r: map<string, AppConfig>)
    ensures m.Keys <= r.Keys
  {
    if |files| == 0 then m else AddFile(Register(m, files[..|files| - 1]), files[|files| - 1])
  }

  /** Registering one more file is adding it to the store registered so far. */
  lemma RegisterStep(m: map<string, AppConfig>, files: seq<Option<map<string, Json>>>, i: nat)
    requires i < |files|
    ensures Register(m, files[..i + 1]) == AddFile(Register(m, files[..i]), files[i])
  {
    assert files[..i + 1][..i] == files[..i];
  }

  /** Configurations are keyed by their `app_name`, not by the file they came from. */
  lemma {:induction false} RegisterKeyedByName(m: map<string, AppConfig>, files: seq<Option<map<string, Json>>>)
    requires forall k | k in m :: m[k].appName == k
    ensures forall k | k in Register(m, files) :: Register(m, files)[k].appName == k
  {
    if |files| > 0 {
      RegisterKeyedByName(m, files[..|files| - 1]);
    }
  }

  /** A later file with the same `app_name` replaces the earlier one. */
  lemma LaterFileWins(m: map<string, AppConfig>, files: seq<Option<map<string, Json>>>, d: map<string, Json>)
    requires Validate(d).Some?
    ensures var r := Register(m, files + [Some(d)]);
      Validate(d).value.appName in r && r[Validate(d).value.appName] == Validate(d).value
  {
    assert (files + [Some(d)])[..|files|] == files;
  }

  /** Only files that validate add names to the store. */
  lemma {:induction false} RegisterOnlyValid(m: map<string, AppConfig>, files: seq<Option<map<string, Json>>>, k: string)
    requires k in Register(m, files) && k !in m
    ensures exists i | 0 <= i < |files| :: files[i].Some? && Validate(files[i].value).Some? && Validate(files[i].value).value.appName == k
  {
    var init := files[..|files| - 1];
    var last := files[|files| - 1];
    if k in Register(m, init) {
      RegisterOnlyValid(m, init, k);
      var i :| 0 <= i < |init| && init[i].Some? && Validate(init[i].value).Some? && Validate(init[i].value).value.appName == k;
      assert files[i] == init[i];
    } else {
      assert files[|files| - 1] == last;
    }
  }

  class AppConfigManager {
    var loadedConfigs: map<string, AppConfig>
    /** The insertion order of the keys of `loadedConfigs`. */
    var names: seq<string>

    ghost predicate Valid()
      reads this
    {
      && (forall k :: k in loadedConfigs <==> k in names)
      && (forall i, j | 0 <= i < j < |names| :: names[i] != names[j])
    }

    /** `ConfigManager()`: the directory is created first, so loading always
        finds it and registers the files it holds. */
    constructor (files: seq<Option<map<string, Json>>>)
      ensures Valid()
      ensures loadedConfigs == Register(map[], files)
    {
      loadedConfigs := map[];
      names := [];
      new;
      LoadAllConfigs(true, files);
    }

    /** `_load_all_configs`: without a directory only the default NextShop
        configuration is registered; otherwise every file that validates is
        registered under its `app_name`, a later one replacing an earlier. */
    method LoadAllConfigs(dirExists: bool, files: seq<Option<map<string, Json>>>)
      requires Valid()
      modifies this
      ensures Valid()
      ensures !dirExists ==> loadedConfigs == old(loadedConfigs)["nextshop" := NextshopConfig()]
      ensures dirExists ==> loadedConfigs == Register(old(loadedConfigs), files)
    {
      if !dirExists {
        CreateNextshopConfig();
        return;
      }
      ghost var start := loadedConfigs;
      var i := 0;
      while i < |files|
        invariant 0 <= i <= |files|
        invariant Valid()
        invariant loadedConfigs == Register(start, files[..i])
      {
        RegisterStep(start, files, i);
        Store(files[i]);
        i := i + 1;
      }
      assert files[..|files|] == files;
    }

    /** One found file: stored under its `app_name` when it validates. */
    method Store(f: Option<map<string, Json>>)
      requires Valid()
      modifies this
      ensures Valid()
      ensures loadedConfigs == AddFile(old(loadedConfigs), f)
    {
      if f.Some? {
        var c := Validate(f.value);
        if c.Some? {
          Put(c.value.appName, c.value);
        }
      }
    }

    /** `self.loaded_configs[name] = config`. */
    method Put(name: string, c: AppConfig)
      requires Valid()
      modifies this
      ensures Valid()
      ensures loadedConfigs == old(loadedConfigs)[name := c]
      ensures names == InsertionOrder(old(names), name)
    {
      if name !in names {
        forall i, j | 0 <= i < j < |names + [name]| ensures (names + [name])[i] != (names + [name])[j] {
          if j == |names| {
            assert (names + [name])[i] == names[i];
            assert names[i] in names;
          }
        }
      }
      names := InsertionOrder(names, name);
      loadedConfigs := loadedConfigs[name := c];
    }

    /** `_create_nextshop_config`: registers the default configuration under
        "nextshop", with no tools, handlers or categories, four steps at most
        and the fixed fallback message. */
    method CreateNextshopConfig()
      requires Valid()
      modifies this
      ensures Valid()
      ensures loadedConfigs == old(loadedConfigs)["nextshop" := NextshopConfig()]
      ensures var c := loadedConfigs["nextshop"];
        c.mcpTools == [] && c.uiHandlers == [] && c.categories == [] && c.maxSteps == 4
        && c.fallbackMessage == NextshopFallback
    {
      Put("nextshop", NextshopConfig());
    }

    /** `get_app_config(name)`: the configuration registered under `name`, or none. */
    function GetAppConfig(name: string): (r: Option<AppConfig>)
      reads this
      ensures r.Some? <==> name in loadedConfigs
      ensures r.Some? ==> r.value == loadedConfigs[name]
    {
      if name in loadedConfigs then Some(loadedConfigs[name]) else None
    }

    /** `list_available_apps()`: every registered name exactly once. */
    function ListAvailableApps(): (r: seq<string>)
      reads this
      requires Valid()
      ensures forall k :: k in r <==> k in loadedConfigs
      ensures forall i, j | 0 <= i < j < |r| :: r[i] != r[j]
    {
      names
    }
  }
}
