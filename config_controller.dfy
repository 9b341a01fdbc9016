/** The configuration controller of `app/controllers/config_controller.py`:
    listing, showing and reloading the app configurations held by the core
    configuration manager, with the HTTP errors each handler raises. The
    configuration directory is the list of files `dir`, as in the
    manager's model. */
module ConfigController {
  import opened Wrappers
  import opened JsonModel
  import opened CoreConfig
  import AppReason

  type HttpError = AppReason.HttpError

  /** The body of `list_configurations`. */
  datatype Listing = Listing(totalConfigurations: nat, availableApps: seq<string>,
                             configurations: map<string, AppInfo>, status: string)

  /** `list_configurations`: every app with its info and the number of
      apps; when one configuration has no usable `app` section the manager
      raises and the handler answers 500. */
  method ListConfigurations(cm: ConfigManager) returns (r: Result<Listing, HttpError>)
    requires cm.Valid()
    ensures r.Ok? <==> forall k | k in cm.configs :: InfoOf(k, cm.configs[k]).Some?
    ensures r.Err? ==> r.error == AppReason.HttpError(500, "Failed to list configurations")
    ensures r.Ok? ==>
      && r.value.status == "success"
      && r.value.availableApps == cm.ListAvailableApps()
      && r.value.totalConfigurations == |cm.configs.Keys|
      && r.value.configurations.Keys == cm.configs.Keys
      && forall k | k in cm.configs :: r.value.configurations[k] == InfoOf(k, cm.configs[k]).value
  {
    var appsInfo := cm.GetAppListWithInfo();
    if appsInfo.Err? {
      return Err(AppReason.HttpError(500, "Failed to list configurations"));
    }
    var availableApps := cm.ListAvailableApps();
    ListedCount(cm);
    return Ok(Listing(|availableApps|, availableApps, appsInfo.value, "success"));
  }

  /** The body of `get_configuration`. */
  datatype Detail = Detail(appName: string, configuration: Json, status: string)

  /** `get_configuration`: the stored configuration, or 404 for an app
      that is not configured. */
  function GetConfiguration(cm: ConfigManager, appName: string): (r: Result<Detail, HttpError>)
    reads cm
    ensures r.Err? <==> appName !in cm.configs
    ensures r.Err? ==> r.error == AppReason.HttpError(404, "Configuration for '" + appName + "' not found")
    ensures r.Ok? ==> r.value == Detail(appName, cm.configs[appName], "success")
  {
    if !cm.ConfigExists(appName) then Err(AppReason.HttpError(404, "Configuration for '" + appName + "' not found"))
    else Ok(Detail(appName, cm.GetConfig(appName).value, "success"))
  }

  /** The body of `reload_configuration` and `reload_all_configurations`. */
  datatype Reloaded =
    | AppReloaded(appName: string, status: string, message: string)
    | AllReloaded(status: string, totalConfigurations: nat, availableApps: seq<string>, message: string)

  /** `reload_configuration`: 404 both when no file for the app exists and
      when its file does not load; on success that app's entry alone is
      replaced. */
  method ReloadConfiguration(cm: ConfigManager, appName: string, dir: seq<ConfigFile>) returns (r: Result<Reloaded, HttpError>)
    requires cm.Valid()
    modifies cm
    ensures cm.Valid()
    ensures var src := ReloadSource(dir, appName);
      r.Ok? <==> src.Some? && src.value.loaded.Some?
    ensures r.Err? ==> r.error == AppReason.HttpError(404, "Configuration file for '" + appName + "' not found")
    ensures r.Err? ==> cm.configs == old(cm.configs)
    ensures r.Ok? ==>
      && r.value == AppReloaded(appName, "reloaded", "Configuration for '" + appName + "' reloaded successfully")
      && cm.configs == old(cm.configs)[appName := ReloadSource(dir, appName).value.loaded.value]
  {
    var success := cm.ReloadConfig(appName, dir);
    if success {
      return Ok(AppReloaded(appName, "reloaded", "Configuration for '" + appName + "' reloaded successfully"));
    }
    return Err(AppReason.HttpError(404, "Configuration file for '" + appName + "' not found"));
  }

  /** `reload_all_configurations`: the manager reloads from scratch and the
      answer lists the apps found, which are exactly the stems with a file
      of a known extension that loaded. */
  method ReloadAllConfigurations(cm: ConfigManager, dir: seq<ConfigFile>) returns (r: Reloaded)
    requires cm.Valid()
    modifies cm
    ensures cm.Valid()
    ensures cm.configs == Load(map[], Globbed(dir))
    ensures r.AllReloaded? && r.status == "reloaded" && r.message == "All configurations reloaded successfully"
    ensures r.availableApps == cm.ListAvailableApps() && r.totalConfigurations == |cm.configs.Keys|
    ensures forall k :: k in r.availableApps <==>
      exists f | f in dir :: f.stem == k && f.suffix in Extensions && f.loaded.Some?
  {
    cm.ReloadAllConfigs(dir);
    var availableApps := cm.ListAvailableApps();
    ListedCount(cm);
    forall k ensures k in availableApps <==> exists f | f in dir :: f.stem == k && f.suffix in Extensions && f.loaded.Some? {
      ReloadedAppsHaveFiles(dir, k);
    }
    return AllReloaded("reloaded", |availableApps|, availableApps, "All configurations reloaded successfully");
  }

  /** An app is shown exactly when it is listed. */
  lemma ShownIffListed(cm: ConfigManager, appName: string)
    requires cm.Valid()
    ensures GetConfiguration(cm, appName).Ok? <==> appName in cm.ListAvailableApps()
  {
    ConfigExistsIffListed(cm, appName);
  }
}
