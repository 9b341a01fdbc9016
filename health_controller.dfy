/** The health controller of `app/controllers/health_controller.py`: the
    health report built from the model manager's status, and the server
    information that adds the configured apps. The status is an input (what
    `get_status` returned, or the message of what it raised); uptime and
    memory figures are left out. */
module HealthController {
  import opened Wrappers
  import opened Text
  import Models
  import CoreConfig

  const Version := "1.0.0"
  const StatusCheckFailed := "status-check-failed"

  /** `[m for m in loaded if m.startswith(prefix)]`. */
  function WithPrefix(loaded: seq<string>, prefix: string): (r: seq<string>)
    ensures |r| <= |loaded|
    ensures forall m :: m in r <==> m in loaded && StartsWith(m, prefix)
  {
    if |loaded| == 0 then []
    else (if StartsWith(loaded[0], prefix) then [loaded[0]] else []) + WithPrefix(loaded[1..], prefix)
  }

  /** The filter keeps the order of the list: filtering a concatenation
      is concatenating the filtered halves. */
  lemma {:induction false} WithPrefixAppend(a: seq<string>, b: seq<string>, prefix: string)
    ensures WithPrefix(a + b, prefix) == WithPrefix(a, prefix) + WithPrefix(b, prefix)
  {
    if |a| == 0 {
      assert a + b == b;
    } else {
      assert (a + b)[0] == a[0];
      assert (a + b)[1..] == a[1..] + b;
      WithPrefixAppend(a[1..], b, prefix);
    }
  }

  /** The `models_loaded` list of a status that was read: the `text:`
      entries when the text model is ready, then the `vision:` entries when
      the vision model is ready. */
  function ReportedModels(status: Models.Status): (r: seq<string>)
    ensures forall m | m in r :: m in status.loadedModels
    ensures forall m | m in status.loadedModels && StartsWith(m, "text:") :: status.textModelReady <==> m in r
    ensures forall m | m in status.loadedModels && StartsWith(m, "vision:") :: status.visionModelReady <==> m in r
    ensures !status.textModelReady && !status.visionModelReady ==> r == []
    ensures r == (if status.textModelReady then WithPrefix(status.loadedModels, "text:") else [])
               + (if status.visionModelReady then WithPrefix(status.loadedModels, "vision:") else [])
    // every `text:` entry comes before every `vision:` entry
    ensures forall i, j | 0 <= i < j < |r| && StartsWith(r[i], "vision:") :: !StartsWith(r[j], "text:")
  {
    assert forall m | StartsWith(m, "text:") :: !StartsWith(m, "vision:") by {
      forall m | StartsWith(m, "text:") ensures !StartsWith(m, "vision:") {
        assert m[0] == m[..5][0] == 't';
      }
    }
    var texts := if status.textModelReady then WithPrefix(status.loadedModels, "text:") else [];
    var visions := if status.visionModelReady then WithPrefix(status.loadedModels, "vision:") else [];
    assert forall i | 0 <= i < |texts| :: StartsWith(texts[i], "text:");
    assert forall i | 0 <= i < |visions| :: StartsWith(visions[i], "vision:");
    texts + visions
  }

  /** `HealthResponse` without its uptime and memory figures. */
  datatype HealthResponse = HealthResponse(status: string, version: string, modelsLoaded: seq<string>)

  /** `get_health`: `modelStatus` is what reading the status gave and
      `buildFails` says the outer `except` was taken. A failed status read
      is still a healthy server, with a marker in place of the models. */
  method GetHealth(modelStatus: Result<Models.Status, string>, buildFails: bool) returns (r: HealthResponse)
    ensures r.version == Version
    ensures r.status == "healthy" <==> !buildFails
    ensures buildFails ==> r == HealthResponse("unhealthy", Version, [])
    ensures !buildFails && modelStatus.Err? ==> r.modelsLoaded == [StatusCheckFailed]
    ensures !buildFails && modelStatus.Ok? ==> r.modelsLoaded == ReportedModels(modelStatus.value)
  {
    var modelsLoaded: seq<string> := [];
    match modelStatus {
      case Ok(status) =>
        if status.textModelReady {
          modelsLoaded := modelsLoaded + WithPrefix(status.loadedModels, "text:");
        }
        if status.visionModelReady {
          modelsLoaded := modelsLoaded + WithPrefix(status.loadedModels, "vision:");
        }
      case Err(_) =>
        modelsLoaded := [StatusCheckFailed];
    }
    if buildFails {
      return HealthResponse("unhealthy", Version, []);
    }
    return HealthResponse("healthy", Version, modelsLoaded);
  }

  /** An example: after only the mock model is set up, the manager lists it as loaded
      but reports no model ready, so the health report names no model. */
  lemma MockOnlyReportsNothing(device: string, available: nat)
    ensures ReportedModels(Models.Status(device, available, ["text:mock_reasoning_model"], false, false)) == []
  {
  }

  /** `model_info` of the server information. */
  datatype ModelInfo = ModelInfo(textModelLoaded: bool, visionModelLoaded: bool, loadedModels: seq<string>,
                                 availableModelsCount: nat, device: string)

  /** `get_server_info` without the uptime. */
  datatype ServerInfo =
    | Running(modelInfo: ModelInfo, availableConfigs: seq<string>, totalConfigs: nat, endpoints: map<string, string>)
    | InfoError(error: string)

  /** The fixed `endpoints` listing. */
  const Endpoints: map<string, string> := map[
    "health" := "/health",
    "server_info" := "/server-info",
    "generic_reasoning" := "/reasoning/generic",
    "app_reasoning" := "/reasoning/app",
    "image_reasoning" := "/reasoning/image",
    "config_list" := "/config/list",
    "config_detail" := "/config/{app_name}"]

  /** `get_server_info`: the status as read and every configured app once,
      with their count; a failed status read is an error report with its
      message. */
  function GetServerInfo(modelStatus: Result<Models.Status, string>, cm: CoreConfig.ConfigManager): (r: ServerInfo)
    reads cm
    requires cm.Valid()
    ensures r.InfoError? <==> modelStatus.Err?
    ensures r.InfoError? ==> r.error == modelStatus.error
    ensures r.Running? ==>
      var s := modelStatus.value;
      && r.modelInfo == ModelInfo(s.textModelReady, s.visionModelReady, s.loadedModels, s.availableModels, s.device)
      && r.totalConfigs == |r.availableConfigs|
      && (forall k :: k in r.availableConfigs <==> k in cm.configs)
      && (forall i, j | 0 <= i < j < |r.availableConfigs| :: r.availableConfigs[i] != r.availableConfigs[j])
      && r.endpoints == Endpoints
  {
    match modelStatus
    case Err(e) => InfoError(e)
    case Ok(s) =>
      var availableConfigs := cm.ListAvailableApps();
      Running(ModelInfo(s.textModelReady, s.visionModelReady, s.loadedModels, s.availableModels, s.device),
              availableConfigs, |availableConfigs|, Endpoints)
  }

  /** `total_configs` is the number of configured apps. */
  lemma TotalConfigsIsAppCount(s: Models.Status, cm: CoreConfig.ConfigManager)
    requires cm.Valid()
    ensures GetServerInfo(Ok(s), cm).totalConfigs == |cm.configs.Keys|
  {
    CoreConfig.ListedCount(cm);
  }
}
