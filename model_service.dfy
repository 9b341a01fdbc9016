/** The model lifecycle service of `app/services/model_service.py`: the
    request metrics of a model, the load timer, the health check, and the
    manager's lookup, health report and shutdown over its registered models.
    Clock readings are the `now` parameters; the model runtimes, hardware
    detection, the executor and the monitoring task are outside the model. */
module ModelService {
  import opened Wrappers

  /** `ModelMetrics`. Times are exact reals here, not floats. */
  datatype Metrics = Metrics(
    totalRequests: int,
    successfulRequests: int,
    failedRequests: int,
    averageResponseTimeMs: real,
    lastRequestTime: Option<int>,
    memoryUsageMb: real,
    loadTimeMs: real,
    modelSizeMb: real)

  const FreshMetrics := Metrics(0, 0, 0, 0.0, None, 0.0, 0.0, 0.0)

  /** The counters agree: every request succeeded or failed. */
  predicate Consistent(m: Metrics) {
    m.successfulRequests >= 0 && m.failedRequests >= 0
    && m.totalRequests == m.successfulRequests + m.failedRequests
  }

  /** `success_rate`: the percentage of successful requests, 0 with no requests. */
  function SuccessRate(m: Metrics): (rate: real)
    ensures m.totalRequests <= 0 ==> rate == 0.0
    ensures m.totalRequests > 0 ==> rate * (m.totalRequests as real) == (m.successfulRequests as real) * 100.0
  {
    if m.totalRequests > 0 then (m.successfulRequests as real) / (m.totalRequests as real) * 100.0 else 0.0
  }

  /** `error_rate`: the percentage of failed requests, 0 with no requests. */
  function ErrorRate(m: Metrics): (rate: real)
    ensures m.totalRequests <= 0 ==> rate == 0.0
    ensures m.totalRequests > 0 ==> rate * (m.totalRequests as real) == (m.failedRequests as real) * 100.0
  {
    if m.totalRequests > 0 then (m.failedRequests as real) / (m.totalRequests as real) * 100.0 else 0.0
  }

  /** With consistent counters and at least one request the two rates add up to 100. */
  lemma RatesSumToHundred(m: Metrics)
    requires Consistent(m) && m.totalRequests > 0
    ensures SuccessRate(m) + ErrorRate(m) == 100.0
    ensures 0.0 <= SuccessRate(m) <= 100.0
  {
    var t := m.totalRequests as real;
    var s := SuccessRate(m);
    var e := ErrorRate(m);
    assert (s + e - 100.0) * t == s * t + e * t - 100.0 * t;
    assert (s + e - 100.0) * t == 0.0;
    CancelPositive(s + e - 100.0, t);
    assert s * t == (m.successfulRequests as real) * 100.0;
    SignOfProduct(s, t);
    SignOfProduct(100.0 - s, t);
  }

  lemma CancelPositive(x: real, t: real)
    requires t > 0.0 && x * t == 0.0
    ensures x == 0.0
  {
  }

  lemma SignOfProduct(x: real, t: real)
    requires t > 0.0 && x * t >= 0.0
    ensures x >= 0.0
  {
  }

  /** What `update_request_metrics` leaves: one more request, counted as a
      success or a failure; the first sample of an average of 0 becomes the
      average, later ones are blended with smoothing factor 0.1. */
  function Recorded(m: Metrics, success: bool, responseTimeMs: real, now: int): (r: Metrics)
    ensures r.totalRequests == m.totalRequests + 1
    ensures success ==> r.successfulRequests == m.successfulRequests + 1 && r.failedRequests == m.failedRequests
    ensures !success ==> r.failedRequests == m.failedRequests + 1 && r.successfulRequests == m.successfulRequests
    ensures m.averageResponseTimeMs == 0.0 ==> r.averageResponseTimeMs == responseTimeMs
    ensures r.lastRequestTime == Some(now)
    ensures r.memoryUsageMb == m.memoryUsageMb && r.loadTimeMs == m.loadTimeMs && r.modelSizeMb == m.modelSizeMb
  {
    m.(
      totalRequests := m.totalRequests + 1,
      successfulRequests := if success then m.successfulRequests + 1 else m.successfulRequests,
      failedRequests := if success then m.failedRequests else m.failedRequests + 1,
      averageResponseTimeMs :=
        if m.averageResponseTimeMs == 0.0 then responseTimeMs
        else 0.1 * responseTimeMs + (1.0 - 0.1) * m.averageResponseTimeMs,
      lastRequestTime := Some(now))
  }

  lemma RecordedKeepsConsistent(m: Metrics, success: bool, responseTimeMs: real, now: int)
    requires Consistent(m)
    ensures Consistent(Recorded(m, success, responseTimeMs, now))
  {
  }

  /** The metrics after a run of requests, `outcomes[i]` telling whether the
      i-th one succeeded; `times` and `clock` give its response time and when
      it was recorded. */
  function Replay(m: Metrics, outcomes: seq<bool>, times: seq<real>, clock: seq<int>): (r: Metrics)
    requires |times| == |outcomes| == |clock|
    decreases |outcomes|
  {
    if |outcomes| == 0 then m
    else Replay(Recorded(m, outcomes[0], times[0], clock[0]), outcomes[1..], times[1..], clock[1..])
  }

  function Successes(outcomes: seq<bool>): (n: nat)
    ensures n <= |outcomes|
  {
    if |outcomes| == 0 then 0 else (if outcomes[0] then 1 else 0) + Successes(outcomes[1..])
  }

  /** Starting from consistent counters, a run of requests adds its length to
      the total and its successes to the successful count, and keeps the
      counters consistent. */
  lemma {:induction false} ReplayCounts(m: Metrics, outcomes: seq<bool>, times: seq<real>, clock: seq<int>)
    requires |times| == |outcomes| == |clock|
    requires Consistent(m)
    ensures var r := Replay(m, outcomes, times, clock);
      && Consistent(r)
      && r.totalRequests == m.totalRequests + |outcomes|
      && r.successfulRequests == m.successfulRequests + Successes(outcomes)
      && r.failedRequests == m.failedRequests + (|outcomes| - Successes(outcomes))
    decreases |outcomes|
  {
    if |outcomes| > 0 {
      var next := Recorded(m, outcomes[0], times[0], clock[0]);
      RecordedKeepsConsistent(m, outcomes[0], times[0], clock[0]);
      ReplayCounts(next, outcomes[1..], times[1..], clock[1..]);
    }
  }

  /** From fresh metrics, a run of requests leaves its own length as the
      total and its successes as the successful count, and the two rates of
      a non-empty run add up to 100. */
  lemma FreshReplay(outcomes: seq<bool>, times: seq<real>, clock: seq<int>)
    requires |times| == |outcomes| == |clock|
    ensures var r := Replay(FreshMetrics, outcomes, times, clock);
      && r.totalRequests == |outcomes|
      && r.successfulRequests == Successes(outcomes)
      && r.failedRequests == |outcomes| - Successes(outcomes)
      && (|outcomes| > 0 ==> SuccessRate(r) + ErrorRate(r) == 100.0)
  {
    var r := Replay(FreshMetrics, outcomes, times, clock);
    ReplayCounts(FreshMetrics, outcomes, times, clock);
    if |outcomes| > 0 {
      RatesSumToHundred(r);
    }
  }

  /** `ModelWrapper`: a model, its load and health flags and its metrics.
      `hasModel` and `hasProcessor` stand for the runtime handles being set. */
  class ModelWrapper {
    const name: string
    const modelType: string
    var hasModel: bool
    var hasProcessor: bool
    var isLoaded: bool
    var isHealthy: bool
    var metrics: Metrics
    var loadStartTime: Option<int>

    constructor(name: string, modelType: string)
      ensures this.name == name && this.modelType == modelType
      ensures !hasModel && !hasProcessor && !isLoaded && isHealthy
      ensures metrics == FreshMetrics && loadStartTime == None
    {
      this.name := name;
      this.modelType := modelType;
      hasModel := false;
      hasProcessor := false;
      isLoaded := false;
      isHealthy := true;
      metrics := FreshMetrics;
      loadStartTime := None;
    }

    /** `start_load_timer`. */
    method StartLoadTimer(now: int)
      modifies this
      ensures loadStartTime == Some(now)
      ensures hasModel == old(hasModel) && hasProcessor == old(hasProcessor)
      ensures isLoaded == old(isLoaded) && isHealthy == old(isHealthy) && metrics == old(metrics)
    {
      loadStartTime := Some(now);
    }

    /** `end_load_timer`: only a started timer records the load time, and it
        is then cleared. A start time of 0 is false to Python's test, so it
        counts as not started. */
    method EndLoadTimer(now: int)
      modifies this
      ensures old(loadStartTime).Some? && old(loadStartTime).value != 0 ==>
        && metrics == old(metrics).(loadTimeMs := ((now - old(loadStartTime).value) * 1000) as real)
        && loadStartTime == None
      ensures !(old(loadStartTime).Some? && old(loadStartTime).value != 0) ==>
        metrics == old(metrics) && loadStartTime == old(loadStartTime)
      ensures hasModel == old(hasModel) && hasProcessor == old(hasProcessor)
      ensures isLoaded == old(isLoaded) && isHealthy == old(isHealthy)
    {
      if loadStartTime.Some? && loadStartTime.value != 0 {
        var loadTime := ((now - loadStartTime.value) * 1000) as real;
        metrics := metrics.(loadTimeMs := loadTime);
        loadStartTime := None;
      }
    }

    /** `update_request_metrics`. */
    method UpdateRequestMetrics(success: bool, responseTimeMs: real, now: int)
      modifies this
      ensures metrics == Recorded(old(metrics), success, responseTimeMs, now)
      ensures Consistent(old(metrics)) ==> Consistent(metrics)
      ensures hasModel == old(hasModel) && hasProcessor == old(hasProcessor)
      ensures isLoaded == old(isLoaded) && isHealthy == old(isHealthy) && loadStartTime == old(loadStartTime)
    {
      metrics := metrics.(totalRequests := metrics.totalRequests + 1);
      metrics := metrics.(lastRequestTime := Some(now));
      if success {
        metrics := metrics.(successfulRequests := metrics.successfulRequests + 1);
      } else {
        metrics := metrics.(failedRequests := metrics.failedRequests + 1);
      }
      var alpha := 0.1;
      if metrics.averageResponseTimeMs == 0.0 {
        metrics := metrics.(averageResponseTimeMs := responseTimeMs);
      } else {
        metrics := metrics.(averageResponseTimeMs := alpha * responseTimeMs + (1.0 - alpha) * metrics.averageResponseTimeMs);
      }
    }

    /** `health_check`: healthy iff loaded with a model handle; the verdict
        is also stored. */
    method HealthCheck() returns (healthy: bool)
      modifies this
      ensures healthy <==> old(isLoaded) && old(hasModel)
      ensures isHealthy == healthy
      ensures hasModel == old(hasModel) && hasProcessor == old(hasProcessor)
      ensures isLoaded == old(isLoaded) && metrics == old(metrics) && loadStartTime == old(loadStartTime)
    {
      if !isLoaded || !hasModel {
        isHealthy := false;
        return false;
      }
      isHealthy := true;
      return true;
    }
  }

  /** One entry of the health report's `models` map. */
  datatype ModelStatus = ModelStatus(loaded: bool, healthy: bool, metrics: Metrics)

  /** `get_health_status`. */
  datatype HealthStatus = HealthStatus(
    overallHealthy: bool,
    device: string,
    models: map<string, ModelStatus>,
    totalModels: nat,
    loadedModels: nat,
    healthyModels: nat)

  function LoadedCount(ws: seq<ModelWrapper>): (n: nat)
    reads ws
    ensures n <= |ws|
    ensures n == |ws| <==> forall i | 0 <= i < |ws| :: ws[i].isLoaded
  {
    if |ws| == 0 then 0 else (if ws[0].isLoaded then 1 else 0) + LoadedCount(ws[1..])
  }

  function HealthyCount(ws: seq<ModelWrapper>): (n: nat)
    reads ws
    ensures n <= |ws|
    ensures n == |ws| <==> forall i | 0 <= i < |ws| :: ws[i].isHealthy
  {
    if |ws| == 0 then 0 else (if ws[0].isHealthy then 1 else 0) + HealthyCount(ws[1..])
  }

  /** The names of the wrappers, in registration order. */
  function Names(ws: seq<ModelWrapper>): (names: seq<string>)
    reads ws
    ensures |names| == |ws| && forall i | 0 <= i < |ws| :: names[i] == ws[i].name
  {
    if |ws| == 0 then [] else [ws[0].name] + Names(ws[1..])
  }

  /** `ModelManager`: `models` holds the values of the `self.models`
      dictionary in insertion order; each is registered under its own name. */
  class ModelManager {
    var models: seq<ModelWrapper>
    var device: string

    /** Dictionary keys are unique. */
    ghost predicate Valid()
      reads this
    {
      forall i, j | 0 <= i < j < |models| :: models[i].name != models[j].name
    }

    constructor()
      ensures models == [] && device == "cpu" && Valid()
    {
      models := [];
      device := "cpu";
    }

    /** `self.models[name] = wrapper`: a known name keeps its place and gets
        the new wrapper; a new name is appended. */
    method Register(wrapper: ModelWrapper)
      requires Valid()
      modifies this
      ensures Valid() && device == old(device)
      ensures wrapper in models
      ensures forall i | 0 <= i < |old(models)| && old(models)[i].name == wrapper.name ::
        models == old(models)[i := wrapper]
      ensures wrapper.name !in Names(old(models)) ==> models == old(models) + [wrapper]
    {
      var i := 0;
      while i < |models|
        invariant 0 <= i <= |models| && models == old(models)
        invariant forall j | 0 <= j < i :: models[j].name != wrapper.name
      {
        if models[i].name == wrapper.name {
          models := models[i := wrapper];
          assert models[i] == wrapper;
          return;
        }
        i := i + 1;
      }
      assert wrapper.name !in Names(models);
      models := models + [wrapper];
    }

    /** `get_model`: the first loaded wrapper of the type, if any. */
    method GetModel(modelType: string) returns (r: Option<ModelWrapper>)
      ensures r.None? <==> forall i | 0 <= i < |models| :: !(models[i].modelType == modelType && models[i].isLoaded)
      ensures r.Some? ==> exists i | 0 <= i < |models| ::
        && models[i] == r.value && r.value.modelType == modelType && r.value.isLoaded
        && forall j | 0 <= j < i :: !(models[j].modelType == modelType && models[j].isLoaded)
    {
      var i := 0;
      while i < |models|
        invariant 0 <= i <= |models|
        invariant forall j | 0 <= j < i :: !(models[j].modelType == modelType && models[j].isLoaded)
      {
        var wrapper := models[i];
        if wrapper.modelType == modelType && wrapper.isLoaded {
          return Some(wrapper);
        }
        i := i + 1;
      }
      return None;
    }

    /** `get_health_status`: overall healthy iff every wrapper is, with the
        counts and one status entry per registered name. */
    method GetHealthStatus() returns (status: HealthStatus)
      requires Valid()
      ensures status.overallHealthy <==> forall i | 0 <= i < |models| :: models[i].isHealthy
      ensures status.overallHealthy <==> status.healthyModels == status.totalModels
      ensures status.device == device && status.totalModels == |models|
      ensures status.loadedModels == LoadedCount(models) && status.healthyModels == HealthyCount(models)
      ensures status.models.Keys == set i | 0 <= i < |models| :: models[i].name
      ensures forall i | 0 <= i < |models| ::
        status.models[models[i].name] == ModelStatus(models[i].isLoaded, models[i].isHealthy, models[i].metrics)
    {
      var overall := true;
      var entries: map<string, ModelStatus> := map[];
      var i := 0;
      while i < |models|
        invariant 0 <= i <= |models|
        invariant overall <==> forall j | 0 <= j < i :: models[j].isHealthy
        invariant entries.Keys == set j | 0 <= j < i :: models[j].name
        invariant forall j | 0 <= j < i ::
          entries[models[j].name] == ModelStatus(models[j].isLoaded, models[j].isHealthy, models[j].metrics)
      {
        var wrapper := models[i];
        entries := entries[wrapper.name := ModelStatus(wrapper.isLoaded, wrapper.isHealthy, wrapper.metrics)];
        if !wrapper.isHealthy {
          overall := false;
        }
        i := i + 1;
      }
      status := HealthStatus(overall, device, entries, |models|, LoadedCount(models), HealthyCount(models));
    }

    /** `shutdown`, model-state part: every wrapper loses its handles and is
        marked not loaded; its name, health flag and metrics stay. */
    method Shutdown()
      modifies models
      ensures forall i | 0 <= i < |models| :: !models[i].isLoaded && !models[i].hasModel && !models[i].hasProcessor
      ensures forall i | 0 <= i < |models| ::
        && models[i].isHealthy == old(models[i].isHealthy)
        && models[i].metrics == old(models[i].metrics)
        && models[i].loadStartTime == old(models[i].loadStartTime)
    {
      var i := 0;
      while i < |models|
        invariant 0 <= i <= |models|
        invariant forall j | 0 <= j < i :: !models[j].isLoaded && !models[j].hasModel && !models[j].hasProcessor
        invariant forall j | 0 <= j < |models| ::
          && models[j].isHealthy == old(models[j].isHealthy)
          && models[j].metrics == old(models[j].metrics)
          && models[j].loadStartTime == old(models[j].loadStartTime)
      {
        var wrapper := models[i];
        wrapper.hasModel := false;
        wrapper.hasProcessor := false;
        wrapper.isLoaded := false;
        i := i + 1;
      }
    }
  }

  /** After a shutdown no lookup finds a model and no model counts as loaded. */
  lemma NothingLoadedAfterShutdown(ws: seq<ModelWrapper>)
    requires forall i | 0 <= i < |ws| :: !ws[i].isLoaded
    ensures LoadedCount(ws) == 0
  {
    if |ws| > 0 {
      NothingLoadedAfterShutdown(ws[1..]);
    }
  }
}
