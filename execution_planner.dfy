/** The execution planner of `app/execution_planner.py`: it takes the first
    complete JSON object of a model reply, builds a query analysis with
    defaults, applies the scope gate and dispatches on the intent to zero or
    one execution step. */
module ExecutionPlanner {
  import opened Wrappers
  import opened Text
  import opened JsonModel
  import opened BraceCount
  import opened AppConfigs

  /** `ExecutionStep`. */
  datatype ExecutionStep = ExecutionStep(
    stepNumber: int,
    stepType: string,
    toolName: string,
    description: string,
    parameters: map<string, Json>,
    dependsOn: seq<int>,
    optional: bool)

  /** `QueryAnalysis`. */
  datatype QueryAnalysis = QueryAnalysis(
    intent: string,
    confidence: real,
    detectedEntities: map<string, Json>,
    requiresConversationContext: bool)

  /** `ExecutionPlan`. */
  datatype ExecutionPlan = ExecutionPlan(
    queryAnalysis: QueryAnalysis,
    steps: seq<ExecutionStep>,
    fallbackResponse: Option<string>,
    expectedResultFormat: string,
    uiGuidance: Option<string>)

  /** What the planner raises: a `ValueError` with its message, or a failure
      of the record validation / attribute access on an ill-typed reply
      (the Python runtime's wording is not modelled). */
  datatype PlanError = ValueError(message: string) | TypeFailure(field: string)

  const NoJsonMessage := "No JSON object found in LLM response"
  const IncompleteMessage := "Incomplete JSON object in LLM response"
  const NotValidPrefix := "LLM response is not valid JSON: "
  const ChatDefault := "I can help you with shopping questions."
  const ScopeDefault := "I can only help with shopping-related queries."

  /** The plan for an app without configuration. */
  function UnknownAppPlan(appName: string): (p: ExecutionPlan)
    ensures p.queryAnalysis.intent == "error" && p.queryAnalysis.confidence == 0.0
    ensures p.steps == [] && p.expectedResultFormat == "text_response"
    ensures p.fallbackResponse == Some("Unknown app: " + appName)
  {
    ExecutionPlan(QueryAnalysis("error", 0.0, map[], false), [], Some("Unknown app: " + appName), "text_response", None)
  }

  /** `_is_query_in_scope`: the intent, read with default `general`, is not
      `general`, or the confidence, read with default 0.0, exceeds 0.7. */
  function InScope(data: map<string, Json>): (r: bool)
    requires "intent" in data ==> data["intent"].JStr?
    requires "confidence" in data ==> data["confidence"].JNum?
    ensures r <==> (|| ("intent" in data && data["intent"].s != "general")
                    || ("confidence" in data && data["confidence"].n > 0.7))
  {
    var intent := Get(data, "intent", JStr("general"));
    var confidence := Get(data, "confidence", JNum(0.0));
    intent.s != "general" || confidence.n > 0.7
  }

  /** `_create_steps_from_llm_data`: the steps for the intent, read with
      default `product_search`. */
  function CreateSteps(data: map<string, Json>): (steps: seq<ExecutionStep>)
    ensures |steps| <= 1
    ensures |steps| == 1 <==> Get(data, "intent", JStr("product_search")) in {JStr("product_search"), JStr("ui_handling_action")}
    ensures forall s | s in steps :: s.stepNumber == 1 && s.dependsOn == [] && !s.optional
  {
    var intent := Get(data, "intent", JStr("product_search"));
    if intent == JStr("product_search") then
      [ExecutionStep(1, "search", "products.list", "Execute product search with LLM analysis", data, [], false)]
    else if intent == JStr("ui_handling_action") then
      var uiHandlers := Get(data, "ui_handlers", JArr([]));
      [ExecutionStep(1, "ui_action", "ui.handle", "Execute UI action",
                     map["action" := Get(data, "action", JStr("unknown")),
                         "ui_handlers" := uiHandlers,
                         "query" := Get(data, "original_query", JStr(""))],
                     [], false)]
    else []
  }

  /** Everything after the reply has parsed to an object: query analysis,
      the general-chat shortcut, the scope gate and step creation. */
  function PlanFromData(data: map<string, Json>, config: AppConfig, history: Option<seq<map<string, Json>>>)
    : (r: Result<ExecutionPlan, PlanError>)
    ensures r.Err? <==> (|| ("intent" in data && !data["intent"].JStr?)
                         || ("confidence" in data && !data["confidence"].JNum?)
                         || (&& Get(data, "intent", JStr("product_search")) == JStr("general_chat")
                             && "message" in data && !data["message"].JStr? && !data["message"].JNull?))
    ensures r.Ok? ==> r.value.queryAnalysis.detectedEntities == data
    ensures r.Ok? ==> (r.value.queryAnalysis.requiresConversationContext <==> history.Some? && |history.value| > 0)
    ensures r.Ok? ==> r.value.uiGuidance.None?
    ensures r.Ok? ==> |r.value.steps| <= 1
    ensures r.Ok? ==> (r.value.expectedResultFormat == "structured_product_response" <==> |r.value.steps| == 1)
  {
    var intentField := Get(data, "intent", JStr("general"));
    var confidenceField := Get(data, "confidence", JNum(0.5));
    if !intentField.JStr? then Err(TypeFailure("intent"))
    else if !confidenceField.JNum? then Err(TypeFailure("confidence"))
    else
      var analysis := QueryAnalysis(intentField.s, confidenceField.n, data, history.Some? && |history.value| > 0);
      var intent := Get(data, "intent", JStr("product_search"));
      if intent == JStr("general_chat") then
        var message := Get(data, "message", JStr(ChatDefault));
        if message.JStr? then Ok(ExecutionPlan(analysis, [], Some(message.s), "text_response", None))
        else if message.JNull? then Ok(ExecutionPlan(analysis, [], None, "text_response", None))
        else Err(TypeFailure("fallback_response"))
      else if !InScope(data) then
        var fallback := if config.fallbackMessage != "" then config.fallbackMessage else ScopeDefault;
        Ok(ExecutionPlan(analysis, [], Some(fallback), "text_response", None))
      else
        var steps := CreateSteps(data);
        Ok(ExecutionPlan(analysis, steps, None,
                         if |steps| > 0 then "structured_product_response" else "text_response", None))
  }

  /** The parse outcome of the extracted object, turned into a plan or an error. */
  function PlanFromParse(res: ParseResult, config: AppConfig, history: Option<seq<map<string, Json>>>)
    : (r: Result<ExecutionPlan, PlanError>)
    ensures res.DecodeError? ==> r == Err(ValueError(NotValidPrefix + res.msg))
  {
    match res
    case DecodeError(m) => Err(ValueError(NotValidPrefix + m))
    case Parsed(v) =>
      if v.JObj? then PlanFromData(v.fields, config, history) else Err(TypeFailure("llm_data"))
  }

  /** `create_execution_plan_with_llm`, given the looked-up app configuration
      and `json.loads`. Only the text up to the `}` that closes the first
      object is parsed; no `{`, or no such `}`, is an error. */
  method CreateExecutionPlan(appName: string, config: Option<AppConfig>, llmAnalysis: string,
                             history: Option<seq<map<string, Json>>>, parse: Parser)
    returns (r: Result<ExecutionPlan, PlanError>)
    ensures config.None? ==> r == Ok(UnknownAppPlan(appName))
    ensures config.Some? && '{' !in llmAnalysis ==> r == Err(ValueError(NoJsonMessage))
    ensures config.Some? && '{' in llmAnalysis ==>
      var start := FindChar(llmAnalysis, '{') as nat;
      && (NeverCloses(llmAnalysis, start) ==> r == Err(ValueError(IncompleteMessage)))
      && (forall e: nat | ClosesAt(llmAnalysis, start, e) :: r == PlanFromParse(parse(llmAnalysis[start..e]), config.value, history))
  {
    if config.None? {
      return Ok(UnknownAppPlan(appName));
    }
    var jsonStart := FindChar(llmAnalysis, '{');
    if jsonStart == -1 {
      return Err(ValueError(NoJsonMessage));
    }
    var jsonEnd := FirstObjectEnd(llmAnalysis, jsonStart);
    if jsonEnd.None? {
      return Err(ValueError(IncompleteMessage));
    }
    forall e: nat | ClosesAt(llmAnalysis, jsonStart, e) ensures e == jsonEnd.value {
      ClosesAtUnique(llmAnalysis, jsonStart, e, jsonEnd.value);
    }
    var firstJson := llmAnalysis[jsonStart..jsonEnd.value];
    r := PlanFromParse(parse(firstJson), config.value, history);
  }

  /** A general-chat reply gives no steps and its own message (or the
      default one), whatever its confidence: the shortcut comes before the
      scope gate. */
  lemma GeneralChatShortcut(data: map<string, Json>, config: AppConfig, history: Option<seq<map<string, Json>>>)
    requires "intent" in data && data["intent"] == JStr("general_chat")
    requires "confidence" in data ==> data["confidence"].JNum?
    requires "message" in data ==> data["message"].JStr?
    ensures var r := PlanFromData(data, config, history);
      && r.Ok? && r.value.steps == [] && r.value.expectedResultFormat == "text_response"
      && r.value.fallbackResponse == Some(if "message" in data then data["message"].s else ChatDefault)
  {
  }

  /** Out of scope (intent absent or `general`, confidence absent or at most
      0.7) gives no steps and the app's fallback message, or the default
      when that is empty. */
  lemma OutOfScopePlan(data: map<string, Json>, config: AppConfig, history: Option<seq<map<string, Json>>>)
    requires "intent" in data ==> data["intent"] == JStr("general")
    requires "confidence" in data ==> data["confidence"].JNum? && data["confidence"].n <= 0.7
    ensures var r := PlanFromData(data, config, history);
      && r.Ok? && r.value.steps == [] && r.value.expectedResultFormat == "text_response"
      && r.value.fallbackResponse == Some(if config.fallbackMessage != "" then config.fallbackMessage else ScopeDefault)
  {
  }

  /** A product search gives exactly one `search` step on `products.list`
      whose parameters are the entire parsed object. */
  lemma ProductSearchPlan(data: map<string, Json>, config: AppConfig, history: Option<seq<map<string, Json>>>)
    requires "intent" in data && data["intent"] == JStr("product_search")
    requires "confidence" in data ==> data["confidence"].JNum?
    ensures var r := PlanFromData(data, config, history);
      && r.Ok? && |r.value.steps| == 1
      && r.value.steps[0] == ExecutionStep(1, "search", "products.list",
                                           "Execute product search with LLM analysis", data, [], false)
      && r.value.expectedResultFormat == "structured_product_response"
      && r.value.fallbackResponse.None?
  {
  }

  /** A UI action gives one `ui_action` step on `ui.handle` whose parameters
      are the action, the handlers and the original query, each with its default. */
  lemma UiActionPlan(data: map<string, Json>, config: AppConfig, history: Option<seq<map<string, Json>>>)
    requires "intent" in data && data["intent"] == JStr("ui_handling_action")
    requires "confidence" in data ==> data["confidence"].JNum?
    ensures var r := PlanFromData(data, config, history);
      && r.Ok? && |r.value.steps| == 1
      && r.value.steps[0].stepType == "ui_action" && r.value.steps[0].toolName == "ui.handle"
      && r.value.steps[0].parameters == map["action" := Get(data, "action", JStr("unknown")),
                                              "ui_handlers" := Get(data, "ui_handlers", JArr([])),
                                              "query" := Get(data, "original_query", JStr(""))]
  {
  }

  /** Any other in-scope intent gives no steps and the `text_response` format. */
  lemma OtherIntentPlan(data: map<string, Json>, config: AppConfig, history: Option<seq<map<string, Json>>>)
    requires "intent" in data && data["intent"].JStr?
    requires data["intent"].s !in {"general", "general_chat", "product_search", "ui_handling_action"}
    requires "confidence" in data ==> data["confidence"].JNum?
    ensures var r := PlanFromData(data, config, history);
      r.Ok? && r.value.steps == [] && r.value.expectedResultFormat == "text_response"
  {
  }

  /** The two defaults of the intent disagree: a reply without an intent but
      with confidence above 0.7 is analysed as `general` yet planned as a
      product search. */
  lemma MissingIntentDisagreement(data: map<string, Json>, config: AppConfig, history: Option<seq<map<string, Json>>>)
    requires "intent" !in data && "confidence" in data && data["confidence"].JNum? && data["confidence"].n > 0.7
    ensures var r := PlanFromData(data, config, history);
      && r.Ok? && r.value.queryAnalysis.intent == "general"
      && |r.value.steps| == 1 && r.value.steps[0].toolName == "products.list"
  {
  }

  /** The query analysis reads intent with default `general` and confidence
      with default 0.5. */
  lemma AnalysisDefaults(data: map<string, Json>, config: AppConfig, history: Option<seq<map<string, Json>>>)
    requires "intent" !in data && "confidence" !in data
    ensures var r := PlanFromData(data, config, history);
      r.Ok? && r.value.queryAnalysis.intent == "general" && r.value.queryAnalysis.confidence == 0.5
  {
  }
}
