/** The AI controller of `app/controllers/ai_controller.py`: each handler
    awaits one service call under a time limit and turns its outcome into
    a response or an HTTP status. How long the service takes is an input
    (`duration`, in whole seconds); the service itself is the model of
    `app/services/ai_service.py`. */
module AiController {
  import opened Wrappers
  import opened Text
  import opened JsonModel
  import opened AiService
  import AppReason

  type HttpError = AppReason.HttpError
  type Generation = AppReason.Generation

  /** Seconds a text request may take. */
  const RequestTimeout: nat := 300
  /** Seconds an image request may take: twice the text limit. */
  const ImageTimeout: nat := RequestTimeout * 2

  const TimeoutDetail := "Request timeout: Processing took too long"
  const ImageTimeoutDetail := "Request timeout: Image processing took too long"
  const InternalDetail := "Internal server error"

  /** What awaiting a service call gives: its value, the timeout, a
      `ValueError` with its message, or any other exception. */
  datatype Awaited<T> = Returned(value: T) | TimedOut | ValueError(message: string) | OtherFailure(message: string)

  /** `asyncio.wait_for(call, timeout)` for a call that needs `duration`
      seconds. The services raise nothing but `ValueError`, so an error
      outcome is one. */
  function Await<T>(duration: nat, timeout: nat, outcome: Result<T, string>): (a: Awaited<T>)
    ensures a.TimedOut? <==> duration > timeout
    ensures duration <= timeout && outcome.Ok? ==> a == Returned(outcome.value)
    ensures duration <= timeout && outcome.Err? ==> a == ValueError(outcome.error)
  {
    if duration > timeout then TimedOut
    else match outcome
      case Ok(v) => Returned(v)
      case Err(m) => ValueError(m)
  }

  /** The `except` clauses shared by the three handlers: a timeout is 408, a
      `ValueError` is 400 with its message, anything else is 500 with a
      fixed detail that hides the message. */
  function Classify<T>(a: Awaited<T>, timeoutDetail: string): (r: Result<T, HttpError>)
    ensures r.Ok? <==> a.Returned?
    ensures r.Ok? ==> r.value == a.value
    ensures a.TimedOut? ==> r == Err(AppReason.HttpError(408, timeoutDetail))
    ensures a.ValueError? ==> r == Err(AppReason.HttpError(400, a.message))
    ensures a.OtherFailure? ==> r == Err(AppReason.HttpError(500, InternalDetail))
  {
    match a
    case Returned(v) => Ok(v)
    case TimedOut => Err(AppReason.HttpError(408, timeoutDetail))
    case ValueError(m) => Err(AppReason.HttpError(400, m))
    case OtherFailure(_) => Err(AppReason.HttpError(500, InternalDetail))
  }

  /** `ReasoningRequest`. */
  datatype ReasoningRequest = ReasoningRequest(instruction: string, context: Option<string>, parameters: map<string, Json>, taskType: string)

  /** `ImageReasoningRequest`. */
  datatype ImageReasoningRequest = ImageReasoningRequest(instruction: string, imageData: string, imageFormat: string,
                                                         context: Option<string>, parameters: map<string, Json>)

  /** `handle_generic_reasoning`; `gen` is what the model call gave. Every
      service failure is a `ValueError`, so this handler answers 400 or 408
      and never 500. The request's `task_type` is not passed on: the
      response always says `reasoning`. */
  function HandleGenericReasoning(request: ReasoningRequest, duration: nat, gen: Generation): (r: Result<ReasoningResult, HttpError>)
    ensures duration > RequestTimeout ==> r == Err(AppReason.HttpError(408, TimeoutDetail))
    ensures duration <= RequestTimeout && IsBlank(request.instruction) ==>
      r == Err(AppReason.HttpError(400, "Instruction cannot be empty"))
    ensures duration <= RequestTimeout && !IsBlank(request.instruction) && gen.GenerationFailed? ==>
      r == Err(AppReason.HttpError(400, "Text generation failed: " + gen.message))
    ensures r.Err? ==> r.error.status == 400 || r.error.status == 408
    ensures r.Ok? ==> gen.Generated? && gen.result.Some? && r.value.result == gen.result.value && r.value.taskType == "reasoning"
  {
    Classify(Await(duration, RequestTimeout, ProcessGenericReasoning(request.instruction, gen)), TimeoutDetail)
  }

  /** `handle_image_reasoning`, with the doubled limit and its own timeout
      detail; `analysis` is what the image analysis gave. */
  function HandleImageReasoning(request: ImageReasoningRequest, duration: nat, analysis: Generation): (r: Result<ReasoningResult, HttpError>)
    ensures duration > ImageTimeout ==> r == Err(AppReason.HttpError(408, ImageTimeoutDetail))
    ensures duration <= ImageTimeout && IsBlank(request.instruction) ==>
      r == Err(AppReason.HttpError(400, "Instruction cannot be empty"))
    ensures duration <= ImageTimeout && !IsBlank(request.instruction) && IsBlank(request.imageData) ==>
      r == Err(AppReason.HttpError(400, "Image data cannot be empty"))
    ensures duration <= ImageTimeout && !IsBlank(request.instruction) && !IsBlank(request.imageData) && analysis.GenerationFailed? ==>
      r == Err(AppReason.HttpError(400, "Image reasoning failed: " + analysis.message))
    ensures r.Err? ==> r.error.status == 400 || r.error.status == 408
    ensures r.Ok? ==>
      && analysis.Generated? && analysis.result.Some?
      && r.value.result == analysis.result.value && r.value.taskType == "image_reasoning"
  {
    Classify(Await(duration, ImageTimeout, ProcessImageReasoning(request.instruction, request.imageData, analysis)), ImageTimeoutDetail)
  }

  /** A call that takes more than 300 but at most 600 seconds times out as
      a text request and not as an image request. */
  lemma ImageGetsTwiceTheTime(duration: nat, text: ReasoningRequest, image: ImageReasoningRequest, gen: Generation, analysis: Generation)
    requires RequestTimeout < duration <= ImageTimeout
    ensures HandleGenericReasoning(text, duration, gen) == Err(AppReason.HttpError(408, TimeoutDetail))
    ensures var r := HandleImageReasoning(image, duration, analysis); r.Err? ==> r.error.status == 400
  {
  }

  /** `AppSpecificReasoningRequest`. */
  datatype AppRequest = AppRequest(
    appName: string,
    userQuery: string,
    availableCategories: Option<seq<string>>,
    conversationHistory: Option<seq<map<string, Json>>>,
    mcpToolsContext: Option<seq<map<string, Json>>>,
    uiHandlersContext: Option<seq<map<string, Json>>>,
    currentFilters: Option<map<string, Json>>,
    userSession: Option<map<string, Json>>)

  /** An optional list of objects as it lands in the dump. */
  function ObjectsJson(xs: Option<seq<map<string, Json>>>): (j: Json)
    ensures xs.None? <==> j == JNull
    ensures xs.Some? ==> j.JArr? && |j.items| == |xs.value| && forall i | 0 <= i < |xs.value| :: j.items[i] == JObj(xs.value[i])
  {
    if xs.None? then JNull else JArr(seq(|xs.value|, i requires 0 <= i < |xs.value| => JObj(xs.value[i])))
  }

  /** An optional object as it lands in the dump. */
  function ObjectJson(x: Option<map<string, Json>>): (j: Json)
    ensures x.None? <==> j == JNull
    ensures x.Some? ==> j == JObj(x.value)
  {
    if x.None? then JNull else JObj(x.value)
  }

  const DumpKeys: set<string> := {"app_name", "user_query", "available_categories", "conversation_history",
                                  "mcp_tools_context", "ui_handlers_context", "current_filters", "user_session"}

  /** `request.model_dump()`: every field of the request, the absent
      optional ones as JSON null. */
  function ModelDump(request: AppRequest): (d: map<string, Json>)
    ensures d.Keys == DumpKeys
    ensures d["app_name"] == JStr(request.appName) && d["user_query"] == JStr(request.userQuery)
    ensures d["available_categories"] == AppReason.CategoriesJson(request.availableCategories)
    ensures d["conversation_history"] == ObjectsJson(request.conversationHistory)
    ensures d["current_filters"] == ObjectJson(request.currentFilters)
    ensures d["mcp_tools_context"] == ObjectsJson(request.mcpToolsContext)
    ensures d["ui_handlers_context"] == ObjectsJson(request.uiHandlersContext)
    ensures d["user_session"] == ObjectJson(request.userSession)
  {
    map["app_name" := JStr(request.appName),
        "user_query" := JStr(request.userQuery),
        "available_categories" := AppReason.CategoriesJson(request.availableCategories),
        "conversation_history" := ObjectsJson(request.conversationHistory),
        "mcp_tools_context" := ObjectsJson(request.mcpToolsContext),
        "ui_handlers_context" := ObjectsJson(request.uiHandlersContext),
        "current_filters" := ObjectJson(request.currentFilters),
        "user_session" := ObjectJson(request.userSession)]
  }

  /** Because the dump holds every field, the template variables always
      show what the client sent: an absent field renders as null, never as
      the service's `[]` or `{}` default. */
  lemma DumpReachesTemplate(request: AppRequest, show: Json -> string)
    ensures var v := TemplateVars(request.userQuery, ModelDump(request), show);
      && v["user_query"] == request.userQuery
      && v["available_categories"] == show(AppReason.CategoriesJson(request.availableCategories))
      && v["conversation_history"] == show(ObjectsJson(request.conversationHistory))
      && v["mcp_tools_context"] == show(ObjectsJson(request.mcpToolsContext))
      && v["ui_handlers_context"] == show(ObjectsJson(request.uiHandlersContext))
      && v["current_filters"] == show(ObjectJson(request.currentFilters))
      && v["user_session"] == show(ObjectJson(request.userSession))
  {
  }

  /** `handle_app_reasoning`: the whole request, dumped, is the context, and
      the app name and query are also passed on their own. `config` is what
      the configuration lookup gives for the app; `render`, `show`,
      `generate` and `parse` are the template renderer, `str()`, the model
      call and `json.loads`. */
  method HandleAppReasoning(request: AppRequest, duration: nat, config: Option<map<string, Json>>,
                            render: (string, map<string, string>) -> Option<string>, show: Json -> string,
                            generate: LlmRequest -> Generation, parse: JsonModel.Parser)
    returns (r: Result<AppResult, HttpError>)
    ensures duration > RequestTimeout ==> r == Err(AppReason.HttpError(408, TimeoutDetail))
    ensures r.Err? ==> r.error.status == 400 || r.error.status == 408
    ensures duration <= RequestTimeout && IsBlank(request.appName) ==>
      r == Err(AppReason.HttpError(400, "App name cannot be empty"))
    ensures duration <= RequestTimeout && !IsBlank(request.appName) && IsBlank(request.userQuery) ==>
      r == Err(AppReason.HttpError(400, "User query cannot be empty"))
    ensures duration <= RequestTimeout && !IsBlank(request.appName) && !IsBlank(request.userQuery)
            && (config.None? || config.value == map[]) ==>
      r == Err(AppReason.HttpError(400, "App '" + request.appName + "' configuration not found"))
    ensures duration <= RequestTimeout && !IsBlank(request.appName) && !IsBlank(request.userQuery)
            && config.Some? && config.value != map[] ==>
      var req := BuildLlmRequest(config.value, request.userQuery, ModelDump(request), render, show);
      && (req.Err? ==> r == Err(AppReason.HttpError(400, req.error)))
      && (req.Ok? && generate(req.value).GenerationFailed? ==>
            r == Err(AppReason.HttpError(400, ProcessingFailed + generate(req.value).message)))
      && (req.Ok? && generate(req.value).Generated? ==>
            var g := generate(req.value);
            var modelUsed := if g.modelUsed.Some? then JStr(g.modelUsed.value) else JStr("unknown");
            var i := Interpret(request.appName, request.userQuery, Strip(g.result.GetOr("")), modelUsed, parse);
            && (r.Ok? <==> i.Ok?)
            && (r.Ok? ==> r.value == i.value)
            && (r.Err? ==> r.error == AppReason.HttpError(400, i.error)))
  {
    var requestDict := ModelDump(request);
    var result := ProcessAppSpecificReasoning(request.appName, request.userQuery, requestDict, config,
                                              render, show, generate, parse);
    r := Classify(Await(duration, RequestTimeout, result), TimeoutDetail);
  }
}
