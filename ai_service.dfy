/** The app-reasoning service of `app/services/ai_service.py` and the input
    guards of its generic and image paths. The configuration lookup, the
    template renderer, Python's `str()`, the model call and `json.loads` are
    inputs. */
module AiService {
  import opened Wrappers
  import opened Text
  import opened JsonModel
  import opened BraceCount
  import opened JsonUtils
  import opened AppReason

  /** The arguments of the model call: prompt, context message and the
      `parameters` value. */
  datatype LlmRequest = LlmRequest(prompt: string, context: Json, parameters: Json)

  const DefaultTemplate := "Analyze the query: \"{user_query}\""
  const SimplePromptHead := "Analyze this query and create execution plan: "
  /** Stands for the text of the `AttributeError` Python raises on a
      configuration or reply value of the wrong type. */
  const WrongTypeText := "unexpected value type"
  const ProcessingFailed := "App reasoning processing failed: "

  function DefaultParameters(): Json {
    JObj(map["max_tokens" := JNum(300.0), "temperature" := JNum(0.1)])
  }

  /** The variables handed to the template: the query and six context
      entries, each rendered with `str()` and defaulting to an empty list or
      mapping. */
  function TemplateVars(userQuery: string, contextData: map<string, Json>, show: Json -> string): (v: map<string, string>)
    ensures v.Keys == {"user_query", "available_categories", "mcp_tools_context", "ui_handlers_context", "conversation_history", "current_filters", "user_session"}
    ensures v["user_query"] == userQuery
    ensures v["current_filters"] == show(Get(contextData, "current_filters", JObj(map[])))
    ensures v["user_session"] == show(Get(contextData, "user_session", JObj(map[])))
    // the four list-valued entries default to an empty list
    ensures v["available_categories"] == show(Get(contextData, "available_categories", JArr([])))
    ensures v["mcp_tools_context"] == show(Get(contextData, "mcp_tools_context", JArr([])))
    ensures v["ui_handlers_context"] == show(Get(contextData, "ui_handlers_context", JArr([])))
    ensures v["conversation_history"] == show(Get(contextData, "conversation_history", JArr([])))
  {
    map["user_query" := userQuery,
        "available_categories" := show(Get(contextData, "available_categories", JArr([]))),
        "mcp_tools_context" := show(Get(contextData, "mcp_tools_context", JArr([]))),
        "ui_handlers_context" := show(Get(contextData, "ui_handlers_context", JArr([]))),
        "conversation_history" := show(Get(contextData, "conversation_history", JArr([]))),
        "current_filters" := show(Get(contextData, "current_filters", JObj(map[]))),
        "user_session" := show(Get(contextData, "user_session", JObj(map[])))]
  }

  /** The model call the configuration asks for. `render` is `str.format`,
      `None` when it raises. */
  function BuildLlmRequest(appConfig: map<string, Json>, userQuery: string, contextData: map<string, Json>,
                           render: (string, map<string, string>) -> Option<string>, show: Json -> string): (r: Result<LlmRequest, string>)
    ensures r.Err? <==> "llm" in appConfig && !appConfig["llm"].JObj?
    ensures r.Err? ==> r.error == ProcessingFailed + WrongTypeText
    ensures r.Ok? && "llm" !in appConfig ==> r.value.parameters == DefaultParameters() && r.value.context == JNull
    ensures r.Ok? ==> var llm := Get(appConfig, "llm", JObj(map[])).fields;
      && r.value.parameters == Get(llm, "parameters", DefaultParameters())
      && var template := Get(llm, "system_prompt", JStr(DefaultTemplate));
         r.value.prompt == if template.JStr? && render(template.s, TemplateVars(userQuery, contextData, show)).Some?
                           then render(template.s, TemplateVars(userQuery, contextData, show)).value
                           else SimplePromptHead + userQuery
  {
    var llm := Get(appConfig, "llm", JObj(map[]));
    if !llm.JObj? then Err(ProcessingFailed + WrongTypeText)
    else
      var template := Get(llm.fields, "system_prompt", JStr(DefaultTemplate));
      var rendered := if template.JStr? then render(template.s, TemplateVars(userQuery, contextData, show)) else None;
      var prompt := if rendered.Some? then rendered.value else SimplePromptHead + userQuery;
      Ok(LlmRequest(prompt, Get(llm.fields, "context_message", JNull), Get(llm.fields, "parameters", DefaultParameters())))
  }

  /** The dictionary the service returns, field by field (timing left out). */
  datatype Formatted = Formatted(
    queryAnalysis: Json,
    executionPlan: Json,
    fallbackResponse: Json,
    expectedResultFormat: Json,
    uiGuidance: Json,
    modelUsed: Json,
    appConfigUsed: string)

  /** What the service returns: the parsed reply itself (for `nextshop`), a
      reply formatted with defaults, or the fixed fallback plan. */
  datatype AppResult = Direct(value: Json) | Reformatted(response: Formatted) | Fallback(response: Formatted)

  function DefaultAnalysis(): Json {
    JObj(map["intent" := JStr("product_search"), "confidence" := JNum(0.9), "detected_entities" := JObj(map[]),
             "requires_conversation_context" := JBool(false)])
  }

  /** A parsed object formatted with defaults. */
  function Format(reply: map<string, Json>, modelUsed: Json, appName: string): (f: Formatted)
    ensures f.queryAnalysis == Get(reply, "query_analysis", DefaultAnalysis())
    ensures f.executionPlan == Get(reply, "execution_plan", JArr([]))
    ensures f.expectedResultFormat == Get(reply, "expected_result_format", JStr("product_list"))
    ensures f.fallbackResponse == Get(reply, "fallback_response", JNull) && f.uiGuidance == Get(reply, "ui_guidance", JNull)
    ensures f.modelUsed == modelUsed && f.appConfigUsed == appName
  {
    Formatted(
      Get(reply, "query_analysis", DefaultAnalysis()),
      Get(reply, "execution_plan", JArr([])),
      Get(reply, "fallback_response", JNull),
      Get(reply, "expected_result_format", JStr("product_list")),
      Get(reply, "ui_guidance", JNull),
      modelUsed,
      appName)
  }

  /** The one search step of the fallback plan. */
  function FallbackStep(userQuery: string): Json {
    JObj(map["step_number" := JNum(1.0), "step_type" := JStr("data_fetch"), "tool_name" := JStr("products.search"),
             "description" := JStr("Search for: " + userQuery),
             "parameters" := JObj(map["query" := JStr(userQuery), "limit" := JNum(10.0)]),
             "optional" := JBool(false)])
  }

  function FallbackPlan(userQuery: string, modelUsed: Json, appName: string): (f: Formatted)
    ensures f.executionPlan == JArr([FallbackStep(userQuery)])
    ensures f.expectedResultFormat == JStr("product_list") && f.fallbackResponse == JNull
    ensures f.uiGuidance == JStr("Display search results") && f.modelUsed == modelUsed && f.appConfigUsed == appName
    // the fixed analysis: a product search at confidence 0.7, no entities, no context needed
    ensures f.queryAnalysis.JObj?
    ensures var qa := f.queryAnalysis.fields;
      && qa.Keys == {"intent", "confidence", "detected_entities", "requires_conversation_context"}
      && qa["intent"] == JStr("product_search") && qa["confidence"] == JNum(0.7)
      && qa["detected_entities"] == JObj(map["categories" := JArr([]), "price_constraints" := JObj(map[])])
      && qa["requires_conversation_context"] == JBool(false)
  {
    Formatted(
      JObj(map["intent" := JStr("product_search"), "confidence" := JNum(0.7),
               "detected_entities" := JObj(map["categories" := JArr([]), "price_constraints" := JObj(map[])]),
               "requires_conversation_context" := JBool(false)]),
      JArr([FallbackStep(userQuery)]),
      JNull,
      JStr("product_list"),
      JStr("Display search results"),
      modelUsed,
      appName)
  }

  /** The text the service tries to parse: the first complete object by the
      naive count, or else the slice from the first `{` through the last
      `}`, empty when no `}` follows the `{`. */
  ghost function ExtractedPart(raw: string, start: nat): (part: string)
    requires start < |raw| && raw[start] == '{'
    ensures part == [] || (part[0] == '{' && part[|part| - 1] == '}')
    ensures part == [] <==> (forall e: nat :: !ClosesAt(raw, start, e)) && RFindChar(raw, '}') < start
  {
    if exists e: nat :: ClosesAt(raw, start, e) then
      var e: nat :| ClosesAt(raw, start, e);
      ClosedEndsWithBrace(raw, start, e);
      raw[start..e]
    else
      var last := RFindChar(raw, '}');
      if last >= start then raw[start..last + 1] else []
  }

  /** How the service reads the model's reply (`raw` is already stripped). */
  ghost function Interpret(appName: string, userQuery: string, raw: string, modelUsed: Json, parse: Parser): (r: Result<AppResult, string>)
    ensures '{' !in raw ==> r == Err("No valid JSON structure found in LLM response")
    ensures r.Ok? && r.value.Fallback? ==> r.value.response == FallbackPlan(userQuery, modelUsed, appName)
    ensures r.Ok? && r.value.Direct? ==> appName == "nextshop"
    ensures r.Ok? && r.value.Reformatted? ==> r.value.response.modelUsed == modelUsed && r.value.response.appConfigUsed == appName
  {
    var start := FindChar(raw, '{');
    if start == -1 then Err("No valid JSON structure found in LLM response")
    else
      var part := ExtractedPart(raw, start as nat);
      if part == [] then Ok(Fallback(FallbackPlan(userQuery, modelUsed, appName)))
      else
        match parse(part)
        case Parsed(v) =>
          if appName == "nextshop" then Ok(Direct(v))
          else if v.JObj? then Ok(Reformatted(Format(v.fields, modelUsed, appName)))
          else Err(ProcessingFailed + WrongTypeText)
        case DecodeError(_) =>
          var completed := Completed(raw, parse);
          match parse(completed)
          case Parsed(JObj(fields)) => Ok(Reformatted(Format(fields, modelUsed, appName)))
          case _ => Ok(Fallback(FallbackPlan(userQuery, modelUsed, appName)))
  }

  /** The extraction step, as the service's loop and its `rfind` fallback compute it. */
  method ExtractJsonPart(raw: string, start: nat) returns (part: string)
    requires start < |raw| && raw[start] == '{'
    ensures part == ExtractedPart(raw, start)
  {
    var jsonEnd := FirstObjectEnd(raw, start);
    if jsonEnd.Some? {
      forall e: nat | ClosesAt(raw, start, e) ensures e == jsonEnd.value {
        ClosesAtUnique(raw, start, e, jsonEnd.value);
      }
      part := raw[start..jsonEnd.value];
    } else {
      forall e: nat ensures !ClosesAt(raw, start, e) {
        NeverClosesHasNoEnd(raw, start, e);
      }
      var last := RFindChar(raw, '}');
      part := if last >= start then raw[start..last + 1] else [];
    }
  }

  /** `process_app_specific_reasoning`. `config` is what the configuration
      lookup returned for the app; `generate` is the model call. */
  method ProcessAppSpecificReasoning(appName: string, userQuery: string, contextData: map<string, Json>,
                                     config: Option<map<string, Json>>,
                                     render: (string, map<string, string>) -> Option<string>, show: Json -> string,
                                     generate: LlmRequest -> Generation, parse: Parser)
    returns (r: Result<AppResult, string>)
    ensures IsBlank(appName) ==> r == Err("App name cannot be empty")
    ensures !IsBlank(appName) && IsBlank(userQuery) ==> r == Err("User query cannot be empty")
    ensures !IsBlank(appName) && !IsBlank(userQuery) && (config.None? || config.value == map[]) ==>
      r == Err("App '" + appName + "' configuration not found")
    ensures !IsBlank(appName) && !IsBlank(userQuery) && config.Some? && config.value != map[] ==>
      var req := BuildLlmRequest(config.value, userQuery, contextData, render, show);
      && (req.Err? ==> r == Err(req.error))
      && (req.Ok? && generate(req.value).GenerationFailed? ==> r == Err(ProcessingFailed + generate(req.value).message))
      && (req.Ok? && generate(req.value).Generated? ==>
            var g := generate(req.value);
            var modelUsed := if g.modelUsed.Some? then JStr(g.modelUsed.value) else JStr("unknown");
            r == Interpret(appName, userQuery, Strip(g.result.GetOr("")), modelUsed, parse))
  {
    if Strip(appName) == [] {
      return Err("App name cannot be empty");
    }
    if Strip(userQuery) == [] {
      return Err("User query cannot be empty");
    }
    if config.None? || config.value == map[] {
      return Err("App '" + appName + "' configuration not found");
    }
    var req := BuildLlmRequest(config.value, userQuery, contextData, render, show);
    if req.Err? {
      return Err(req.error);
    }
    var llmResult := generate(req.value);
    if llmResult.GenerationFailed? {
      return Err(ProcessingFailed + llmResult.message);
    }
    var modelUsed := if llmResult.modelUsed.Some? then JStr(llmResult.modelUsed.value) else JStr("unknown");
    var rawResponse := Strip(llmResult.result.GetOr(""));
    r := InterpretReply(appName, userQuery, rawResponse, modelUsed, parse);
  }

  /** The reply handling of the service, from the stripped reply on. */
  method InterpretReply(appName: string, userQuery: string, rawResponse: string, modelUsed: Json, parse: Parser)
    returns (r: Result<AppResult, string>)
    ensures r == Interpret(appName, userQuery, rawResponse, modelUsed, parse)
  {
    var jsonStart := FindChar(rawResponse, '{');
    if jsonStart == -1 {
      return Err("No valid JSON structure found in LLM response");
    }
    var jsonPart := ExtractJsonPart(rawResponse, jsonStart);
    if jsonPart == [] {
      return Ok(Fallback(FallbackPlan(userQuery, modelUsed, appName)));
    }
    var parsed := parse(jsonPart);
    if parsed.Parsed? {
      if appName == "nextshop" {
        return Ok(Direct(parsed.value));
      }
      if !parsed.value.JObj? {
        return Err(ProcessingFailed + WrongTypeText);
      }
      return Ok(Reformatted(Format(parsed.value.fields, modelUsed, appName)));
    }
    var processed := CompleteJsonStructure(rawResponse, parse);
    var completedJson := parse(processed);
    if completedJson.Parsed? && completedJson.value.JObj? {
      return Ok(Reformatted(Format(completedJson.value.fields, modelUsed, appName)));
    }
    return Ok(Fallback(FallbackPlan(userQuery, modelUsed, appName)));
  }

  /** With a conforming parser, the closer's output reads as an object. */
  lemma CompletedIsObject(raw: string, parse: Parser)
    requires SaneParser(parse)
    ensures parse(Completed(raw, parse)).Parsed? && parse(Completed(raw, parse)).value.JObj?
  {
    CompletedParses(raw, parse);
    SafeParseOfCompleted(raw, parse);
  }

  /** The outcome of a non-empty part, case by case, for any parser. */
  lemma NonEmptyPartOutcome(appName: string, userQuery: string, raw: string, modelUsed: Json, parse: Parser)
    requires '{' in raw
    requires ExtractedPart(raw, FindChar(raw, '{') as nat) != []
    ensures var part := ExtractedPart(raw, FindChar(raw, '{') as nat);
      var r := Interpret(appName, userQuery, raw, modelUsed, parse);
      && (parse(part).Parsed? && appName == "nextshop" ==> r == Ok(Direct(parse(part).value)))
      && (parse(part).Parsed? && appName != "nextshop" && parse(part).value.JObj? ==>
            r == Ok(Reformatted(Format(parse(part).value.fields, modelUsed, appName))))
      && (parse(part).DecodeError? && parse(Completed(raw, parse)).Parsed? && parse(Completed(raw, parse)).value.JObj? ==>
            r == Ok(Reformatted(Format(parse(Completed(raw, parse)).value.fields, modelUsed, appName))))
  {
  }

  /** With a conforming parser, the fallback plan is returned exactly when
      the extracted part is empty: a part that does not parse is always
      rescued by the closer, which falls back to `{}` at worst. */
  lemma FallbackIffEmptyPart(appName: string, userQuery: string, raw: string, modelUsed: Json, parse: Parser)
    requires SaneParser(parse)
    requires '{' in raw
    ensures var r := Interpret(appName, userQuery, raw, modelUsed, parse);
      var part := ExtractedPart(raw, FindChar(raw, '{') as nat);
      (r.Ok? && r.value.Fallback?) <==> part == []
  {
    var part := ExtractedPart(raw, FindChar(raw, '{') as nat);
    if part != [] {
      assert ObjectText(part);
      CompletedIsObject(raw, parse);
      NonEmptyPartOutcome(appName, userQuery, raw, modelUsed, parse);
    }
  }

  /** With a conforming parser, every reply holding a `{` ends in a
      response: the parser reads a `{`-headed text as an object, so the
      wrong-type error cannot occur. */
  lemma NonEmptyPartAnswers(appName: string, userQuery: string, raw: string, modelUsed: Json, parse: Parser)
    requires SaneParser(parse)
    requires '{' in raw
    ensures Interpret(appName, userQuery, raw, modelUsed, parse).Ok?
  {
    var part := ExtractedPart(raw, FindChar(raw, '{') as nat);
    if part != [] {
      assert ObjectText(part);
      CompletedIsObject(raw, parse);
      NonEmptyPartOutcome(appName, userQuery, raw, modelUsed, parse);
    }
  }

  /** For `nextshop`, a part that parses is returned as the parser read it. */
  lemma NextshopReturnsParsed(userQuery: string, raw: string, modelUsed: Json, parse: Parser)
    requires '{' in raw
    requires var part := ExtractedPart(raw, FindChar(raw, '{') as nat); part != [] && parse(part).Parsed?
    ensures Interpret("nextshop", userQuery, raw, modelUsed, parse)
         == Ok(Direct(parse(ExtractedPart(raw, FindChar(raw, '{') as nat)).value))
  {
  }

  /** A part that fails to parse is repaired from the whole reply, not from
      the part, and the result is formatted even for `nextshop`. */
  lemma RepairUsesWholeReply(appName: string, userQuery: string, raw: string, modelUsed: Json, parse: Parser)
    requires SaneParser(parse)
    requires '{' in raw
    requires var part := ExtractedPart(raw, FindChar(raw, '{') as nat); part != [] && parse(part).DecodeError?
    ensures var c := parse(Completed(raw, parse));
      && c.Parsed? && c.value.JObj?
      && Interpret(appName, userQuery, raw, modelUsed, parse) == Ok(Reformatted(Format(c.value.fields, modelUsed, appName)))
  {
    CompletedIsObject(raw, parse);
    NonEmptyPartOutcome(appName, userQuery, raw, modelUsed, parse);
  }

  /** The answer of `process_generic_reasoning` and `process_image_reasoning`
      (timing left out). */
  datatype ReasoningResult = ReasoningResult(result: string, modelUsed: string, taskType: string)

  /** `process_generic_reasoning`: a blank instruction is rejected before the
      model is called; a failed call is wrapped. */
  function ProcessGenericReasoning(instruction: string, gen: Generation): (r: Result<ReasoningResult, string>)
    ensures IsBlank(instruction) ==> r == Err("Instruction cannot be empty")
    ensures !IsBlank(instruction) && gen.GenerationFailed? ==> r == Err("Text generation failed: " + gen.message)
    ensures r.Ok? <==> !IsBlank(instruction) && gen.Generated? && gen.result.Some? && gen.modelUsed.Some?
    ensures r.Ok? ==> r.value == ReasoningResult(gen.result.value, gen.modelUsed.value, "reasoning")
  {
    if Strip(instruction) == [] then Err("Instruction cannot be empty")
    else match gen
      case GenerationFailed(m) => Err("Text generation failed: " + m)
      case Generated(res, model) =>
        if res.None? then Err("Text generation failed: 'result'")
        else if model.None? then Err("Text generation failed: 'model_used'")
        else Ok(ReasoningResult(res.value, model.value, "reasoning"))
  }

  /** `process_image_reasoning`: a blank instruction, then blank image data,
      is rejected before any model work; a failed analysis is wrapped. */
  function ProcessImageReasoning(instruction: string, imageData: string, analysis: Generation): (r: Result<ReasoningResult, string>)
    ensures IsBlank(instruction) ==> r == Err("Instruction cannot be empty")
    ensures !IsBlank(instruction) && IsBlank(imageData) ==> r == Err("Image data cannot be empty")
    ensures !IsBlank(instruction) && !IsBlank(imageData) && analysis.GenerationFailed? ==> r == Err("Image reasoning failed: " + analysis.message)
    ensures r.Ok? <==> !IsBlank(instruction) && !IsBlank(imageData) && analysis.Generated? && analysis.result.Some? && analysis.modelUsed.Some?
    ensures r.Ok? ==> r.value == ReasoningResult(analysis.result.value, analysis.modelUsed.value, "image_reasoning")
  {
    if Strip(instruction) == [] then Err("Instruction cannot be empty")
    else if Strip(imageData) == [] then Err("Image data cannot be empty")
    else match analysis
      case GenerationFailed(m) => Err("Image reasoning failed: " + m)
      case Generated(res, model) =>
        if res.None? then Err("Image reasoning failed: 'result'")
        else if model.None? then Err("Image reasoning failed: 'model_used'")
        else Ok(ReasoningResult(res.value, model.value, "image_reasoning"))
  }
}
