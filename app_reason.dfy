/** The parsing, repair and default-filling block of the `/app-reason`
    endpoint and the status outcome of `/reason` (`app/main.py`). The
    language model is not modelled: its outcome is an input. */
module AppReason {
  import opened Wrappers
  import opened Text
  import opened JsonModel
  import opened BraceCount

  /** An `HTTPException` with its status code and detail. */
  datatype HttpError = HttpError(status: int, detail: string)

  /** What `model_manager.generate_text` gave: its result dictionary (with
      `result` and `model_used` possibly absent), or the text of the
      exception it raised. */
  datatype Generation = Generated(result: Option<string>, modelUsed: Option<string>) | GenerationFailed(message: string)

  /** One rule of the truncation patcher: when the right-stripped text ends
      with `suffix`, remove `drop` characters and append `extra`. */
  datatype Rule = Rule(suffix: string, drop: nat, extra: string)

  /** The ordered rule table of the truncated path. */
  const Rules: seq<Rule> := [
    Rule("\"ui", 3, "\"ui_handlers\":[]"),
    Rule("\"var", 4, "\"variants\":[]"),
    Rule("\"con", 4, "\"confidence\":0.9"),
    Rule("\"rating\":", 0, "4"),
    Rule("\"price\":", 0, "{}"),
    Rule(":", 0, "null"),
    Rule(",", 1, "")
  ]

  predicate Fires(rule: Rule, s: string) {
    EndsWith(s, rule.suffix) && rule.drop <= |s|
  }

  function Apply(rule: Rule, s: string): string
    requires rule.drop <= |s|
  {
    s[..|s| - rule.drop] + rule.extra
  }

  /** The reference reading of a rule table: the first rule from index `i`
      on whose suffix matches fires, and no other. */
  function ApplyFirst(rules: seq<Rule>, i: nat, s: string): string
    decreases |rules| - i
  {
    if i >= |rules| then s
    else if Fires(rules[i], s) then Apply(rules[i], s)
    else ApplyFirst(rules, i + 1, s)
  }

  /** First match wins: with no rule firing the text is unchanged, and
      otherwise exactly the earliest firing rule is applied. */
  lemma {:induction false} FirstMatchWins(rules: seq<Rule>, i: nat, s: string)
    ensures (forall k | i <= k < |rules| :: !Fires(rules[k], s)) ==> ApplyFirst(rules, i, s) == s
    ensures forall j | i <= j < |rules| && Fires(rules[j], s) && (forall k | i <= k < j :: !Fires(rules[k], s)) ::
      ApplyFirst(rules, i, s) == Apply(rules[j], s)
    decreases |rules| - i
  {
    if i < |rules| {
      if Fires(rules[i], s) {
        // the earliest firing rule from `i` on is rule `i` itself
        forall j | i < j < |rules| && Fires(rules[j], s)
          ensures exists k | i <= k < j :: Fires(rules[k], s)
        {
          assert Fires(rules[i], s);
        }
      } else {
        FirstMatchWins(rules, i + 1, s);
      }
    }
  }

  /** The patcher as the endpoint writes it, one `elif` per rule. */
  function Patch(completed: string): string {
    if EndsWith(completed, "\"ui") then completed[..|completed| - 3] + "\"ui_handlers\":[]"
    else if EndsWith(completed, "\"var") then completed[..|completed| - 4] + "\"variants\":[]"
    else if EndsWith(completed, "\"con") then completed[..|completed| - 4] + "\"confidence\":0.9"
    else if EndsWith(completed, "\"rating\":") then completed + "4"
    else if EndsWith(completed, "\"price\":") then completed + "{}"
    else if EndsWith(completed, ":") then completed + "null"
    else if EndsWith(completed, ",") then completed[..|completed| - 1]
    else completed
  }

  /** The chain of `elif`s is the rule table read first-match-wins. */
  lemma PatchIsFirstMatch(s: string)
    ensures Patch(s) == ApplyFirst(Rules, 0, s)
  {
    var r := Rules;
    if EndsWith(s, "\"ui") {
      assert Fires(r[0], s);
      assert ApplyFirst(r, 0, s) == s[..|s| - 3] + "\"ui_handlers\":[]";
    } else if EndsWith(s, "\"var") {
      assert !Fires(r[0], s) && Fires(r[1], s);
      assert ApplyFirst(r, 0, s) == s[..|s| - 4] + "\"variants\":[]";
    } else if EndsWith(s, "\"con") {
      assert !Fires(r[0], s) && !Fires(r[1], s) && Fires(r[2], s);
      assert ApplyFirst(r, 0, s) == s[..|s| - 4] + "\"confidence\":0.9";
    } else {
      assert !Fires(r[0], s) && !Fires(r[1], s) && !Fires(r[2], s);
      assert ApplyFirst(r, 0, s) == ApplyFirst(r, 3, s);
      PatchTailIsFirstMatch(s);
    }
  }

  /** The last four `elif`s, reached when none of the key prefixes matched. */
  lemma PatchTailIsFirstMatch(s: string)
    requires !EndsWith(s, "\"ui") && !EndsWith(s, "\"var") && !EndsWith(s, "\"con")
    ensures Patch(s) == ApplyFirst(Rules, 3, s)
  {
    var r := Rules;
    assert s[..|s| - 0] == s;
    if EndsWith(s, "\"rating\":") {
      assert Fires(r[3], s);
      assert ApplyFirst(r, 3, s) == s + "4";
    } else if EndsWith(s, "\"price\":") {
      assert !Fires(r[3], s) && Fires(r[4], s);
      assert ApplyFirst(r, 3, s) == s + "{}";
    } else if EndsWith(s, ":") {
      assert !Fires(r[3], s) && !Fires(r[4], s) && Fires(r[5], s);
      assert ApplyFirst(r, 3, s) == s + "null";
    } else if EndsWith(s, ",") {
      assert !Fires(r[3], s) && !Fires(r[4], s) && !Fires(r[5], s) && Fires(r[6], s);
      assert s[..|s| - 1] + "" == s[..|s| - 1];
      assert ApplyFirst(r, 3, s) == s[..|s| - 1];
    } else {
      assert !Fires(r[3], s) && !Fires(r[4], s) && !Fires(r[5], s) && !Fires(r[6], s);
      assert ApplyFirst(r, 3, s) == s;
    }
  }

  /** The closing loop of the truncated path: one `}` per `{` not matched by
      a `}`, counted over the whole text; it never adds `]`. */
  method CloseBraces(completed: string) returns (r: string)
    ensures r == Closed(completed)
  {
    r := completed;
    var openBraces := CountChar(completed, '{') - CountChar(completed, '}');
    ghost var n := Max0(openBraces);
    while openBraces > 0
      invariant Max0(openBraces) <= n
      invariant r == completed + Repeat('}', n - Max0(openBraces))
    {
      r := r + "}";
      openBraces := openBraces - 1;
    }
  }

  /** The text with one `}` appended per unmatched `{`. */
  function Closed(completed: string): string {
    completed + Repeat('}', Max0(CountChar(completed, '{') - CountChar(completed, '}')))
  }

  /** After closing, the text has as many `}` as `{` unless it already had
      more, and exactly as many `]` as before. */
  lemma ClosedCounts(completed: string)
    ensures var r := Closed(completed);
      && CountChar(r, ']') == CountChar(completed, ']')
      && CountChar(r, '{') == CountChar(completed, '{')
      && (CountChar(completed, '{') >= CountChar(completed, '}') ==> CountChar(r, '}') == CountChar(r, '{'))
      && (CountChar(completed, '{') < CountChar(completed, '}') ==> r == completed)
  {
    var n := Max0(CountChar(completed, '{') - CountChar(completed, '}'));
    CountCharAppend(completed, Repeat('}', n), ']');
    CountCharAppend(completed, Repeat('}', n), '{');
    CountCharAppend(completed, Repeat('}', n), '}');
    CountRepeat('}', n, ']');
    CountRepeat('}', n, '{');
    CountRepeat('}', n, '}');
    if n == 0 {
      assert Repeat('}', 0) == [];
      assert completed + [] == completed;
    }
  }

  /** `available_categories` as it lands in the JSON: `null` or a list of strings. */
  function CategoriesJson(categories: Option<seq<string>>): Json {
    if categories.None? then JNull else StrList(categories.value)
  }

  /** The keys the complete path fills in when missing. */
  const CompleteKeys: set<string> := {"intent", "confidence", "categories", "product_items", "ui_handlers", "constraints"}

  /** The default filling of the complete path, one `if key not in` at a
      time: the six keys are added when missing and nothing else changes. */
  function FillCompleteDefaults(data: map<string, Json>, categories: Option<seq<string>>): (d: map<string, Json>)
    ensures forall k :: k in d <==> k in data || k in CompleteKeys
    ensures forall k | k in data :: d[k] == data[k]
  {
    var withIntent := SetDefault(data, "intent", JStr("product_search"));
    var withConfidence := SetDefault(withIntent, "confidence", JNum(0.9));
    var withCategories := SetDefault(withConfidence, "categories", CategoriesJson(categories));
    var withItems := SetDefault(withCategories, "product_items", JArr([]));
    var withHandlers := SetDefault(withItems, "ui_handlers", JArr([]));
    SetDefault(withHandlers, "constraints", JObj(map[]))
  }

  /** The defaults of the analysis fields the complete path fills in. */
  lemma CompleteAnalysisDefaults(data: map<string, Json>, categories: Option<seq<string>>)
    ensures var d := FillCompleteDefaults(data, categories);
      && ("intent" !in data ==> d["intent"] == JStr("product_search"))
      && ("confidence" !in data ==> d["confidence"] == JNum(0.9))
      && ("categories" !in data ==> d["categories"] == CategoriesJson(categories))
  {
  }

  /** The complete path starts a missing product list empty. */
  lemma CompleteItemsDefault(data: map<string, Json>, categories: Option<seq<string>>)
    ensures "product_items" !in data ==> FillCompleteDefaults(data, categories)["product_items"] == JArr([])
  {
  }

  /** The complete path starts missing handlers and constraints empty. */
  lemma CompleteHandlerDefaults(data: map<string, Json>, categories: Option<seq<string>>)
    ensures var d := FillCompleteDefaults(data, categories);
      && ("ui_handlers" !in data ==> d["ui_handlers"] == JArr([]))
      && ("constraints" !in data ==> d["constraints"] == JObj(map[]))
  {
  }

  /** The keys the truncated path fills in when missing. */
  const TruncatedKeys: set<string> := {"confidence", "intent", "ui_handlers", "variants"}

  /** The default filling of the truncated path: only four keys, and a
      different set from the complete path's. */
  function FillTruncatedDefaults(data: map<string, Json>): (d: map<string, Json>)
    ensures forall k :: k in d <==> k in data || k in TruncatedKeys
    ensures forall k | k in data :: d[k] == data[k]
  {
    var withConfidence := SetDefault(data, "confidence", JNum(0.9));
    var withIntent := SetDefault(withConfidence, "intent", JStr("product_search"));
    var withHandlers := SetDefault(withIntent, "ui_handlers", JArr([]));
    SetDefault(withHandlers, "variants", JArr([]))
  }

  /** The defaults the truncated path fills in. */
  lemma TruncatedDefaults(data: map<string, Json>)
    ensures var d := FillTruncatedDefaults(data);
      && ("confidence" !in data ==> d["confidence"] == JNum(0.9))
      && ("intent" !in data ==> d["intent"] == JStr("product_search"))
      && ("ui_handlers" !in data ==> d["ui_handlers"] == JArr([]))
      && ("variants" !in data ==> d["variants"] == JArr([]))
  {
  }

  /** The `query_analysis` block of the response. */
  datatype AnalysisOut = AnalysisOut(intent: Json, confidence: Json, detectedEntities: map<string, Json>, requiresConversationContext: bool)

  /** `AppSpecificReasoningResponse` without its timing field. */
  datatype AppReasonResponse = AppReasonResponse(
    queryAnalysis: AnalysisOut,
    executionPlan: seq<map<string, Json>>,
    fallbackResponse: Option<string>,
    expectedResultFormat: string,
    uiGuidance: Option<string>,
    modelUsed: string,
    appConfigUsed: string)

  const AnalysisFailed := "LLM analysis failed: "
  const ParseFailed := "Failed to parse LLM response: "
  const NotValidJson := "LLM response is not valid JSON: "
  /** Stands for the text of the error Python raises when the reply is
      valid JSON but not an object, or its `message` is not a string. */
  const TypeErrorText := "unexpected value type"

  /** The response built from the filled object; `fallback_response` must
      be a string or `None`, so any other `message` is a validation error. */
  function BuildResponse(data: map<string, Json>, modelUsed: Option<string>, appName: string): (r: Result<AppReasonResponse, HttpError>)
    ensures r.Err? <==> "message" in data && !data["message"].JStr? && !data["message"].JNull?
    ensures r.Err? ==> r.error.status == 500
    ensures r.Ok? ==> r.value.executionPlan == [] && r.value.expectedResultFormat == "llm_analysis_only" && r.value.uiGuidance.None?
    ensures r.Ok? ==> r.value.queryAnalysis.detectedEntities == data && !r.value.queryAnalysis.requiresConversationContext
    ensures r.Ok? ==> r.value.queryAnalysis.intent == (if "intent" in data then data["intent"] else JStr("product_search"))
    ensures r.Ok? ==> r.value.fallbackResponse == (if "message" in data && data["message"].JStr? then Some(data["message"].s) else None)
    ensures r.Ok? ==> r.value.modelUsed == modelUsed.GetOr("qwen2.5-3b-instruct") && r.value.appConfigUsed == appName
  {
    var message := Get(data, "message", JNull);
    if !message.JStr? && !message.JNull? then Err(HttpError(500, AnalysisFailed + TypeErrorText))
    else
      Ok(AppReasonResponse(
        AnalysisOut(Get(data, "intent", JStr("product_search")), Get(data, "confidence", JNum(0.9)), data, false),
        [],
        if message.JStr? then Some(message.s) else None,
        "llm_analysis_only",
        None,
        modelUsed.GetOr("qwen2.5-3b-instruct"),
        appName))
  }

  /** The truncated-path text: from the first `{`, right-stripped, patched by
      the first matching rule, then closed with `}`. */
  function Repaired(llm: string, start: nat): string
    requires start <= |llm|
  {
    Closed(Patch(RStrip(llm[start..])))
  }

  /** Parsing of the extracted text and the default filling of the path it
      came from (`complete` for the first complete object). */
  method ParseAndFill(text: string, complete: bool, categories: Option<seq<string>>, parse: Parser)
    returns (r: Result<map<string, Json>, HttpError>)
    ensures parse(text).DecodeError? ==> r == Err(HttpError(500, AnalysisFailed + NotValidJson + parse(text).msg))
    ensures r.Err? ==> r.error.status == 500
    ensures r.Ok? <==> parse(text).Parsed? && parse(text).value.JObj?
    ensures r.Ok? ==> var fields := parse(text).value.fields;
      && (forall k | k in fields :: k in r.value && r.value[k] == fields[k])
      && "intent" in r.value && "confidence" in r.value && "ui_handlers" in r.value
      && ("variants" in r.value <==> !complete || "variants" in fields)
    ensures parse(text).Parsed? && !parse(text).value.JObj? ==>
      r == Err(HttpError(500, AnalysisFailed + ParseFailed + TypeErrorText))
    ensures r.Ok? ==> var fields := parse(text).value.fields;
      r.value == if complete then FillCompleteDefaults(fields, categories) else FillTruncatedDefaults(fields)
  {
    var parsed := parse(text);
    if parsed.DecodeError? {
      return Err(HttpError(500, AnalysisFailed + NotValidJson + parsed.msg));
    }
    if !parsed.value.JObj? {
      return Err(HttpError(500, AnalysisFailed + ParseFailed + TypeErrorText));
    }
    if complete {
      return Ok(FillCompleteDefaults(parsed.value.fields, categories));
    }
    return Ok(FillTruncatedDefaults(parsed.value.fields));
  }

  /** The text the endpoint parses: the first complete object when the
      count returns to 0, otherwise the repaired truncated text. */
  ghost function ParsedText(llm: string, start: nat): (t: string)
    requires start <= |llm|
    ensures forall e: nat | ClosesAt(llm, start, e) :: t == llm[start..e]
    ensures NeverCloses(llm, start) ==> t == Repaired(llm, start)
  {
    if exists e: nat :: ClosesAt(llm, start, e) then
      var e: nat :| ClosesAt(llm, start, e);
      ObjectEndUnique(llm, start, e);
      llm[start..e]
    else
      Repaired(llm, start)
  }

  /** The endpoint takes the complete path when the count returns to 0. */
  ghost predicate Closes(llm: string, start: nat) {
    exists e: nat :: ClosesAt(llm, start, e)
  }

  /** The object the endpoint fills on the path it takes. */
  ghost function FilledOn(llm: string, start: nat, fields: map<string, Json>, categories: Option<seq<string>>): map<string, Json> {
    if Closes(llm, start) then FillCompleteDefaults(fields, categories) else FillTruncatedDefaults(fields)
  }

  /** Every end position of the object is the chosen one. */
  lemma ObjectEndUnique(llm: string, start: nat, e: nat)
    requires ClosesAt(llm, start, e)
    ensures forall e2: nat | ClosesAt(llm, start, e2) :: e2 == e
  {
    forall e2: nat | ClosesAt(llm, start, e2) ensures e2 == e {
      ClosesAtUnique(llm, start, e2, e);
    }
  }

  /** The two extraction paths from the first `{` on: the first complete
      object by the naive count, or else the repaired truncated text. */
  method ExtractAndFill(llm: string, start: nat, categories: Option<seq<string>>, parse: Parser)
    returns (r: Result<map<string, Json>, HttpError>)
    requires start < |llm| && llm[start] == '{'
    ensures var text := ParsedText(llm, start);
      && (parse(text).DecodeError? ==> r == Err(HttpError(500, AnalysisFailed + NotValidJson + parse(text).msg)))
      && (r.Ok? <==> parse(text).Parsed? && parse(text).value.JObj?)
      && (parse(text).Parsed? && !parse(text).value.JObj? ==>
            r == Err(HttpError(500, AnalysisFailed + ParseFailed + TypeErrorText)))
      && (r.Ok? ==> r.value == FilledOn(llm, start, parse(text).value.fields, categories))
    ensures r.Err? ==> r.error.status == 500
    ensures r.Ok? ==> "intent" in r.value && "confidence" in r.value && "ui_handlers" in r.value
  {
    var jsonEnd := FirstObjectEnd(llm, start);
    if jsonEnd.Some? {
      var firstJson := llm[start..jsonEnd.value];
      assert Closes(llm, start) by {
        assert ClosesAt(llm, start, jsonEnd.value);
      }
      assert ParsedText(llm, start) == firstJson;
      r := ParseAndFill(firstJson, true, categories, parse);
    } else {
      var truncatedJson := llm[start..];
      var completedJson := RStrip(truncatedJson);
      completedJson := Patch(completedJson);
      completedJson := CloseBraces(completedJson);
      assert completedJson == Repaired(llm, start);
      assert ParsedText(llm, start) == completedJson;
      assert !Closes(llm, start) by {
        forall e: nat ensures !ClosesAt(llm, start, e) {
          NeverClosesHasNoEnd(llm, start, e);
        }
      }
      r := ParseAndFill(completedJson, false, categories, parse);
    }
  }

  /** The `/app-reason` endpoint after generation, given `json.loads`. */
  method AppSpecificReasoning(appName: string, categories: Option<seq<string>>, gen: Generation, parse: Parser)
    returns (r: Result<AppReasonResponse, HttpError>)
    ensures gen.GenerationFailed? ==> r == Err(HttpError(500, AnalysisFailed + gen.message))
    ensures gen.Generated? && Strip(gen.result.GetOr("")) == [] ==>
      r == Err(HttpError(500, AnalysisFailed + "LLM returned empty response"))
    ensures gen.Generated? && Strip(gen.result.GetOr("")) != [] && '{' !in Strip(gen.result.GetOr("")) ==>
      r == Err(HttpError(500, AnalysisFailed + ParseFailed + "No JSON object found"))
    ensures r.Err? ==> r.error.status == 500
    ensures r.Ok? ==> gen.Generated? && '{' in Strip(gen.result.GetOr(""))
    ensures r.Ok? ==> r.value.modelUsed == gen.modelUsed.GetOr("qwen2.5-3b-instruct") && r.value.appConfigUsed == appName
    ensures r.Ok? ==> r.value.executionPlan == [] && r.value.expectedResultFormat == "llm_analysis_only"
    ensures r.Ok? ==> var d := r.value.queryAnalysis.detectedEntities;
      "intent" in d && "confidence" in d && "ui_handlers" in d && r.value.queryAnalysis.intent == d["intent"]
    // a reply holding `{`: the outcome of parsing and filling the text taken from its first `{`
    ensures gen.Generated? && '{' in Strip(gen.result.GetOr("")) ==>
      var llm := Strip(gen.result.GetOr(""));
      var start := FindChar(llm, '{');
      var p := parse(ParsedText(llm, start));
      && (p.DecodeError? ==> r == Err(HttpError(500, AnalysisFailed + NotValidJson + p.msg)))
      && (p.Parsed? && !p.value.JObj? ==> r == Err(HttpError(500, AnalysisFailed + ParseFailed + TypeErrorText)))
      && (p.Parsed? && p.value.JObj? ==>
            r == BuildResponse(FilledOn(llm, start, p.value.fields, categories), gen.modelUsed, appName))
  {
    if gen.GenerationFailed? {
      return Err(HttpError(500, AnalysisFailed + gen.message));
    }
    var llmResponse := Strip(gen.result.GetOr(""));
    if llmResponse == [] {
      return Err(HttpError(500, AnalysisFailed + "LLM returned empty response"));
    }
    var jsonStart := FindChar(llmResponse, '{');
    if jsonStart == -1 {
      return Err(HttpError(500, AnalysisFailed + ParseFailed + "No JSON object found"));
    }
    var filled := ExtractAndFill(llmResponse, jsonStart, categories, parse);
    if filled.Err? {
      return Err(filled.error);
    }
    r := BuildResponse(filled.value, gen.modelUsed, appName);
  }

  /** `ReasoningResponse` without its timing field. */
  datatype ReasoningResponse = ReasoningResponse(result: string, modelUsed: string, taskType: string)

  /** `/reason`: every failure, the blank-instruction 400 included, leaves
      through the generic handler as a 500 whose detail is the exception's
      text. */
  function Reason(instruction: string, taskType: string, gen: Generation): (r: Result<ReasoningResponse, HttpError>)
    ensures IsBlank(instruction) ==> r == Err(HttpError(500, "400: Instruction cannot be empty"))
    ensures r.Err? ==> r.error.status == 500
    ensures r.Ok? <==> !IsBlank(instruction) && gen.Generated? && gen.result.Some? && gen.modelUsed.Some?
    ensures r.Ok? ==> r.value.result == gen.result.value && r.value.taskType == taskType
  {
    if Strip(instruction) == [] then Err(HttpError(500, "400: Instruction cannot be empty"))
    else match gen
      case GenerationFailed(m) => Err(HttpError(500, m))
      case Generated(res, model) =>
        if res.None? then Err(HttpError(500, "'result'"))
        else if model.None? then Err(HttpError(500, "'model_used'"))
        else Ok(ReasoningResponse(res.value, model.value, taskType))
  }
}
