# NextShop AI server — a verified model of its core

This project models, in Dafny, the core of the NextShop AI server (`services/ai-server/app`). It proves properties of that model. The centre of the server is the recovery of structured intent from raw language-model text, and the model covers each of the four places that do it:

- `Completed` / `CompleteJsonStructure` is the string-aware JSON closer of `app/utils.py`. It scans with an in-string flag and an escape flag and closes open brackets and braces. Backslash escapes inside strings follow section 7 of RFC 8259.
- `ExecutionPlanner` is the plan builder of `app/execution_planner.py`. It holds the naive first-object extraction, the query analysis with its defaults, the scope gate and the steps for each intent.
- `AppReason` is the `/app-reason` and `/reason` endpoints of `app/main.py`. It holds the first-object extraction, the ordered table of suffix repairs, the brace closer and the two default-filling policies.
- `AiService` is the app-reasoning service of `app/services/ai_service.py`. It holds the input guards, the extraction with its `rfind('}')` fallback, result formatting, repair through the closer and the fixed fallback plan.

Around these sit:

- the API service helpers: the response cache with its time-to-live, caption cleaning, request validation, prompt building and output checking;
- the model service: request metrics, load timer, health check, lookup, health report and shutdown;
- the local model manager: type detection, smallest-model selection, mock and vision set-up, `generate_text` and `get_status`;
- the settings validators and the GGUF model ordering;
- the two configuration managers;
- the AI, health and configuration controllers;
- the error classification of the production endpoints.

Conventions of the model:

- JSON values are the datatype `JsonModel.Json`, with objects as `map<string, Json>`.
- `json.loads` is a function parameter (`parse`). Lemmas that need a sane parser say so in a `requires`; the operations themselves model the decode-error path.
- Python exceptions become `Result`/`Option` error values. An `HTTPException` is `AppReason.HttpError(status, detail)`.
- The clock is a `now: int` parameter. The duration of an awaited call is a `duration: nat` parameter.
- These are all inputs:
  - what the language model, the vision model, the template renderer and `str()` give;
  - the files a directory listing finds;
  - the outcome of a service an endpoint calls.
- Classes keep the source's mutable state (`ApiService.ApiService`, `ModelService.ModelWrapper`, `ModelService.ModelManager`, `Models.AIModelManager`, `CoreConfig.ConfigManager`, `AppConfigs.AppConfigManager`). Their methods state their whole new state. Every loop of the modelled code is a `while` or `for` loop with its invariants, proved against a specification function: the class methods, the brace-count and closing loops (`ScanLoop` is a `for` loop), and `CoreSettings.CollectDetails` for the loop of `get_model_info`. The folder scans of `app/models.py` and the health-monitoring loop are not modelled (see below).

All files are given to Dafny together; the module `Wrappers` holds `Option` and `Result`, `Text` the Python string built-ins (`strip`, `split`, `find`, `rfind`, `lower`, `upper`, `replace`, `join`), and `JsonModel` the JSON datatype.

## Model

| member | source | states |
|---|---|---|
| JsonUtils.JsonPart | services/ai-server/app/utils.py:25-31 | the part is not empty and starts with `{` |
| JsonUtils.JsonPartFromFirstBrace | services/ai-server/app/utils.py:25-31 | the part is the stripped text from the first `{` of the response (no `{` before that index) |
| JsonUtils.TrimComma | services/ai-server/app/utils.py:62-64 | when the right-stripped part ends in a comma, the result is that text without the comma; otherwise the part is returned unchanged; the leading `{` is kept |
| JsonUtils.ClosersShape | services/ai-server/app/utils.py:66-73 | the tail holds one `]` per unmatched `[` and then one `}` per unmatched `{` |
| JsonUtils.ClosersOrdered | services/ai-server/app/utils.py:66-73 | no `]` of the tail ever follows a `}` |
| JsonUtils.Completed | services/ai-server/app/utils.py:10-83 | blank text or text without `{` gives `{}`; otherwise the result is the repaired candidate exactly when the candidate parses, and `{}` when it does not |
| JsonUtils.ScanLoop | services/ai-server/app/utils.py:34-60 | the loop's counts, literal flag and escape flag are those of the string-aware scan of the whole part |
| JsonUtils.CloseLoops | services/ai-server/app/utils.py:67-73 | the two loops append exactly the closing tail |
| JsonUtils.CompleteJsonStructure | services/ai-server/app/utils.py:10-83 | the method returns the reference result `Completed` for every text and parser |
| JsonUtils.RunAppend | services/ai-server/app/utils.py:39-60 | scanning two texts one after the other is scanning their concatenation |
| JsonUtils.BodyInsideString | services/ai-server/app/utils.py:40-50 | inside a literal, the body of a JSON string never changes the counts and never closes the literal |
| JsonUtils.StringLiteralInvisible | services/ai-server/app/utils.py:40-60 | a whole string literal leaves the scan state as it was: braces and brackets inside strings are not counted |
| JsonUtils.EscapeHidesNext | services/ai-server/app/utils.py:40-46 | a backslash hides the next character, also outside string literals |
| JsonUtils.PlainTextScan | services/ai-server/app/utils.py:52-60 | without quotes and backslashes the scan counts each `{` and `[` minus each `}` and `]` |
| JsonUtils.NeutralRun | services/ai-server/app/utils.py:52-60 | characters other than brackets, quotes and backslashes leave the scan state unchanged |
| JsonUtils.TrimCommaScan | services/ai-server/app/utils.py:62-64 | dropping the trailing comma changes neither counts nor flags, so the tail is computed from the same state |
| JsonUtils.CloseRun | services/ai-server/app/utils.py:67-73 | each closer read outside a literal cancels one opener |
| JsonUtils.CandidateBalanced | services/ai-server/app/utils.py:62-73 | when the part does not end inside a literal or after a backslash, the candidate ends with no unmatched `{` or `[` |
| JsonUtils.TruncatedStringStaysOpen | services/ai-server/app/utils.py:48-73 | a part cut off inside a string literal is still inside it after the tail, because the closers land in the string |
| JsonUtils.CompletedParses | services/ai-server/app/utils.py:75-83 | with a `json.loads` that accepts `{}`, the closer's result always parses |
| JsonUtils.BalancedUnchanged | services/ai-server/app/utils.py:21-79 | a part with no unmatched `{` or `[`, no trailing comma, that parses, is returned unchanged |
| JsonUtils.BalancedFixedPoint | services/ai-server/app/utils.py:10-83 | on such a part, running the closer again on its own result changes nothing |
| JsonUtils.IsJsonResponse | services/ai-server/app/utils.py:86-103 | true exactly when the text is not blank and holds a `{` or a `[` |
| JsonUtils.SafeJsonParse | services/ai-server/app/utils.py:106-120 | the parsed value, or an empty object on a decode error |
| JsonUtils.SafeParseOfCompleted | services/ai-server/app/utils.py:10-120 | with a sane `json.loads`, safely parsing what the closer returns always gives an object |
| BraceCount.BalanceCounts | services/ai-server/app/execution_planner.py:85-95 | the naive count is the number of `{` minus the number of `}` |
| BraceCount.ClosesAtUnique | services/ai-server/app/execution_planner.py:88-95 | at most one end position closes the object that opens at the first `{` |
| BraceCount.FirstObjectEnd | services/ai-server/app/execution_planner.py:85-98 | the returned end closes the first object; none is returned exactly when the count never returns to zero |
| BraceCount.ClosedObjectBalanced | services/ai-server/app/main.py:216-232 | the first complete object holds as many `{` as `}` |
| BraceCount.ClosedEndsWithBrace | services/ai-server/app/services/ai_service.py:136-149 | the extracted object runs from its `{` to a `}` |
| BraceCount.CutsInsideString | services/ai-server/app/execution_planner.py:85-100 | a `}` inside a string literal ends the naive extraction early: `{"a":"}"}` is cut after 7 characters |
| ExecutionPlanner.UnknownAppPlan | services/ai-server/app/execution_planner.py:61-74 | an app without configuration gets intent `error`, confidence 0, no steps, `text_response` and the fallback `Unknown app: <name>` |
| ExecutionPlanner.InScope | services/ai-server/app/execution_planner.py:151-158 | in scope exactly when the intent is present and not `general`, or the confidence is present and above 0.7 |
| ExecutionPlanner.CreateSteps | services/ai-server/app/execution_planner.py:160-208 | at most one step; exactly one when the intent (default `product_search`) is `product_search` or `ui_handling_action`; every step is number 1, with no dependencies, not optional |
| ExecutionPlanner.PlanFromData | services/ai-server/app/execution_planner.py:110-149 | fails exactly on a non-string intent, a non-number confidence, or a general-chat message that is neither a string nor null; the entities are the whole object; conversation context iff the history is non-empty; `structured_product_response` iff there is a step |
| ExecutionPlanner.PlanFromParse | services/ai-server/app/execution_planner.py:103-108 | a decode error becomes the `ValueError` `LLM response is not valid JSON: <msg>` |
| ExecutionPlanner.CreateExecutionPlan | services/ai-server/app/execution_planner.py:49-149 | unknown app gives the unknown-app plan; no `{` and no closing `}` are the two `ValueError`s; otherwise the plan is built from exactly the first complete object |
| ExecutionPlanner.GeneralChatShortcut | services/ai-server/app/execution_planner.py:119-130 | general chat gives no steps and its own message, or the default one, whatever the confidence |
| ExecutionPlanner.OutOfScopePlan | services/ai-server/app/execution_planner.py:132-139 | an out-of-scope reply gives no steps and the app's fallback message, or the default when it is empty |
| ExecutionPlanner.ProductSearchPlan | services/ai-server/app/execution_planner.py:168-178 | a product search gives one `search` step on `products.list` whose parameters are the entire reply object |
| ExecutionPlanner.UiActionPlan | services/ai-server/app/execution_planner.py:181-196 | a UI action gives one `ui_action` step on `ui.handle` with the action, handlers and original query, each with its default |
| ExecutionPlanner.OtherIntentPlan | services/ai-server/app/execution_planner.py:199-205 | any other in-scope intent gives no steps and `text_response` |
| ExecutionPlanner.MissingIntentDisagreement | services/ai-server/app/execution_planner.py:110-158 | with no intent and confidence above 0.7, the analysis says `general` while the plan is a product search |
| ExecutionPlanner.AnalysisDefaults | services/ai-server/app/execution_planner.py:111-116 | the analysis reads intent with default `general` and confidence with default 0.5 |
| AppReason.FirstMatchWins | services/ai-server/app/main.py:256-271 | with no rule firing the text is unchanged; otherwise exactly the earliest firing rule is applied |
| AppReason.PatchIsFirstMatch | services/ai-server/app/main.py:256-271 | the chain of `elif`s equals the ordered rule table read first-match-wins |
| AppReason.PatchTailIsFirstMatch | services/ai-server/app/main.py:264-271 | once no key fragment matched, the last four `elif`s equal the rule table read from its fourth rule |
| AppReason.CloseBraces | services/ai-server/app/main.py:273-277 | appends one `}` per `{` not matched by a `}` in the whole text, and nothing else |
| AppReason.ClosedCounts | services/ai-server/app/main.py:273-277 | after closing, `{` and `}` counts agree unless `}` already outnumbered `{`; no `]` is ever added |
| AppReason.FillCompleteDefaults | services/ai-server/app/main.py:234-246 | every original key is kept with its value; the keys afterwards are the original ones plus the six default keys, so `variants` is never added |
| AppReason.CompleteAnalysisDefaults | services/ai-server/app/main.py:235-240 | a missing `intent` becomes `product_search`, `confidence` 0.9, `categories` the request's categories or null |
| AppReason.CompleteItemsDefault | services/ai-server/app/main.py:241-242 | a missing `product_items` becomes an empty list |
| AppReason.CompleteHandlerDefaults | services/ai-server/app/main.py:243-246 | a missing `ui_handlers` becomes an empty list and `constraints` an empty object |
| AppReason.FillTruncatedDefaults | services/ai-server/app/main.py:282-290 | every original key is kept with its value; only `confidence`, `intent`, `ui_handlers` and `variants` are added, never `categories`, `product_items` or `constraints` |
| AppReason.TruncatedDefaults | services/ai-server/app/main.py:283-290 | a missing `confidence` becomes 0.9, `intent` `product_search`, `ui_handlers` and `variants` empty lists |
| AppReason.BuildResponse | services/ai-server/app/main.py:306-320 | fails iff `message` is neither a string nor null; the analysis carries the filled object and its intent; empty plan, `llm_analysis_only`, the model name or `qwen2.5-3b-instruct` |
| AppReason.ParseAndFill | services/ai-server/app/main.py:228-301 | a decode error becomes a 500 with `not valid JSON`, a non-object a 500 with the type error; otherwise the result is the parsed object filled with the complete-path defaults (`categories` given) or the truncated-path defaults, so the original keys survive and `variants` is added only on the truncated path |
| AppReason.ParsedText | services/ai-server/app/main.py:216-277 | the text handed to `json.loads` is exactly the first object when the count returns to 0, and exactly the repaired text when it never does |
| AppReason.ExtractAndFill | services/ai-server/app/main.py:216-301 | with a complete first object, exactly that object is parsed; without one, exactly the repaired text is parsed; a parsed object is filled with the defaults of the path taken (`FilledOn`); every failure is a 500 |
| AppReason.AppSpecificReasoning | services/ai-server/app/main.py:161-326 | a failed or empty generation and a reply without `{` are 500s with their details; for a reply holding `{`, the text from its first `{` is parsed: a decode error or a non-object is a 500, and an object gives exactly the response built from it filled with the defaults of the path taken |
| AppReason.Reason | services/ai-server/app/main.py:125-158 | a blank instruction leaves as a 500 whose detail is `400: Instruction cannot be empty`; every failure is a 500; success iff the model gave result and model name |
| AiService.TemplateVars | services/ai-server/app/services/ai_service.py:83-91 | the template sees the query and exactly six context entries, each shown with `str()`; the four list entries default to an empty list and `current_filters` and `user_session` to an empty mapping |
| AiService.BuildLlmRequest | services/ai-server/app/services/ai_service.py:73-108 | fails exactly when the `llm` entry is not a mapping; the parameters default to 300 tokens at temperature 0.1; the prompt is the rendered template, or the simple prompt when rendering fails |
| AiService.Format | services/ai-server/app/services/ai_service.py:151-165 | each field of the reply is read with its own default (`product_search` analysis, empty plan, `product_list`), tagged with the model and the app |
| AiService.FallbackPlan | services/ai-server/app/services/ai_service.py:201-226 | the fallback is one `products.search` step for the query, format `product_list`, guidance `Display search results`, and the fixed analysis: intent `product_search` at confidence 0.7, empty categories and price constraints, no conversation context |
| AiService.ExtractedPart | services/ai-server/app/services/ai_service.py:113-137 | the part is empty or runs from `{` to `}`; it is empty exactly when no object closes and no `}` follows the first `{` |
| AiService.Interpret | services/ai-server/app/services/ai_service.py:110-226 | no `{` is the `No valid JSON structure` error; a direct answer only for `nextshop`; the fallback is always the fixed plan |
| AiService.ExtractJsonPart | services/ai-server/app/services/ai_service.py:113-134 | the loop and its `rfind` fallback compute exactly `ExtractedPart` |
| AiService.ProcessAppSpecificReasoning | services/ai-server/app/services/ai_service.py:54-233 | blank app, blank query and a missing or empty configuration are the three `ValueError`s, in that order; a bad `llm` entry or a failed call is wrapped as `App reasoning processing failed: `; a reply is read as `Interpret` says |
| AiService.InterpretReply | services/ai-server/app/services/ai_service.py:110-226 | the method computes exactly `Interpret` |
| AiService.CompletedIsObject | services/ai-server/app/services/ai_service.py:172-174 | with a sane parser, the closer's output parses to an object |
| AiService.NonEmptyPartOutcome | services/ai-server/app/services/ai_service.py:139-194 | a part that parses is returned directly for `nextshop` and formatted otherwise; a part that does not parse is formatted from the closer's output when that parses |
| AiService.FallbackIffEmptyPart | services/ai-server/app/services/ai_service.py:139-226 | with a sane parser, the fallback plan is returned exactly when the extracted part is empty |
| AiService.NonEmptyPartAnswers | services/ai-server/app/services/ai_service.py:110-226 | with a sane parser, every reply holding a `{` gets an answer, never an error |
| AiService.NextshopReturnsParsed | services/ai-server/app/services/ai_service.py:143-148 | for `nextshop` a part that parses is returned exactly as parsed |
| AiService.RepairUsesWholeReply | services/ai-server/app/services/ai_service.py:170-194 | a part that fails to parse is repaired from the whole reply, and the result is formatted even for `nextshop` |
| AiService.ProcessGenericReasoning | services/ai-server/app/services/ai_service.py:19-52 | a blank instruction is refused before the model is asked; a failed call is wrapped as `Text generation failed: `; success iff the model gave result and model name, with task type `reasoning` |
| AiService.ProcessImageReasoning | services/ai-server/app/services/ai_service.py:235-275 | blank instruction, then blank image data, are refused first; a failed analysis is wrapped as `Image reasoning failed: `; success iff the analysis gave result and model name, answered with task type `image_reasoning` |
| ApiService.Unexpired | services/ai-server/app/services/api_service.py:359-367 | the sweep keeps exactly the entries with `now - timestamp <= ttl`, each unchanged |
| ApiService.UnexpiredIdempotent | services/ai-server/app/services/api_service.py:359-367 | sweeping twice at the same time removes nothing more than sweeping once |
| ApiService.ApiService.constructor | services/ai-server/app/services/api_service.py:41-44 | the service starts with an empty cache and a 300-second time-to-live |
| ApiService.ApiService.GetCachedResponse | services/ai-server/app/services/api_service.py:341-350 | a present entry younger than the time-to-live is returned and the cache is unchanged; an expired one is deleted and nothing is returned; every other entry is untouched |
| ApiService.ApiService.CacheResponse | services/ai-server/app/services/api_service.py:352-367 | afterwards the key maps to the response stamped `now`; the sweep runs only past 100 entries and then removes exactly the entries older than the time-to-live |
| ApiService.WithStop | services/ai-server/app/services/api_service.py:314-316 | a non-empty caption ends with `.` and keeps its text as prefix, gaining at most one character; a caption already ending in `.` is unchanged; an empty one stays empty |
| ApiService.Capitalised | services/ai-server/app/services/api_service.py:310-312 | same length; the first character is upper-cased and the rest is kept |
| ApiService.CapitalisedPhraseKept | services/ai-server/app/services/api_service.py:306-308 | a caption without the exact lower-case phrase is not changed by the phrase fix, even when the case-insensitive test fires |
| ApiService.CleanCaption | services/ai-server/app/services/api_service.py:301-318 | a blank caption gives the empty text; otherwise the result ends with `.` and starts with the upper-cased first character of the stripped caption |
| ApiService.ValidateTextRequest | services/ai-server/app/services/api_service.py:320-332 | passes exactly when the prompt is not blank and at most 4000 characters, `max_tokens` is absent, 0 or in 1..2048, and `temperature` is absent or in [0, 2]; every refusal has code `INVALID_REQUEST`, and a blank prompt is `Empty prompt provided` |
| ApiService.ContextLines | services/ai-server/app/services/api_service.py:159-163 | one line per message, `role: content` with role `user` and empty content by default |
| ApiService.BuildFullPrompt | services/ai-server/app/services/api_service.py:154-167 | the prompt starts with the system line, has the conversation block only for a non-empty context, and ends with `Human: <prompt>\nAssistant:` |
| ApiService.ProcessLlmOutput | services/ai-server/app/services/api_service.py:169-180 | missing or empty `choices` raises `Model produced no output`; a result exists exactly when the first choice is an object whose `text` (default empty) is a string, and it is then the stripped text, or the apology when that is blank |
| ApiService.ProcessedNeverBlank | services/ai-server/app/services/api_service.py:173-180 | a result is never empty, and a result other than the apology has no whitespace at either end |
| ApiService.ImagePayload | services/ai-server/app/services/api_service.py:242 | text without a comma is kept whole; with one, the result holds no comma |
| ApiService.ImagePayloadAfterLastComma | services/ai-server/app/services/api_service.py:242 | the payload is exactly the text after the last comma |
| ModelService.SuccessRate | services/ai-server/app/services/model_service.py:33-35 | 0 with no requests; otherwise the successful share of the total, in percent |
| ModelService.ErrorRate | services/ai-server/app/services/model_service.py:37-39 | 0 with no requests; otherwise the failed share of the total, in percent |
| ModelService.RatesSumToHundred | services/ai-server/app/services/model_service.py:33-39 | with consistent counters and at least one request, the two rates add up to 100 and the success rate lies in 0..100 |
| ModelService.Recorded | services/ai-server/app/services/model_service.py:72-91 | one more request, exactly one of the success and failure counters is raised, the first sample becomes the average, the request time is `now`, and the other figures are kept |
| ModelService.RecordedKeepsConsistent | services/ai-server/app/services/model_service.py:75-81 | recording a request keeps `total = successful + failed` |
| ModelService.ReplayCounts | services/ai-server/app/services/model_service.py:72-81 | a run of requests adds its length to the total and its successes to the successful count, keeping the counters consistent |
| ModelService.FreshReplay | services/ai-server/app/services/model_service.py:24-39 | from fresh metrics, the counters are the run's length and successes, and the rates of a non-empty run add up to 100 |
| ModelService.ModelWrapper.constructor | services/ai-server/app/services/model_service.py:50-59 | a new wrapper has no model or processor, is not loaded, is healthy, and has fresh metrics and no running timer |
| ModelService.ModelWrapper.StartLoadTimer | services/ai-server/app/services/model_service.py:61-63 | the timer holds `now` and nothing else changes |
| ModelService.ModelWrapper.EndLoadTimer | services/ai-server/app/services/model_service.py:65-70 | a started timer records the load time in milliseconds and is cleared; an unset timer, or one that read 0, changes nothing |
| ModelService.ModelWrapper.UpdateRequestMetrics | services/ai-server/app/services/model_service.py:72-91 | the metrics become `Recorded` of the old ones, consistency is preserved, and the flags and timer are untouched |
| ModelService.ModelWrapper.HealthCheck | services/ai-server/app/services/model_service.py:93-102 | returns and stores whether the wrapper is loaded and holds a model, changing nothing else |
| ModelService.LoadedCount | services/ai-server/app/services/model_service.py:348 | at most the number of wrappers, and equal to it exactly when every wrapper is loaded |
| ModelService.HealthyCount | services/ai-server/app/services/model_service.py:349 | at most the number of wrappers, and equal to it exactly when every wrapper is healthy |
| ModelService.ModelManager.constructor | services/ai-server/app/services/model_service.py:126-137 | the manager starts with no models on device `cpu` |
| ModelService.ModelManager.Register | services/ai-server/app/services/model_service.py:231 | a known name keeps its place and gets the new wrapper; a new name is appended; names stay unique |
| ModelService.ModelManager.GetModel | services/ai-server/app/services/model_service.py:333-338 | none exactly when no wrapper of the type is loaded; otherwise the first loaded wrapper of the type |
| ModelService.ModelManager.GetHealthStatus | services/ai-server/app/services/model_service.py:340-364 | overall healthy exactly when every wrapper is healthy, which is exactly when the healthy count equals the total; one entry per name with its flags and metrics |
| ModelService.ModelManager.Shutdown | services/ai-server/app/services/model_service.py:378-386 | every wrapper ends unloaded with no model and no processor; health, metrics and timers are untouched |
| ModelService.NothingLoadedAfterShutdown | services/ai-server/app/services/model_service.py:378-386 | with every wrapper unloaded, the loaded count is 0 |
| Models.DetectModelType | services/ai-server/app/models.py:86-97 | the rules are tried in order on the lower-cased name: `.gguf` gives `gguf`, else a vision keyword gives `vision`, else a text keyword gives `text`, else `unknown`; each outcome is stated in both directions |
| Models.DetectIgnoresCase | services/ai-server/app/models.py:88 | a name and its lower-cased form get the same type |
| Models.Candidates | services/ai-server/app/models.py:112 | exactly the models of the selector's types, in their order |
| Models.SmallestIndex | services/ai-server/app/models.py:118-119 | the index of a smallest model, and the first such index, as a stable sort by size puts it first |
| Models.BestModel | services/ai-server/app/models.py:110-129 | none exactly when no model has a type the selector accepts (text, huggingface, gguf; or vision); otherwise a candidate no larger than any other candidate |
| Models.BestModelSnoc | services/ai-server/app/models.py:110-129 | over a list with one more model, the new model is chosen only when it is a candidate strictly smaller than the earlier choice |
| Models.BestModelEarliest | services/ai-server/app/models.py:110-129 | the stable sort breaks ties by position: every candidate before the chosen one is strictly larger |
| Models.MockResponse | services/ai-server/app/models.py:311-316 | the opening names the context exactly when a non-empty context was given, and the text ends with the instruction and the fixed mock sentence |
| Models.Prompt | services/ai-server/app/models.py:247-250 | starts with `Context: ` exactly when a non-empty context was given, otherwise with `Instruction: `; ends with the instruction and `\n\nResponse:` |
| Models.LlamaSettings | services/ai-server/app/models.py:256-257 | `max_tokens` and `temperature` are read from the keyword arguments, defaulting to 500 and 0.1 |
| Models.PipelineSettings | services/ai-server/app/models.py:283-284 | `max_tokens` defaults to 500 and is capped at 1024, `temperature` defaults to 0.7; a non-number `max_tokens` makes `min` raise |
| Models.NestedParametersIgnored | services/ai-server/app/main.py:195-199 | with the settings nested under `parameters`, the llama branch uses 500 tokens and the pipeline branch 500 tokens at 0.7, not the caller's 300 and 0.1 |
| Models.Unpacked | services/ai-server/app/services/ai_service.py:104-108 | the entries of a nested `parameters` mapping become keyword arguments; other arguments pass unchanged |
| Models.UnpackedParametersRead | services/ai-server/app/services/ai_service.py:104-108 | with the settings unpacked, both branches receive 300 tokens at temperature 0.1 |
| Models.ModelUsed | services/ai-server/app/models.py:308 | the first loaded entry, or `mock_model` when none is loaded |
| Models.ModelUsedStable | services/ai-server/app/models.py:308 | appending to a non-empty loaded list never changes `model_used` |
| Models.AIModelManager.constructor | services/ai-server/app/models.py:28-35 | no llama model, pipeline or vision handle; nothing loaded; the found models are the available ones |
| Models.AIModelManager.InitializeMockModel | services/ai-server/app/models.py:223-227 | clears the llama handle, appends `text:mock_reasoning_model`, and leaves the rest unchanged |
| Models.AIModelManager.InitializeVisionModel | services/ai-server/app/models.py:229-237 | without a vision model nothing changes; with one, the handle is set and `vision:<name>` of the smallest vision model is appended |
| Models.AIModelManager.GetStatus | services/ai-server/app/models.py:344-354 | text ready exactly when the llama model or the pipeline is set, vision ready exactly when the vision handle is set, with the loaded list and the number of available models |
| Models.AIModelManager.GenerateText | services/ai-server/app/models.py:239-309 | fails with `No text model loaded` exactly when neither handle is set; otherwise `model_used` is the first loaded entry; the llama branch answers with the stripped completion, or the mock text when the runtime fails; without llama, the pipeline branch answers the mock text when the keyword arguments do not convert, else the stripped completion, or the mock text when the runtime fails |
| Models.AIModelManager.GenerateTextReachingMock | services/ai-server/app/models.py:223-309 | without handles it answers with the mock text; with a handle it agrees with `GenerateText` |
| Models.MockOnlyGeneration | services/ai-server/app/models.py:223-242 | after only the mock set-up, the loaded list names the mock model, no text model is ready, and every generation fails |
| Models.MockOnlyGenerationCorrected | services/ai-server/app/models.py:223-316 | with the corrected generation, the same start-up answers with the mock text under `text:mock_reasoning_model` |
| CoreSettings.ValidateLogLevel | services/ai-server/app/core/config.py:79-85 | accepted exactly when the upper-cased level is one of DEBUG, INFO, WARNING, ERROR, CRITICAL, and then returned upper-cased; otherwise the fixed error |
| CoreSettings.ValidatedLevelIsFixed | services/ai-server/app/core/config.py:79-85 | a validated level validates to itself |
| CoreSettings.ValidateCorsOrigins | services/ai-server/app/core/config.py:87-92 | a list passes unchanged; a text gives one stripped item per comma-separated piece, one more than its commas |
| CoreSettings.CorsOriginsClean | services/ai-server/app/core/config.py:87-92 | every origin taken from a text is comma-free and already stripped |
| CoreSettings.NThreadsComputed | services/ai-server/app/core/config.py:102-107 | a set thread count is kept; 0 gives `min(8, cpu count)`, or 4 when the count is unknown or 0, so always 1..8 |
| CoreSettings.Priority | services/ai-server/app/core/config.py:120-131 | 1000 for `instruct`, plus 500 for `chat`, plus 100 for a `3b`/`7b`/`8b` tag in the lower-cased name; between 0 and 1600 |
| CoreSettings.SizeScore | services/ai-server/app/core/config.py:132-137 | between 1 and 10000, and 5000 when `stat` fails |
| CoreSettings.StrLeTotal | services/ai-server/app/core/config.py:139 | Python's string `<=` compares any two names |
| CoreSettings.StrLeTrans | services/ai-server/app/core/config.py:139 | Python's string `<=` is transitive |
| CoreSettings.KeyOrderTotal | services/ai-server/app/core/config.py:139-141 | any two `sort_key` values are ordered |
| CoreSettings.KeyOrderTrans | services/ai-server/app/core/config.py:139-141 | the `sort_key` order is transitive |
| CoreSettings.Insert | services/ai-server/app/core/config.py:141 | inserting adds exactly that element, once |
| CoreSettings.InsertLowerBound | services/ai-server/app/core/config.py:141 | a key no later than the inserted element and every element stays no later than all of the result |
| CoreSettings.InsertSorted | services/ai-server/app/core/config.py:141 | inserting into a sorted list keeps it sorted |
| CoreSettings.SortBy | services/ai-server/app/core/config.py:141 | `sorted(..., key=...)`: the result is ordered by the key and is a permutation of the input |
| CoreSettings.GgufOnly | services/ai-server/app/core/config.py:115 | exactly the listed files whose name ends in `.gguf` |
| CoreSettings.AvailableModels | services/ai-server/app/core/config.py:109-141 | empty without the directory; otherwise the `.gguf` files, sorted by priority, then size, then name |
| CoreSettings.PrimaryModel | services/ai-server/app/core/config.py:143-146 | none exactly when no model is available; otherwise an available model that comes first in the `sort_key` order |
| CoreSettings.PrimaryHasTopPriority | services/ai-server/app/core/config.py:120-146 | the primary model has the highest priority among the `.gguf` files found |
| CoreSettings.Details | services/ai-server/app/core/config.py:153-170 | one entry per model with its name and path; an error entry exactly when `stat` fails; marked primary exactly when `stat` succeeds and its path is the primary's |
| CoreSettings.CollectDetails | services/ai-server/app/core/config.py:153-170 | the loop appending one entry per model computes exactly `Details` |
| CoreSettings.DetailsAt | services/ai-server/app/core/config.py:153-170 | entry `k` of the list is the entry built from model `k` alone: its figures when `stat` succeeds, the error entry otherwise |
| CoreSettings.ModelInfo | services/ai-server/app/core/config.py:148-178 | `total_models` is the number of models found and of entries; the primary name is absent exactly when none was found |
| CoreSettings.OnlyPrimaryMarked | services/ai-server/app/core/config.py:148-178 | with distinct paths only the first entry can be marked primary, and it is marked exactly when its `stat` succeeds |
| CoreSettings.DistinctPathsKept | services/ai-server/app/core/config.py:115 | the glob keeps paths distinct |
| CoreSettings.SortKeepsDistinct | services/ai-server/app/core/config.py:141 | sorting keeps paths distinct |
| CoreConfig.WithSuffix | services/ai-server/app/core/config_manager.py:27 | exactly the files of the directory with that suffix |
| CoreConfig.Globbed | services/ai-server/app/core/config_manager.py:27 | exactly the files whose suffix is `.json`, `.yaml` or `.yml` |
| CoreConfig.GlobbedJsonFirst | services/ai-server/app/core/config_manager.py:27 | every JSON file comes before every YAML or YML file |
| CoreConfig.AddFile | services/ai-server/app/core/config_manager.py:29-36 | no configured app is lost by one file of the walk |
| CoreConfig.Load | services/ai-server/app/core/config_manager.py:29-36 | no configured app is lost by the walk |
| CoreConfig.LastLoaded | services/ai-server/app/core/config_manager.py:29-36 | none exactly when no file with that stem loaded |
| CoreConfig.LoadIsLastLoaded | services/ai-server/app/core/config_manager.py:25-36 | each stem ends with the value of its last file that loaded; a stem without one keeps its earlier entry or stays absent |
| JsonModel.InsertionOrder | services/ai-server/app/core/config_manager.py:33 | the key order after an assignment: a known key keeps its place, a new one is appended at the end |
| CoreConfig.FindFile | services/ai-server/app/core/config_manager.py:74-75 | none exactly when no file has that stem and suffix; otherwise such a file |
| CoreConfig.ReloadSource | services/ai-server/app/core/config_manager.py:73-75 | the JSON file when it exists; none exactly when the app has no file with a known extension |
| CoreConfig.Walk | services/ai-server/app/core/config_manager.py:64-68 | the empty path gives the value itself; a step into a non-mapping or a missing key fails |
| CoreConfig.WalkAppend | services/ai-server/app/core/config_manager.py:64-65 | walking a path in two parts is walking the first, then the second from there |
| CoreConfig.WalkOneKey | services/ai-server/app/core/config_manager.py:65 | one key of a mapping is found exactly when the mapping holds it |
| CoreConfig.InfoOf | services/ai-server/app/core/config_manager.py:101-105 | an entry exactly when the configuration and its `app` section are mappings; without `app` the entry is the app name, `unknown` and `No description available` |
| CoreConfig.ConfigManager.constructor | services/ai-server/app/core/config_manager.py:18-23 | the manager holds what walking the globbed files stores |
| CoreConfig.ConfigManager.Put | services/ai-server/app/core/config_manager.py:33 | the entry is set and the key order is kept or extended |
| CoreConfig.ConfigManager.LoadAllConfigs | services/ai-server/app/core/config_manager.py:25-36 | the map becomes the walk of the globbed files over the old map |
| CoreConfig.ConfigManager.ListAvailableApps | services/ai-server/app/core/config_manager.py:46-48 | every configured app, each exactly once |
| CoreConfig.ConfigManager.GetConfig | services/ai-server/app/core/config_manager.py:50-52 | the configuration exactly when the app is configured |
| CoreConfig.ConfigManager.GetConfigValue | services/ai-server/app/core/config_manager.py:54-68 | the default for a missing or empty configuration; otherwise the value at the dotted path, or the default when the path leaves the configuration |
| CoreConfig.ConfigManager.ReloadConfig | services/ai-server/app/core/config_manager.py:70-86 | true exactly when the first existing file of `.json`, `.yaml`, `.yml` loads; then only that app's entry changes, otherwise nothing changes |
| CoreConfig.ConfigManager.ReloadAllConfigs | services/ai-server/app/core/config_manager.py:88-91 | the map is exactly what loading the directory from empty gives, so apps whose files are gone disappear |
| CoreConfig.ConfigManager.GetAppListWithInfo | services/ai-server/app/core/config_manager.py:97-106 | one entry per configured app with its `InfoOf`; fails exactly when some configuration or `app` section is not a mapping |
| CoreConfig.ConfigExistsIffListed | services/ai-server/app/core/config_manager.py:46-48 | `config_exists(a)` holds exactly when `a` is listed |
| CoreConfig.ReloadedAppsHaveFiles | services/ai-server/app/core/config_manager.py:88-91 | after reloading everything, an app is configured exactly when one of its files with a known extension loaded |
| CoreConfig.DistinctCard | services/ai-server/app/core/config_manager.py:48 | a list without repeats is as long as the set of its entries |
| CoreConfig.ListedCount | services/ai-server/app/core/config_manager.py:46-48 | the listing has one entry per configured app |
| AppConfigs.ObjectList | services/ai-server/app/config_manager.py:49-51 | accepted exactly when every item is an object, and then their fields in order |
| AppConfigs.StringList | services/ai-server/app/config_manager.py:52 | accepted exactly when every item is a string, and then those strings in order |
| AppConfigs.Validate | services/ai-server/app/config_manager.py:42-62 | the required fields must be present; absent optional fields take their defaults: no tools, constraints or handlers, 4 steps, history included, 10 turns |
| AppConfigs.ValidateAcceptsWellTyped | services/ai-server/app/config_manager.py:42-62 | a file is accepted exactly when every required field is present with its type (text fields, a list of strings for `categories`) and every optional field present has its type (lists of objects, integers, a boolean) |
| AppConfigs.ValidatedValues | services/ai-server/app/config_manager.py:42-62 | an accepted configuration carries the file's own values: version, description, scope, the category list, and each optional field the file gives |
| AppConfigs.AddFile | services/ai-server/app/config_manager.py:81-88 | no registered app is lost by one file |
| AppConfigs.Register | services/ai-server/app/config_manager.py:80-88 | no registered app is lost by loading the files |
| AppConfigs.RegisterKeyedByName | services/ai-server/app/config_manager.py:84-85 | every configuration is stored under its own `app_name`, not its file name |
| AppConfigs.LaterFileWins | services/ai-server/app/config_manager.py:80-85 | a later file with the same `app_name` replaces the earlier one |
| AppConfigs.RegisterOnlyValid | services/ai-server/app/config_manager.py:80-88 | a new name comes only from a file that validates |
| AppConfigs.AppConfigManager.constructor | services/ai-server/app/config_manager.py:67-71 | the store holds the validated files, keyed by name |
| AppConfigs.AppConfigManager.LoadAllConfigs | services/ai-server/app/config_manager.py:73-88 | without the directory only `nextshop` is registered; otherwise the files are registered over the store |
| AppConfigs.AppConfigManager.Put | services/ai-server/app/config_manager.py:85 | the entry is set and the key order is kept or extended |
| AppConfigs.AppConfigManager.CreateNextshopConfig | services/ai-server/app/config_manager.py:98-161 | registers `nextshop` with no tools, handlers or categories, at most 4 steps and the fixed fallback message |
| AppConfigs.AppConfigManager.GetAppConfig | services/ai-server/app/config_manager.py:90-92 | the configuration registered under the name, or none exactly when there is none |
| AppConfigs.AppConfigManager.ListAvailableApps | services/ai-server/app/config_manager.py:94-96 | every registered name, each exactly once |
| AiController.Await | services/ai-server/app/controllers/ai_controller.py:33-40 | a call times out exactly when it takes longer than the limit; otherwise its value, or its `ValueError` |
| AiController.Classify | services/ai-server/app/controllers/ai_controller.py:44-54 | a value passes through; a timeout is 408 with the handler's detail, a `ValueError` is 400 with its message, anything else is 500 `Internal server error` |
| AiController.HandleGenericReasoning | services/ai-server/app/controllers/ai_controller.py:22-54 | over 300 seconds is 408; a blank instruction and a failed generation are 400 with the service's message; errors are only 400 or 408; a result carries the model's text and task type `reasoning` |
| AiController.HandleImageReasoning | services/ai-server/app/controllers/ai_controller.py:88-115 | over 600 seconds is 408 with the image detail; blank instruction, then blank image data, are 400; errors are only 400 or 408; task type `image_reasoning` |
| AiController.ImageGetsTwiceTheTime | services/ai-server/app/controllers/ai_controller.py:22-107 | a call taking more than 300 and at most 600 seconds times out as a text request but never as an image request |
| AiController.ObjectsJson | services/ai-server/app/controllers/ai_controller.py:62 | an absent list dumps as null, a present one as the array of its objects |
| AiController.ObjectJson | services/ai-server/app/controllers/ai_controller.py:62 | an absent object dumps as null, a present one as itself |
| AiController.ModelDump | services/ai-server/app/controllers/ai_controller.py:60-62 | the dump has exactly the eight request fields, each with the request's value |
| AiController.DumpReachesTemplate | services/ai-server/app/controllers/ai_controller.py:62-70 | since the whole request is the context, the template always shows what the client sent, an absent field as null rather than the service's default |
| AiController.HandleAppReasoning | services/ai-server/app/controllers/ai_controller.py:56-86 | over 300 seconds is 408; blank app, blank query and a missing configuration are 400 with the service's messages; a failed generation is 400 with `Processing failed: ` and the service's message; errors are only 400 or 408; otherwise the service's reading of the reply |
| HealthController.WithPrefix | services/ai-server/app/controllers/health_controller.py:30-32 | exactly the loaded entries with the prefix, never more than the list |
| HealthController.WithPrefixAppend | services/ai-server/app/controllers/health_controller.py:30-32 | the filter keeps order: filtering a concatenation concatenates the filtered parts |
| HealthController.ReportedModels | services/ai-server/app/controllers/health_controller.py:26-32 | only loaded entries are reported; a `text:` entry is reported exactly when the text model is ready and a `vision:` entry exactly when the vision model is ready; the list is exactly the loaded `text:` entries (when the text model is ready) followed by the loaded `vision:` entries (when the vision model is ready), each in load order |
| HealthController.GetHealth | services/ai-server/app/controllers/health_controller.py:22-71 | version `1.0.0` always; healthy exactly when the outer handler is not taken; a failed status read still reports healthy with `status-check-failed` |
| HealthController.MockOnlyReportsNothing | services/ai-server/app/controllers/health_controller.py:26-32 | after the mock set-up alone, the report names no model although one is listed as loaded |
| HealthController.GetServerInfo | services/ai-server/app/controllers/health_controller.py:74-118 | an error report exactly when the status read fails, with its message; otherwise the status figures, every configured app once with their count, and the fixed endpoint list |
| HealthController.TotalConfigsIsAppCount | services/ai-server/app/controllers/health_controller.py:88-95 | `total_configs` is the number of configured apps |
| ConfigController.ListConfigurations | services/ai-server/app/controllers/config_controller.py:17-32 | fails with 500 `Failed to list configurations` exactly when some configuration has no usable `app` section; otherwise every app with its info, their number, and `success` |
| ConfigController.GetConfiguration | services/ai-server/app/controllers/config_controller.py:35-53 | 404 exactly for an app that is not configured; otherwise the stored configuration with `success` |
| ConfigController.ReloadConfiguration | services/ai-server/app/controllers/config_controller.py:56-74 | `reloaded` exactly when the app's first existing file loads, and then only its entry changes; otherwise 404 and nothing changes |
| ConfigController.ReloadAllConfigurations | services/ai-server/app/controllers/config_controller.py:77-92 | the count and the list are taken after reloading, and list exactly the apps with a file of a known extension that loaded |
| ConfigController.ShownIffListed | services/ai-server/app/controllers/config_controller.py:35-47 | an app is shown exactly when it is listed |
| Endpoints.HandleApiError | services/ai-server/app/api/endpoints.py:53-91 | 422 `VALIDATION_ERROR` exactly for a validation error, 503 `MODEL_NOT_LOADED` exactly for a missing model, 500 `PROCESSING_ERROR` exactly for a processing error, 500 `INTERNAL_ERROR` for everything else; the message and `field` are the exception's |
| Endpoints.ServiceErrorsAreInternal | services/ai-server/app/api/endpoints.py:65-86 | the API service's own exception is always 500 `INTERNAL_ERROR` without a field, never 503 |
| Endpoints.GenerateText | services/ai-server/app/api/endpoints.py:107-168 | a blank prompt is 422 on field `prompt` before the service is asked; otherwise the service's answer, or its error classified |
| Endpoints.BlankPromptGuardFirst | services/ai-server/app/api/endpoints.py:132-133 | a blank prompt, which the service's own validation would also refuse, reaches the client as 422 on `prompt` |
| Endpoints.DescribeImage | services/ai-server/app/api/endpoints.py:182-237 | image data under 100 characters is 422 on field `image_b64` before the service is asked; otherwise the service's answer, or its error classified |
| Endpoints.HealthCheck | services/ai-server/app/api/endpoints.py:246-292 | when the health read fails, `unhealthy` with no models, the error text and zero counts; otherwise the report, healthy exactly when overall healthy |

## Left out

- Model runtimes: llama.cpp, transformers, torch and the BLIP/GIT captioners are left out. What they return is an input, either a `Generation` or a `Completion`. The same goes for `AIModelManager.analyze_image`, `load_text_model` and the model loaders of `ModelManager`.
- `APIService.generate_text`, `describe_image` and `get_service_health`: these orchestrate the runtimes, the executor and logging. Their pure helpers are modelled (cache, validation, prompt, output check, caption cleaning, data-URL split). Their outcome is the `service` input of `Endpoints`.
- The outcome of every service an endpoint calls is an input. The endpoints module passes a `request_id` argument that `APIService.generate_text` and `describe_image` do not accept, and calls a `get_health_status` that `APIService` does not define. It also depends on a `get_api_service` and an `app/models/schemas.py` that are not part of this model. So which outcome actually arises is not modelled, only how each outcome is answered.
- File-system and environment I/O are inputs:
  - model folder scans and sizes;
  - `glob`, `stat`, `mkdir`;
  - reading and writing configuration files;
  - `os.cpu_count()`.

  The environment settings of `app/config.py` are not part of this model.
- Parsers and codecs: `json.loads` is the `parse` parameter, and YAML loading is each file's `loaded` value. Base64 and PIL decoding are not modelled. Python's `str.format` templating is the `render` parameter. The md5 cache key of `_generate_cache_key` is not modelled, so the cache is keyed by an arbitrary string.
- Concurrency and timing are not modelled: the thread pools, `run_in_executor`, the singleton lock and the health-monitoring loop. The same holds for logging, uptime, processing times, memory figures and request ids. Only the timeout outcome of `asyncio.wait_for` is modelled.
- AiController.Await: a call times out exactly when its `duration` exceeds the limit. Real scheduling at the boundary is not modelled.
- AiController.HandleGenericReasoning: the request's `context` and `parameters` do not appear, because the generation outcome is an input. Building the `ReasoningResponse` through pydantic, and the 500 `Internal server error` path, are unreachable in the model: every service failure is a `ValueError`.
- AiController.HandleAppReasoning: the 500 path for exceptions other than `ValueError` is unreachable in the model for the same reason.
- ConfigController.GetConfiguration: the 500 details `Failed to get configuration`, `Failed to reload configuration` and `Failed to reload all configurations` are unreachable. The modelled manager raises nothing in those calls, so `ReloadConfiguration` and `ReloadAllConfigurations` have no 500 path either.
- CoreSettings.Details: `size_mb` is the exact quotient of the byte count by 1048576. The source's `round(…, 1)` to one decimal is not modelled, in `DetailOf`, `CollectDetails` and `ModelInfo` alike, because sizes are exact reals.
- ModelService.Recorded: the exponential moving average after the first sample uses floating point, and its value is not stated. Times and rates are exact reals, so rounding is not modelled.
- Text: the Python string helpers `upper`, `lower`, `isupper` and case-insensitive matching are ASCII-only. `strip` uses Python's whitespace set for the Latin-1 range and a few other code points. Unicode case mapping is not modelled.
- JsonModel: numbers are reals, so Python's distinction between `int` and `float`, and pydantic's lax coercions (a numeric string accepted as a number), are not modelled. A field of the wrong type is a validation error.
- Exception texts produced by the Python runtime stand as fixed placeholder constants: `AiService.WrongTypeText`, `AppReason.TypeErrorText`, `ApiService.WrongShapeText` and `CoreConfig.AttributeErrorText`.
- Some routes are not modelled: `/models` (`get_models_info`) and `/models/reload` of `app/api/endpoints.py`, and the `/`, `/health`, `/reason-image`, `/apps` and `/apps/{app_name}/config` routes of `app/main.py`. They only forward to the managers, and `get_models_info` calls a manager method that does not exist. The global exception handler of `app/main.py` is not modelled either, nor are the separate `services/ai-server/main.py`, the agent, the tools client and the route modules.

## Findings

| source | as written | input that shows it | evidently intended | confidence | as-written member | corrected member |
|---|---|---|---|---|---|---|
| services/ai-server/app/models.py:223-242 | `_initialize_mock_model` clears `text_model` "so we use mock generation path", but `generate_text` first raises `No text model loaded` when neither `text_model` nor `text_pipeline` is set | a start-up where no model is found, then any call to `generate_text` | the mock branch answers with the mock text under `text:mock_reasoning_model` | not executed | Models.MockOnlyGeneration | Models.MockOnlyGenerationCorrected |
| services/ai-server/app/main.py:195-199 | the generation settings are passed as one keyword argument `parameters={...}`, while `generate_text` reads `max_tokens` and `temperature` from the top-level keyword arguments (services/ai-server/app/models.py:256-257, 283-284) | any `/app-reason` request: the runtime is asked for 500 tokens (0.7 on the pipeline) instead of 300 at 0.1; the same holds for services/ai-server/app/services/ai_service.py:104-108 | the settings are unpacked into the keyword arguments | not executed | Models.NestedParametersIgnored | Models.UnpackedParametersRead |
