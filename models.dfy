/** The local model manager of `app/models.py`: model-type detection,
    smallest-model selection, the mock and vision initialisers, the guard,
    prompt and result of `generate_text`, and `get_status`. Scanning the
    models folder and the model runtimes are outside the model: the found
    models are an input and a completion is an outcome passed in. */
module Models {
  import opened Wrappers
  import opened Text
  import opened JsonModel

  /** One entry of `available_models`. */
  datatype ModelInfo = ModelInfo(name: string, path: string, sizeMb: real, modelType: string, format: string)

  predicate HasAny(s: string, keywords: seq<string>) {
    exists i | 0 <= i < |keywords| :: Contains(s, keywords[i])
  }

  const VisionKeywords: seq<string> := ["vision", "clip", "blip", "image"]
  const TextKeywords: seq<string> := ["text", "language", "chat", "instruct"]

  /** `_detect_model_type`: the rules are tried in order on the lower-cased
      file name. */
  function DetectModelType(fileName: string): (t: string)
    ensures t in {"gguf", "vision", "text", "unknown"}
    ensures t == "gguf" <==> Contains(Lower(fileName), ".gguf")
    ensures t == "vision" <==> !Contains(Lower(fileName), ".gguf") && HasAny(Lower(fileName), VisionKeywords)
    ensures t == "text" <==> (
      && !Contains(Lower(fileName), ".gguf")
      && !HasAny(Lower(fileName), VisionKeywords)
      && HasAny(Lower(fileName), TextKeywords))
  {
    var nameLower := Lower(fileName);
    if Contains(nameLower, ".gguf") then "gguf"
    else if HasAny(nameLower, VisionKeywords) then "vision"
    else if HasAny(nameLower, TextKeywords) then "text"
    else "unknown"
  }

  lemma LowerIdempotent(s: string)
    ensures Lower(Lower(s)) == Lower(s)
  {
  }

  /** Detection ignores case: a name and its lower-cased form get the same type. */
  lemma DetectIgnoresCase(fileName: string)
    ensures DetectModelType(Lower(fileName)) == DetectModelType(fileName)
  {
    LowerIdempotent(fileName);
  }

  /** Which models each selector considers. */
  datatype Kind = TextKind | VisionKind

  predicate IsCandidate(m: ModelInfo, kind: Kind) {
    match kind
    case TextKind => m.modelType in {"text", "huggingface", "gguf"}
    case VisionKind => m.modelType == "vision"
  }

  /** The list comprehension of a selector: the candidates, in their order. */
  function Candidates(ms: seq<ModelInfo>, kind: Kind): (r: seq<ModelInfo>)
    ensures |r| <= |ms|
    ensures forall i | 0 <= i < |r| :: IsCandidate(r[i], kind) && r[i] in ms
    ensures forall i | 0 <= i < |ms| && IsCandidate(ms[i], kind) :: ms[i] in r
  {
    if |ms| == 0 then []
    else if IsCandidate(ms[|ms| - 1], kind) then Candidates(ms[..|ms| - 1], kind) + [ms[|ms| - 1]]
    else Candidates(ms[..|ms| - 1], kind)
  }

  /** Index of the head of `ms` after a stable sort by `size_mb`: a smallest
      entry, and the earliest of the smallest. */
  function SmallestIndex(ms: seq<ModelInfo>): (i: nat)
    requires |ms| > 0
    ensures i < |ms|
    ensures forall j | 0 <= j < |ms| :: ms[i].sizeMb <= ms[j].sizeMb
    ensures forall j | 0 <= j < i :: ms[j].sizeMb > ms[i].sizeMb
  {
    if |ms| == 1 then 0
    else
      var k := SmallestIndex(ms[..|ms| - 1]);
      if ms[|ms| - 1].sizeMb < ms[k].sizeMb then |ms| - 1 else k
  }

  /** `_get_best_text_model` / `_get_best_vision_model`: sort the candidates
      by size and take the first, or `None` when there is no candidate. */
  function BestModel(available: seq<ModelInfo>, kind: Kind): (r: Option<ModelInfo>)
    ensures r.None? <==> forall i | 0 <= i < |available| :: !IsCandidate(available[i], kind)
    ensures r.Some? ==> r.value in available && IsCandidate(r.value, kind)
    ensures r.Some? ==> forall i | 0 <= i < |available| && IsCandidate(available[i], kind) :: r.value.sizeMb <= available[i].sizeMb
  {
    var c := Candidates(available, kind);
    if |c| == 0 then None
    else
      var k := SmallestIndex(c);
      assert forall i | 0 <= i < |available| && IsCandidate(available[i], kind) :: c[k].sizeMb <= available[i].sizeMb by {
        forall i | 0 <= i < |available| && IsCandidate(available[i], kind) ensures c[k].sizeMb <= available[i].sizeMb {
          assert available[i] in c;
        }
      }
      Some(c[k])
  }

  /** `m` sits at index `i` and every candidate before it is strictly larger. */
  predicate ChosenAt(available: seq<ModelInfo>, kind: Kind, i: int, m: ModelInfo) {
    && 0 <= i < |available| && available[i] == m
    && forall j | 0 <= j < i && IsCandidate(available[j], kind) :: available[j].sizeMb > m.sizeMb
  }

  /** The choice over a list with one more model: the new model wins only
      when it is a candidate strictly smaller than the earlier choice. */
  lemma BestModelSnoc(available: seq<ModelInfo>, kind: Kind)
    requires |available| > 0
    ensures var init := available[..|available| - 1];
      var last := available[|available| - 1];
      BestModel(available, kind) ==
        if !IsCandidate(last, kind) then BestModel(init, kind)
        else if BestModel(init, kind).None? || last.sizeMb < BestModel(init, kind).value.sizeMb then Some(last)
        else BestModel(init, kind)
  {
    var init := available[..|available| - 1];
    var c := Candidates(available, kind);
    var c' := Candidates(init, kind);
    if IsCandidate(available[|available| - 1], kind) && |c'| > 0 {
      assert c[..|c| - 1] == c';
    }
  }

  /** The stable sort breaks ties by position: the chosen model is a
      candidate before which every candidate is strictly larger. */
  lemma {:induction false} BestModelEarliest(available: seq<ModelInfo>, kind: Kind)
    ensures BestModel(available, kind).Some? ==> exists i :: ChosenAt(available, kind, i, BestModel(available, kind).value)
  {
    if |available| > 0 {
      var init := available[..|available| - 1];
      BestModelEarliest(init, kind);
      BestModelSnoc(available, kind);
      EarliestStep(available, kind, BestModel(init, kind), BestModel(available, kind));
    }
  }

  /** One step of the induction above, on the two choices as plain values. */
  lemma EarliestStep(available: seq<ModelInfo>, kind: Kind, r: Option<ModelInfo>, b: Option<ModelInfo>)
    requires |available| > 0
    requires var init := available[..|available| - 1];
      && (r.Some? ==> exists i :: ChosenAt(init, kind, i, r.value))
      && (r.None? ==> forall i | 0 <= i < |init| :: !IsCandidate(init[i], kind))
      && (r.Some? ==> forall i | 0 <= i < |init| && IsCandidate(init[i], kind) :: r.value.sizeMb <= init[i].sizeMb)
    requires var last := available[|available| - 1];
      b == if !IsCandidate(last, kind) then r
           else if r.None? || last.sizeMb < r.value.sizeMb then Some(last)
           else r
    ensures b.Some? ==> exists i :: ChosenAt(available, kind, i, b.value)
  {
    var n := |available|;
    var init := available[..n - 1];
    var last := available[n - 1];
    if b.Some? {
      if b == r {
        var i :| ChosenAt(init, kind, i, r.value);
        ChosenExtends(available, kind, i, r.value);
      } else {
        forall j | 0 <= j < n - 1 && IsCandidate(available[j], kind)
          ensures available[j].sizeMb > last.sizeMb
        {
          assert init[j] == available[j];
        }
        assert ChosenAt(available, kind, n - 1, last);
      }
    }
  }

  /** A choice in a prefix stays a choice once an element is appended. */
  lemma ChosenExtends(available: seq<ModelInfo>, kind: Kind, i: int, m: ModelInfo)
    requires |available| > 0 && ChosenAt(available[..|available| - 1], kind, i, m)
    ensures ChosenAt(available, kind, i, m)
  {
    var init := available[..|available| - 1];
    assert forall j | 0 <= j < i :: init[j] == available[j];
  }

  // written as two literals so that the verifier can read its first character (see `MockResponse`)
  const ContextHead := "Based" + " on the context provided, I understand you want me to: "
  const PlainHead := "I understand your instruction: "

  /** Mock generation text (`_generate_mock_response`): the opening says
      whether a context was given, and the instruction can be read back
      from the end. */
  function MockResponse(instruction: string, context: Option<string>): (r: string)
    ensures StartsWith(r, ContextHead) <==> Present(context)
    ensures !Present(context) ==> StartsWith(r, PlainHead)
    ensures EndsWith(r, instruction + MockTail)
  {
    var head := if Present(context) then ContextHead else PlainHead;
    var r := head + (instruction + MockTail);
    ConcatAffixes(head, instruction + MockTail);
    if Present(context) then
      r
    else
      assert !StartsWith(r, ContextHead) by {
        if |ContextHead| <= |r| {
          assert r[..|ContextHead|][0] == r[..|PlainHead|][0] == 'I';
          assert ContextHead[0] == 'B';
        }
      }
      r
  }

  const MockTail := ". This is a mock response from the AI reasoning server. In production, this would be generated by your local AI model."

  /** Python truthiness of an optional string. */
  predicate Present(context: Option<string>) {
    context.Some? && context.value != []
  }

  const PromptTail := "\n\nResponse:"

  /** The prompt of `generate_text`: a context block only when the context is
      non-empty, then the instruction, which can be read back from the end. */
  function Prompt(instruction: string, context: Option<string>): (p: string)
    ensures StartsWith(p, "Context: ") <==> Present(context)
    ensures !Present(context) ==> StartsWith(p, "Instruction: ")
    ensures EndsWith(p, instruction + PromptTail)
  {
    var head := if Present(context) then "Context: " + context.value + "\n\n" else "";
    var p := head + "Instruction: " + instruction + PromptTail;
    assert p[|p| - |instruction + PromptTail|..] == instruction + PromptTail;
    if Present(context) then
      assert p[..9] == "Context: ";
      p
    else
      assert p[..13] == "Instruction: ";
      assert p[..9] != "Context: " by { assert p[0] == 'I'; }
      p
  }

  /** The generation settings handed to a runtime. */
  datatype Settings = Settings(maxTokens: Json, temperature: Json)

  /** The runtime's reply: a completion text, a reply of an unexpected shape, or an exception. */
  datatype Completion = Completed(text: string) | Malformed | Raised

  /** The result dictionary without its timing field. */
  datatype GenOutput = GenOutput(result: string, modelUsed: string)

  /** The llama settings, read from the keyword arguments as written. */
  function LlamaSettings(kwargs: map<string, Json>): (s: Settings)
    ensures s.maxTokens == (if "max_tokens" in kwargs then kwargs["max_tokens"] else JNum(500.0))
    ensures s.temperature == (if "temperature" in kwargs then kwargs["temperature"] else JNum(0.1))
  {
    Settings(Get(kwargs, "max_tokens", JNum(500.0)), Get(kwargs, "temperature", JNum(0.1)))
  }

  function MinReal(a: real, b: real): real {
    if a <= b then a else b
  }

  /** The pipeline settings: `max_tokens` (default 500) capped at 1024 and
      temperature defaulting to 0.7; `None` when the cap cannot be taken
      because `max_tokens` is not a number. */
  function PipelineSettings(kwargs: map<string, Json>): (s: Option<Settings>)
    ensures s.None? <==> "max_tokens" in kwargs && !kwargs["max_tokens"].JNum?
    ensures s.Some? ==> s.value.maxTokens.JNum? && s.value.maxTokens.n <= 1024.0
    ensures s.Some? && "max_tokens" !in kwargs ==> s.value.maxTokens == JNum(500.0)
    ensures s.Some? ==> s.value.temperature == (if "temperature" in kwargs then kwargs["temperature"] else JNum(0.7))
  {
    var m := Get(kwargs, "max_tokens", JNum(500.0));
    if !m.JNum? then None
    else Some(Settings(JNum(MinReal(m.n, 1024.0)), Get(kwargs, "temperature", JNum(0.7))))
  }

  /** The keyword arguments `/app-reason` and the app-reasoning service pass:
      the settings nested under one `parameters` argument. */
  const NestedKwargs: map<string, Json> := map["parameters" := JObj(map["max_tokens" := JNum(300.0), "temperature" := JNum(0.1)])]

  /** An example of the code as written: the nested settings are never read: the llama runtime is
      asked for 500 tokens, not the 300 the caller passes. */
  lemma NestedParametersIgnored()
    ensures LlamaSettings(NestedKwargs).maxTokens == JNum(500.0)
    ensures PipelineSettings(NestedKwargs) == Some(Settings(JNum(500.0), JNum(0.7)))
  {
    assert "max_tokens" !in NestedKwargs;
    assert "temperature" !in NestedKwargs;
  }

  /** The keyword arguments as they were evidently meant: the entries of a
      `parameters` object are unpacked into the others, as the generic
      reasoning path does with `**params`. */
  function Unpacked(kwargs: map<string, Json>): (k: map<string, Json>)
    ensures "parameters" in kwargs && kwargs["parameters"].JObj? ==>
      forall key | key in kwargs["parameters"].fields :: key in k && k[key] == kwargs["parameters"].fields[key]
    ensures !("parameters" in kwargs && kwargs["parameters"].JObj?) ==> k == kwargs
  {
    if "parameters" in kwargs && kwargs["parameters"].JObj? then (kwargs - {"parameters"}) + kwargs["parameters"].fields
    else kwargs
  }

  /** An example of the corrected reading: it passes the caller's 300 tokens
      and 0.1 temperature. */
  lemma UnpackedParametersRead()
    ensures LlamaSettings(Unpacked(NestedKwargs)) == Settings(JNum(300.0), JNum(0.1))
    ensures PipelineSettings(Unpacked(NestedKwargs)) == Some(Settings(JNum(300.0), JNum(0.1)))
  {
    var k := Unpacked(NestedKwargs);
    assert "max_tokens" in k && k["max_tokens"] == JNum(300.0);
    assert "temperature" in k && k["temperature"] == JNum(0.1);
  }

  /** What `get_status` reports (device figures and memory left out). */
  datatype Status = Status(device: string, availableModels: nat, loadedModels: seq<string>, textModelReady: bool, visionModelReady: bool)

  /** `model_used`: the first loaded entry, or `mock_model`. */
  function ModelUsed(loaded: seq<string>): (u: string)
    ensures loaded != [] ==> u == loaded[0]
    ensures loaded == [] ==> u == "mock_model"
  {
    if loaded == [] then "mock_model" else loaded[0]
  }

  /** Appending never changes `model_used` of a non-empty list: the first
      model ever loaded names every result. */
  lemma ModelUsedStable(loaded: seq<string>, extra: seq<string>)
    requires loaded != []
    ensures ModelUsed(loaded + extra) == ModelUsed(loaded)
  {
  }

  class AIModelManager {
    /** Whether a llama model, a transformers pipeline and a vision handle are set. */
    var textModel: bool
    var textPipeline: bool
    var visionModel: Option<string>
    var loadedModels: seq<string>
    var availableModels: seq<ModelInfo>
    var device: string

    /** A fresh manager over the models the folder scan found. */
    constructor(device: string, found: seq<ModelInfo>)
      ensures !textModel && !textPipeline && visionModel.None?
      ensures loadedModels == [] && availableModels == found && this.device == device
    {
      textModel := false;
      textPipeline := false;
      visionModel := None;
      loadedModels := [];
      availableModels := found;
      this.device := device;
    }

    /** `_initialize_mock_model`: clears the llama handle and records the mock. */
    method InitializeMockModel()
      modifies this
      ensures !textModel && textPipeline == old(textPipeline) && visionModel == old(visionModel)
      ensures loadedModels == old(loadedModels) + ["text:mock_reasoning_model"]
      ensures availableModels == old(availableModels) && device == old(device)
    {
      textModel := false;
      loadedModels := loadedModels + ["text:mock_reasoning_model"];
    }

    /** `initialize_vision_model`: sets the placeholder handle and records the
      smallest vision model, or changes nothing when there is none. */
    method InitializeVisionModel()
      modifies this
      ensures BestModel(availableModels, VisionKind).None? ==> visionModel == old(visionModel) && loadedModels == old(loadedModels)
      ensures BestModel(availableModels, VisionKind).Some? ==>
        && visionModel == Some("mock_vision_placeholder")
        && loadedModels == old(loadedModels) + ["vision:" + BestModel(availableModels, VisionKind).value.name]
      ensures textModel == old(textModel) && textPipeline == old(textPipeline)
      ensures availableModels == old(availableModels) && device == old(device)
    {
      var best := BestModel(availableModels, VisionKind);
      if best.Some? {
        visionModel := Some("mock_vision_placeholder");
        loadedModels := loadedModels + ["vision:" + best.value.name];
      }
    }

    /** `get_status`. */
    function GetStatus(): (s: Status)
      reads this
      ensures s.textModelReady <==> textModel || textPipeline
      ensures s.visionModelReady <==> visionModel.Some?
      ensures s.loadedModels == loadedModels && s.availableModels == |availableModels|
    {
      Status(device, |availableModels|, loadedModels, textModel || textPipeline, visionModel.Some?)
    }

    /** `generate_text` as written: the guard rejects a manager with neither
      a llama model nor a pipeline, so after `_initialize_mock_model` alone
      the mock branch is never reached. The runtime is given the prompt and
      the settings and its reply is an input. */
    function GenerateText(instruction: string, context: Option<string>, kwargs: map<string, Json>, runtime: (string, Settings) -> Completion): (r: Result<GenOutput, string>)
      reads this
      ensures r.Err? <==> !textModel && !textPipeline
      ensures r.Err? ==> r.error == "No text model loaded"
      ensures r.Ok? ==> r.value.modelUsed == ModelUsed(loadedModels)
      ensures r.Ok? && textModel ==>
        r.value.result == (match runtime(Prompt(instruction, context), LlamaSettings(kwargs))
                             case Completed(text) => Strip(text)
                             case _ => MockResponse(instruction, context))
      // the pipeline branch: its settings are checked first, and a failure of either step gives the mock text
      ensures r.Ok? && !textModel && textPipeline ==>
        r.value.result == (match PipelineSettings(kwargs)
                             case None => MockResponse(instruction, context)
                             case Some(settings) =>
                               match runtime(Prompt(instruction, context), settings)
                               case Completed(text) => Strip(text)
                               case _ => MockResponse(instruction, context))
    {
      if !textModel && !textPipeline then Err("No text model loaded")
      else Ok(GenOutput(Respond(instruction, context, kwargs, runtime), ModelUsed(loadedModels)))
    }

    /** The response text of the branch the handles select; the mock text
      when neither handle is set. */
    function Respond(instruction: string, context: Option<string>, kwargs: map<string, Json>, runtime: (string, Settings) -> Completion): string
      reads this
    {
      var prompt := Prompt(instruction, context);
      if textModel then
        match runtime(prompt, LlamaSettings(kwargs))
        case Completed(text) => Strip(text)
        case _ => MockResponse(instruction, context)
      else if textPipeline then
        var settings := PipelineSettings(kwargs);
        if settings.None? then MockResponse(instruction, context)
        else
          match runtime(prompt, settings.value)
          case Completed(text) => Strip(text)
          case _ => MockResponse(instruction, context)
      else MockResponse(instruction, context)
    }

    /** `generate_text` as the comments of `_initialize_mock_model` intend it:
      no guard, so a manager without handles answers with the mock text. */
    function GenerateTextReachingMock(instruction: string, context: Option<string>, kwargs: map<string, Json>, runtime: (string, Settings) -> Completion): (r: GenOutput)
      reads this
      ensures !textModel && !textPipeline ==> r.result == MockResponse(instruction, context)
      ensures r.modelUsed == ModelUsed(loadedModels)
      ensures textModel || textPipeline ==> Ok(r) == GenerateText(instruction, context, kwargs, runtime)
    {
      GenOutput(Respond(instruction, context, kwargs, runtime), ModelUsed(loadedModels))
    }
  }

  /** With no models found, the server falls back to the mock model, and the
      guard then rejects every generation. */
  method MockOnlyGeneration(instruction: string, context: Option<string>, runtime: (string, Settings) -> Completion) returns (r: Result<GenOutput, string>, status: Status)
    ensures r == Err("No text model loaded")
    ensures status.loadedModels == ["text:mock_reasoning_model"] && !status.textModelReady
  {
    var m := new AIModelManager("cpu", []);
    m.InitializeMockModel();
    r := m.GenerateText(instruction, context, map[], runtime);
    status := m.GetStatus();
  }

  /** The same start-up with the corrected generation answers with the mock
      text under the mock model's name. */
  method MockOnlyGenerationCorrected(instruction: string, context: Option<string>, runtime: (string, Settings) -> Completion) returns (r: GenOutput)
    ensures r == GenOutput(MockResponse(instruction, context), "text:mock_reasoning_model")
  {
    var m := new AIModelManager("cpu", []);
    m.InitializeMockModel();
    r := m.GenerateTextReachingMock(instruction, context, map[], runtime);
  }
}
