/** The request helpers of `app/services/api_service.py`: the response cache
    with its time-to-live, caption cleaning, request validation, prompt
    building, output checking and the data-URL split. The clock is the
    `now` parameter; the model runtimes and the image codecs are outside the
    model. */
module ApiService {
  import opened Wrappers
  import opened Text
  import opened JsonModel

  /** `InferenceException` with its message and error code. */
  datatype InferenceException = InferenceException(message: string, errorCode: string)

  const DefaultErrorCode := "INFERENCE_ERROR"

  /** What the service caches: a text-generation or an image-description response. */
  datatype CachedResponse = TextGenerations(texts: seq<string>) | ImageCaption(caption: string)

  /** One cache entry: the response and the time it was stored. */
  datatype CacheEntry = CacheEntry(response: CachedResponse, timestamp: int)

  /** The entries a sweep at `now` keeps: those not older than the time-to-live. */
  function Unexpired(cache: map<string, CacheEntry>, now: int, ttl: int): (kept: map<string, CacheEntry>)
    ensures kept.Keys <= cache.Keys
    ensures forall k | k in cache :: k in kept <==> now - cache[k].timestamp <= ttl
    ensures forall k | k in kept :: kept[k] == cache[k]
  {
    map k | k in cache && now - cache[k].timestamp <= ttl :: cache[k]
  }

  /** Sweeping twice at the same time removes nothing more. */
  lemma UnexpiredIdempotent(cache: map<string, CacheEntry>, now: int, ttl: int)
    ensures Unexpired(Unexpired(cache, now, ttl), now, ttl) == Unexpired(cache, now, ttl)
  {
  }

  class ApiService {
    var requestCache: map<string, CacheEntry>
    const cacheTtl: int := 300
    const sweepThreshold: nat := 100

    constructor()
      ensures requestCache == map[]
    {
      requestCache := map[];
    }

    /** `_get_cached_response`: a fresh entry is returned; an expired one is
        deleted, and nothing else changes. */
    method GetCachedResponse(cacheKey: string, now: int) returns (r: Option<CachedResponse>)
      modifies this
      ensures cacheKey in old(requestCache) && now - old(requestCache)[cacheKey].timestamp < cacheTtl ==>
        r == Some(old(requestCache)[cacheKey].response) && requestCache == old(requestCache)
      ensures cacheKey in old(requestCache) && now - old(requestCache)[cacheKey].timestamp >= cacheTtl ==>
        r.None? && requestCache == old(requestCache) - {cacheKey}
      ensures cacheKey !in old(requestCache) ==> r.None? && requestCache == old(requestCache)
    {
      if cacheKey in requestCache {
        var cachedItem := requestCache[cacheKey];
        if now - cachedItem.timestamp < cacheTtl {
          return Some(cachedItem.response);
        } else {
          requestCache := requestCache - {cacheKey};
        }
      }
      return None;
    }

    /** `_cache_response`: store the entry stamped `now`; past 100 entries,
        delete every entry older than the time-to-live. */
    method CacheResponse(cacheKey: string, response: CachedResponse, now: int)
      modifies this
      ensures var stored := old(requestCache)[cacheKey := CacheEntry(response, now)];
        requestCache == if |stored| > sweepThreshold then Unexpired(stored, now, cacheTtl) else stored
      ensures cacheKey in requestCache && requestCache[cacheKey] == CacheEntry(response, now)
    {
      requestCache := requestCache[cacheKey := CacheEntry(response, now)];
      ghost var stored := requestCache;
      if |requestCache| > sweepThreshold {
        var currentTime := now;
        var expiredKeys := set key | key in requestCache && currentTime - requestCache[key].timestamp > cacheTtl;
        var remaining := expiredKeys;
        while remaining != {}
          invariant remaining <= expiredKeys
          invariant forall k :: k in requestCache <==> k in stored && (k !in expiredKeys || k in remaining)
          invariant forall k | k in requestCache :: requestCache[k] == stored[k]
          decreases |remaining|
        {
          var key :| key in remaining;
          requestCache := requestCache - {key};
          remaining := remaining - {key};
        }
        ghost var kept := Unexpired(stored, now, cacheTtl);
        assert requestCache.Keys == kept.Keys;
        assert requestCache == kept;
      }
    }
  }

  const RepeatedPhrase := "a picture of a picture of"
  const SinglePhrase := "a picture of"

  /** `_clean_caption`: strip, collapse the doubled phrase, capitalise the
      first character and end with a full stop. */
  method CleanCaption(caption0: string) returns (caption: string)
    ensures IsBlank(caption0) ==> caption == []
    ensures !IsBlank(caption0) ==>
      && |caption| > 0 && caption[|caption| - 1] == '.'
      && caption[0] == ToUpper(Strip(caption0)[0])
    ensures caption == WithStop(Capitalised(ReplacedIfFlagged(Strip(caption0))))
    ensures !Contains(Strip(caption0), RepeatedPhrase) ==> caption == WithStop(Capitalised(Strip(caption0)))
  {
    caption := Strip(caption0);
    ghost var stripped := caption;
    if Contains(Lower(caption), "a picture of a picture") {
      if caption != [] {
        ReplaceKeepsHead(caption, RepeatedPhrase, SinglePhrase);
      }
      if !Contains(caption, RepeatedPhrase) {
        ReplaceAbsent(caption, RepeatedPhrase, SinglePhrase);
      }
      caption := ReplaceAll(caption, RepeatedPhrase, SinglePhrase);
    }
    if caption != [] && !IsUpper(caption[0]) {
      caption := [ToUpper(caption[0])] + caption[1..];
    }
    assert caption == Capitalised(ReplacedIfFlagged(stripped));
    if !Contains(stripped, RepeatedPhrase) {
      CapitalisedPhraseKept(stripped);
    }
    ghost var capitalised := caption;
    if caption != [] && !EndsWith(caption, ".") {
      caption := caption + ".";
    }
    assert caption == WithStop(capitalised);
  }

  /** The phrase fix as it reads: the test is case-insensitive, the
      replacement is not. */
  function ReplacedIfFlagged(s: string): string {
    if Contains(Lower(s), "a picture of a picture") then ReplaceAll(s, RepeatedPhrase, SinglePhrase) else s
  }

  /** The full-stop step. */
  function WithStop(s: string): (r: string)
    ensures s != [] ==> EndsWith(r, ".") && |r| >= |s| && r[..|s|] == s
    ensures s != [] ==> r[|r| - 1] == '.' && r[0] == s[0]
    ensures s == [] ==> r == []
    ensures EndsWith(s, ".") ==> r == s
    ensures |r| <= |s| + 1
  {
    if s != [] && !EndsWith(s, ".") then s + "." else s
  }

  /** The capitalisation step. */
  function Capitalised(s: string): (r: string)
    ensures |r| == |s| && (|s| > 0 ==> r[0] == ToUpper(s[0]) && r[1..] == s[1..])
  {
    if s != [] && !IsUpper(s[0]) then [ToUpper(s[0])] + s[1..] else s
  }

  /** A capitalised doubled phrase trips the case-insensitive test but is
      not replaced: only the exact lower-case phrase is collapsed. */
  lemma CapitalisedPhraseKept(s: string)
    requires !Contains(s, RepeatedPhrase)
    ensures ReplacedIfFlagged(s) == s
  {
    ReplaceAbsent(s, RepeatedPhrase, SinglePhrase);
  }

  /** A text-generation request as validation sees it. */
  datatype TextRequest = TextRequest(prompt: string, maxTokens: Option<int>, temperature: Option<real>, context: Option<seq<map<string, string>>>)

  const InvalidRequest := "INVALID_REQUEST"

  /** `_validate_text_generation_request`: `None` when the request passes.
      A `max_tokens` or `temperature` of 0 skips its check, as Python's
      truthiness test does. */
  function ValidateTextRequest(request: TextRequest): (r: Option<InferenceException>)
    ensures r.Some? ==> r.value.errorCode == InvalidRequest
    ensures r.None? <==> (
      && !IsBlank(request.prompt)
      && |request.prompt| <= 4000
      && (request.maxTokens.None? || request.maxTokens.value == 0 || 1 <= request.maxTokens.value <= 2048)
      && (request.temperature.None? || 0.0 <= request.temperature.value <= 2.0))
    ensures IsBlank(request.prompt) ==> r == Some(InferenceException("Empty prompt provided", InvalidRequest))
  {
    if Strip(request.prompt) == [] then Some(InferenceException("Empty prompt provided", InvalidRequest))
    else if |request.prompt| > 4000 then Some(InferenceException("Prompt too long (max 4000 characters)", InvalidRequest))
    else if request.maxTokens.Some? && request.maxTokens.value != 0 && (request.maxTokens.value < 1 || request.maxTokens.value > 2048) then
      Some(InferenceException("Invalid max_tokens (must be 1-2048)", InvalidRequest))
    else if request.temperature.Some? && request.temperature.value != 0.0 && (request.temperature.value < 0.0 || request.temperature.value > 2.0) then
      Some(InferenceException("Invalid temperature (must be 0.0-2.0)", InvalidRequest))
    else None
  }

  /** One line of the conversation block, with the role defaulting to
      `user` and the content to the empty text. */
  function ContextLine(msg: map<string, string>): string {
    (if "role" in msg then msg["role"] else "user") + ": " + (if "content" in msg then msg["content"] else "")
  }

  function ContextLines(context: seq<map<string, string>>): (lines: seq<string>)
    ensures |lines| == |context| && forall i | 0 <= i < |context| :: lines[i] == ContextLine(context[i])
  {
    if |context| == 0 then [] else [ContextLine(context[0])] + ContextLines(context[1..])
  }

  /** `_build_full_prompt`, built by appending as the source does. */
  method BuildFullPrompt(systemPrompt: string, request: TextRequest) returns (fullPrompt: string)
    ensures StartsWith(fullPrompt, "System: " + systemPrompt + "\n")
    ensures EndsWith(fullPrompt, "Human: " + request.prompt + "\nAssistant:")
    ensures fullPrompt == ("System: " + systemPrompt + "\n")
      + (if request.context.Some? && request.context.value != []
         then "Previous conversation:\n" + JoinWith(ContextLines(request.context.value), "\n") + "\n\n"
         else "")
      + ("Human: " + request.prompt + "\nAssistant:")
  {
    var head := "System: " + systemPrompt + "\n";
    var question := "Human: " + request.prompt + "\nAssistant:";
    fullPrompt := head;
    if request.context.Some? && request.context.value != [] {
      var contextText := JoinWith(ContextLines(request.context.value), "\n");
      fullPrompt := fullPrompt + ("Previous conversation:\n" + contextText + "\n\n");
    } else {
      assert fullPrompt == head + "";
    }
    ghost var middle := fullPrompt;
    fullPrompt := fullPrompt + question;
    assert fullPrompt[..|head|] == head by {
      assert middle[..|head|] == head;
      assert fullPrompt[..|head|] == middle[..|head|];
    }
    assert fullPrompt[|middle|..] == question;
  }

  const Apology := "I apologize, but I couldn't generate a proper response. Please try rephrasing your question."
  /** Stands for the text of the error Python raises on an output of the wrong shape. */
  const WrongShapeText := "unexpected output shape"

  /** `output['choices'][0].get('text', '')` when the output has that shape. */
  function FirstChoiceText(output: map<string, Json>): Option<string> {
    if "choices" in output && output["choices"].JArr? && |output["choices"].items| > 0
       && output["choices"].items[0].JObj?
       && Get(output["choices"].items[0].fields, "text", JStr("")).JStr?
    then Some(Get(output["choices"].items[0].fields, "text", JStr("")).s)
    else None
  }

  /** `_process_llm_output`: the stripped text of the first choice, or the
      apology when it is blank. */
  function ProcessLlmOutput(output: map<string, Json>): (r: Result<string, InferenceException>)
    ensures "choices" !in output || !Truthy(output["choices"]) ==> r == Err(InferenceException("Model produced no output", DefaultErrorCode))
    ensures r.Ok? <==> FirstChoiceText(output).Some?
    // a well-shaped first choice: its stripped text, or the apology when that is blank
    ensures FirstChoiceText(output).Some? ==>
      var text := FirstChoiceText(output).value;
      r == Ok(if Strip(text) == [] then Apology else Strip(text))
  {
    if "choices" !in output || !Truthy(output["choices"]) then Err(InferenceException("Model produced no output", DefaultErrorCode))
    else match FirstChoiceText(output)
      case None => Err(InferenceException(WrongShapeText, DefaultErrorCode))
      case Some(text) =>
        var responseText := Strip(text);
        if responseText == [] then Ok(Apology)
        else Ok(responseText)
  }

  /** What the service answers is never empty, and text that is not the
      apology has no surrounding whitespace. */
  lemma ProcessedNeverBlank(output: map<string, Json>)
    ensures var r := ProcessLlmOutput(output);
      r.Ok? ==> r.value != [] && (r.value != Apology ==> !IsSpace(r.value[0]) && !IsSpace(r.value[|r.value| - 1]))
  {
    var text := FirstChoiceText(output);
    if text.Some? {
      var t := Strip(text.value);
      if t == [] {
        assert |Apology| == 92;
      } else {
        assert ProcessLlmOutput(output) == Ok(t);
      }
    }
  }

  /** The data-URL split of `_process_image_input`: with a comma, the text
      after the last comma; without, the text itself. */
  function ImagePayload(imageB64: string): (r: string)
    ensures ',' !in imageB64 ==> r == imageB64
    ensures ',' in imageB64 ==> ',' !in r
  {
    if ',' in imageB64 then
      var parts := Split(imageB64, ',');
      assert ',' !in parts[|parts| - 1];
      parts[|parts| - 1]
    else imageB64
  }

  /** The last comma-free piece is what follows the last comma. */
  lemma ImagePayloadAfterLastComma(imageB64: string)
    ensures ImagePayload(imageB64) == imageB64[RFindChar(imageB64, ',') + 1..]
  {
    if ',' in imageB64 {
      SplitLast(imageB64, ',');
    }
  }

  /** The last occurrence of a character is unique. */
  lemma LastIndexUnique(s: string, c: char, a: nat, b: nat)
    requires a < |s| && b < |s| && s[a] == c && s[b] == c
    requires c !in s[a + 1..] && c !in s[b + 1..]
    ensures a == b
  {
  }

  lemma RFindTail(s: string, c: char)
    requires |s| > 0
    ensures c in s[1..] ==> RFindChar(s, c) == RFindChar(s[1..], c) + 1
    ensures c !in s[1..] ==> RFindChar(s, c) == (if s[0] == c then 0 else -1)
  {
    var r := RFindChar(s, c);
    assert s == [s[0]] + s[1..];
    if c in s[1..] {
      var k := RFindChar(s[1..], c);
      assert s[1..][k + 1..] == s[k + 2..];
      assert s[k + 1] == c;
      LastIndexUnique(s, c, r, k + 1);
    } else if s[0] == c {
      LastIndexUnique(s, c, r, 0);
    }
  }

  /** Peeling the first character off a split: the last piece is the one
      of the rest, unless the text holds no separator at all. */
  lemma SplitLastCons(s: string, sep: char)
    requires |s| > 0
    ensures var parts := Split(s, sep); var rest := Split(s[1..], sep);
      parts[|parts| - 1] == if sep in s then rest[|rest| - 1] else s
  {
    var parts := Split(s, sep);
    var rest := Split(s[1..], sep);
    assert s == [s[0]] + s[1..];
    SplitCount(s[1..], sep);
    if s[0] != sep {
      assert parts == [[s[0]] + rest[0]] + rest[1..];
      if sep !in s[1..] {
        assert |rest| == 1;
        SplitWhole(s[1..], sep);
      }
    }
  }

  /** Without a separator, the split is the text itself. */
  lemma {:induction false} SplitWhole(s: string, sep: char)
    requires sep !in s
    ensures Split(s, sep) == [s]
  {
    if |s| > 0 {
      assert s == [s[0]] + s[1..];
      SplitWhole(s[1..], sep);
    }
  }

  /** The last piece of a split is the text after the last separator. */
  lemma {:induction false} SplitLast(s: string, sep: char)
    ensures var parts := Split(s, sep); parts[|parts| - 1] == s[RFindChar(s, sep) + 1..]
  {
    if |s| == 0 {
      assert Split(s, sep) == [""];
      assert RFindChar(s, sep) == -1;
    } else {
      SplitLast(s[1..], sep);
      SplitLastCons(s, sep);
      RFindTail(s, sep);
      var r1 := RFindChar(s[1..], sep);
      if sep in s[1..] {
        assert s[1..][r1 + 1..] == s[r1 + 2..];
      } else if s[0] == sep {
        assert s[1..][r1 + 1..] == s[1..];
      } else {
        assert sep !in s by { assert s == [s[0]] + s[1..]; }
      }
    }
  }
}
