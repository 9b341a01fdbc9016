/** The generic JSON helpers of the AI server (`app/utils.py`): the
    string-aware closer `complete_json_structure`, the `is_json_response`
    test and the forgiving `safe_json_parse`. */
module JsonUtils {
  import opened Text
  import opened JsonModel
  import BraceCount

  /** What the closer's scan remembers: unmatched `{` and `[` outside string
      literals, whether it is inside a literal, and whether the previous
      character was a backslash. */
  datatype ScanState = ScanState(braces: int, brackets: int, inString: bool, escaped: bool)

  const Start := ScanState(0, 0, false, false)

  /** One character of the scan. A character right after a backslash is
      skipped and a backslash always escapes the next character, inside a
      literal or not; an unescaped `"` opens or closes a literal; brackets
      count only outside literals. */
  function Step(st: ScanState, c: char): ScanState {
    if st.escaped then st.(escaped := false)
    else if c == '\\' then st.(escaped := true)
    else if c == '"' then st.(inString := !st.inString)
    else if st.inString then st
    else if c == '{' then st.(braces := st.braces + 1)
    else if c == '}' then st.(braces := st.braces - 1)
    else if c == '[' then st.(brackets := st.brackets + 1)
    else if c == ']' then st.(brackets := st.brackets - 1)
    else st
  }

  function Run(st: ScanState, s: string): ScanState
    decreases |s|
  {
    if |s| == 0 then st else Run(Step(st, s[0]), s[1..])
  }

  /** The scan state after reading `s` from the start. */
  function Scan(s: string): ScanState {
    Run(Start, s)
  }

  lemma {:induction false} RunSnoc(st: ScanState, s: string, c: char)
    ensures Run(st, s + [c]) == Step(Run(st, s), c)
    decreases |s|
  {
    if |s| > 0 {
      assert (s + [c])[1..] == s[1..] + [c];
      RunSnoc(Step(st, s[0]), s[1..], c);
    }
  }

  lemma {:induction false} RunAppend(st: ScanState, a: string, b: string)
    ensures Run(st, a + b) == Run(Run(st, a), b)
    decreases |a|
  {
    if |a| > 0 {
      assert (a + b)[1..] == a[1..] + b;
      RunAppend(Step(st, a[0]), a[1..], b);
    } else {
      assert a + b == b;
    }
  }

  /** The body of a JSON string literal as RFC 8259, section 7 writes it: a
      run of characters other than `"` and `\`, and of two-character escapes
      `\x`. */
  predicate StringBody(b: string)
    decreases |b|
  {
    || |b| == 0
    || (b[0] != '"' && b[0] != '\\' && StringBody(b[1..]))
    || (|b| >= 2 && b[0] == '\\' && StringBody(b[2..]))
  }

  lemma {:induction false} BodyInsideString(st: ScanState, b: string)
    requires st.inString && !st.escaped && StringBody(b)
    ensures Run(st, b) == st
    decreases |b|
  {
    if |b| > 0 {
      if b[0] != '"' && b[0] != '\\' && StringBody(b[1..]) {
        BodyInsideString(st, b[1..]);
      } else {
        assert b[1..][1..] == b[2..];
        BodyInsideString(st, b[2..]);
      }
    }
  }

  /** A complete string literal leaves the scan where it was: braces and
      brackets inside it are not counted, escaped quotes do not end it. */
  lemma StringLiteralInvisible(st: ScanState, b: string)
    requires !st.inString && !st.escaped && StringBody(b)
    ensures Run(st, "\"" + b + "\"") == st
  {
    var open := st.(inString := true);
    RunAppend(st, "\"", b + "\"");
    assert "\"" + b + "\"" == "\"" + (b + "\"");
    RunAppend(open, b, "\"");
    BodyInsideString(open, b);
  }

  /** A backslash hides the character after it, outside string literals too. */
  lemma EscapeHidesNext(st: ScanState, c: char)
    requires !st.escaped
    ensures Run(st, ['\\', c]) == st
  {
    var s := ['\\', c];
    var mid := Step(st, '\\');
    assert s[1..] == [c] && [c][1..] == [];
    assert Run(st, s) == Run(mid, [c]);
    assert Run(mid, [c]) == Run(Step(mid, c), []);
  }

  /** Without quotes and backslashes the string-aware scan and the naive
      count of the other extractors agree on braces. */
  lemma {:induction false} PlainTextScan(st: ScanState, s: string)
    requires !st.inString && !st.escaped
    requires '"' !in s && '\\' !in s
    ensures Run(st, s).braces == st.braces + BraceCount.Balance(s)
    ensures Run(st, s).brackets == st.brackets + CountChar(s, '[') - CountChar(s, ']')
    ensures !Run(st, s).inString && !Run(st, s).escaped
  {
    if |s| > 0 {
      var init := s[..|s| - 1];
      assert s == init + [s[|s| - 1]];
      PlainTextScan(st, init);
      RunSnoc(st, init, s[|s| - 1]);
    }
  }

  /** Characters outside `{}[]"\` never move the counts or the literal flag. */
  predicate Neutral(c: char) {
    c != '{' && c != '}' && c != '[' && c != ']' && c != '"' && c != '\\'
  }

  lemma {:induction false} NeutralRun(st: ScanState, s: string)
    requires forall i | 0 <= i < |s| :: Neutral(s[i])
    ensures Run(st, s).braces == st.braces && Run(st, s).brackets == st.brackets
    ensures Run(st, s).inString == st.inString
    decreases |s|
  {
    if |s| > 0 {
      NeutralRun(Step(st, s[0]), s[1..]);
    }
  }

  function Min0(x: int): int {
    if x < 0 then x else 0
  }

  /** `response[response.find('{'):].strip()`: the stripped text from the first `{`. */
  function JsonPart(response: string): (p: string)
    requires '{' in response
    ensures |p| > 0 && p[0] == '{'
  {
    var k := FindChar(response, '{');
    StripFromNonSpace(response[k..]);
    Strip(response[k..])
  }

  /** The part is the stripped text from the first `{` on. */
  lemma JsonPartFromFirstBrace(response: string)
    requires '{' in response
    ensures exists k | 0 <= k < |response| && response[k] == '{' && '{' !in response[..k] ::
      JsonPart(response) == Strip(response[k..])
  {
    var k := FindChar(response, '{');
    assert response[k] == '{' && '{' !in response[..k];
  }

  /** Dropping one trailing comma (after right-stripping) when there is one. */
  function TrimComma(p: string): (t: string)
    ensures t == p || t + "," == RStrip(p)
    ensures EndsWith(RStrip(p), ",") ==> t + "," == RStrip(p)
    ensures !EndsWith(RStrip(p), ",") ==> t == p
    ensures |p| > 0 && !IsSpace(p[0]) && p[0] != ',' ==> |t| > 0 && t[0] == p[0]
  {
    var s := RStrip(p);
    if |s| > 0 && s[|s| - 1] == ',' then
      assert s[..|s| - 1] + "," == s;
      s[..|s| - 1]
    else p
  }

  /** The tail closing `brackets` open lists, then `braces` open objects. */
  function CloseTail(brackets: int, braces: int): string {
    Repeat(']', Max0(brackets)) + Repeat('}', Max0(braces))
  }

  /** The closing tail of a part. */
  function Closers(p: string): string {
    CloseTail(Scan(p).brackets, Scan(p).braces)
  }

  /** The closing tail holds one `]` per unmatched `[`, then one `}` per unmatched `{`. */
  lemma ClosersShape(p: string)
    ensures var c := Closers(p);
      && |c| == Max0(Scan(p).brackets) + Max0(Scan(p).braces)
      && forall i | 0 <= i < |c| :: c[i] == if i < Max0(Scan(p).brackets) then ']' else '}'
  {
  }

  /** No `]` ever follows a `}` in the closing tail. */
  lemma ClosersOrdered(p: string, i: nat, j: nat)
    requires i < j < |Closers(p)| && Closers(p)[i] == '}'
    ensures Closers(p)[j] == '}'
  {
    ClosersShape(p);
  }

  /** The text complete_json_structure validates: part, comma dropped, tail appended. */
  function Candidate(response: string): string
    requires '{' in response
  {
    TrimComma(JsonPart(response)) + Closers(JsonPart(response))
  }

  /** `complete_json_structure(response)`: the candidate when `json.loads`
      accepts it, and `{}` in every other case. */
  function Completed(response: string, parse: Parser): (r: string)
    ensures IsBlank(response) ==> r == "{}"
    ensures '{' !in response ==> r == "{}"
    ensures r == "{}" || ('{' in response && r == Candidate(response) && parse(r).Parsed?)
    ensures !IsBlank(response) && '{' in response && parse(Candidate(response)).Parsed? ==>
      r == Candidate(response)
    ensures !IsBlank(response) && '{' in response && !parse(Candidate(response)).Parsed? ==>
      r == "{}"
  {
    if Strip(response) == [] then "{}"
    else if FindChar(response, '{') == -1 then "{}"
    else
      var c := Candidate(response);
      if parse(c).Parsed? then c else "{}"
  }

  /** The scan loop of the closer over the stripped part. */
  method ScanLoop(jsonPart: string) returns (openBraces: int, openBrackets: int, inString: bool, escaped: bool)
    ensures ScanState(openBraces, openBrackets, inString, escaped) == Scan(jsonPart)
  {
    openBraces, openBrackets, inString, escaped := 0, 0, false, false;
    for i := 0 to |jsonPart|
      invariant ScanState(openBraces, openBrackets, inString, escaped) == Scan(jsonPart[..i])
    {
      var c := jsonPart[i];
      RunSnoc(Start, jsonPart[..i], c);
      assert jsonPart[..i + 1] == jsonPart[..i] + [c];
      if escaped {
        escaped := false;
        continue;
      }
      if c == '\\' {
        escaped := true;
        continue;
      }
      if c == '"' && !escaped {
        inString := !inString;
        continue;
      }
      if !inString {
        if c == '{' {
          openBraces := openBraces + 1;
        } else if c == '}' {
          openBraces := openBraces - 1;
        } else if c == '[' {
          openBrackets := openBrackets + 1;
        } else if c == ']' {
          openBrackets := openBrackets - 1;
        }
      }
    }
    assert jsonPart[..|jsonPart|] == jsonPart;
  }

  /** The two closing loops: `]` while brackets are open, then `}` while braces are. */
  method CloseLoops(jsonPart: string, openBrackets: int, openBraces: int) returns (r: string)
    ensures r == jsonPart + CloseTail(openBrackets, openBraces)
  {
    r := jsonPart;
    var brackets, braces := openBrackets, openBraces;
    while brackets > 0
      invariant Max0(brackets) <= Max0(openBrackets)
      invariant r == jsonPart + Repeat(']', Max0(openBrackets) - Max0(brackets))
    {
      r := r + "]";
      brackets := brackets - 1;
    }
    ghost var mid := r;
    while braces > 0
      invariant Max0(braces) <= Max0(openBraces)
      invariant r == mid + Repeat('}', Max0(openBraces) - Max0(braces))
    {
      r := r + "}";
      braces := braces - 1;
    }
    SeqAssoc(jsonPart, Repeat(']', Max0(openBrackets)), Repeat('}', Max0(openBraces)));
  }

  lemma SeqAssoc(a: string, b: string, c: string)
    ensures a + b + c == a + (b + c)
  {
  }

  /** The closer, as the source runs it: the scan of the stripped part, the
      comma drop, the closing loops and the validation. */
  method CompleteJsonStructure(response: string, parse: Parser) returns (r: string)
    ensures r == Completed(response, parse)
  {
    if Strip(response) == [] {
      return "{}";
    }
    var jsonStart := FindChar(response, '{');
    if jsonStart == -1 {
      return "{}";
    }
    var jsonPart := Strip(response[jsonStart..]);
    ghost var part := jsonPart;
    assert part == JsonPart(response);
    var openBraces, openBrackets, inString, escaped := ScanLoop(jsonPart);
    assert Closers(part) == CloseTail(openBrackets, openBraces);
    jsonPart := TrimComma(jsonPart);
    jsonPart := CloseLoops(jsonPart, openBrackets, openBraces);
    if parse(jsonPart).Parsed? {
      return jsonPart;
    }
    return "{}";
  }

  /** Dropping the trailing comma keeps the counts and the literal flag. */
  lemma TrimCommaScan(p: string)
    ensures Scan(TrimComma(p)).braces == Scan(p).braces
    ensures Scan(TrimComma(p)).brackets == Scan(p).brackets
    ensures Scan(TrimComma(p)).inString == Scan(p).inString
  {
    var s := RStrip(p);
    if |s| > 0 && s[|s| - 1] == ',' {
      var t := s[..|s| - 1];
      var tail := p[|s|..];
      assert p == t + ([','] + tail);
      RunAppend(Start, t, [','] + tail);
      forall i | 0 <= i < |[','] + tail| ensures Neutral(([','] + tail)[i]) {
        if i > 0 {
          assert ([','] + tail)[i] == tail[i - 1];
          assert IsSpace(tail[i - 1]);
        }
      }
      NeutralRun(Scan(t), [','] + tail);
    }
  }

  /** `n` closing characters read outside a literal each cancel one opener. */
  lemma {:induction false} CloseRun(st: ScanState, c: char, n: nat)
    requires c == ']' || c == '}'
    requires !st.inString && !st.escaped
    ensures Run(st, Repeat(c, n)) ==
      if c == ']' then st.(brackets := st.brackets - n) else st.(braces := st.braces - n)
  {
    if n > 0 {
      CloseRun(st, c, n - 1);
      RunSnoc(st, Repeat(c, n - 1), c);
    }
  }

  /** When the part does not end inside a literal or after a backslash, the
      candidate has no unmatched opener left: each count ends at
      `min(count, 0)`, so it is balanced exactly when the part had no excess
      closer. */
  lemma CandidateBalanced(response: string)
    requires '{' in response
    requires !Scan(JsonPart(response)).inString && !Scan(TrimComma(JsonPart(response))).escaped
    ensures Scan(Candidate(response)).brackets == Min0(Scan(JsonPart(response)).brackets)
    ensures Scan(Candidate(response)).braces == Min0(Scan(JsonPart(response)).braces)
    ensures !Scan(Candidate(response)).inString
  {
    var p := JsonPart(response);
    var t := TrimComma(p);
    var nb, nc := Max0(Scan(p).brackets), Max0(Scan(p).braces);
    TrimCommaScan(p);
    var st0 := Scan(t);
    RunAppend(Start, t, Repeat(']', nb) + Repeat('}', nc));
    RunAppend(st0, Repeat(']', nb), Repeat('}', nc));
    CloseRun(st0, ']', nb);
    CloseRun(st0.(brackets := st0.brackets - nb), '}', nc);
  }

  /** A part cut off inside a string literal stays inside it: the closing
      tail lands in the literal and cannot repair the text. */
  lemma TruncatedStringStaysOpen(response: string)
    requires '{' in response
    requires Scan(JsonPart(response)).inString && !Scan(TrimComma(JsonPart(response))).escaped
    ensures Scan(Candidate(response)).inString
  {
    var p := JsonPart(response);
    var t := TrimComma(p);
    TrimCommaScan(p);
    var c := Closers(p);
    RunAppend(Start, t, c);
    var st := Scan(t);
    ClosersShape(p);
    ClosersBody(c);
    BodyInsideString(st, c);
  }

  lemma {:induction false} ClosersBody(c: string)
    requires forall i | 0 <= i < |c| :: c[i] == ']' || c[i] == '}'
    ensures StringBody(c)
    decreases |c|
  {
    if |c| > 0 {
      ClosersBody(c[1..]);
    }
  }

  /** The result of complete_json_structure is `{}` or text that parses;
      with a conforming parser it always parses. */
  lemma CompletedParses(response: string, parse: Parser)
    requires SaneParser(parse)
    ensures parse(Completed(response, parse)).Parsed?
  {
  }

  /** A part that is already balanced, does not end in a comma and parses is
      returned as it is. */
  lemma BalancedUnchanged(response: string, parse: Parser)
    requires '{' in response
    requires Scan(JsonPart(response)).braces <= 0 && Scan(JsonPart(response)).brackets <= 0
    requires JsonPart(response)[|JsonPart(response)| - 1] != ','
    requires parse(JsonPart(response)).Parsed?
    ensures Completed(response, parse) == JsonPart(response)
  {
    var p := JsonPart(response);
    var k := FindChar(response, '{');
    assert !IsSpace(response[k]);
    assert !IsBlank(response);
    assert RStrip(p) == p;
    assert TrimComma(p) == p;
    assert Closers(p) == [];
    assert Candidate(response) == p + [] == p;
    assert Strip(response) != [];
    assert FindChar(response, '{') != -1;
    assert parse(Candidate(response)).Parsed?;
  }

  /** On such a part the closer is a fixed point: running it again on its own
      output changes nothing. */
  lemma BalancedFixedPoint(response: string, parse: Parser)
    requires '{' in response
    requires Scan(JsonPart(response)).braces <= 0 && Scan(JsonPart(response)).brackets <= 0
    requires JsonPart(response)[|JsonPart(response)| - 1] != ','
    requires parse(JsonPart(response)).Parsed?
    ensures Completed(Completed(response, parse), parse) == Completed(response, parse)
  {
    var p := JsonPart(response);
    BalancedUnchanged(response, parse);
    var k := FindChar(response, '{');
    StripIdempotent(response[k..]);
    assert FindChar(p, '{') == 0;
    assert p[0..] == p;
    assert JsonPart(p) == p;
    BalancedUnchanged(p, parse);
  }

  /** `is_json_response`: the text is not blank and holds a `{` or a `[`. */
  function IsJsonResponse(response: string): (r: bool)
    ensures r <==> !IsBlank(response) && ('{' in response || '[' in response)
  {
    var s := Strip(response);
    if s == [] then false
    else
      StripHeadInside(response);
      assert StartsWith(s, "{") ==> s[..1][0] == s[0] == '{';
      assert StartsWith(s, "[") ==> s[..1][0] == s[0] == '[';
      StartsWith(s, "{") || '{' in response || StartsWith(s, "[") || '[' in response
  }

  /** `safe_json_parse`: the parsed value, or an empty object on a decode error. */
  function SafeJsonParse(parse: Parser, s: string): (r: Json)
    ensures parse(s).Parsed? ==> r == parse(s).value
    ensures parse(s).DecodeError? ==> r == JObj(map[])
  {
    match parse(s)
    case Parsed(v) => v
    case DecodeError(_) => JObj(map[])
  }

  /** The two helpers together: safely parsing what the closer returns always
      gives an object, under a conforming parser. */
  lemma SafeParseOfCompleted(response: string, parse: Parser)
    requires SaneParser(parse)
    ensures SafeJsonParse(parse, Completed(response, parse)).JObj?
  {
    var r := Completed(response, parse);
    if r != "{}" {
      var p := JsonPart(response);
      assert r[0] == TrimComma(p)[0] == '{';
      assert ObjectText(r);
    }
  }
}
