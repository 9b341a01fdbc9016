/** The naive first-object extractor that the execution planner, the
    `/app-reason` endpoint and the app-reasoning service each carry a copy of:
    starting at a `{`, it adds one for every `{` and subtracts one for every
    `}` (inside string literals too) and stops when the count returns to 0. */
module BraceCount {
  import opened Text
  import opened Wrappers

  /** How one character moves the naive count. */
  function Delta(c: char): int {
    if c == '{' then 1 else if c == '}' then -1 else 0
  }

  /** The naive count after reading all of `t`. */
  function Balance(t: string): int {
    if |t| == 0 then 0 else Balance(t[..|t| - 1]) + Delta(t[|t| - 1])
  }

  /** The naive count is the number of `{` minus the number of `}`, which is
      what `/app-reason` computes with `str.count` when it closes a truncated
      object. */
  lemma {:induction false} BalanceCounts(t: string)
    ensures Balance(t) == CountChar(t, '{') - CountChar(t, '}')
  {
    if |t| > 0 {
      BalanceCounts(t[..|t| - 1]);
    }
  }

  lemma BalanceAppend(a: string, b: string)
    ensures Balance(a + b) == Balance(a) + Balance(b)
  {
    BalanceCounts(a);
    BalanceCounts(b);
    BalanceCounts(a + b);
    CountCharAppend(a, b, '{');
    CountCharAppend(a, b, '}');
  }

  /** `s[start..e]` is the first complete object: the count is back at 0 at
      `e` and at no earlier position. */
  predicate ClosesAt(s: string, start: nat, e: nat) {
    && start < e <= |s|
    && Balance(s[start..e]) == 0
    && forall k | start < k < e :: Balance(s[start..k]) > 0
  }

  /** The count stays positive to the end of the text: the object that
      opens at `start` is truncated. */
  predicate NeverCloses(s: string, start: nat) {
    forall e | start < e <= |s| :: Balance(s[start..e]) > 0
  }

  /** A truncated object has no end position. */
  lemma NeverClosesHasNoEnd(s: string, start: nat, e: nat)
    requires NeverCloses(s, start)
    ensures !ClosesAt(s, start, e)
  {
    if start < e <= |s| {
      assert Balance(s[start..e]) > 0;
    }
  }

  /** At most one end position closes the object that opens at `start`. */
  lemma ClosesAtUnique(s: string, start: nat, e1: nat, e2: nat)
    requires ClosesAt(s, start, e1) && ClosesAt(s, start, e2)
    ensures e1 == e2
  {
  }

  /** The extraction loop: the end index (exclusive) of the first complete
      object opening at `start`, or `None` when the count never returns to 0
      (it then stays positive to the end of the text). */
  method FirstObjectEnd(s: string, start: nat) returns (end: Option<nat>)
    requires start < |s| && s[start] == '{'
    ensures end.Some? ==> ClosesAt(s, start, end.value)
    ensures end.None? <==> NeverCloses(s, start)
  {
    var count := 0;
    var i := start;
    while i < |s|
      invariant start <= i <= |s|
      invariant count == Balance(s[start..i])
      invariant forall k | start < k <= i :: Balance(s[start..k]) > 0
    {
      assert s[start..i + 1][..i - start] == s[start..i];
      if s[i] == '{' {
        count := count + 1;
      } else if s[i] == '}' {
        count := count - 1;
        if count == 0 {
          return Some(i + 1);
        }
      }
      i := i + 1;
    }
    return None;
  }

  /** A text the naive extractor reads as one complete object holds as many
      `{` as `}`. */
  lemma ClosedObjectBalanced(s: string, start: nat, e: nat)
    requires ClosesAt(s, start, e)
    ensures CountChar(s[start..e], '{') == CountChar(s[start..e], '}')
  {
    BalanceCounts(s[start..e]);
  }

  /** The first complete object runs from its `{` to a `}`. */
  lemma ClosedEndsWithBrace(s: string, start: nat, e: nat)
    requires start < |s| && s[start] == '{'
    requires ClosesAt(s, start, e)
    ensures s[e - 1] == '}' && e > start + 1
  {
    var t := s[start..e];
    assert t[..|t| - 1] == s[start..e - 1];
    assert s[start..start + 1] == [s[start]];
    assert Balance(s[start..start + 1]) == 1 by {
      assert s[start..start + 1][..0] == [];
    }
  }

  /** An example: a brace inside a string literal ends the naive extraction early:
      `{"a":"}"}` is cut after `{"a":"}`, at index 7 instead of 9. */
  lemma CutsInsideString()
    ensures ClosesAt("{\"a\":\"}\"}", 0, 7)
  {
    var s := "{\"a\":\"}\"}";
    assert s[0..7] == "{\"a\":\"}";
    forall k | 0 < k < 7 ensures Balance(s[0..k]) > 0 {
      assert s[0..k] == s[0..7][..k];
      BalanceCounts(s[0..k]);
      assert s[0..k][0] == '{';
      assert '}' !in s[0..k];
      assert CountChar(s[0..k], '{') > 0;
    }
    BalanceCounts(s[0..7]);
    assert s[0..7] == "{\"a\":\"" + "}";
    CountCharAppend("{\"a\":\"", "}", '{');
    CountCharAppend("{\"a\":\"", "}", '}');
    assert "{\"a\":\"" == "{" + "\"a\":\"";
    CountCharAppend("{", "\"a\":\"", '{');
    CountCharAppend("{", "\"a\":\"", '}');
  }
}
