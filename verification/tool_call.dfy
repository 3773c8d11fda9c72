/** `ChatSession.clean_json_response`: finding the tool-call object in free-form
    LM text. Fence markers are deleted, fence and blank characters trimmed from both
    ends, and the greedy span from the first `{` to the last `}` is taken. */
module ToolCall {
  import opened Results
  import opened Text

  const Fence: string := "```"

  /** The characters `.strip('` \n')` removes. */
  const FenceTrim: set<char> := {'`', ' ', '\n'}

  /** Whether the four characters at `i` match the pattern text `json` under
      `re.IGNORECASE` (which also folds the long s, U+017F, onto `s`). */
  predicate JsonAt(s: string, i: nat)
    requires i + 4 <= |s|
  {
    && (s[i] == 'j' || s[i] == 'J')
    && (s[i + 1] == 's' || s[i + 1] == 'S' || s[i + 1] == '\U{017F}')
    && (s[i + 2] == 'o' || s[i + 2] == 'O')
    && (s[i + 3] == 'n' || s[i + 3] == 'N')
  }

  predicate IsJsonTag(t: string) {
    |t| == 4 && JsonAt(t, 0)
  }

  /** Whether `s` starts with three backticks. */
  predicate FenceFirst(s: string) {
    |s| >= 3 && s[0] == '`' && s[1] == '`' && s[2] == '`'
  }

  /** `re.sub(r'```(?:json)?', '', s, flags=re.IGNORECASE)`: a left-to-right scan that
      deletes every non-overlapping fence, taking a following `json` with it. */
  function StripFences(s: string): (r: string)
    ensures |r| <= |s|
    decreases |s|
  {
    if |s| == 0 then s
    else if FenceFirst(s) then
      if |s| >= 7 && JsonAt(s, 3) then StripFences(s[7..]) else StripFences(s[3..])
    else [s[0]] + StripFences(s[1..])
  }

  /** Text without backticks is left as it is. */
  lemma {:induction false} NoFenceUnchanged(s: string)
    requires '`' !in s
    ensures StripFences(s) == s
  {
    if |s| > 0 {
      assert s[0] != '`';
      assert '`' !in s[1..];
      NoFenceUnchanged(s[1..]);
      assert [s[0]] + s[1..] == s;
    }
  }

  /** Text without backticks followed by a closing fence loses just the fence. */
  lemma {:induction false} ClosingFenceRemoved(x: string)
    requires '`' !in x
    ensures StripFences(x + Fence) == x
  {
    if |x| == 0 {
      assert x + Fence == Fence;
    } else {
      var s := x + Fence;
      assert s[0] == x[0] && s[0] != '`';
      assert s[1..] == x[1..] + Fence;
      ClosingFenceRemoved(x[1..]);
      assert [x[0]] + x[1..] == x;
    }
  }

  lemma BareFenceRemoved(rest: string)
    requires |rest| >= 4 ==> !JsonAt(rest, 0)
    ensures StripFences(Fence + rest) == StripFences(rest)
  {
    var s := Fence + rest;
    assert FenceFirst(s);
    assert s[3..] == rest;
    if |s| >= 7 {
      assert JsonAt(s, 3) == JsonAt(rest, 0);
    }
  }

  lemma UntaggedBlockUnwrapped(x: string)
    requires |x| >= 4 ==> !JsonAt(x, 0)
    requires '`' !in x
    ensures StripFences(Fence + x + Fence) == x
  {
    var rest := x + Fence;
    assert Fence + x + Fence == Fence + rest;
    if |rest| >= 4 {
      if |x| < 4 {
        assert rest[|x|] == '`';
      } else {
        assert JsonAt(rest, 0) == JsonAt(x, 0);
      }
    }
    BareFenceRemoved(rest);
    ClosingFenceRemoved(x);
  }

  lemma TaggedBlockUnwrapped(tag: string, x: string)
    requires IsJsonTag(tag)
    requires '`' !in x
    ensures StripFences(Fence + tag + x + Fence) == x
  {
    var s := Fence + tag + x + Fence;
    assert FenceFirst(s);
    assert JsonAt(s, 3);
    assert s[7..] == x + Fence;
    ClosingFenceRemoved(x);
  }

  /** A fenced block, opened by a fence with or without a `json` tag in any case,
      unwraps to its body. A bare fence directly followed by text that reads `json`
      would lose that text as well, so that case is excluded. */
  lemma FencedBlockUnwrapped(tag: string, x: string)
    requires tag == "" || IsJsonTag(tag)
    requires tag == "" && |x| >= 4 ==> !JsonAt(x, 0)
    requires '`' !in x
    ensures StripFences(Fence + tag + x + Fence) == x
  {
    if tag == "" {
      assert Fence + tag + x + Fence == Fence + x + Fence;
      UntaggedBlockUnwrapped(x);
    } else {
      TaggedBlockUnwrapped(tag, x);
    }
  }

  /** The text after fence removal and trimming. */
  function CleanText(s: string): string {
    StripChars(StripFences(s), FenceTrim)
  }

  /** `re.search(r'\{.*\}', t, re.DOTALL)` succeeds exactly when some `{` is followed
      later by some `}`. */
  ghost predicate HasBracePair(t: string) {
    exists i, j :: 0 <= i < j < |t| && t[i] == '{' && t[j] == '}'
  }

  /** Where the greedy match lies: from the first `{` to the last `}`. */
  function SpanBounds(t: string): (r: Option<(nat, nat)>)
    ensures r.None? <==> !HasBracePair(t)
    ensures r.Some? ==> r.value.0 < r.value.1 < |t| && t[r.value.0] == '{' && t[r.value.1] == '}'
    ensures r.Some? ==> forall k :: 0 <= k < r.value.0 ==> t[k] != '{'
    ensures r.Some? ==> forall k :: r.value.1 < k < |t| ==> t[k] != '}'
  {
    match (IndexOf(t, '{'), LastIndexOf(t, '}'))
    case (Some(i), Some(j)) =>
      if i < j then Some((i, j))
      else
        assert forall x, y :: 0 <= x < y < |t| && t[x] == '{' && t[y] == '}' ==> i <= x && y <= j;
        None
    case (None, _) => None
    case (_, None) => None
  }

  /** `match.group(0)`, when there is a match. */
  function Span(t: string): (r: Option<string>)
    ensures r.Some? <==> HasBracePair(t)
    ensures r.Some? ==> |r.value| >= 2 && r.value[0] == '{' && r.value[|r.value| - 1] == '}'
  {
    match SpanBounds(t)
    case None => None
    case Some((i, j)) => Some(t[i..j + 1])
  }

  const NoJsonFound: Error := Error(ValueError, "No valid JSON found in response")

  /** `clean_json_response`: the greedy brace span of the cleaned text, or the
      ValueError raised when the cleaned text has no `{` followed by a `}`. */
  function CleanJson(text: string): (r: Result<string>)
    ensures r.Err? <==> !HasBracePair(CleanText(text))
    ensures r.Err? ==> r.error == NoJsonFound
    ensures r.Ok? ==> Span(CleanText(text)) == Some(r.value)
  {
    var t := CleanText(text);
    match Span(t)
    case None => Err(NoJsonFound)
    case Some(m) => Ok(m)
  }

  /** The span is exactly the framed piece when no `{` precedes it and no `}` follows it,
      whatever braces the piece itself contains. */
  lemma SpanOfFramed(p: string, m: string, q: string)
    requires '{' !in p && '}' !in q
    requires |m| >= 2 && m[0] == '{' && m[|m| - 1] == '}'
    ensures Span(p + m + q) == Some(m)
  {
    var t := p + m + q;
    var i0, j0 := |p|, |p| + |m| - 1;
    assert t[i0] == '{' && t[j0] == '}';
    assert HasBracePair(t);
    var (i, j) := SpanBounds(t).value;
    assert forall k :: 0 <= k < |p| ==> t[k] == p[k];
    assert forall k :: |p| + |m| <= k < |t| ==> t[k] == q[k - |p| - |m|];
    assert i == i0;
    assert j == j0;
    assert t[i..j + 1] == m;
  }

  /** A reply made of prose around one object, with no backticks, no `{` before the
      object and no `}` after it, yields exactly that object. */
  lemma ExtractsEmbeddedObject(p: string, m: string, q: string)
    requires '`' !in p && '`' !in m && '`' !in q
    requires '{' !in p && '}' !in q
    requires |m| >= 2 && m[0] == '{' && m[|m| - 1] == '}'
    ensures CleanJson(p + m + q) == Ok(m)
  {
    var s := p + m + q;
    assert '`' !in s;
    NoFenceUnchanged(s);
    var p', q' := StripAround(p, m, q, FenceTrim);
    assert '{' !in p';
    assert '}' !in q';
    SpanOfFramed(p', m, q');
  }

  /** A reply that is one object inside a code fence (tagged `json` in any case, or
      not tagged), on lines of its own, yields exactly that object. */
  lemma ExtractsFencedObject(tag: string, m: string)
    requires tag == "" || IsJsonTag(tag)
    requires '`' !in m
    requires |m| >= 2 && m[0] == '{' && m[|m| - 1] == '}'
    ensures CleanJson(Fence + tag + "\n" + m + "\n" + Fence) == Ok(m)
  {
    var x := "\n" + m + "\n";
    assert Fence + tag + "\n" + m + "\n" + Fence == Fence + tag + x + Fence;
    assert x[0] == '\n';
    FencedBlockUnwrapped(tag, x);
    var p', q' := StripAround("\n", m, "\n", FenceTrim);
    assert '{' !in p';
    assert '}' !in q';
    SpanOfFramed(p', m, q');
  }
}
