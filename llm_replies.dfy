/**
 * What comes back from the chat-completion service, and the fence stripping that
 * both the question generator and the answer evaluator apply to the reply text
 * before decoding it as JSON (question_generator.py:116-119 and
 * answer_evaluator.py:108-110 run the same three steps).
 */
module LlmReplies {
  import opened Text

  /** A completion call either raises (network, authentication, missing content) or yields text. */
  datatype LlmReply = TransportFailure | Completion(content: string)

  const Fence := "```"
  const JsonFence := "```json"

  predicate HasPrefix(s: string, p: string) {
    |p| <= |s| && s[..|p|] == p
  }

  predicate HasSuffix(s: string, p: string) {
    |p| <= |s| && s[|s| - |p|..] == p
  }

  /** `re.sub(r"^```(?:json)?", "", s)`: the optional group is greedy, so "```json" wins over "```". */
  function DropOpeningFence(s: string): string {
    if HasPrefix(s, JsonFence) then s[|JsonFence|..]
    else if HasPrefix(s, Fence) then s[|Fence|..]
    else s
  }

  /** `re.sub(r"```$", "", s)` on a string without a trailing newline. */
  function DropClosingFence(s: string): string {
    if HasSuffix(s, Fence) then s[..|s| - |Fence|] else s
  }

  /**
   * The reply is stripped, one opening fence is removed, it is stripped again, one
   * closing fence is removed, and it is stripped a last time.  `$` in Python also
   * matches just before a final newline, but each step runs on stripped text, so no
   * such newline is ever there.
   */
  function StripFences(raw: string): (r: string)
    ensures IsStripped(r)
  {
    StripIsStripped(DropClosingFence(Strip(DropOpeningFence(Strip(raw)))));
    Strip(DropClosingFence(Strip(DropOpeningFence(Strip(raw)))))
  }

  lemma DropOpeningFenceBeforeSpace(open: string, x: string)
    requires open == Fence || open == JsonFence
    requires x != [] && IsSpace(x[0])
    ensures DropOpeningFence(open + x) == x
  {
    var s := open + x;
    if open == JsonFence {
      assert s[..|JsonFence|] == JsonFence;
      assert s[|JsonFence|..] == x;
    } else {
      assert s[..|Fence|] == Fence;
      assert s[|Fence|..] == x;
      assert |JsonFence| <= |s| ==> s[..|JsonFence|][3] == x[0];
    }
  }

  lemma JsonFenceIsFence(s: string)
    ensures HasPrefix(s, JsonFence) ==> HasPrefix(s, Fence)
  {
    if HasPrefix(s, JsonFence) {
      assert s[..3] == s[..7][..3];
      assert JsonFence[..3] == Fence;
    }
  }

  lemma DropClosingFenceOf(x: string)
    ensures DropClosingFence(x + Fence) == x
  {
    assert (x + Fence)[|x|..] == Fence;
    assert (x + Fence)[..|x|] == x;
  }

  /** A reply wrapped in a Markdown code fence, with any whitespace around the parts, yields its body. */
  lemma StripFencesUnwrapsFencedBody(lead: string, open: string, gap: string, body: string, pad: string, trail: string)
    requires open == Fence || open == JsonFence
    requires AllSpace(lead) && AllSpace(gap) && |gap| > 0 && AllSpace(pad) && AllSpace(trail)
    requires IsStripped(body)
    ensures StripFences(lead + open + gap + body + pad + Fence + trail) == body
  {
    var core := open + gap + body + pad + Fence;
    assert lead + open + gap + body + pad + Fence + trail == lead + core + trail;
    CoreIsStripped(open, gap + body + pad + Fence);
    assert open + (gap + body + pad + Fence) == core;
    StripPadded(lead, core, trail);
    UnwrapCore(open, gap, body, pad);
  }

  /** The fenced core, with the outer whitespace already removed. */
  lemma UnwrapCore(open: string, gap: string, body: string, pad: string)
    requires open == Fence || open == JsonFence
    requires AllSpace(gap) && |gap| > 0 && AllSpace(pad)
    requires IsStripped(body)
    ensures Strip(DropClosingFence(Strip(DropOpeningFence(open + gap + body + pad + Fence)))) == body
  {
    var rest := body + pad + Fence;
    assert open + gap + body + pad + Fence == open + (gap + rest);
    DropOpeningFenceBeforeSpace(open, gap + rest);
    if body == [] {
      UnwrapEmptyBody(gap, pad);
    } else {
      UnwrapBody(gap, body, pad);
    }
  }

  lemma UnwrapEmptyBody(gap: string, pad: string)
    requires AllSpace(gap) && AllSpace(pad)
    ensures Strip(DropClosingFence(Strip(gap + ([] + pad + Fence)))) == []
  {
    assert gap + ([] + pad + Fence) == (gap + pad) + Fence + [];
    AllSpaceConcat(gap, pad);
    StripPadded(gap + pad, Fence, []);
    DropClosingFenceOf([]);
    assert [] + Fence == Fence;
  }

  lemma UnwrapBody(gap: string, body: string, pad: string)
    requires AllSpace(gap) && AllSpace(pad)
    requires IsStripped(body) && body != []
    ensures Strip(DropClosingFence(Strip(gap + (body + pad + Fence)))) == body
  {
    StripSpaceBeforeFencedBody(gap, body, pad);
    DropClosingFenceOf(body + pad);
    StripTrailingPad(body, pad);
  }

  lemma StripSpaceBeforeFencedBody(gap: string, body: string, pad: string)
    requires AllSpace(gap) && IsStripped(body) && body != []
    ensures Strip(gap + (body + pad + Fence)) == body + pad + Fence
  {
    var rest := body + pad + Fence;
    RestIsStripped(body, pad);
    assert gap + rest == gap + rest + [];
    StripPadded(gap, rest, []);
  }

  lemma StripTrailingPad(body: string, pad: string)
    requires AllSpace(pad) && IsStripped(body)
    ensures Strip(body + pad) == body
  {
    assert body + pad == [] + body + pad;
    StripPadded([], body, pad);
  }

  lemma AllSpaceConcat(a: string, b: string)
    requires AllSpace(a) && AllSpace(b)
    ensures AllSpace(a + b)
  {
    forall i | 0 <= i < |a + b| ensures IsSpace((a + b)[i]) {
      if i >= |a| { assert (a + b)[i] == b[i - |a|]; }
    }
  }

  lemma CoreIsStripped(open: string, x: string)
    requires open == Fence || open == JsonFence
    requires |x| > 0 && x[|x| - 1] == '`'
    ensures IsStripped(open + x)
  {
    assert (open + x)[0] == open[0];
    assert (open + x)[|open + x| - 1] == x[|x| - 1];
  }

  lemma RestIsStripped(body: string, pad: string)
    requires IsStripped(body) && body != []
    ensures IsStripped(body + pad + Fence)
  {
    var rest := body + pad + Fence;
    assert rest[|rest| - 1] == Fence[2];
    assert rest[0] == body[0];
  }

  lemma StripFencesSteps(raw: string, a: string, b: string, c: string, d: string)
    requires Strip(raw) == a && DropOpeningFence(a) == b && Strip(b) == c && DropClosingFence(c) == d
    ensures StripFences(raw) == Strip(d)
  {
  }

  /** A reply with no fence at either end is only stripped. */
  lemma StripFencesKeepsUnfencedReply(raw: string)
    requires !HasPrefix(Strip(raw), Fence) && !HasSuffix(Strip(raw), Fence)
    ensures StripFences(raw) == Strip(raw)
  {
    var s := Strip(raw);
    JsonFenceIsFence(s);
    assert DropOpeningFence(s) == s;
    StripIdempotent(raw);
    assert DropClosingFence(s) == s;
    StripFencesSteps(raw, s, s, s, s);
  }
}
