/** `extract_json_from_response`: pulling a JSON document out of free text returned by a language
    model. The JSON decoder `json.loads` is a parameter `decode`, a partial function that yields
    `None` where Python would raise a decode error. */
module Extraction {
  import opened Wrappers
  import opened Json
  import opened Text

  /** The opening of a fence tagged as JSON; its seven characters are skipped. */
  const JsonFence: string := "```json"
  /** A bare fence; its three characters are skipped, and it also closes every fenced block. */
  const Fence: string := "```"

  /** Strategies 1 and 2: the stripped text between the end of the first `tag` and the first
      closing fence at or after that point, when both exist. */
  function FencedCandidate(content: string, tag: string): (r: Option<string>)
    ensures r.Some? <==> Find(content, tag) >= 0
                         && Find(content[Find(content, tag) + |tag|..], Fence) >= 0
    ensures r.Some? ==> var rest := content[Find(content, tag) + |tag|..];
                        r.value == Strip(rest[..Find(rest, Fence)])
  {
    var start := Find(content, tag);
    if start == -1 then None
    else
      var rest := content[start + |tag|..];
      var end := Find(rest, Fence);
      if end == -1 then None else Some(Strip(rest[..end]))
  }

  /** The fenced candidate ends at the first fence at or after the end of the tag. */
  lemma FencedCandidateClosesAtFirstFence(content: string, tag: string)
    requires FencedCandidate(content, tag).Some?
    ensures var start := Find(content, tag) + |tag|;
            FirstFenceFrom(content, start, start + Find(content[start..], Fence))
  {
    FenceFoundFrom(content, Find(content, tag) + |tag|);
  }

  /** `end` is the first place at or after `start` where a fence occurs in `content`. */
  predicate FirstFenceFrom(content: string, start: int, end: int) {
    && 0 <= start <= end <= |content|
    && OccursAt(content, Fence, end)
    && forall k :: start <= k < end ==> !OccursAt(content, Fence, k)
  }

  /** Searching the suffix from `start` finds the first fence at or after `start`. */
  lemma FenceFoundFrom(content: string, start: int)
    requires 0 <= start <= |content| && Find(content[start..], Fence) >= 0
    ensures FirstFenceFrom(content, start, start + Find(content[start..], Fence))
  {
    var j := Find(content[start..], Fence);
    OccursInSuffix(content, start, Fence);
    forall k | start <= k < start + j
      ensures !OccursAt(content, Fence, k)
    {
      assert !OccursAt(content[start..], Fence, k - start);
    }
  }

  /** Strategy 4: the span from the first `{` to the last `}`, both included, when the last `}`
      lies after the first `{`. */
  function BraceCandidate(content: string): (r: Option<string>)
    ensures r.Some? <==> exists a, b :: 0 <= a < b < |content| && content[a] == '{' && content[b] == '}'
    ensures r.Some? ==> |r.value| >= 2 && r.value[0] == '{' && r.value[|r.value| - 1] == '}'
    ensures r.Some? ==> var open, last := Find(content, "{"), RFind(content, "}");
                        && 0 <= open < last < |content|
                        && r.value == content[open..last + 1]
                        && (forall i :: 0 <= i < open ==> content[i] != '{')
                        && (forall i :: last < i < |content| ==> content[i] != '}')
  {
    var open := Find(content, "{");
    var close := RFind(content, "}") + 1;
    BraceFacts(content, open, close - 1);
    if open != -1 && close > open then Some(content[open..close]) else None
  }

  /** What `Find` and `RFind` on one-character patterns say about the brace positions. */
  lemma BraceFacts(content: string, open: int, last: int)
    requires open == Find(content, "{") && last == RFind(content, "}")
    ensures open >= 0 ==> open < |content| && content[open] == '{'
    ensures forall i :: 0 <= i < |content| && (open < 0 || i < open) ==> content[i] != '{'
    ensures last >= 0 ==> last < |content| && content[last] == '}'
    ensures forall i :: 0 <= i < |content| && last < i ==> content[i] != '}'
  {
    OccursAtChar(content, '{', open);
    OccursAtChar(content, '}', last);
    forall i | 0 <= i < |content|
      ensures (open < 0 || i < open) ==> content[i] != '{'
      ensures last < i ==> content[i] != '}'
    {
      OccursAtChar(content, '{', i);
      OccursAtChar(content, '}', i);
    }
  }

  /** The JSON value `extract_json_from_response` returns: the first of its four strategies whose
      text decodes wins, and `None` when none does. */
  function ExtractJson(content: string, decode: string -> Option<Json>): Option<Json> {
    var tagged := FencedCandidate(content, JsonFence);
    if tagged.Some? && decode(tagged.value).Some? then decode(tagged.value)
    else
      var bare := FencedCandidate(content, Fence);
      if bare.Some? && decode(bare.value).Some? then decode(bare.value)
      else if decode(Strip(content)).Some? then decode(Strip(content))
      else
        var brace := BraceCandidate(content);
        if brace.Some? && decode(brace.value).Some? then decode(brace.value)
        else None
  }

  function AsList(o: Option<string>): seq<string> {
    if o.Some? then [o.value] else []
  }

  /** The texts handed to the decoder, in the order the strategies try them. */
  function Candidates(content: string): (cs: seq<string>)
    ensures Strip(content) in cs
    ensures 1 <= |cs| <= 4
  {
    AsList(FencedCandidate(content, JsonFence)) + AsList(FencedCandidate(content, Fence))
      + [Strip(content)] + AsList(BraceCandidate(content))
  }

  /** The decoding of the first candidate that decodes at all, or `None`. */
  function FirstDecoded(cs: seq<string>, decode: string -> Option<Json>): (r: Option<Json>)
    ensures r.None? <==> forall i :: 0 <= i < |cs| ==> decode(cs[i]).None?
    ensures r.Some? ==> exists i :: 0 <= i < |cs| && decode(cs[i]) == r
                                    && forall j :: 0 <= j < i ==> decode(cs[j]).None?
  {
    if cs == [] then None
    else if decode(cs[0]).Some? then decode(cs[0])
    else
      var r := FirstDecoded(cs[1..], decode);
      assert forall i :: 1 <= i < |cs| ==> cs[i] == cs[1..][i - 1];
      r
  }

  lemma {:induction false} FirstDecodedAppend(xs: seq<string>, ys: seq<string>, decode: string -> Option<Json>)
    ensures FirstDecoded(xs + ys, decode)
            == if FirstDecoded(xs, decode).Some? then FirstDecoded(xs, decode) else FirstDecoded(ys, decode)
  {
    if xs != [] {
      assert (xs + ys)[1..] == xs[1..] + ys;
      FirstDecodedAppend(xs[1..], ys, decode);
    } else {
      assert xs + ys == ys;
    }
  }

  /** The strategies run in a fixed order and the first successful decode is the result. */
  lemma ExtractIsFirstDecoded(content: string, decode: string -> Option<Json>)
    ensures ExtractJson(content, decode) == FirstDecoded(Candidates(content), decode)
  {
    FirstDecodedOfFour(FencedCandidate(content, JsonFence), FencedCandidate(content, Fence),
                       Strip(content), BraceCandidate(content), decode);
  }

  /** The first-decoding fold over two optional texts, one text and another optional text is the
      chain of fall-throughs `ExtractJson` is written as. */
  lemma FirstDecodedOfFour(t: Option<string>, b: Option<string>, w: string, c: Option<string>,
                           decode: string -> Option<Json>)
    ensures FirstDecoded(AsList(t) + AsList(b) + [w] + AsList(c), decode)
            == if t.Some? && decode(t.value).Some? then decode(t.value)
               else if b.Some? && decode(b.value).Some? then decode(b.value)
               else if decode(w).Some? then decode(w)
               else if c.Some? && decode(c.value).Some? then decode(c.value)
               else None
  {
    FirstDecodedAppend(AsList(t) + AsList(b) + [w], AsList(c), decode);
    FirstDecodedAppend(AsList(t) + AsList(b), [w], decode);
    FirstDecodedAppend(AsList(t), AsList(b), decode);
  }

  /** A tagged-fence candidate is tried first, and a successful decode of it is the result. */
  lemma TaggedCandidateWins(content: string, decode: string -> Option<Json>)
    requires FencedCandidate(content, JsonFence).Some?
    ensures Candidates(content)[0] == FencedCandidate(content, JsonFence).value
    ensures decode(FencedCandidate(content, JsonFence).value).Some?
            ==> ExtractJson(content, decode) == decode(FencedCandidate(content, JsonFence).value)
  {
  }

  /** When the text has a ```json fence closed later by a bare fence, the first candidate is the
      stripped text between the end of the seven-character tag and that closing fence, and a
      successful decode of it is returned at once. */
  lemma TaggedFenceTriedFirst(content: string, decode: string -> Option<Json>)
    requires Find(content, JsonFence) >= 0
    requires Find(content[Find(content, JsonFence) + 7..], Fence) >= 0
    ensures var rest := content[Find(content, JsonFence) + 7..];
            var inner := Strip(rest[..Find(rest, Fence)]);
            && Candidates(content)[0] == inner
            && (decode(inner).Some? ==> ExtractJson(content, decode) == decode(inner))
  {
    TaggedCandidateText(content);
    TaggedCandidateWins(content, decode);
  }

  /** The tagged candidate's text, with the tag's length written out. */
  lemma TaggedCandidateText(content: string)
    requires Find(content, JsonFence) >= 0
    requires Find(content[Find(content, JsonFence) + 7..], Fence) >= 0
    ensures var rest := content[Find(content, JsonFence) + 7..];
            FencedCandidate(content, JsonFence) == Some(Strip(rest[..Find(rest, Fence)]))
  {
    assert |JsonFence| == 7;
  }

  /** `None` comes back exactly when no strategy's text decodes; a decode failure never escapes. */
  lemma ExtractNoneIffNothingDecodes(content: string, decode: string -> Option<Json>)
    ensures ExtractJson(content, decode).None?
            <==> forall i :: 0 <= i < |Candidates(content)| ==> decode(Candidates(content)[i]).None?
    ensures ExtractJson(content, decode).Some?
            ==> exists i :: 0 <= i < |Candidates(content)| && decode(Candidates(content)[i]) == ExtractJson(content, decode)
  {
    ExtractIsFirstDecoded(content, decode);
  }

  /** A text with no fence at all reaches the whole-text strategy first. */
  lemma {:induction false} UnfencedStartsWithWholeText(content: string, decode: string -> Option<Json>)
    requires Find(content, Fence) == -1
    ensures Candidates(content)[0] == Strip(content)
    ensures decode(Strip(content)).Some? ==> ExtractJson(content, decode) == decode(Strip(content))
  {
    var k := Find(content, JsonFence);
    if k >= 0 {
      assert content[k..k + 3] == content[k..k + 7][..3];
      assert OccursAt(content, Fence, k);
      assert false;
    }
  }

  /** The answer `test_json_extraction` in test_core_functionality.py feeds the extractor: a bare
      JSON object. */
  const SignalText: string := "{\"signal\": \"bullish\", \"confidence\": 70}"
  const SignalObject: Json := Obj(map["signal" := Str("bullish"), "confidence" := Int(70)])

  lemma SignalTextUnfenced()
    ensures Find(SignalText, Fence) == -1
  {
    assert forall k :: 0 <= k < |SignalText| ==> SignalText[k] != '`';
    forall k | 0 <= k < |SignalText| && OccursAt(SignalText, Fence, k)
      ensures false
    {
      OccursAtHead(SignalText, Fence, k);
    }
  }

  lemma SignalTextStripped()
    ensures Strip(SignalText) == SignalText
  {
    assert SignalText[0] == '{' && SignalText[|SignalText| - 1] == '}';
    assert !IsSpace(SignalText[0]) && !IsSpace(SignalText[|SignalText| - 1]);
  }

  /** A plain object with no fences is returned by the whole-text strategy, so its `signal` is
      "bullish" and its `confidence` is 70, whatever the later strategies would have found. */
  lemma PlainObjectDecodedWhole(decode: string -> Option<Json>)
    requires decode(SignalText) == Some(SignalObject)
    ensures ExtractJson(SignalText, decode) == Some(SignalObject)
    ensures ExtractJson(SignalText, decode).value.fields["signal"] == Str("bullish")
    ensures ExtractJson(SignalText, decode).value.fields["confidence"] == Int(70)
  {
    SignalTextUnfenced();
    SignalTextStripped();
    UnfencedStartsWithWholeText(SignalText, decode);
  }

  /** Where `pat` occurs in `s`, it occurs `|p|` further on in `p + s`. */
  lemma OccursAfterPrefix(p: string, s: string, pat: string, k: int)
    requires 0 <= k
    ensures OccursAt(p + s, pat, |p| + k) <==> OccursAt(s, pat, k)
  {
    if k + |pat| <= |s| {
      assert (p + s)[|p| + k..|p| + k + |pat|] == s[k..k + |pat|];
    }
  }

  /** A search in `p + s` that cannot match inside the prefix finds what the search in `s` finds,
      shifted by `|p|`. */
  lemma FindAfterPrefix(p: string, s: string, pat: string)
    requires forall k :: 0 <= k < |p| ==> !OccursAt(p + s, pat, k)
    requires Find(s, pat) >= 0
    ensures Find(p + s, pat) == |p| + Find(s, pat)
  {
    var j := Find(s, pat);
    OccursAfterPrefix(p, s, pat, j);
    var r := Find(p + s, pat);
    if r >= |p| {
      OccursAfterPrefix(p, s, pat, r - |p|);
    }
  }

  /** Behind a bare fence that opens a ```json fence comes the word `json` and then the text the
      tagged strategy starts from. */
  lemma TagWordFollowsFence(content: string, i: int)
    requires OccursAt(content, JsonFence, i)
    ensures content[i + 3..] == "json" + content[i + 7..]
  {
    assert content[i + 3..i + 7] == content[i..i + 7][3..] == "json";
    assert content[i + 3..] == content[i + 3..i + 7] + content[i + 7..];
  }

  /** The closing fence after `json` is found four characters later than after the tag. */
  lemma ClosingFenceAfterTagWord(rest: string)
    requires Find(rest, Fence) >= 0
    ensures Find("json" + rest, Fence) == 4 + Find(rest, Fence)
  {
    forall k | 0 <= k < 4
      ensures !OccursAt("json" + rest, Fence, k)
    {
      if OccursAt("json" + rest, Fence, k) {
        OccursAtHead("json" + rest, Fence, k);
      }
    }
    FindAfterPrefix("json", rest, Fence);
  }

  /** Strategy 2 searches for the first bare fence and skips three characters only, so when that
      fence is the ```json one, its candidate is the tagged block's text with the word `json`
      still in front of it. */
  lemma BareFenceRefindsTag(content: string)
    requires Find(content, JsonFence) >= 0
    requires Find(content, Fence) == Find(content, JsonFence)
    requires Find(content[Find(content, JsonFence) + 7..], Fence) >= 0
    ensures var rest := content[Find(content, JsonFence) + 7..];
            FencedCandidate(content, Fence) == Some(Strip("json" + rest[..Find(rest, Fence)]))
  {
    var i := Find(content, JsonFence);
    var rest := content[i + 7..];
    var end := Find(rest, Fence);
    TagWordFollowsFence(content, i);
    ClosingFenceAfterTagWord(rest);
    var rest2 := content[i + 3..];
    assert rest2 == "json" + rest;
    assert rest2[..Find(rest2, Fence)] == "json" + rest[..end];
  }
}
