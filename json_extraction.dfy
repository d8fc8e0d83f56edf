/** Recovery of the JSON object from a language model's reply (`_extract_json` and the
    `_JSON_BLOCK_RE` search in src/workflows/campaign_pack.py). `json.loads` is a
    parameter: any partial function from text to a decoded value, with the message of
    the exception it raises on failure. */
module JsonExtraction {
  import opened Wrappers
  import opened Text

  const Fence: string := "```"

  /** The message of the ValueError raised when no strategy applies. */
  const NoJsonMessage: string := "Model did not return JSON"

  /** The tag `json` at position i, matched case-insensitively as Python's `re.IGNORECASE`
      does on a str pattern (where the long s, U+017F, also matches `s`). */
  predicate TagAt(t: string, i: nat) {
    && i + 4 <= |t|
    && (t[i] == 'j' || t[i] == 'J')
    && (t[i + 1] == 's' || t[i + 1] == 'S' || t[i + 1] == '\U{17F}')
    && (t[i + 2] == 'o' || t[i + 2] == 'O')
    && (t[i + 3] == 'n' || t[i + 3] == 'N')
  }

  /** The end of the run of whitespace that starts at k: where a greedy `\s*` stops. */
  function SkipSpaces(t: string, k: nat): (r: nat)
    requires k <= |t|
    ensures k <= r <= |t|
    ensures forall m :: k <= m < r ==> IsSpace(t[m])
    ensures r == |t| || !IsSpace(t[r])
    decreases |t| - k
  {
    if k == |t| || !IsSpace(t[k]) then k else SkipSpaces(t, k + 1)
  }

  /** Where the `{` of a match starting at i has to be: after "```json" and all the
      whitespace that follows it (a shorter `\s*` would leave a space where `\{` must match). */
  function BodyStart(t: string, i: nat): nat
    requires i + 7 <= |t|
  {
    SkipSpaces(t, i + 7)
  }

  /** The part of the pattern before the group, "```json\s*\{", matches at i. */
  predicate OpensAt(t: string, i: nat) {
    && i + 7 <= |t|
    && t[i..i + 3] == Fence
    && TagAt(t, i + 3)
    && BodyStart(t, i) < |t|
    && t[BodyStart(t, i)] == '{'
  }

  /** The part of the pattern after `.*?`, "\}\s*```", matches at q. */
  predicate ClosesAt(t: string, q: nat) {
    && q < |t|
    && t[q] == '}'
    && SkipSpaces(t, q + 1) + 3 <= |t|
    && t[SkipSpaces(t, q + 1)..SkipSpaces(t, q + 1) + 3] == Fence
  }

  /** The first closing position at or after `from`: what the lazy `.*?` settles on. */
  function FirstCloser(t: string, from: nat): (r: Option<nat>)
    requires from <= |t|
    ensures r.Some? ==> from <= r.value < |t| && ClosesAt(t, r.value)
    ensures r.Some? ==> forall q :: from <= q < r.value ==> !ClosesAt(t, q)
    ensures r.None? ==> forall q :: from <= q < |t| ==> !ClosesAt(t, q)
    decreases |t| - from
  {
    if from == |t| then None
    else if ClosesAt(t, from) then Some(from)
    else FirstCloser(t, from + 1)
  }

  /** Where group 1 of a match of `_JSON_BLOCK_RE` starting at i ends (exclusive), if a
      match starts there: group 1 runs from the `{` up to and including the first `}`
      after it that is followed by optional whitespace and a closing fence. */
  function GroupEnd(t: string, i: nat): (r: Option<nat>)
    ensures r.Some? ==> OpensAt(t, i) && BodyStart(t, i) + 2 <= r.value <= |t| && t[r.value - 1] == '}'
    ensures r.Some? ==> ClosesAt(t, r.value - 1)
    ensures r.Some? ==> forall q :: BodyStart(t, i) < q < r.value - 1 ==> !ClosesAt(t, q)
  {
    if !OpensAt(t, i) then None
    else
      match FirstCloser(t, BodyStart(t, i) + 1)
      case Some(q) => Some(q + 1)
      case None => None
  }

  /** The leftmost position at or after `from` where a match starts (`re.search`). */
  function FirstMatch(t: string, from: nat): (r: Option<nat>)
    requires from <= |t|
    ensures r.Some? ==> from <= r.value < |t| && GroupEnd(t, r.value).Some?
    ensures r.Some? ==> forall j :: from <= j < r.value ==> GroupEnd(t, j).None?
    ensures r.None? ==> forall j :: from <= j < |t| ==> GroupEnd(t, j).None?
    decreases |t| - from
  {
    if from == |t| then None
    else if GroupEnd(t, from).Some? then Some(from)
    else FirstMatch(t, from + 1)
  }

  /** Strategy 1's guard: the stripped text starts with `{` and ends with `}`. */
  predicate LooksDirect(t: string) {
    StartsWith(t, "{") && EndsWith(t, "}")
  }

  /** Strategy 3's guard on `start = t.find("{")` and `end = t.rfind("}")`. */
  predicate HasSpan(t: string) {
    Find(t, '{') != -1 && RFind(t, '}') != -1 && RFind(t, '}') > Find(t, '{')
  }

  /** The slice [lo, hi) of the stripped reply `t` that `_extract_json` hands to
      `json.loads`, or None when it raises "Model did not return JSON". Each strategy
      whose guard holds is final: a later one is not tried. Whatever the strategy, the
      slice starts with `{` and ends with `}`. */
  function ParsedSlice(t: string): (r: Option<(nat, nat)>)
    ensures r.Some? ==> r.value.0 + 2 <= r.value.1 <= |t|
    ensures r.Some? ==> t[r.value.0] == '{' && t[r.value.1 - 1] == '}'
  {
    if LooksDirect(t) then DirectSlice(t)
    else
      match FirstMatch(t, 0)
      case Some(i) => FencedSlice(t, i)
      case None => if HasSpan(t) then SpanSlice(t) else None
  }

  /** Strategy 2's slice: group 1 of the match that starts at i. */
  function FencedSlice(t: string, i: nat): (r: Option<(nat, nat)>)
    requires GroupEnd(t, i).Some?
    ensures r.Some? && r.value.0 == BodyStart(t, i) && r.value.1 == GroupEnd(t, i).value
    ensures r.value.0 + 2 <= r.value.1 <= |t| && t[r.value.0] == '{' && t[r.value.1 - 1] == '}'
  {
    Some((BodyStart(t, i), GroupEnd(t, i).value))
  }

  /** Strategy 1's slice: the whole stripped text. */
  function DirectSlice(t: string): (r: Option<(nat, nat)>)
    requires LooksDirect(t)
    ensures r == Some((0, |t|)) && 2 <= |t| && t[0] == '{' && t[|t| - 1] == '}'
  {
    assert t[..1][0] == t[0] && t[|t| - 1..][0] == t[|t| - 1];
    Some((0, |t|))
  }

  /** Strategy 3's slice: from the first `{` through the last `}`. */
  function SpanSlice(t: string): (r: Option<(nat, nat)>)
    requires HasSpan(t)
    ensures r.Some? && r.value.0 == Find(t, '{') && r.value.1 == RFind(t, '}') + 1
    ensures r.value.0 + 2 <= r.value.1 <= |t| && t[r.value.0] == '{' && t[r.value.1 - 1] == '}'
  {
    Some((Find(t, '{') as nat, RFind(t, '}') as nat + 1))
  }

  /** The text `_extract_json` parses, or the ValueError it raises first. */
  function Candidate(text: string): Result<string, string>
  {
    var t := Strip(text);
    match ParsedSlice(t)
    case Some(b) => Ok(t[b.0..b.1])
    case None => Err(NoJsonMessage)
  }

  /** `_extract_json(text)`: parse the candidate text; a parse failure is the call's failure. */
  function ExtractJson<J>(text: string, loads: string -> Result<J, string>): Result<J, string>
  {
    match Candidate(text)
    case Ok(fragment) => loads(fragment)
    case Err(e) => Err(e)
  }

  /** The text-generation part of `build_campaign_pack_json`: the generator's reply is
      either its message content (None for a null content, read as "") or the message of
      the exception the client raised. */
  function BuildCampaignPack<J>(reply: Result<Option<string>, string>, loads: string -> Result<J, string>): Result<J, string>
  {
    match reply
    case Err(e) => Err(e)
    case Ok(content) => ExtractJson(content.GetOr(""), loads)
  }

  /** No strategy falls through to the next: when the stripped reply starts with `{` and
      ends with `}`, the result is the parse of the whole stripped reply, so a parse
      failure there is the call's failure even when a fenced block would parse. */
  lemma DirectIsFinal<J>(text: string, loads: string -> Result<J, string>)
    requires LooksDirect(Strip(text))
    ensures ExtractJson(text, loads) == loads(Strip(text))
  {
    var t := Strip(text);
    assert t[0..|t|] == t;
  }

  /** Likewise for the fenced block: once `_JSON_BLOCK_RE` matches, the group of its
      leftmost match is parsed and a failure there is final. */
  lemma FenceIsFinal<J>(text: string, loads: string -> Result<J, string>)
    requires !LooksDirect(Strip(text)) && FirstMatch(Strip(text), 0).Some?
    ensures var t := Strip(text); var i := FirstMatch(t, 0).value;
      && ExtractJson(text, loads) == loads(t[BodyStart(t, i)..GroupEnd(t, i).value])
      && forall j :: 0 <= j < i ==> GroupEnd(t, j).None?
  {
  }

  /** Strategy 3 parses exactly the span from the first `{` to the last `}`. */
  lemma SpanIsFirstToLast<J>(text: string, loads: string -> Result<J, string>)
    requires !LooksDirect(Strip(text)) && FirstMatch(Strip(text), 0).None? && HasSpan(Strip(text))
    ensures var t := Strip(text); var lo := Find(t, '{'); var hi := RFind(t, '}');
      && ExtractJson(text, loads) == loads(t[lo..hi + 1])
      && '{' !in t[..lo] && '}' !in t[hi + 1..]
  {
    var t := Strip(text);
    var b := SpanSlice(t).value;
    assert ParsedSlice(t) == Some(b);
    assert Candidate(text) == Ok(t[b.0..b.1]);
  }

  /** A stripped text that starts with `{` and ends with `}` is also exactly the span
      strategy 3 would take, so strategy 1 differs from strategy 3 only in taking
      precedence over the fence search. */
  lemma DirectIsWholeSpan(t: string)
    requires LooksDirect(t)
    ensures HasSpan(t) && Find(t, '{') == 0 && RFind(t, '}') == |t| - 1
  {
    assert t[..1] == "{" && t[|t| - 1..] == "}";
  }

  /** A match of the fence pattern holds a `{` and a `}`. */
  lemma MatchHasBraces(t: string, i: nat)
    ensures GroupEnd(t, i).Some? ==> '{' in t && '}' in t
  {
    if GroupEnd(t, i).Some? {
      assert t[BodyStart(t, i)] == '{' && t[GroupEnd(t, i).value - 1] == '}';
    }
  }

  /** Strategy 1's guard needs a `{` and a `}`. */
  lemma DirectHasBraces(t: string)
    ensures LooksDirect(t) ==> '{' in t && '}' in t
  {
    if LooksDirect(t) {
      DirectIsWholeSpan(t);
    }
  }

  /** A reply without a `{`, or without a `}`, yields the "Model did not return JSON"
      error, whatever `json.loads` would have done. */
  lemma NoBraceIsNoJson<J>(text: string, loads: string -> Result<J, string>)
    requires '{' !in text || '}' !in text
    ensures ExtractJson(text, loads) == Err(NoJsonMessage)
  {
    var t := Strip(text);
    StripSlice(text);
    var k := StripOffset(text);
    assert forall i :: 0 <= i < |t| ==> t[i] == text[k + i];
    assert '{' !in t || '}' !in t;
    DirectHasBraces(t);
    forall i | 0 <= i < |t| ensures GroupEnd(t, i).None? {
      MatchHasBraces(t, i);
    }
    assert FirstMatch(t, 0).None?;
  }

  /** An empty or null model reply yields the "Model did not return JSON" error. */
  lemma EmptyReplyIsNoJson<J>(loads: string -> Result<J, string>)
    ensures BuildCampaignPack(Ok(None), loads) == Err(NoJsonMessage)
    ensures BuildCampaignPack(Ok(Some("")), loads) == Err(NoJsonMessage)
  {
    NoBraceIsNoJson("", loads);
  }

  /** A failing text-generator call is the build's failure, with the client's message. */
  lemma GeneratorFailureIsFinal<J>(e: string, loads: string -> Result<J, string>)
    ensures BuildCampaignPack(Err(e), loads) == Err(e)
  {
  }
}
