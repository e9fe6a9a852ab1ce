/** The POST handler of the scene-extraction route: it checks the request,
    asks the language model for characters and scenes as JSON, and reads a
    JSON object out of the model's text answer: first the answer with its
    markdown fences removed, then, if that does not parse, the span from the
    first `{` to the last `}`.

    The model call is the parameter `llm` (a thrown SDK error is a `Failure`
    carrying its message); `JSON.parse` is the parameter `parse`, generic in
    the value `J` it produces. */
module ExtractScenes {
  import opened Wrappers
  import opened Text
  import opened Http

  const ScriptRequired := "Script is required"
  const KeyMissing := "Anthropic API key is not configured"
  const UnexpectedType := "Unexpected response type from Claude"
  const NoJsonFound := "Failed to parse JSON from Claude response"
  const GenericFailure := "Failed to extract scenes"
  /** The TypeError V8 raises when the answer has no content block. */
  const NoContentBlock := "Cannot read properties of undefined (reading 'type')"
  const DefaultModel := "claude-3-5-haiku-20241022"
  const MaxTokens: nat := 4096
  const JsonFence := "```json"
  const Fence := "```"

  datatype RequestBody = RequestBody(script: Field)

  /** The model request: model name, token cap, and the script that the
      fixed instruction text is wrapped around. */
  datatype LlmRequest = LlmRequest(model: string, maxTokens: nat, script: string)

  datatype ContentBlock = TextBlock(text: string) | OtherBlock

  datatype Reply<J> = Extracted(data: J) | Failed(status: nat, error: string)

  // -------------------------------------------------------------------
  // Removing the markdown fences: `replace(/```json\n?/g, '')`, then
  // `replace(/```\n?/g, '')`, then `trim()`.

  /** Every non-overlapping occurrence of `marker`, scanning left to right,
      is deleted together with one newline right after it, if any. */
  function StripMarker(s: string, marker: string): (r: string)
    requires marker != ""
    ensures |r| <= |s|
    decreases |s|
  {
    if |s| == 0 then ""
    else if IsPrefix(marker, s) then
      var rest := s[|marker|..];
      if |rest| > 0 && rest[0] == '\n' then StripMarker(rest[1..], marker) else StripMarker(rest, marker)
    else
      [s[0]] + StripMarker(s[1..], marker)
  }

  function Clean(text: string): (r: string)
    ensures r == [] || (!IsWhitespace(r[0]) && !IsWhitespace(r[|r| - 1]))
  {
    Trim(StripMarker(StripMarker(text, JsonFence), Fence))
  }

  /** Text without the marker is left as it is. */
  lemma {:induction false} StripWithoutMarker(s: string, marker: string)
    requires marker != "" && !Contains(s, marker)
    ensures StripMarker(s, marker) == s
    decreases |s|
  {
    if |s| > 0 {
      assert !OccursAt(s, marker, 0);
      forall k | 0 <= k
        ensures !OccursAt(s[1..], marker, k)
      {
        OccursAtTail(s, marker, k);
      }
      StripWithoutMarker(s[1..], marker);
      assert s == [s[0]] + s[1..];
    }
  }

  /** Characters that cannot start the marker pass through untouched. */
  lemma {:induction false} StripKeepsPlainPrefix(a: string, rest: string, marker: string)
    requires marker != ""
    requires forall k :: 0 <= k < |a| ==> a[k] != marker[0]
    ensures StripMarker(a + rest, marker) == a + StripMarker(rest, marker)
    decreases |a|
  {
    if |a| > 0 {
      var s := a + rest;
      assert s[0] == a[0];
      assert !IsPrefix(marker, s);
      assert s[1..] == a[1..] + rest;
      StripKeepsPlainPrefix(a[1..], rest, marker);
      assert a == [a[0]] + a[1..];
    } else {
      assert a + rest == rest;
    }
  }

  /** The replace is global: after deleting an occurrence of the marker, and
      the newline right after it if there is one, it carries on through the
      rest of the text. */
  lemma StripContinues(a: string, rest: string, marker: string)
    requires marker != ""
    requires forall k :: 0 <= k < |a| ==> a[k] != marker[0]
    ensures StripMarker(a + marker + rest, marker)
            == a + StripMarker(if |rest| > 0 && rest[0] == '\n' then rest[1..] else rest, marker)
  {
    StripKeepsPlainPrefix(a, marker + rest, marker);
    assert a + marker + rest == a + (marker + rest);
    var s := marker + rest;
    assert s[..|marker|] == marker;
    assert s[|marker|..] == rest;
  }

  predicate NoBacktick(s: string) {
    forall k :: 0 <= k < |s| ==> s[k] != '`'
  }

  /** Removing "```json" from a fenced block leaves the body and the
      closing fence. */
  lemma StripJsonFenceOfBlock(b: string)
    requires NoBacktick(b)
    ensures StripMarker("```json\n" + b + "\n```", JsonFence) == b + "\n```"
  {
    var text := "```json\n" + b + "\n```";
    var tail := b + "\n```";
    assert IsPrefix(JsonFence, text);
    assert text[|JsonFence|..] == "\n" + tail;
    assert ("\n" + tail)[1..] == tail;
    assert StripMarker(text, JsonFence) == StripMarker(tail, JsonFence);
    StripKeepsPlainPrefix(b, "\n```", JsonFence);
    StripWithoutMarker("\n```", JsonFence);
  }

  /** Removing "```" from the body and the closing fence leaves the body and
      a newline. */
  lemma StripClosingFence(b: string)
    requires NoBacktick(b)
    ensures StripMarker(b + "\n```", Fence) == b + "\n"
  {
    StripKeepsPlainPrefix(b + "\n", "```", Fence);
    assert b + "\n" + "```" == b + "\n```";
    assert IsPrefix(Fence, "```");
    assert "```"[|Fence|..] == "";
    assert StripMarker("```", Fence) == StripMarker("", Fence) == "";
  }

  /** An answer fenced as a JSON code block cleans to its trimmed body. */
  lemma CleanFencedBlock(b: string)
    requires NoBacktick(b)
    ensures Clean("```json\n" + b + "\n```") == Trim(b)
  {
    StripJsonFenceOfBlock(b);
    StripClosingFence(b);
    TrimAppendWhitespace(b, "\n");
  }

  // -------------------------------------------------------------------
  // The fallback `text.match(/\{[\s\S]*\}/)`.

  /** `s[i..j]` is a match of the pattern: it starts with `{`, ends with a
      later `}`, and anything may stand between. */
  predicate BraceSpan(s: string, i: int, j: int) {
    0 <= i && i + 2 <= j <= |s| && s[i] == '{' && s[j - 1] == '}'
  }

  function LastIndexOf(s: string, c: char): (r: Option<nat>)
    ensures r.Some? ==> r.value < |s| && s[r.value] == c
    ensures r.Some? ==> forall k :: r.value < k < |s| ==> s[k] != c
    ensures r.None? ==> forall k :: 0 <= k < |s| ==> s[k] != c
    decreases |s|
  {
    if |s| == 0 then None
    else if s[|s| - 1] == c then Some(|s| - 1)
    else LastIndexOf(s[..|s| - 1], c)
  }

  lemma OneCharOccurs(s: string, c: char, k: int)
    requires 0 <= k < |s|
    ensures OccursAt(s, [c], k) <==> s[k] == c
  {
  }

  /** Where the regular expression matches: the leftmost start, and for it
      the longest match, as the greedy `[\s\S]*` gives. */
  function BraceMatch(s: string): (r: Option<(nat, nat)>)
    ensures r.Some? ==> BraceSpan(s, r.value.0, r.value.1)
    ensures r.Some? ==> forall i, j :: BraceSpan(s, i, j) ==> r.value.0 <= i && (i == r.value.0 ==> j <= r.value.1)
    ensures r.None? ==> forall i, j :: !BraceSpan(s, i, j)
  {
    match IndexOf(s, "{")
    case None =>
      assert forall i :: 0 <= i < |s| ==> s[i] != '{' by {
        forall i | 0 <= i < |s| ensures s[i] != '{' { OneCharOccurs(s, '{', i); }
      }
      None
    case Some(i) =>
      OneCharOccurs(s, '{', i);
      assert forall k :: 0 <= k < i ==> s[k] != '{' by {
        forall k | 0 <= k < i ensures s[k] != '{' { OneCharOccurs(s, '{', k); }
      }
      match LastIndexOf(s, '}')
      case None => None
      case Some(j) => if j > i then Some((i, j + 1)) else None
  }

  predicate InfixAt(s: string, t: string, i: int) {
    0 <= i && i + |t| <= |s| && s[i..i + |t|] == t
  }

  /** The fallback candidate, taken from the original answer: the text from
      the first `{` to the last `}`, when that `}` comes after the `{`. */
  function Candidate(text: string): (r: Option<string>)
    ensures r.Some? ==> |r.value| >= 2 && r.value[0] == '{' && r.value[|r.value| - 1] == '}'
    ensures r.Some? ==> exists i :: InfixAt(text, r.value, i)
    ensures r.Some? ==> IndexOf(text, "{").Some? && LastIndexOf(text, '}').Some?
                        && IndexOf(text, "{").value < LastIndexOf(text, '}').value
                        && r.value == text[IndexOf(text, "{").value..LastIndexOf(text, '}').value + 1]
  {
    match BraceMatch(text)
    case None => None
    case Some((i, j)) =>
      assert InfixAt(text, text[i..j], i);
      Some(text[i..j])
  }

  /** A candidate exists exactly when some `}` follows the first `{`. */
  lemma CandidateExistsIff(text: string)
    ensures Candidate(text).Some? <==>
      (IndexOf(text, "{").Some? && exists k :: IndexOf(text, "{").value < k < |text| && text[k] == '}')
  {
  }

  /** Prose before and after a single JSON object: the candidate is exactly
      that object. */
  lemma CandidateAmidProse(before: string, obj: string, after: string)
    requires forall k :: 0 <= k < |before| ==> before[k] != '{'
    requires forall k :: 0 <= k < |after| ==> after[k] != '}'
    requires |obj| >= 2 && obj[0] == '{' && obj[|obj| - 1] == '}'
    ensures Candidate(before + obj + after) == Some(obj)
  {
    var s := before + obj + after;
    var i := |before|;
    var j := |before| + |obj|;
    assert BraceSpan(s, i, j);
    var m := BraceMatch(s);
    assert m.Some?;
    assert forall k :: 0 <= k < i ==> s[k] == before[k];
    assert forall k :: j <= k < |s| ==> s[k] == after[k - j];
    assert m.value.0 == i;
    assert m.value.1 == j;
    assert s[i..j] == obj;
  }

  // -------------------------------------------------------------------
  // The handler

  /** Reading the data out of the answer's text. */
  function ParseAnswer<J>(text: string, parse: string -> Result<J, string>): (r: Reply<J>)
    ensures parse(Clean(text)).Success? ==> r == Extracted(parse(Clean(text)).value)
    ensures parse(Clean(text)).Failure? && Candidate(text).None? ==> r == Failed(500, NoJsonFound)
    ensures parse(Clean(text)).Failure? && Candidate(text).Some? ==>
      (parse(Candidate(text).value).Success? <==> r.Extracted?)
    ensures parse(Clean(text)).Failure? && Candidate(text).Some? && parse(Candidate(text).value).Failure? ==>
      r == Failed(500, CaughtMessage(parse(Candidate(text).value).error, GenericFailure))
    ensures r.Extracted? ==> parse(Clean(text)) == Success(r.data)
                             || (Candidate(text).Some? && parse(Candidate(text).value) == Success(r.data))
    ensures r.Failed? ==> r.status == 500 && r.error != ""
  {
    match parse(Clean(text))
    case Success(data) => Extracted(data)
    case Failure(_) =>
      match Candidate(text)
      case None => Failed(500, NoJsonFound)
      case Some(candidate) =>
        match parse(candidate)
        case Success(data) => Extracted(data)
        case Failure(thrown) => Failed(500, CaughtMessage(thrown, GenericFailure))
  }

  /** A fenced JSON answer is read directly, without the fallback. */
  lemma FencedAnswerParsesDirectly<J>(b: string, parse: string -> Result<J, string>)
    requires NoBacktick(b) && parse(Trim(b)).Success?
    ensures ParseAnswer("```json\n" + b + "\n```", parse) == Extracted(parse(Trim(b)).value)
  {
    CleanFencedBlock(b);
  }

  /** An answer with prose around one object falls back to that object when
      the cleaned answer does not parse. */
  lemma ProseAnswerFallsBack<J>(before: string, obj: string, after: string, parse: string -> Result<J, string>)
    requires forall k :: 0 <= k < |before| ==> before[k] != '{'
    requires forall k :: 0 <= k < |after| ==> after[k] != '}'
    requires |obj| >= 2 && obj[0] == '{' && obj[|obj| - 1] == '}'
    requires parse(Clean(before + obj + after)).Failure? && parse(obj).Success?
    ensures ParseAnswer(before + obj + after, parse) == Extracted(parse(obj).value)
  {
    CandidateAmidProse(before, obj, after);
  }

  /** The checks made before the model is called: the request to send, or
      the status and message of the early reply. */
  function Prepare(body: Result<RequestBody, string>, apiKey: Option<string>, model: Option<string>)
    : (r: Result<LlmRequest, (nat, string)>)
    ensures body.Failure? ==> r == Failure((500, CaughtMessage(body.error, GenericFailure)))
    ensures body.Success? && ScriptOf(body.value.script).None? ==> r == Failure((400, ScriptRequired))
    ensures body.Success? && ScriptOf(body.value.script).Some? && !Configured(apiKey) ==> r == Failure((500, KeyMissing))
    ensures body.Success? && ScriptOf(body.value.script).Some? && Configured(apiKey) ==> r.Success?
    ensures r.Success? ==> body.Success? && Configured(apiKey) && r.value.script == body.value.script.s
                           && r.value.script != "" && r.value.maxTokens == MaxTokens
                           && r.value.model == OrElse(model, DefaultModel) && r.value.model != ""
  {
    if body.Failure? then Failure((500, CaughtMessage(body.error, GenericFailure)))
    else
      var script := ScriptOf(body.value.script);
      if script.None? then Failure((400, ScriptRequired))
      else if !Configured(apiKey) then Failure((500, KeyMissing))
      else Success(LlmRequest(OrElse(model, DefaultModel), MaxTokens, script.value))
  }

  /** What the handler replies once the model has answered. */
  function Respond<J>(answer: Result<seq<ContentBlock>, string>, parse: string -> Result<J, string>): (r: Reply<J>)
    ensures answer.Failure? ==> r == Failed(500, CaughtMessage(answer.error, GenericFailure))
    ensures answer.Success? && |answer.value| == 0 ==> r == Failed(500, NoContentBlock)
    ensures answer.Success? && |answer.value| > 0 && answer.value[0].OtherBlock? ==> r == Failed(500, UnexpectedType)
    ensures answer.Success? && |answer.value| > 0 && answer.value[0].TextBlock? ==> r == ParseAnswer(answer.value[0].text, parse)
    ensures r.Failed? ==> r.status == 500 && r.error != ""
  {
    match answer
    case Failure(thrown) => Failed(500, CaughtMessage(thrown, GenericFailure))
    case Success(blocks) =>
      if |blocks| == 0 then Failed(500, NoContentBlock)
      else if !blocks[0].TextBlock? then Failed(500, UnexpectedType)
      else ParseAnswer(blocks[0].text, parse)
  }

  /** The POST handler. */
  function Post<J>(body: Result<RequestBody, string>, apiKey: Option<string>, model: Option<string>,
                   llm: LlmRequest -> Result<seq<ContentBlock>, string>,
                   parse: string -> Result<J, string>): (r: Reply<J>)
    ensures body.Success? && ScriptOf(body.value.script).None? ==> r == Failed(400, ScriptRequired)
    ensures body.Success? && ScriptOf(body.value.script).Some? && !Configured(apiKey) ==> r == Failed(500, KeyMissing)
    ensures r.Failed? ==> (r.status == 400 || r.status == 500) && r.error != ""
    ensures r.Failed? && r.status == 400 ==> body.Success? && ScriptOf(body.value.script).None?
    ensures Prepare(body, apiKey, model).Success? ==> r == Respond(llm(Prepare(body, apiKey, model).value), parse)
    ensures Prepare(body, apiKey, model).Failure? ==>
      r == Failed(Prepare(body, apiKey, model).error.0, Prepare(body, apiKey, model).error.1)
    ensures body.Failure? ==> r == Failed(500, CaughtMessage(body.error, GenericFailure))
  {
    match Prepare(body, apiKey, model)
    case Failure((status, message)) => Failed(status, message)
    case Success(request) => Respond(llm(request), parse)
  }
}
