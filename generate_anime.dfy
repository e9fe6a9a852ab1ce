/** The POST handler of the anime-generation route: it checks the request,
    forwards the script to the text-to-video provider, turns a failed reply
    into a readable error message, and flattens the provider's scenes into
    one list of media items.

    The provider call is the parameter `fetch` (a thrown network error is a
    `Failure` carrying its message); `JSON.parse` followed by reading the
    fields the handler uses is `parseError` for an error body and
    `parseResult` for a successful one (a body that is not JSON, or is JSON
    `null`, gives `Failure` with the exception's message). */
module GenerateAnime {
  import opened Wrappers
  import opened Text
  import opened Http
  import opened Media

  const ScriptRequired := "Script is required"
  const KeyMissing := "RapidAPI key is not configured. Get a free key at https://rapidapi.com/hub"
  const InvalidKey := "Invalid RapidAPI key. Please check your API key at https://rapidapi.com/hub"
  const RateLimited := "Rate limit exceeded. Please wait a moment and try again."
  const NoCredits := "Insufficient credits. Please add credits to your RapidAPI account."
  const HtmlInsteadOfJson := "Invalid API endpoint or authentication failed. The API returned HTML instead of JSON. Please check:\n1. Your RapidAPI key is correct\n2. You're subscribed to the Text-to-Video API\n3. The API endpoint is correct"
  const GenericFailure := "Failed to generate anime video. Please check your RapidAPI key and try again."
  const DefaultDimension := "16:9"
  const JsonType := "application/json"
  /** How much of an unexpected body an error message quotes. */
  const PreviewLength: nat := 200

  datatype RequestBody = RequestBody(script: Field, dimension: Field)

  /** What is sent to the provider: the key header and the JSON body. */
  datatype UpstreamRequest = UpstreamRequest(apiKey: string, script: string, dimension: Field)

  /** The provider's reply: status, status text, `content-type` header (if
      any) and the body as text. */
  datatype UpstreamResponse = UpstreamResponse(status: nat, statusText: string, contentType: Option<string>, body: string)

  datatype ErrorBody = ErrorBody(message: Option<string>, error: Option<string>)

  datatype Audio = Audio(url: Option<string>)

  datatype UpstreamResult = UpstreamResult(scenes: Option<seq<ApiScene>>, scripts: Option<seq<string>>, audio: Option<Audio>)

  /** The route's JSON reply: `{ error }` with a status, or the generated
      media with status 200. */
  datatype Reply =
    | Failed(status: nat, error: string)
    | Generated(scripts: seq<string>, scenes: seq<ApiScene>, media: seq<MediaItem>, audio: Option<string>, message: string)

  /** The destructuring default `dimension = '16:9'` applies only to a
      missing field. */
  function DimensionOf(f: Field): (r: Field)
    ensures r != Absent
    ensures f.Absent? ==> r == Str(DefaultDimension)
    ensures !f.Absent? ==> r == f
  {
    if f.Absent? then Str(DefaultDimension) else f
  }

  function ContentTypeOf(r: UpstreamResponse): string {
    OrElse(r.contentType, "")
  }

  predicate IsJson(r: UpstreamResponse) {
    Contains(ContentTypeOf(r), JsonType)
  }

  predicate LooksLikeHtml(body: string) {
    Contains(body, "<!DOCTYPE") || Contains(body, "<html")
  }

  function StatusLine(r: UpstreamResponse): string {
    "API request failed: " + ShowNat(r.status) + " " + r.statusText
  }

  function WithPreview(message: string, body: string): string {
    message + " - " + Take(body, PreviewLength)
  }

  // -------------------------------------------------------------------
  // Error message for a non-ok provider reply

  /** The message for a failed provider reply, as a decision table: the
      status overrides first, then what the body says. */
  function UpstreamErrorMessage(r: UpstreamResponse, parseError: string -> Result<ErrorBody, string>): (m: string)
    ensures m != ""
  {
    if r.status == 401 || r.status == 403 then InvalidKey
    else if r.status == 429 then RateLimited
    else if r.status == 402 then NoCredits
    else if IsJson(r) then
      match parseError(r.body)
      case Success(e) => OrElse(e.message, OrElse(e.error, StatusLine(r)))
      case Failure(_) => WithPreview(StatusLine(r), r.body)
    else if LooksLikeHtml(r.body) then HtmlInsteadOfJson
    else WithPreview(StatusLine(r), r.body)
  }

  /** The handler's own order: a default from the status line, replaced by
      what the body says, and finally by a fixed message for the statuses
      that have one. */
  method ChooseErrorMessage(r: UpstreamResponse, parseError: string -> Result<ErrorBody, string>)
    returns (errorMessage: string)
    ensures errorMessage == UpstreamErrorMessage(r, parseError)
  {
    errorMessage := StatusLine(r);
    if Contains(ContentTypeOf(r), JsonType) {
      var parsed := parseError(r.body);
      if parsed.Success? {
        errorMessage := OrElse(parsed.value.message, OrElse(parsed.value.error, errorMessage));
      } else {
        errorMessage := errorMessage + " - " + Take(r.body, PreviewLength);
      }
    } else {
      if Contains(r.body, "<!DOCTYPE") || Contains(r.body, "<html") {
        errorMessage := HtmlInsteadOfJson;
      } else {
        errorMessage := errorMessage + " - " + Take(r.body, PreviewLength);
      }
    }

    if r.status == 401 || r.status == 403 {
      errorMessage := InvalidKey;
    } else if r.status == 429 {
      errorMessage := RateLimited;
    } else if r.status == 402 {
      errorMessage := NoCredits;
    }
  }

  /** For 401, 403, 402 and 429 the message is fixed by the status: the body,
      its content type and the status text play no part. */
  lemma StatusOverridesWin(r: UpstreamResponse, r': UpstreamResponse,
                           p: string -> Result<ErrorBody, string>, p': string -> Result<ErrorBody, string>)
    requires r.status == r'.status && r.status in {401, 402, 403, 429}
    ensures UpstreamErrorMessage(r, p) == UpstreamErrorMessage(r', p')
    ensures UpstreamErrorMessage(r, p) in {InvalidKey, RateLimited, NoCredits}
  {
  }

  /** Below the overrides, a JSON error body gives `message || error ||
      default`, an unreadable one the default plus a preview of the body. */
  lemma JsonErrorBody(r: UpstreamResponse, p: string -> Result<ErrorBody, string>)
    requires r.status !in {401, 402, 403, 429} && IsJson(r)
    ensures p(r.body).Success? ==>
      UpstreamErrorMessage(r, p) == OrElse(p(r.body).value.message, OrElse(p(r.body).value.error, StatusLine(r)))
    ensures p(r.body).Failure? ==>
      UpstreamErrorMessage(r, p) == StatusLine(r) + " - " + Take(r.body, PreviewLength)
  {
  }

  /** Below the overrides, a non-JSON body that looks like an HTML page gets
      the fixed explanation; any other non-JSON body is quoted, its first 200
      characters. */
  lemma NonJsonErrorBody(r: UpstreamResponse, p: string -> Result<ErrorBody, string>)
    requires r.status !in {401, 402, 403, 429} && !IsJson(r)
    ensures LooksLikeHtml(r.body) ==> UpstreamErrorMessage(r, p) == HtmlInsteadOfJson
    ensures !LooksLikeHtml(r.body) ==> UpstreamErrorMessage(r, p) == StatusLine(r) + " - " + Take(r.body, PreviewLength)
  {
  }

  // -------------------------------------------------------------------
  // Flattening scenes into media items

  function SceneText(scene: ApiScene): string {
    OrElse(scene.text, "")
  }

  /** Kept entries: a video with a truthy `video_link`, an image with a
      truthy `resource.url`. */
  predicate Qualifies(item: ApiMedia) {
    item.resource.Some? &&
    ((item.kind == Some("video") && Truthy(item.resource.value.videoLink))
     || (item.kind == Some("image") && Truthy(item.resource.value.url)))
  }

  /** The flat item an entry of scene `index` contributes, if it is kept. */
  function Pick(item: ApiMedia, sceneText: string, index: nat): (r: Option<MediaItem>)
    ensures r.Some? <==> Qualifies(item)
    ensures r.Some? ==> (r.value.kind == Video <==> item.kind == Some("video"))
    ensures r.Some? ==> r.value.sceneText == sceneText && r.value.sceneIndex == index && r.value.url != ""
    ensures r.Some? && r.value.kind == Video ==> item.resource.Some? && item.resource.value.videoLink == Some(r.value.url)
    ensures r.Some? && r.value.kind == Image ==> item.resource.Some? && item.resource.value.url == Some(r.value.url)
  {
    if item.kind == Some("video") && item.resource.Some? && Truthy(item.resource.value.videoLink) then
      Some(MediaItem(Video, item.resource.value.videoLink.value, sceneText, index))
    else if item.kind == Some("image") && item.resource.Some? && Truthy(item.resource.value.url) then
      Some(MediaItem(Image, item.resource.value.url.value, sceneText, index))
    else
      None
  }

  function Picked(item: ApiMedia, sceneText: string, index: nat): seq<MediaItem> {
    var p := Pick(item, sceneText, index);
    if p.Some? then [p.value] else []
  }

  /** The kept items among the first `n` entries of one scene's media. */
  function SceneItems(media: seq<ApiMedia>, n: nat, sceneText: string, index: nat): (r: seq<MediaItem>)
    requires n <= |media|
    ensures |r| <= n
    ensures forall k :: 0 <= k < |r| ==> r[k].sceneIndex == index && r[k].sceneText == sceneText && r[k].url != ""
    decreases n
  {
    if n == 0 then [] else SceneItems(media, n - 1, sceneText, index) + Picked(media[n - 1], sceneText, index)
  }

  function MediaOf(scene: ApiScene): seq<ApiMedia> {
    OrEmpty(scene.media)
  }

  /** The kept items of scene `index`, in their order within the scene. */
  function ItemsOf(scene: ApiScene, index: nat): seq<MediaItem> {
    SceneItems(MediaOf(scene), |MediaOf(scene)|, SceneText(scene), index)
  }

  /** How many media entries the first `n` scenes hold. */
  function MediaCount(scenes: seq<ApiScene>, n: nat): nat
    requires n <= |scenes|
  {
    if n == 0 then 0 else MediaCount(scenes, n - 1) + |MediaOf(scenes[n - 1])|
  }

  /** The kept items of the first `n` scenes, scene by scene. */
  function FlattenedUpTo(scenes: seq<ApiScene>, n: nat): (r: seq<MediaItem>)
    requires n <= |scenes|
    ensures |r| <= MediaCount(scenes, n)
    ensures forall k :: 0 <= k < |r| ==>
      r[k].sceneIndex < n && r[k].sceneText == SceneText(scenes[r[k].sceneIndex]) && r[k].url != ""
    decreases n
  {
    if n == 0 then [] else FlattenedUpTo(scenes, n - 1) + ItemsOf(scenes[n - 1], n - 1)
  }

  function Flattened(scenes: seq<ApiScene>): seq<MediaItem> {
    FlattenedUpTo(scenes, |scenes|)
  }

  /** The outer `forEach` over the scenes. */
  method FlattenMedia(scenes: seq<ApiScene>) returns (allMedia: seq<MediaItem>)
    ensures allMedia == Flattened(scenes)
  {
    allMedia := [];
    var index := 0;
    while index < |scenes|
      invariant 0 <= index <= |scenes|
      invariant allMedia == FlattenedUpTo(scenes, index)
    {
      var scene := scenes[index];
      allMedia := PushSceneMedia(allMedia, OrEmpty(scene.media), OrElse(scene.text, ""), index);
      index := index + 1;
    }
  }

  /** The inner `forEach` over one scene's media, pushing each kept entry
      onto `allMedia`. */
  method PushSceneMedia(allMedia: seq<MediaItem>, media: seq<ApiMedia>, sceneText: string, index: nat)
    returns (pushed: seq<MediaItem>)
    ensures pushed == allMedia + SceneItems(media, |media|, sceneText, index)
  {
    pushed := allMedia;
    var j := 0;
    while j < |media|
      invariant 0 <= j <= |media|
      invariant pushed == allMedia + SceneItems(media, j, sceneText, index)
    {
      var item := media[j];
      if item.kind == Some("video") && item.resource.Some? && Truthy(item.resource.value.videoLink) {
        pushed := pushed + [MediaItem(Video, item.resource.value.videoLink.value, sceneText, index)];
      } else if item.kind == Some("image") && item.resource.Some? && Truthy(item.resource.value.url) {
        pushed := pushed + [MediaItem(Image, item.resource.value.url.value, sceneText, index)];
      }
      j := j + 1;
    }
  }

  /** Items come scene by scene: scene indexes never decrease along the list. */
  lemma {:induction false} FlattenedInSceneOrder(scenes: seq<ApiScene>, n: nat)
    requires n <= |scenes|
    ensures forall a, b :: 0 <= a <= b < |FlattenedUpTo(scenes, n)| ==>
      FlattenedUpTo(scenes, n)[a].sceneIndex <= FlattenedUpTo(scenes, n)[b].sceneIndex
    decreases n
  {
    if n > 0 {
      FlattenedInSceneOrder(scenes, n - 1);
      var prefix := FlattenedUpTo(scenes, n - 1);
      var last := ItemsOf(scenes[n - 1], n - 1);
      var all: seq<MediaItem> := prefix + last;
      assert FlattenedUpTo(scenes, n) == all;
      forall a, b | 0 <= a <= b < |all|
        ensures all[a].sceneIndex <= all[b].sceneIndex
      {
        if b >= |prefix| {
          assert all[b] == last[b - |prefix|];
          if a < |prefix| {
            assert all[a] == prefix[a];
          }
        }
      }
    }
  }

  /** The items of `xs` that came from scene `i`, in order. */
  function FromScene(xs: seq<MediaItem>, i: nat): seq<MediaItem>
    decreases |xs|
  {
    if xs == [] then []
    else FromScene(xs[..|xs| - 1], i) + (if xs[|xs| - 1].sceneIndex == i then [xs[|xs| - 1]] else [])
  }

  lemma {:induction false} FromSceneAppend(xs: seq<MediaItem>, ys: seq<MediaItem>, i: nat)
    ensures FromScene(xs + ys, i) == FromScene(xs, i) + FromScene(ys, i)
    decreases |ys|
  {
    if ys == [] {
      assert xs + ys == xs;
    } else {
      assert (xs + ys)[..|xs + ys| - 1] == xs + ys[..|ys| - 1];
      FromSceneAppend(xs, ys[..|ys| - 1], i);
    }
  }

  lemma {:induction false} FromSceneUniform(xs: seq<MediaItem>, j: nat, i: nat)
    requires forall k :: 0 <= k < |xs| ==> xs[k].sceneIndex == j
    ensures FromScene(xs, i) == if i == j then xs else []
    decreases |xs|
  {
    if xs != [] {
      FromSceneUniform(xs[..|xs| - 1], j, i);
      assert xs == xs[..|xs| - 1] + [xs[|xs| - 1]];
    }
  }

  lemma {:induction false} FromSceneNone(xs: seq<MediaItem>, i: nat)
    requires forall k :: 0 <= k < |xs| ==> xs[k].sceneIndex < i
    ensures FromScene(xs, i) == []
    decreases |xs|
  {
    if xs != [] {
      FromSceneNone(xs[..|xs| - 1], i);
    }
  }

  /** Appending items of another scene leaves scene `i`'s items as they were. */
  lemma FromSceneSkipsOtherScene(xs: seq<MediaItem>, ys: seq<MediaItem>, i: nat, j: nat)
    requires i != j && forall k :: 0 <= k < |ys| ==> ys[k].sceneIndex == j
    ensures FromScene(xs + ys, i) == FromScene(xs, i)
  {
    FromSceneAppend(xs, ys, i);
    FromSceneUniform(ys, j, i);
    assert FromScene(xs, i) + [] == FromScene(xs, i);
  }

  /** Appending scene `i`'s items after items of earlier scenes: those
      appended items are all of scene `i`'s. */
  lemma FromSceneOfLastScene(xs: seq<MediaItem>, ys: seq<MediaItem>, i: nat)
    requires forall k :: 0 <= k < |xs| ==> xs[k].sceneIndex < i
    requires forall k :: 0 <= k < |ys| ==> ys[k].sceneIndex == i
    ensures FromScene(xs + ys, i) == ys
  {
    FromSceneAppend(xs, ys, i);
    FromSceneUniform(ys, i, i);
    FromSceneNone(xs, i);
    assert [] + ys == ys;
  }

  /** Exactly the kept items of scene `i`, in their order within the scene,
      carry `sceneIndex == i`. With FlattenedInSceneOrder this pins the whole
      list down. */
  lemma {:induction false} FlattenedSceneSlice(scenes: seq<ApiScene>, n: nat, i: nat)
    requires i < n <= |scenes|
    ensures FromScene(FlattenedUpTo(scenes, n), i) == ItemsOf(scenes[i], i)
    decreases n
  {
    var prefix := FlattenedUpTo(scenes, n - 1);
    var last := ItemsOf(scenes[n - 1], n - 1);
    assert FlattenedUpTo(scenes, n) == prefix + last;
    if i < n - 1 {
      FlattenedSceneSlice(scenes, n - 1, i);
      FromSceneSkipsOtherScene(prefix, last, i, n - 1);
    } else {
      FromSceneOfLastScene(prefix, last, i);
    }
  }

  lemma {:induction false} SceneItemsAllKept(media: seq<ApiMedia>, n: nat, sceneText: string, index: nat)
    requires n <= |media|
    requires forall k :: 0 <= k < |media| ==> Qualifies(media[k])
    ensures |SceneItems(media, n, sceneText, index)| == n
    decreases n
  {
    if n > 0 {
      SceneItemsAllKept(media, n - 1, sceneText, index);
    }
  }

  /** When every entry qualifies, the list has one item per media entry. */
  lemma {:induction false} FlattenedAllKept(scenes: seq<ApiScene>, n: nat)
    requires n <= |scenes|
    requires forall i, k :: 0 <= i < |scenes| && 0 <= k < |MediaOf(scenes[i])| ==> Qualifies(MediaOf(scenes[i])[k])
    ensures |FlattenedUpTo(scenes, n)| == MediaCount(scenes, n)
    decreases n
  {
    if n > 0 {
      FlattenedAllKept(scenes, n - 1);
      var m := MediaOf(scenes[n - 1]);
      assert forall k :: 0 <= k < |m| ==> Qualifies(m[k]);
      SceneItemsAllKept(m, |m|, SceneText(scenes[n - 1]), n - 1);
      assert FlattenedUpTo(scenes, n) == FlattenedUpTo(scenes, n - 1) + ItemsOf(scenes[n - 1], n - 1);
    }
  }

  // -------------------------------------------------------------------
  // The summary line

  const SummaryHead := "Generated "
  const SummaryMiddle := " scene(s) with "
  const SummaryTail := " media items"

  /** `Generated ${scenes.length} scene(s) with ${allMedia.length} media
      items`. */
  function Summary(sceneCount: nat, mediaCount: nat): (r: string)
    ensures IsPrefix(SummaryHead + ShowNat(sceneCount) + SummaryMiddle, r)
    ensures |r| >= |ShowNat(mediaCount) + SummaryTail|
            && r[|r| - |ShowNat(mediaCount) + SummaryTail|..] == ShowNat(mediaCount) + SummaryTail
  {
    SummaryHead + (ShowNat(sceneCount) + (SummaryMiddle + (ShowNat(mediaCount) + SummaryTail)))
  }

  lemma PrefixCancel(h: string, x: string, y: string)
    requires h + x == h + y
    ensures x == y
  {
    assert x == (h + x)[|h|..];
    assert y == (h + y)[|h|..];
  }

  /** The summary line determines both counts. */
  lemma SummaryReportsCounts(a: nat, b: nat, a': nat, b': nat)
    requires Summary(a, b) == Summary(a', b')
    ensures a == a' && b == b'
  {
    var rest := SummaryMiddle + (ShowNat(b) + SummaryTail);
    var rest' := SummaryMiddle + (ShowNat(b') + SummaryTail);
    PrefixCancel(SummaryHead, ShowNat(a) + rest, ShowNat(a') + rest');
    assert rest[0] == ' ' && rest'[0] == ' ';
    DigitRunUnique(ShowNat(a), rest, ShowNat(a'), rest');
    ShowNatInjective(a, a');
    PrefixCancel(SummaryMiddle, ShowNat(b) + SummaryTail, ShowNat(b') + SummaryTail);
    assert SummaryTail[0] == ' ';
    DigitRunUnique(ShowNat(b), SummaryTail, ShowNat(b'), SummaryTail);
    ShowNatInjective(b, b');
  }

  // -------------------------------------------------------------------
  // The handler

  const NonJsonLead := "API returned non-JSON response. Content-Type: "
  const NonJsonHints := ". This usually means:\n1. Invalid API endpoint\n2. Authentication failed\n3. API subscription issue\n\nResponse preview: "

  /** The message for an ok reply that is not JSON: it names the content
      type and ends with at most 200 characters of the body. */
  function NonJsonMessage(contentType: string, body: string): (m: string)
    ensures m != ""
    ensures IsPrefix(NonJsonLead + contentType + NonJsonHints, m)
    ensures |m| >= |Take(body, PreviewLength)| && m[|m| - |Take(body, PreviewLength)|..] == Take(body, PreviewLength)
  {
    var preview := Take(body, PreviewLength);
    var m := NonJsonLead + (contentType + (NonJsonHints + preview));
    assert m == (NonJsonLead + contentType + NonJsonHints) + preview;
    assert m[|m| - |preview|..] == preview;
    m
  }

  /** `result.audio?.url || null`. */
  function AudioUrl(audio: Option<Audio>): (r: Option<string>)
    ensures r.Some? <==> audio.Some? && Truthy(audio.value.url)
    ensures r.Some? ==> r == audio.value.url && r.value != ""
  {
    if audio.Some? && Truthy(audio.value.url) then audio.value.url else None
  }

  /** What the handler replies once the provider has been called. */
  function Outcome(fetched: Result<UpstreamResponse, string>,
                   parseError: string -> Result<ErrorBody, string>,
                   parseResult: string -> Result<UpstreamResult, string>): (o: Reply)
    ensures fetched.Success? && !IsOk(fetched.value.status) ==>
      o == Failed(fetched.value.status, UpstreamErrorMessage(fetched.value, parseError))
    ensures fetched.Failure? ==> o == Failed(500, CaughtMessage(fetched.error, GenericFailure))
    ensures fetched.Success? && IsOk(fetched.value.status) && !IsJson(fetched.value) ==>
      o == Failed(500, NonJsonMessage(ContentTypeOf(fetched.value), fetched.value.body))
    ensures fetched.Success? && IsOk(fetched.value.status) && IsJson(fetched.value) ==>
      var parsed := parseResult(fetched.value.body);
      && (parsed.Failure? ==> o == Failed(500, CaughtMessage(parsed.error, GenericFailure)))
      && (parsed.Success? ==> o.Generated? && o.scenes == OrEmpty(parsed.value.scenes)
                              && o.scripts == OrEmpty(parsed.value.scripts) && o.audio == AudioUrl(parsed.value.audio))
    ensures o.Failed? ==> !IsOk(o.status) && o.error != ""
    ensures o.Generated? ==> fetched.Success? && IsOk(fetched.value.status) && IsJson(fetched.value)
    ensures o.Generated? ==> o.media == Flattened(o.scenes) && o.message == Summary(|o.scenes|, |o.media|)
    ensures o.Generated? ==> o.audio.None? || o.audio.value != ""
  {
    match fetched
    case Failure(thrown) => Failed(500, CaughtMessage(thrown, GenericFailure))
    case Success(r) =>
      if !IsOk(r.status) then Failed(r.status, UpstreamErrorMessage(r, parseError))
      else if !IsJson(r) then Failed(500, NonJsonMessage(ContentTypeOf(r), r.body))
      else match parseResult(r.body)
        case Failure(thrown) => Failed(500, CaughtMessage(thrown, GenericFailure))
        case Success(result) =>
          var scenes := OrEmpty(result.scenes);
          var media := Flattened(scenes);
          Generated(OrEmpty(result.scripts), scenes, media, AudioUrl(result.audio), Summary(|scenes|, |media|))
  }

  /** The POST handler. `sent` is the request made to the provider, if any. */
  method Post(body: Result<RequestBody, string>, apiKey: Option<string>,
              fetch: UpstreamRequest -> Result<UpstreamResponse, string>,
              parseError: string -> Result<ErrorBody, string>,
              parseResult: string -> Result<UpstreamResult, string>)
    returns (reply: Reply, sent: Option<UpstreamRequest>)
    ensures body.Failure? ==> reply == Failed(500, CaughtMessage(body.error, GenericFailure)) && sent.None?
    ensures body.Success? && ScriptOf(body.value.script).None? ==> reply == Failed(400, ScriptRequired) && sent.None?
    ensures body.Success? && ScriptOf(body.value.script).Some? && !Configured(apiKey) ==>
      reply == Failed(500, KeyMissing) && sent.None?
    ensures body.Success? && ScriptOf(body.value.script).Some? && Configured(apiKey) ==>
      sent == Some(UpstreamRequest(apiKey.value, body.value.script.s, DimensionOf(body.value.dimension)))
    ensures sent.Some? ==> reply == Outcome(fetch(sent.value), parseError, parseResult)
    ensures reply.Failed? ==> !IsOk(reply.status) && reply.error != ""
  {
    sent := None;
    if body.Failure? {
      reply := Failed(500, CaughtMessage(body.error, GenericFailure));
      return;
    }
    var script := ScriptOf(body.value.script);
    if script.None? {
      reply := Failed(400, ScriptRequired);
      return;
    }
    if !Configured(apiKey) {
      reply := Failed(500, KeyMissing);
      return;
    }

    var request := UpstreamRequest(apiKey.value, script.value, DimensionOf(body.value.dimension));
    sent := Some(request);
    var fetched := fetch(request);
    reply := Answer(fetched, parseError, parseResult);
  }

  /** The part of the handler after the provider has been called. */
  method Answer(fetched: Result<UpstreamResponse, string>,
                parseError: string -> Result<ErrorBody, string>,
                parseResult: string -> Result<UpstreamResult, string>)
    returns (reply: Reply)
    ensures reply == Outcome(fetched, parseError, parseResult)
  {
    if fetched.Failure? {
      reply := Failed(500, CaughtMessage(fetched.error, GenericFailure));
      return;
    }
    var response := fetched.value;
    var contentType := ContentTypeOf(response);

    if !IsOk(response.status) {
      var errorMessage := ChooseErrorMessage(response, parseError);
      reply := Failed(response.status, errorMessage);
      return;
    }

    if !Contains(contentType, JsonType) {
      reply := Failed(500, NonJsonMessage(contentType, response.body));
      return;
    }

    var parsed := parseResult(response.body);
    if parsed.Failure? {
      reply := Failed(500, CaughtMessage(parsed.error, GenericFailure));
      return;
    }
    var result := parsed.value;
    var scenes := OrEmpty(result.scenes);
    var allMedia := FlattenMedia(scenes);
    reply := Generated(OrEmpty(result.scripts), scenes, allMedia, AudioUrl(result.audio),
                       Summary(|scenes|, |allMedia|));
  }
}
