/** The generate page: it loads the characters, scenes and drawings the
    sketch page stored, builds an editable script from the scene
    descriptions, posts the script to the generation route and shows the
    scripts, scenes, media and audio it gets back, or an error.

    Session storage and `fetch` are parameters: `stored` is what
    `sessionStorage.getItem` returns, `parse` stands for `JSON.parse`, and
    `fetch` maps the posted script to the route's answer. */
module GeneratePage {
  import opened Wrappers
  import opened Text
  import opened Http
  import opened Media
  import opened Scenes
  import GenerateAnime

  const NoDataFound := "No character data found. Please go back and sketch your characters first."
  const LoadFailed := "Failed to load character data. Please go back and try again."
  const FailedToGenerate := "Failed to generate anime"
  const AnErrorOccurred := "An error occurred"
  const ScriptSeparator := ". "

  /** The object the sketch page stored; `script` is read only as a
      fallback and is absent from what the sketch page writes. */
  datatype StoredData = StoredData(characters: seq<Character>, scenes: Option<seq<Scene>>,
                                   images: seq<string>, script: Option<string>)

  /** The route's JSON reply as the page reads it. */
  datatype ReplyJson = ReplyJson(error: Option<string>, scenes: Option<seq<ApiScene>>, media: Option<seq<MediaItem>>,
                                 audio: Option<string>, scripts: Option<seq<string>>)

  /** A response: its status and what `response.json()` gives (a failure
      carries the parse error's message). */
  datatype PageResponse = PageResponse(status: nat, json: Result<ReplyJson, string>)

  /** What `fetch` gives: a response, or the message of the error it
      rejected with. */
  type Fetched = Result<PageResponse, string>

  /** The part of the page state one generate request decides. */
  datatype Results = Results(error: Option<string>, scenes: seq<ApiScene>, media: seq<MediaItem>,
                             audioUrl: Option<string>, scripts: seq<string>)

  // -------------------------------------------------------------------
  // The script built on mount

  function Descriptions(scenes: seq<Scene>): (r: seq<string>)
    ensures |r| == |scenes| && forall i :: 0 <= i < |r| ==> r[i] == scenes[i].description
  {
    seq(|scenes|, i requires 0 <= i < |scenes| => scenes[i].description)
  }

  predicate HasScenes(d: StoredData) {
    d.scenes.Some? && |d.scenes.value| > 0
  }

  /** The script after mount: the scene descriptions joined by ". " when
      there are scenes, else the stored `script` when truthy, else the
      script as it was. */
  function InitialScript(d: StoredData, current: string): (r: string)
    ensures HasScenes(d) ==> r == Join(Descriptions(d.scenes.value), ScriptSeparator)
    ensures !HasScenes(d) && !Truthy(d.script) ==> r == current
    ensures !HasScenes(d) && Truthy(d.script) ==> r == d.script.value && r != ""
  {
    if HasScenes(d) then Join(Descriptions(d.scenes.value), ScriptSeparator)
    else OrElse(d.script, current)
  }

  /** The script lists the scenes: splitting it on ". " gives back every
      description, in order, provided none contains ". " itself. */
  lemma ScriptListsScenes(d: StoredData, current: string)
    requires HasScenes(d)
    requires forall i :: 0 <= i < |d.scenes.value| ==> !Contains(d.scenes.value[i].description, ScriptSeparator)
    ensures Split(InitialScript(d, current), ScriptSeparator) == Descriptions(d.scenes.value)
  {
    var xs := Descriptions(d.scenes.value);
    assert ScriptSeparator[..1][0] == '.' && ScriptSeparator[1..][0] == ' ';
    assert Unbordered(ScriptSeparator);
    SplitJoin(xs, ScriptSeparator);
  }

  /** Each further scene adds ". " and its description to the end of the
      script, whatever the descriptions contain. */
  lemma ScriptAppendsScene(d: StoredData, scene: Scene, current: string)
    requires HasScenes(d)
    ensures InitialScript(d.(scenes := Some(d.scenes.value + [scene])), current)
            == InitialScript(d, current) + ScriptSeparator + scene.description
  {
    var xs := d.scenes.value;
    assert Descriptions(xs + [scene]) == Descriptions(xs) + [scene.description];
    JoinAppend(Descriptions(xs), scene.description, ScriptSeparator);
  }

  /** A single scene gives its own description as the script. */
  lemma OneSceneIsItsDescription(d: StoredData, current: string)
    requires d.scenes.Some? && |d.scenes.value| == 1
    ensures InitialScript(d, current) == d.scenes.value[0].description
  {
  }

  // -------------------------------------------------------------------
  // The outcome of one generate request

  /** `err.message || 'An error occurred'`. */
  function Caught(message: string): (r: string)
    ensures r != "" && (message != "" ==> r == message)
    ensures message == "" ==> r == AnErrorOccurred
  {
    CaughtMessage(message, AnErrorOccurred)
  }

  /** Where the state lands after a request that was sent: every thrown
      error ends as a non-empty message with nothing shown; a non-ok reply
      with a readable body shows its `error`, or a fixed message; an ok
      reply with a readable body shows its fields, missing arrays as empty. */
  function Settle(f: Fetched): (r: Results)
    ensures r.error.Some? ==> r.error.value != "" && r.scenes == [] && r.media == [] && r.audioUrl.None? && r.scripts == []
    ensures r.error.None? <==> f.Success? && IsOk(f.value.status) && f.value.json.Success?
    ensures f.Failure? ==> r.error == Some(Caught(f.error))
    ensures f.Success? && f.value.json.Failure? ==> r.error == Some(Caught(f.value.json.error))
    ensures f.Success? && !IsOk(f.value.status) && f.value.json.Success? ==>
      r.error == Some(OrElse(f.value.json.value.error, FailedToGenerate))
    ensures r.error.None? ==>
      var j := f.value.json.value;
      r.scenes == OrEmpty(j.scenes) && r.media == OrEmpty(j.media) && r.scripts == OrEmpty(j.scripts)
      && (r.audioUrl.Some? <==> Truthy(j.audio)) && (r.audioUrl.Some? ==> r.audioUrl == j.audio)
  {
    var failed := Results(None, [], [], None, []);
    match f
    case Failure(m) => failed.(error := Some(Caught(m)))
    case Success(response) =>
      match response.json
      case Failure(m) => failed.(error := Some(Caught(m)))
      case Success(j) =>
        if !IsOk(response.status) then failed.(error := Some(Caught(OrElse(j.error, FailedToGenerate))))
        else Results(None, OrEmpty(j.scenes), OrEmpty(j.media), if Truthy(j.audio) then j.audio else None, OrEmpty(j.scripts))
  }

  /** The response the generation route sends for a reply: `{ error }` with
      the reply's status, or the generated fields with status 200. */
  function Delivered(reply: GenerateAnime.Reply): (r: PageResponse)
    ensures r.json.Success?
    ensures reply.Failed? ==> r.status == reply.status && r.json.value.error == Some(reply.error)
    ensures reply.Generated? ==> IsOk(r.status) && r.json.value.error.None?
    ensures reply.Generated? ==> r.json.value.scenes == Some(reply.scenes) && r.json.value.media == Some(reply.media)
                                 && r.json.value.scripts == Some(reply.scripts) && r.json.value.audio == reply.audio
  {
    match reply
    case Failed(status, error) => PageResponse(status, Success(ReplyJson(Some(error), None, None, None, None)))
    case Generated(scripts, scenes, media, audio, _) =>
      PageResponse(200, Success(ReplyJson(None, Some(scenes), Some(media), audio, Some(scripts))))
  }

  /** End to end: the route's failure message reaches the page unchanged,
      and its generated scenes, media, audio and scripts are what the page
      shows. */
  lemma PageShowsRouteReply(reply: GenerateAnime.Reply)
    requires reply.Failed? ==> !IsOk(reply.status) && reply.error != ""
    requires reply.Generated? ==> reply.audio.None? || reply.audio.value != ""
    ensures reply.Failed? ==> Settle(Success(Delivered(reply))).error == Some(reply.error)
    ensures reply.Generated? ==>
      Settle(Success(Delivered(reply))) == Results(None, reply.scenes, reply.media, reply.audio, reply.scripts)
  {
  }

  // -------------------------------------------------------------------
  // The media URL shown for an entry of a generated scene

  /** `resource?.video_link || resource?.image_link || resource?.url`;
      `None` is the entry the page skips. */
  function DisplayUrl(item: ApiMedia): (r: Option<string>)
    ensures r.Some? ==> r.value != ""
    ensures r.Some? <==>
      item.resource.Some? &&
      (Truthy(item.resource.value.videoLink) || Truthy(item.resource.value.imageLink) || Truthy(item.resource.value.url))
    ensures item.resource.Some? && Truthy(item.resource.value.videoLink) ==> r == item.resource.value.videoLink
    ensures item.resource.Some? && !Truthy(item.resource.value.videoLink) && Truthy(item.resource.value.imageLink) ==>
      r == item.resource.value.imageLink
    ensures r.Some? && r != item.resource.value.videoLink && r != item.resource.value.imageLink ==>
      r == item.resource.value.url
  {
    if item.resource.None? then None
    else
      var res := item.resource.value;
      var u := OrElse(res.videoLink, OrElse(res.imageLink, OrElse(res.url, "")));
      if u == "" then None else Some(u)
  }

  /** Every entry the route keeps in its flat media list is also shown on
      the page, and a video shows the same link the route kept. */
  lemma KeptEntriesAreShown(item: ApiMedia, sceneText: string, index: nat)
    requires GenerateAnime.Qualifies(item)
    ensures DisplayUrl(item).Some?
    ensures item.kind == Some("video") ==> DisplayUrl(item) == Some(GenerateAnime.Pick(item, sceneText, index).value.url)
  {
  }

  /** An image entry without a `video_link` but with both an `image_link`
      and a `url` is shown by its `image_link`, while the route's flat media
      list carries its `url`. */
  lemma ImagePreviewDiffersFromFlatUrl(item: ApiMedia, sceneText: string, index: nat)
    requires item.kind == Some("image") && item.resource.Some?
    requires !Truthy(item.resource.value.videoLink)
    requires Truthy(item.resource.value.imageLink) && Truthy(item.resource.value.url)
    ensures DisplayUrl(item) == item.resource.value.imageLink
    ensures GenerateAnime.Pick(item, sceneText, index).Some?
    ensures Some(GenerateAnime.Pick(item, sceneText, index).value.url) == item.resource.value.url
  {
  }

  // -------------------------------------------------------------------
  // The page

  class GeneratePage {
    var data: Option<StoredData>
    var loading: bool
    var scenes: seq<ApiScene>
    var media: seq<MediaItem>
    var audioUrl: Option<string>
    var scripts: seq<string>
    var error: Option<string>
    var script: string

    /** The initial state of every `useState`. */
    constructor ()
      ensures data.None? && !loading && scenes == [] && media == [] && audioUrl.None? && scripts == []
      ensures error.None? && script == ""
    {
      data := None;
      loading := false;
      scenes := [];
      media := [];
      audioUrl := None;
      scripts := [];
      error := None;
      script := "";
    }

    function Shown(): Results
      reads this
    {
      Results(error, scenes, media, audioUrl, scripts)
    }

    /** The mount effect: load the stored data and build the script. */
    method Mount(stored: Option<string>, parse: string -> Result<StoredData, string>)
      modifies this`data, this`script, this`error
      ensures !Truthy(stored) ==> error == Some(NoDataFound) && data == old(data) && script == old(script)
      ensures Truthy(stored) && parse(stored.value).Failure? ==>
        error == Some(LoadFailed) && data == old(data) && script == old(script)
      ensures Truthy(stored) && parse(stored.value).Success? ==>
        data == Some(parse(stored.value).value) && script == InitialScript(data.value, old(script)) && error == old(error)
    {
      if !Truthy(stored) {
        error := Some(NoDataFound);
        return;
      }
      var parsed := parse(stored.value);
      if parsed.Failure? {
        error := Some(LoadFailed);
        return;
      }
      var d := parsed.value;
      data := Some(d);
      if d.scenes.Some? && |d.scenes.value| > 0 {
        script := Join(Descriptions(d.scenes.value), ScriptSeparator);
      } else if Truthy(d.script) {
        script := d.script.value;
      }
    }

    /** The button is enabled only when not loading and the script is not
        blank. */
    function CanGenerate(): (r: bool)
      reads this
      ensures r <==> !loading && exists i :: 0 <= i < |script| && !IsWhitespace(script[i])
    {
      BlankTrimsToEmpty(script);
      !loading && Trim(script) != ""
    }

    /** The resets made before the request is sent. */
    method Begin()
      modifies this`loading, this`error, this`scenes, this`media, this`audioUrl, this`scripts
      ensures loading && Shown() == Results(None, [], [], None, [])
    {
      loading := true;
      error := None;
      scenes := [];
      media := [];
      audioUrl := None;
      scripts := [];
    }

    /** `handleGenerate`: nothing happens for a blank script; otherwise the
        script is posted (`sent`), and when the request settles the page
        shows `Settle` of the answer with `loading` back to false. */
    method HandleGenerate(fetch: string -> Fetched) returns (sent: Option<string>)
      modifies this`loading, this`error, this`scenes, this`media, this`audioUrl, this`scripts
      ensures Trim(script) == "" ==> sent.None? && unchanged(this)
      ensures Trim(script) != "" ==> sent == Some(script) && !loading && Shown() == Settle(fetch(script))
    {
      if Trim(script) == "" {
        return None;
      }
      Begin();
      sent := Some(script);
      var fetched := fetch(script);
      Complete(fetched);
    }

    /** The `try`/`catch`/`finally` once the request has been answered. */
    method Complete(fetched: Fetched)
      requires Shown() == Results(None, [], [], None, [])
      modifies this`loading, this`error, this`scenes, this`media, this`audioUrl, this`scripts
      ensures !loading && Shown() == Settle(fetched)
    {
      if fetched.Failure? {
        error := Some(Caught(fetched.error));
      } else {
        var response := fetched.value;
        if response.json.Failure? {
          error := Some(Caught(response.json.error));
        } else if !IsOk(response.status) {
          var errorData := response.json.value;
          error := Some(Caught(OrElse(errorData.error, FailedToGenerate)));
        } else {
          var result := response.json.value;
          scenes := OrEmpty(result.scenes);
          media := OrEmpty(result.media);
          audioUrl := if Truthy(result.audio) then result.audio else None;
          scripts := OrEmpty(result.scripts);
        }
      }
      loading := false;
    }
  }

  /** A script trims to the empty string exactly when it is white space
      only. */
  lemma BlankTrimsToEmpty(s: string)
    ensures Trim(s) != "" <==> exists i :: 0 <= i < |s| && !IsWhitespace(s[i])
  {
    var i := |s| - |TrimStart(s)|;
    assert TrimmedAt(s, Trim(s), i);
    if Trim(s) != "" {
      assert s[i] == Trim(s)[0];
    } else {
      forall k | 0 <= k < |s|
        ensures IsWhitespace(s[k])
      {
        assert s[k] == s[..i][k];
      }
    }
  }
}
