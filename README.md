# YoutubeAnime core, modelled in Dafny

YoutubeAnime is a small Next.js app. A user pastes a story script. One API
route asks a language model to extract the characters and scenes as JSON.
The user sketches each character on a canvas. A second API route sends the
script to a text-to-video provider and flattens the scenes and media it
returns. This project models the logic of those four pieces and proves
properties of it:

- `GenerateAnime` (`app/api/generate-anime/route.ts`):
  - request validation;
  - the error message picked for a failed provider reply, as a decision table and as the handler's own step-by-step reassignment;
  - the guard against a non-JSON ok reply;
  - the nested loops that flatten scenes into one media list;
  - the summary line.
- `ExtractScenes` (`app/api/extract-scenes/route.ts`):
  - request validation;
  - removing the markdown code fences and trimming;
  - the fallback that takes the span from the first `{` to the last `}`;
  - how every failure becomes a 500 reply.
- `Sketch` (`app/feed/create-scenes/sketch/page.tsx`): the sketch page as a class. It holds the loaded data, the current character index, and the map from character name to saved drawing. `SaveDrawing` and `HandleNext` change that state.
- `GeneratePage` (`app/feed/create-scenes/generate/page.tsx`): the generate page as a class.
  - The mount step builds the script from the scene descriptions.
  - `HandleGenerate` guards, resets, posts and settles the page state.
  - Pure helpers give the media URL shown and the outcome of a request.
- Shared modules:
  - `Text` holds the JavaScript string operations the code uses: `includes`, `substring`, `trim` (with the ECMAScript white-space set), `join`, and number printing. `split` is there as the inverse of `join`.
  - `Http` holds the script check and the `error.message || fallback` that both routes share.
  - `Media` and `Scenes` hold the record types.
  - `Wrappers` holds `Option` and `Result`.

Calls to outside services are parameters:

- `JSON.parse` is a function returning `Result`. A failure carries the thrown message.
- The provider `fetch` is a function from the request to the response, or to the message it rejects with. Its response is a status, status text, content type and body text.
- The language-model call is a function from the request to the list of content blocks of the answer, or to the message of the error it throws.
- Environment variables and session storage are `Option<string>` inputs.

The generation route's handler also returns the request it sent (`sent`), so its contract can say whether the provider was called at all. The extraction route's handler is a function: the request it sends is the one `ExtractScenes.Prepare` builds. Its contract says the reply is `Respond` of the model's answer to that request when there is one, and the early reply, which does not depend on the model, when there is not.

The flattened media list is not always as long as the total number of media entries:

- The code keeps only a video with a truthy `video_link` or an image with a truthy `resource.url`.
- So the model proves the length is at most the total (`GenerateAnime.FlattenedUpTo`).
- Equality is proved only when every entry qualifies (`GenerateAnime.FlattenedAllKept`).

## Model

| member | source | states |
|---|---|---|
| Http.ScriptOf | app/api/generate-anime/route.ts:11-16 | `!script \|\| typeof script !== 'string'` lets through exactly a non-empty string, which becomes the script |
| Http.CaughtMessage | app/api/generate-anime/route.ts:124-129 | a catch block replies with the thrown message, or the fallback when that is empty; never empty |
| Text.OrElse | app/api/generate-anime/route.ts:50 | `a \|\| b` on strings: `a` when it is a non-empty string, else `b`; non-empty when `b` is |
| Text.IndexOf | app/api/generate-anime/route.ts:47 | `indexOf`/`includes`: the leftmost occurrence, or none anywhere |
| Text.Take | app/api/generate-anime/route.ts:52 | `substring(0, n)`: a prefix of the text, all of it when it is at most `n` long, otherwise exactly `n` long |
| Text.Join | app/feed/create-scenes/generate/page.tsx:66 | `join(sep)`: no items give `''`, one item gives that item, more items start with the first item and the separator |
| Text.JoinAppend | app/feed/create-scenes/generate/page.tsx:66 | joining a list with one more item appends the separator and that item |
| Text.Split | app/feed/create-scenes/generate/page.tsx:64-66 | splitting on a separator gives pieces without the separator that `join` puts back together into the text |
| Text.NoSeparatorBefore | app/feed/create-scenes/generate/page.tsx:64-66 | the text before the leftmost separator holds no separator |
| Text.Trim | app/api/extract-scenes/route.ts:74 | `trim()`: the result has no white space at either end and is what is left after cutting white-space runs from both ends |
| Text.TrimAppendWhitespace | app/api/extract-scenes/route.ts:74 | trailing white space does not change what `trim()` gives |
| Text.SplitJoin | app/feed/create-scenes/generate/page.tsx:64-66 | splitting a `join(sep)` on `sep` gives the list back when no item contains `sep` and `sep` cannot overlap itself |
| Text.ShowNat | app/api/generate-anime/route.ts:122 | a number prints in plain decimal: a non-empty run of digits with no leading zero, and "0" for zero |
| Text.ReadShowNat | app/api/generate-anime/route.ts:122 | reading the printed digits gives the number back |
| Text.ShowNatInjective | app/api/generate-anime/route.ts:122 | different numbers print differently |
| Text.DigitRunUnique | app/api/generate-anime/route.ts:122 | a digit run followed by a non-digit is determined by the string |
| GenerateAnime.UpstreamErrorMessage | app/api/generate-anime/route.ts:44-70 | the message for a failed provider reply is never empty |
| GenerateAnime.ChooseErrorMessage | app/api/generate-anime/route.ts:44-70 | reassigning the message step by step, as the handler does, ends at the decision table's answer |
| GenerateAnime.StatusOverridesWin | app/api/generate-anime/route.ts:64-70 | for 401/403, 429 and 402 the message depends on the status alone and is one of the three fixed messages, whatever the body says |
| GenerateAnime.JsonErrorBody | app/api/generate-anime/route.ts:47-53 | below the overrides, a JSON error body gives `message \|\| error \|\| default`; an unreadable one gives the default plus the first 200 characters of the body |
| GenerateAnime.DimensionOf | app/api/generate-anime/route.ts:9 | the destructuring default: a missing `dimension` becomes `'16:9'`, any value that is present is kept |
| GenerateAnime.NonJsonErrorBody | app/api/generate-anime/route.ts:54-61 | below the overrides, a non-JSON body holding `<!DOCTYPE` or `<html` gets the fixed HTML explanation; any other gives the status line, `' - '` and the body's first 200 characters |
| GenerateAnime.Pick | app/api/generate-anime/route.ts:98-113 | an entry is kept exactly when it is a video with a truthy `video_link` or an image with a truthy `resource.url`; the kept item is a video exactly when the entry's `type` is `'video'`, and carries that link, the scene's text and index |
| GenerateAnime.SceneItems | app/api/generate-anime/route.ts:98-114 | one scene gives at most one item per media entry, all tagged with that scene's index and text, each with a non-empty URL |
| GenerateAnime.FlattenedUpTo | app/api/generate-anime/route.ts:91-115 | the flat list is no longer than the total number of media entries; each item names a real scene and carries that scene's text (or `''`) |
| GenerateAnime.FlattenMedia | app/api/generate-anime/route.ts:91-115 | the nested `forEach` loops that push onto `allMedia` build exactly the flattened list |
| GenerateAnime.PushSceneMedia | app/api/generate-anime/route.ts:98-114 | the inner `forEach` pushes exactly the scene's kept items, in order, after what `allMedia` already holds |
| GenerateAnime.FlattenedInSceneOrder | app/api/generate-anime/route.ts:94-115 | scene indexes never decrease along the list |
| GenerateAnime.FlattenedSceneSlice | app/api/generate-anime/route.ts:94-115 | the items tagged with scene `i` are exactly that scene's kept entries, in their order |
| GenerateAnime.FromSceneAppend | app/api/generate-anime/route.ts:100-112 | taking one scene's items distributes over appending |
| GenerateAnime.FromSceneSkipsOtherScene | app/api/generate-anime/route.ts:94-115 | items of a later scene do not change an earlier scene's items |
| GenerateAnime.FromSceneOfLastScene | app/api/generate-anime/route.ts:94-115 | after the items of earlier scenes, the last scene's items are exactly its own |
| GenerateAnime.FlattenedAllKept | app/api/generate-anime/route.ts:94-115 | when every entry qualifies, the list has one item per media entry |
| GenerateAnime.Summary | app/api/generate-anime/route.ts:122 | the summary is "Generated ", the scene count's digits and " scene(s) with " at the front, and the media count's digits and " media items" at the end |
| GenerateAnime.SummaryReportsCounts | app/api/generate-anime/route.ts:122 | the summary line determines both the scene count and the media count |
| GenerateAnime.AudioUrl | app/api/generate-anime/route.ts:121 | `result.audio?.url \|\| null`: present exactly when the URL is truthy |
| GenerateAnime.NonJsonMessage | app/api/generate-anime/route.ts:79-86 | the reply to an ok non-JSON answer starts with the fixed lead, the content type and the fixed hints, and ends with the first 200 characters of the body |
| GenerateAnime.Outcome | app/api/generate-anime/route.ts:40-129 | a thrown fetch or parse error gives 500 with its message, or the generic one when that is empty; a non-ok provider reply gives its own status with the table's message; an ok non-JSON reply gives 500 with `NonJsonMessage` of its content type and body; an ok JSON reply that parses is a success whose scenes and scripts are the parsed ones or `[]`, whose audio is `AudioUrl` of the parsed audio, whose media are the flattened scenes and whose message is the summary of its counts |
| GenerateAnime.Answer | app/api/generate-anime/route.ts:40-123 | the handler's steps after the provider call reply as `Outcome` says |
| GenerateAnime.Post | app/api/generate-anime/route.ts:7-131 | a bad script gives 400 "Script is required" before the key check and without calling the provider; a missing key gives 500 without calling the provider; otherwise the provider gets the script and the dimension (default `16:9`), and the reply is `Outcome` of its answer |
| ExtractScenes.StripMarker | app/api/extract-scenes/route.ts:74 | a global replace of the marker and an optional newline never lengthens the text |
| ExtractScenes.StripWithoutMarker | app/api/extract-scenes/route.ts:74 | text without the marker is left unchanged |
| ExtractScenes.StripContinues | app/api/extract-scenes/route.ts:74 | the `/g` replace deletes an occurrence of the marker, and one newline right after it, then carries on through the rest of the text |
| ExtractScenes.StripKeepsPlainPrefix | app/api/extract-scenes/route.ts:74 | characters that cannot start the marker pass through unchanged |
| ExtractScenes.StripJsonFenceOfBlock | app/api/extract-scenes/route.ts:74 | the first replacement turns a fenced block into its body followed by the closing fence |
| ExtractScenes.StripClosingFence | app/api/extract-scenes/route.ts:74 | the second replacement then removes the closing fence, leaving the body and a newline |
| ExtractScenes.Clean | app/api/extract-scenes/route.ts:74 | the cleaned text has no white space at either end |
| ExtractScenes.CleanFencedBlock | app/api/extract-scenes/route.ts:74 | an answer fenced as a `json` code block cleans to its trimmed body |
| ExtractScenes.LastIndexOf | app/api/extract-scenes/route.ts:78 | the last occurrence of a character, or none |
| ExtractScenes.BraceMatch | app/api/extract-scenes/route.ts:78 | `/\{[\s\S]*\}/` matches at the leftmost `{` and, greedily, up to the last `}` after it |
| ExtractScenes.Candidate | app/api/extract-scenes/route.ts:78-80 | the fallback candidate is the piece of the original, uncleaned text from the first `{` to the last `}`, which comes after it |
| ExtractScenes.CandidateExistsIff | app/api/extract-scenes/route.ts:78-83 | a candidate exists exactly when some `}` follows the first `{` |
| ExtractScenes.CandidateAmidProse | app/api/extract-scenes/route.ts:78-80 | with prose around a single object, the candidate is that object |
| ExtractScenes.ParseAnswer | app/api/extract-scenes/route.ts:71-92 | the cleaned text is parsed first; the fallback is tried only when that fails; no candidate gives "Failed to parse JSON from Claude response"; a candidate that does not parse gives 500 with the parse error's message, or "Failed to extract scenes" when that is empty; data comes from one of the two parses |
| ExtractScenes.FencedAnswerParsesDirectly | app/api/extract-scenes/route.ts:72-75 | a fenced JSON answer is read by the direct parse |
| ExtractScenes.ProseAnswerFallsBack | app/api/extract-scenes/route.ts:76-80 | an object amid prose is read by the fallback |
| ExtractScenes.Prepare | app/api/extract-scenes/route.ts:10-35 | an unreadable body gives 500 with its error's message or "Failed to extract scenes"; 400 for a bad script before the key check; 500 "Anthropic API key is not configured" without a key; a valid request with a key always gives a request, with the script, 4096 tokens and the configured model or the default |
| ExtractScenes.Respond | app/api/extract-scenes/route.ts:65-92 | a rejected model call gives 500 with its message, or "Failed to extract scenes" when that is empty; no content block gives 500 with the TypeError's message; a non-text first block is "Unexpected response type from Claude"; a text block is read by `ParseAnswer`; every failure is a 500 with a non-empty message |
| ExtractScenes.Post | app/api/extract-scenes/route.ts:8-94 | failures are 400 or 500 with a non-empty message; 400 only for a bad script; an unreadable body gives 500 with its error's message or "Failed to extract scenes"; any early reply is `Prepare`'s, without the model; a prepared request goes to the model and its answer is read by `Respond` |
| Sketch.SaveAt | app/feed/create-scenes/sketch/page.tsx:166-181 | saving writes only the current character's name, to the snapshot; every other entry is unchanged; nothing is written without data, a canvas or a current character |
| Sketch.NextIndex | app/feed/create-scenes/sketch/page.tsx:198-200 | the index moves up by one exactly when it is below `length - 1`, and stays within the list |
| Sketch.InheritedNamesCountAsDrawn | app/feed/create-scenes/sketch/page.tsx:205 | characters named after `Object.prototype` members with nothing saved count as drawn, because the plain-object lookup finds the inherited member |
| Sketch.SharedNameSharesEntry | app/feed/create-scenes/sketch/page.tsx:179 | characters with the same name share one entry: saving one draws both, and the later save wins |
| Sketch.WalkDrawsTheRest | app/feed/create-scenes/sketch/page.tsx:183-201 | pressing Next once per remaining character with a drawing draws all of them, keeps earlier drawings, and stops on the last character |
| Sketch.DrawingEveryoneCompletes | app/feed/create-scenes/sketch/page.tsx:183-205 | drawing every character in turn from the first makes `allCharactersDrawn` hold |
| Sketch.DistinctCount | app/feed/create-scenes/sketch/page.tsx:331 | a list of distinct keys has as many elements as its set |
| Sketch.SketchPage.constructor | app/feed/create-scenes/sketch/page.tsx:29-32 | the page starts at index 0 with no saved drawings |
| Sketch.SketchPage.Store | app/feed/create-scenes/sketch/page.tsx:177-180 | `{...prev, [name]: imageData}` updates one key and keeps the page state valid |
| Sketch.SketchPage.SaveDrawing | app/feed/create-scenes/sketch/page.tsx:166-181 | `saveDrawing` changes the saved drawings exactly as `SaveAt` says |
| Sketch.SketchPage.HandleNext | app/feed/create-scenes/sketch/page.tsx:183-201 | `handleNext` does nothing without data; otherwise it saves as `SaveAt` says and moves as `NextIndex` says |
| Sketch.SketchPage.IsLastCharacter | app/feed/create-scenes/sketch/page.tsx:204 | false without data; with data and an index in the list it holds exactly when Next would not move; with data and an index past the end (an empty list) it is false |
| Sketch.SketchPage.AllCharactersDrawn | app/feed/create-scenes/sketch/page.tsx:205 | holds exactly when there is data and the lookup of every character name is truthy: a non-empty own drawing, or an inherited `Object.prototype` member when the name has no own entry |
| Sketch.SketchPage.CanvasOnSwitch | app/feed/create-scenes/sketch/page.tsx:52-91 | with a canvas and a current character, the canvas shows the name's own saved drawing if it is non-empty and is cleared if the lookup is falsy; an inherited member, and no canvas or character, leave it as it was |
| Sketch.SketchPage.Images | app/feed/create-scenes/sketch/page.tsx:331 | the images handed on hold one drawing per saved name |
| Sketch.SketchPage.HandOffHasOneImagePerName | app/feed/create-scenes/sketch/page.tsx:303-331 | once every character counts as drawn, there is one image per distinct character name except the inherited names never saved, so exactly one per name when no name is an `Object.prototype` member |
| GeneratePage.InitialScript | app/feed/create-scenes/generate/page.tsx:63-71 | with scenes the script is their descriptions joined by ". "; without scenes it is the stored `script` when truthy, else it stays as it was |
| GeneratePage.ScriptAppendsScene | app/feed/create-scenes/generate/page.tsx:63-67 | one more scene adds ". " and its description to the end of the script, whatever the descriptions hold |
| GeneratePage.ScriptListsScenes | app/feed/create-scenes/generate/page.tsx:63-67 | with scenes whose descriptions do not contain ". ", splitting the script on ". " gives the descriptions back in order |
| GeneratePage.OneSceneIsItsDescription | app/feed/create-scenes/generate/page.tsx:63-67 | a single scene's description is the script |
| GeneratePage.Caught | app/feed/create-scenes/generate/page.tsx:114 | `err.message \|\| 'An error occurred'`: the message when it is non-empty, otherwise exactly "An error occurred" |
| GeneratePage.Settle | app/feed/create-scenes/generate/page.tsx:91-114 | a rejected fetch or an unreadable body shows `err.message \|\| 'An error occurred'` of the thrown error; every error shows nothing else; a non-ok reply shows its `error` or "Failed to generate anime"; an ok reply shows its scenes, media, scripts and truthy audio, missing arrays as empty |
| GeneratePage.Delivered | app/api/generate-anime/route.ts:117-129 | the route's reply as the page reads it: a failure keeps its status and carries its message as `error`; a success has an ok status, no `error`, and carries the scenes, media, scripts and audio |
| GeneratePage.PageShowsRouteReply | app/feed/create-scenes/generate/page.tsx:103-112 | the generation route's failure message reaches the page unchanged, and its generated fields are what the page shows |
| GeneratePage.DisplayUrl | app/feed/create-scenes/generate/page.tsx:229-230 | the URL shown is `video_link`, else `image_link`, else `url`; an entry with none of them is skipped |
| GeneratePage.KeptEntriesAreShown | app/feed/create-scenes/generate/page.tsx:229-230 | every entry the route keeps in its flat list is shown on the page, a video by the same link |
| GeneratePage.ImagePreviewDiffersFromFlatUrl | app/feed/create-scenes/generate/page.tsx:229 | every image without a `video_link` but with both `image_link` and `url` is shown by `image_link`, while the route keeps it in its flat list with its `url` |
| GeneratePage.BlankTrimsToEmpty | app/feed/create-scenes/generate/page.tsx:82 | a script trims to the empty string exactly when every character of it is white space |
| GeneratePage.GeneratePage.constructor | app/feed/create-scenes/generate/page.tsx:45-52 | the page starts with no data, not loading, nothing shown, no error and an empty script |
| GeneratePage.GeneratePage.Mount | app/feed/create-scenes/generate/page.tsx:54-79 | no stored data sets "No character data found…"; a parse failure sets "Failed to load character data…"; otherwise the data is loaded and the script built as `InitialScript` says |
| GeneratePage.GeneratePage.CanGenerate | app/feed/create-scenes/generate/page.tsx:187 | the button is enabled exactly when not loading and the script holds a non-white-space character |
| GeneratePage.GeneratePage.Begin | app/feed/create-scenes/generate/page.tsx:84-89 | before the request, loading is set and the error, scenes, media, audio and scripts are cleared |
| GeneratePage.GeneratePage.Complete | app/feed/create-scenes/generate/page.tsx:103-117 | once the request is answered the page shows `Settle` of the answer, and loading is false |
| GeneratePage.GeneratePage.HandleGenerate | app/feed/create-scenes/generate/page.tsx:81-117 | a blank script changes nothing and sends nothing; otherwise the script is posted, the page ends as `Settle` of the answer, and loading is false again |

## Left out

- Network calls: the provider `fetch` and the language-model call are parameters. So are reading the request body and the response text. Headers other than the content type are not modelled.
- `JSON.parse` is an abstract function to `Result`. No JSON grammar is modelled, and neither is `JSON.stringify` of the replies.
- The prompt text sent to the language model is not modelled. The model keeps only the model name, the token limit and the script the request carries.
- React scheduling is not modelled: state updates apply at once, in program order. So are the ref that mirrors `savedDrawings`, session storage and URL encoding. The value read from session storage, or from the `data` URL parameter, is an input.
- Canvas drawing is not modelled: strokes, coordinate scaling, line width, `toDataURL` and image loading. A drawing is an opaque string, and "no canvas" is `None`.
- Rendering is not modelled; only the values the page shows are modelled.
- Authentication, the landing and feed pages, the layout, and the script-entry page are not part of this model.
- Sketch.SketchPage.Images: the list follows the order in which names were first saved. JavaScript's `Object.values` puts array-index-like keys (such as `"0"`) first in ascending order. The model does not capture that order.
- GeneratePage.GeneratePage.Mount: stored data that parses to `null` would make reading `scenes` throw. It would then set the load error after the data was set. The parse result is modelled as an object.
- GeneratePage.Settle: a `null` JSON reply body would make reading its fields throw. The reply body is modelled as an object.
- GeneratePage.GeneratePage.HandleGenerate: `loading` is not checked by the handler itself, only by the button. Overlapping requests are not modelled.
- The upstream `statusText` and the provider's JSON fields are treated as strings. The model does not follow JavaScript's coercion of non-string values in template literals or `||` chains.
- Text.Take: counts Unicode scalar values, while JavaScript's `substring` counts UTF-16 code units. For text outside the Basic Multilingual Plane the source quotes fewer characters than the model and may cut a surrogate pair in half; the previews in `GenerateAnime.NonJsonMessage`, `GenerateAnime.JsonErrorBody` and `GenerateAnime.NonJsonErrorBody` inherit this.
- GenerateAnime.FlattenedUpTo: the length is bounded by the total number of media entries, not equal to it, because the code keeps only qualifying entries.
- No claim is made that `images[i]` belongs to `characters[i]` on the generate page. The images come from a name-keyed map, and the code does not align them with character positions.
