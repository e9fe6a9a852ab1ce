/** The scene and media records of the text-to-video provider's reply, and
    the flat media item the generation route hands to the browser. Every
    field the source reads with `?.` or `|| default` is an `Option`. */
module Media {
  import opened Wrappers

  datatype Resource = Resource(url: Option<string>, videoLink: Option<string>, imageLink: Option<string>)

  /** One entry of a scene's `media` array; `kind` is its `type` field. */
  datatype ApiMedia = ApiMedia(kind: Option<string>, resource: Option<Resource>)

  datatype ApiScene = ApiScene(text: Option<string>, media: Option<seq<ApiMedia>>)

  datatype MediaKind = Image | Video

  datatype MediaItem = MediaItem(kind: MediaKind, url: string, sceneText: string, sceneIndex: nat)

  /** `xs || []` for an optional array. */
  function OrEmpty<T>(xs: Option<seq<T>>): seq<T> {
    if xs.Some? then xs.value else []
  }
}
