/**
 * The validation rules of the `post` document type, as a predicate over `Post` records.
 *
 * Sanity applies a rule other than `required` only to a value that is present, so
 * `min(1)` on `tags` constrains a tag list that exists and says nothing of a missing one.
 * Body elements are text blocks or images by construction of `Block`.
 */
module PostSchema {
  import opened Wrappers
  import opened Documents

  /** The allowed values of `format`, in the order the schema lists them. */
  const FORMATS: seq<string> := ["news", "article", "review", "interview"]
  /** The allowed values of `channel`. */
  const CHANNELS: seq<string> := ["system_log", "distorcao", "pixel_trash"]
  const INITIAL_FORMAT := "news"
  const INITIAL_CHANNEL := "distorcao"
  /** `maxLength` of the slug generator, whose source field is `title`. */
  const SLUG_MAX_LENGTH := 96

  predicate TitleOk(p: Post) { p.title.Some? }
  predicate SlugOk(p: Post) { p.slug.Some? }
  predicate FormatOk(p: Post) { p.format.Some? && p.format.value in FORMATS }
  predicate ChannelOk(p: Post) { p.channel.Some? && p.channel.value in CHANNELS }
  predicate TagsOk(p: Post) { p.tags.Some? ==> |p.tags.value| >= 1 }

  /** A post that passes every validation rule of the schema. */
  predicate ValidPost(p: Post)
  {
    TitleOk(p) && SlugOk(p) && FormatOk(p) && ChannelOk(p) && TagsOk(p)
  }

  /** The document the Studio opens for "new post": only the two initial values are set. */
  function InitialPost(): (p: Post)
    ensures FormatOk(p) && ChannelOk(p) && TagsOk(p)
    ensures !ValidPost(p)
  {
    Post(None, None, Some(INITIAL_FORMAT), Some(INITIAL_CHANNEL), None, None, None, [])
  }

  /**
   * A new post, with the initial format and channel kept, is valid exactly when the
   * editor has supplied both a title and a slug.
   */
  lemma InitialPostCompletion(title: Option<string>, slug: Option<string>)
    ensures ValidPost(InitialPost().(title := title, slug := slug)) <==> title.Some? && slug.Some?
  {
  }

  /** Setting an allowed channel is the only thing a post can lack once the other rules hold. */
  lemma ValidExceptChannel(p: Post, c: string)
    requires TitleOk(p) && SlugOk(p) && FormatOk(p) && TagsOk(p)
    ensures ValidPost(p.(channel := Some(c))) <==> c in CHANNELS
    ensures !ValidPost(p.(channel := None))
  {
  }
}
