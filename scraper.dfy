/**
 * The content scraper: for each configured feed, in list order, take the feed's three
 * newest items, ask the classification backend about each one, and save every result it
 * does not mark `skip` as an automatic draft `post`.
 *
 * The feed reader, the chat-completion backend, `JSON.parse`, the `slugify` library,
 * `uuidv4` and the clock are not part of this model: they are the fields of `Env`.
 * The per-item values (uuid, timestamp, and whether the store call gets through) are
 * drawn by feed index and item index.
 */
module Scraper {
  import opened Wrappers
  import opened Documents
  import opened PostSchema

  /** The feed endpoints, in the order they are read. */
  const FEEDS: seq<string> := [
    "https://thequietus.com/feed",
    "https://www.dazeddigital.com/feed",
    "https://pitchfork.com/feed/feed-news/rss",
    "https://stereogum.com/feed",
    "https://consequence.net/feed/"
  ]

  /** Items read per feed, newest first. */
  const ITEMS_PER_FEED := 3

  const DRAFT_PREFIX := "drafts.auto-"
  const PROVENANCE_PREFIX := "Fonte original: "

  /** An item of a parsed feed. */
  datatype FeedItem = FeedItem(
    title: Option<string>,
    link: Option<string>,
    contentSnippet: Option<string>,
    content: Option<string>)

  /** What the chat-completion call yields: a thrown error, or the first choice's content. */
  datatype Reply = CallFailed | Completion(content: Option<string>)

  /**
   * The fields `saveDraft` reads from a parsed classification. A truthy JSON value that
   * is not an object reads as an object without fields.
   */
  datatype Classification = Classification(
    skip: bool,                 // truthiness of `skip`
    title: Option<string>,
    body: Option<string>,
    tags: Option<seq<string>>,
    format: Option<string>)

  /** A parsed JSON value as `main` tests it: falsy, or truthy with its fields. */
  datatype Json = Falsy | Object(data: Classification)

  /** The values drawn for one item: its uuid, its timestamp, whether `create` gets through. */
  datatype Draw = Draw(uuid: string, now: Timestamp, storeUp: bool)

  datatype Env = Env(
    fetch: string -> Option<seq<FeedItem>>,   // fetch and parse a feed; None when either throws
    complete: string -> Reply,                // the backend, under the fixed system prompt
    parse: string -> Option<Json>,            // JSON.parse; None when it throws
    slugify: Option<string> -> Option<string>, // the library; None when it throws
    draw: (nat, nat) -> Draw)

  // ---------------------------------------------------------------------------
  // fetchFeed and processWithAI
  // ---------------------------------------------------------------------------

  /** `fetchFeed`: the first three items of the feed, or none when fetching or parsing fails. */
  function FetchFeed(fetch: string -> Option<seq<FeedItem>>, url: string): (items: seq<FeedItem>)
    ensures |items| <= ITEMS_PER_FEED
    ensures fetch(url).None? ==> items == []
    ensures fetch(url).Some? ==>
              items <= fetch(url).value &&
              |items| == (if |fetch(url).value| < ITEMS_PER_FEED then |fetch(url).value| else ITEMS_PER_FEED)
  {
    match fetch(url)
    case None => []
    case Some(all) => if |all| <= ITEMS_PER_FEED then all else all[..ITEMS_PER_FEED]
  }

  /** The user message sent for an item. */
  function UserPrompt(item: FeedItem): string
  {
    "Analise este conteúdo:\nTítulo: " + Show(item.title)
    + "\nConteúdo: " + Show(OptionOr(item.contentSnippet, item.content))
    + "\nLink: " + Show(item.link)
  }

  /**
   * `processWithAI`: null when the call throws, when the reply has no content, or when
   * the content is not JSON; otherwise the parsed value.
   */
  function ProcessWithAI(complete: string -> Reply, parse: string -> Option<Json>, item: FeedItem): (r: Option<Json>)
    ensures complete(UserPrompt(item)).CallFailed? ==> r.None?
    ensures complete(UserPrompt(item)).Completion? && !Truthy(complete(UserPrompt(item)).content) ==> r.None?
    ensures r.Some? ==> exists c :: complete(UserPrompt(item)) == Completion(Some(c)) && c != "" && parse(c) == r
    ensures complete(UserPrompt(item)).Completion? && Truthy(complete(UserPrompt(item)).content) ==>
              r == parse(complete(UserPrompt(item)).content.value)
  {
    match complete(UserPrompt(item))
    case CallFailed => None
    case Completion(content) =>
      if Truthy(content) then parse(content.value) else None
  }

  // ---------------------------------------------------------------------------
  // saveDraft
  // ---------------------------------------------------------------------------

  function DraftId(uuid: string): (id: string)
    ensures StartsWith(id, DRAFT_PREFIX)
  {
    DRAFT_PREFIX + uuid
  }

  /** The draft document built from a classification, the item's link and a computed slug. */
  function DraftDoc(data: Classification, link: string, slug: string, now: Timestamp): (p: Post)
    ensures p.title == data.title && p.format == data.format && p.tags == data.tags
    ensures p.slug == Some(slug) && p.publishedAt == Some(now)
    ensures p.body == [TextBlock(data.body), TextBlock(Some(PROVENANCE_PREFIX + link))]
    ensures p.channel.None? && p.excerpt.None?
  {
    Post(
      title := data.title,
      slug := Some(slug),
      format := data.format,
      channel := None,
      tags := data.tags,
      publishedAt := Some(now),
      excerpt := None,
      body := [TextBlock(data.body), TextBlock(Some(PROVENANCE_PREFIX + link))])
  }

  /** What `saveDraft` did: returned early, saved, swallowed a create error, or threw. */
  datatype SaveOutcome = Skipped | Saved | CreateFailed | Threw

  datatype SaveStep = SaveStep(outcome: SaveOutcome, docs: map<string, Doc>)

  /** A document of the shape the scraper writes. */
  predicate IsAutoDraft(id: string, d: Doc)
  {
    && StartsWith(id, DRAFT_PREFIX)
    && d.PostDoc?
    && |d.post.body| == 2
    && d.post.body[1].TextBlock? && d.post.body[1].text.Some?
    && StartsWith(d.post.body[1].text.value, PROVENANCE_PREFIX)
    && d.post.slug.Some?
    && d.post.channel.None?
  }

  /**
   * The store effect of `saveDraft(data, link)`. The slug is computed outside the `try`,
   * so a throwing `slugify` escapes; a failed `create` is caught.
   */
  function SaveDraftEffect(docs: map<string, Doc>, data: Classification, link: string,
                           slugify: Option<string> -> Option<string>, draw: Draw): (s: SaveStep)
    ensures s.outcome == Skipped <==> data.skip
    ensures s.outcome == Threw <==> !data.skip && slugify(data.title).None?
    ensures s.outcome == Saved <==>
              !data.skip && slugify(data.title).Some? && draw.storeUp && DraftId(draw.uuid) !in docs
    ensures s.outcome != Saved ==> s.docs == docs
    ensures s.outcome == Saved ==>
              s.docs.Keys == docs.Keys + {DraftId(draw.uuid)} &&
              s.docs[DraftId(draw.uuid)] == PostDoc(DraftDoc(data, link, slugify(data.title).value, draw.now)) &&
              IsAutoDraft(DraftId(draw.uuid), s.docs[DraftId(draw.uuid)]) &&
              forall k :: k in docs ==> s.docs[k] == docs[k]
  {
    if data.skip then SaveStep(Skipped, docs)
    else match slugify(data.title)
      case None => SaveStep(Threw, docs)
      case Some(slug) =>
        var id := DraftId(draw.uuid);
        if draw.storeUp && id !in docs then
          var doc := PostDoc(DraftDoc(data, link, slug, draw.now));
          assert StartsWith(doc.post.body[1].text.value, PROVENANCE_PREFIX) by {
            assert (PROVENANCE_PREFIX + link)[..|PROVENANCE_PREFIX|] == PROVENANCE_PREFIX;
          }
          SaveStep(Saved, docs[id := doc])
        else SaveStep(CreateFailed, docs)
  }

  /** `saveDraft`. */
  method SaveDraft(store: Store, data: Classification, link: string,
                   slugify: Option<string> -> Option<string>, draw: Draw) returns (o: SaveOutcome)
    modifies store
    ensures SaveStep(o, store.docs) == SaveDraftEffect(old(store.docs), data, link, slugify, draw)
  {
    if data.skip {
      return Skipped;
    }
    var slug := slugify(data.title);
    if slug.None? {
      return Threw;
    }
    var draftId := DraftId(draw.uuid);
    var doc := DraftDoc(data, link, slug.value, draw.now);
    var ok := store.Create(draftId, PostDoc(doc), draw.storeUp);
    o := if ok then Saved else CreateFailed;
  }

  // ---------------------------------------------------------------------------
  // main
  // ---------------------------------------------------------------------------

  /** Where a run stands: the store, and whether the run is still going (false once something threw). */
  datatype RunState = RunState(docs: map<string, Doc>, finished: bool)

  /** The item link passed to `saveDraft`: `item.link || ''`. */
  function LinkOf(item: FeedItem): (l: string)
    ensures Truthy(item.link) ==> l == item.link.value
    ensures !Truthy(item.link) ==> l == ""
  {
    StringOr(item.link, "")
  }

  /** Processing items `j..` of feed number `f`, starting from `docs`. */
  function ItemsFrom(env: Env, f: nat, items: seq<FeedItem>, j: nat, docs: map<string, Doc>): RunState
    decreases |items| - j
  {
    if j >= |items| then RunState(docs, true)
    else match ProcessWithAI(env.complete, env.parse, items[j])
      case Some(Object(data)) =>
        var s := SaveDraftEffect(docs, data, LinkOf(items[j]), env.slugify, env.draw(f, j));
        if s.outcome == Threw then RunState(s.docs, false)
        else ItemsFrom(env, f, items, j + 1, s.docs)
      case _ => ItemsFrom(env, f, items, j + 1, docs)
  }

  /** Processing feeds `f..` of `FEEDS`, starting from `docs`. */
  function FeedsFrom(env: Env, f: nat, docs: map<string, Doc>): RunState
    decreases |FEEDS| - f
  {
    if f >= |FEEDS| then RunState(docs, true)
    else
      var r := ItemsFrom(env, f, FetchFeed(env.fetch, FEEDS[f]), 0, docs);
      if !r.finished then r else FeedsFrom(env, f + 1, r.docs)
  }

  /** `main`: the nested loop over feeds and their items. Returns false when the run threw. */
  method Run(store: Store, env: Env) returns (finished: bool)
    modifies store
    ensures RunState(store.docs, finished) == FeedsFrom(env, 0, old(store.docs))
  {
    var f := 0;
    while f < |FEEDS|
      invariant 0 <= f <= |FEEDS|
      invariant FeedsFrom(env, f, store.docs) == FeedsFrom(env, 0, old(store.docs))
    {
      var items := FetchFeed(env.fetch, FEEDS[f]);
      ghost var atFeedStart := store.docs;
      var j := 0;
      while j < |items|
        invariant 0 <= j <= |items|
        invariant ItemsFrom(env, f, items, j, store.docs) == ItemsFrom(env, f, items, 0, atFeedStart)
      {
        var aiData := ProcessWithAI(env.complete, env.parse, items[j]);
        if aiData.Some? && aiData.value.Object? {
          var o := SaveDraft(store, aiData.value.data, LinkOf(items[j]), env.slugify, env.draw(f, j));
          if o == Threw {
            return false;
          }
        }
        j := j + 1;
      }
      f := f + 1;
    }
    finished := true;
  }

  // ---------------------------------------------------------------------------
  // What a run does to the store
  // ---------------------------------------------------------------------------

  /** `after` keeps every document of `before` and adds at most `n` documents, all automatic drafts. */
  predicate AddsDrafts(before: map<string, Doc>, after: map<string, Doc>, n: nat)
  {
    && (forall k :: k in before ==> k in after && after[k] == before[k])
    && (forall k :: k in after && k !in before ==> IsAutoDraft(k, after[k]))
    && |after| <= |before| + n
  }

  lemma AddsDraftsTrans(a: map<string, Doc>, b: map<string, Doc>, c: map<string, Doc>, n: nat, m: nat)
    requires AddsDrafts(a, b, n) && AddsDrafts(b, c, m)
    ensures AddsDrafts(a, c, n + m)
  {
  }

  lemma AddsDraftsWeaken(a: map<string, Doc>, b: map<string, Doc>, n: nat, m: nat)
    requires AddsDrafts(a, b, n) && n <= m
    ensures AddsDrafts(a, b, m)
  {
  }

  /** One `saveDraft` adds at most one document, an automatic draft, and changes nothing else. */
  lemma SaveAddsDraft(docs: map<string, Doc>, data: Classification, link: string,
                      slugify: Option<string> -> Option<string>, draw: Draw)
    ensures AddsDrafts(docs, SaveDraftEffect(docs, data, link, slugify, draw).docs, 1)
  {
  }

  /** One step of a feed's inner loop. */
  lemma ItemsFromStep(env: Env, f: nat, items: seq<FeedItem>, j: nat, docs: map<string, Doc>)
    requires j < |items|
    ensures var ai := ProcessWithAI(env.complete, env.parse, items[j]);
      && (ai.Some? && ai.value.Object? ==>
            var s := SaveDraftEffect(docs, ai.value.data, LinkOf(items[j]), env.slugify, env.draw(f, j));
            ItemsFrom(env, f, items, j, docs) ==
              if s.outcome == Threw then RunState(s.docs, false) else ItemsFrom(env, f, items, j + 1, s.docs))
      && (!(ai.Some? && ai.value.Object?) ==> ItemsFrom(env, f, items, j, docs) == ItemsFrom(env, f, items, j + 1, docs))
  {
  }

  lemma {:induction false} ItemsAddDrafts(env: Env, f: nat, items: seq<FeedItem>, j: nat, docs: map<string, Doc>)
    requires j <= |items|
    ensures AddsDrafts(docs, ItemsFrom(env, f, items, j, docs).docs, |items| - j)
    decreases |items| - j
  {
    if j < |items| {
      var ai := ProcessWithAI(env.complete, env.parse, items[j]);
      var n := |items| - (j + 1);
      ItemsFromStep(env, f, items, j, docs);
      if ai.Some? && ai.value.Object? {
        var s := SaveDraftEffect(docs, ai.value.data, LinkOf(items[j]), env.slugify, env.draw(f, j));
        SaveAddsDraft(docs, ai.value.data, LinkOf(items[j]), env.slugify, env.draw(f, j));
        if s.outcome == Threw {
          AddsDraftsWeaken(docs, s.docs, 1, 1 + n);
        } else {
          var rest := ItemsFrom(env, f, items, j + 1, s.docs);
          ItemsAddDrafts(env, f, items, j + 1, s.docs);
          AddsDraftsTrans(docs, s.docs, rest.docs, 1, n);
        }
      } else {
        ItemsAddDrafts(env, f, items, j + 1, docs);
        AddsDraftsWeaken(docs, ItemsFrom(env, f, items, j + 1, docs).docs, n, n + 1);
      }
    }
  }

  /**
   * A run only adds documents, every one of them an automatic draft post, and adds at most
   * three per feed; nothing already in the store changes, whether or not the run completes.
   */
  lemma {:induction false} RunAddsOnlyDrafts(env: Env, f: nat, docs: map<string, Doc>)
    requires f <= |FEEDS|
    ensures AddsDrafts(docs, FeedsFrom(env, f, docs).docs, ITEMS_PER_FEED * (|FEEDS| - f))
    decreases |FEEDS| - f
  {
    if f < |FEEDS| {
      var items := FetchFeed(env.fetch, FEEDS[f]);
      var r := ItemsFrom(env, f, items, 0, docs);
      var later := ITEMS_PER_FEED * (|FEEDS| - (f + 1));
      assert ITEMS_PER_FEED * (|FEEDS| - f) == ITEMS_PER_FEED + later;
      ItemsAddDrafts(env, f, items, 0, docs);
      AddsDraftsWeaken(docs, r.docs, |items|, ITEMS_PER_FEED + later);
      if r.finished {
        var rest := FeedsFrom(env, f + 1, r.docs);
        assert FeedsFrom(env, f, docs) == rest;
        RunAddsOnlyDrafts(env, f + 1, r.docs);
        AddsDraftsTrans(docs, r.docs, rest.docs, |items|, later);
        AddsDraftsWeaken(docs, rest.docs, |items| + later, ITEMS_PER_FEED + later);
      } else {
        assert FeedsFrom(env, f, docs) == r;
      }
    }
  }

  /** The item yields a result that `saveDraft` does not skip. */
  predicate Approved(env: Env, item: FeedItem)
  {
    var r := ProcessWithAI(env.complete, env.parse, item);
    r.Some? && r.value.Object? && !r.value.data.skip
  }

  lemma {:induction false} ItemsWithoutApproval(env: Env, f: nat, items: seq<FeedItem>, j: nat, docs: map<string, Doc>)
    requires forall i :: j <= i < |items| ==> !Approved(env, items[i])
    ensures ItemsFrom(env, f, items, j, docs) == RunState(docs, true)
    decreases |items| - j
  {
    if j < |items| {
      ItemsWithoutApproval(env, f, items, j + 1, docs);
    }
  }

  /** No item that feed number `g` yields is approved. */
  predicate FeedUnapproved(env: Env, g: nat)
    requires g < |FEEDS|
  {
    var items := FetchFeed(env.fetch, FEEDS[g]);
    forall i :: 0 <= i < |items| ==> !Approved(env, items[i])
  }

  /**
   * When the classifier approves none of the items a run reads (the feed fails, the
   * result is null, or it is marked `skip`), the run completes and leaves the store
   * exactly as it was.
   */
  lemma {:induction false} NothingApprovedNothingSaved(env: Env, f: nat, docs: map<string, Doc>)
    requires forall g :: f <= g < |FEEDS| ==> FeedUnapproved(env, g)
    ensures FeedsFrom(env, f, docs) == RunState(docs, true)
    decreases |FEEDS| - f
  {
    if f < |FEEDS| {
      assert FeedUnapproved(env, f);
      ItemsWithoutApproval(env, f, FetchFeed(env.fetch, FEEDS[f]), 0, docs);
      NothingApprovedNothingSaved(env, f + 1, docs);
    }
  }

  /** The item is approved, and `slugify` throws on the title its classification gave. */
  predicate SlugifyThrows(env: Env, item: FeedItem)
  {
    Approved(env, item) && env.slugify(ProcessWithAI(env.complete, env.parse, item).value.data.title).None?
  }

  /**
   * Items `j..` of a feed are all processed exactly when none of them is an approved item
   * whose title `slugify` throws on: failed classifications and failed creates never stop
   * the loop.
   */
  lemma {:induction false} ItemsComplete(env: Env, f: nat, items: seq<FeedItem>, j: nat, docs: map<string, Doc>)
    ensures ItemsFrom(env, f, items, j, docs).finished <==>
              forall i :: j <= i < |items| ==> !SlugifyThrows(env, items[i])
    decreases |items| - j
  {
    if j < |items| {
      match ProcessWithAI(env.complete, env.parse, items[j])
      case Some(Object(data)) =>
        var s := SaveDraftEffect(docs, data, LinkOf(items[j]), env.slugify, env.draw(f, j));
        if s.outcome == Threw {
          assert SlugifyThrows(env, items[j]);
        } else {
          assert !SlugifyThrows(env, items[j]);
          ItemsComplete(env, f, items, j + 1, s.docs);
        }
      case _ =>
        assert !SlugifyThrows(env, items[j]);
        ItemsComplete(env, f, items, j + 1, docs);
    }
  }

  /** No approved item of feed number `g` makes `slugify` throw. */
  predicate FeedCompletes(env: Env, g: nat)
    requires g < |FEEDS|
  {
    var items := FetchFeed(env.fetch, FEEDS[g]);
    forall i :: 0 <= i < |items| ==> !SlugifyThrows(env, items[i])
  }

  /**
   * Failed feeds, failed classifications and failed creates never stop a run: it
   * completes exactly when `slugify` throws on the title of none of the approved items
   * it reads.
   */
  lemma {:induction false} RunCompletes(env: Env, f: nat, docs: map<string, Doc>)
    ensures FeedsFrom(env, f, docs).finished <==> forall g :: f <= g < |FEEDS| ==> FeedCompletes(env, g)
    decreases |FEEDS| - f
  {
    if f < |FEEDS| {
      var r := ItemsFrom(env, f, FetchFeed(env.fetch, FEEDS[f]), 0, docs);
      ItemsComplete(env, f, FetchFeed(env.fetch, FEEDS[f]), 0, docs);
      assert r.finished <==> FeedCompletes(env, f);
      if r.finished {
        RunCompletes(env, f + 1, r.docs);
      }
    }
  }

  /** An approved item's classification carries a title. */
  predicate TitledIfApproved(env: Env, item: FeedItem)
  {
    Approved(env, item) ==> ProcessWithAI(env.complete, env.parse, item).value.data.title.Some?
  }

  /**
   * With a `slugify` that succeeds on every present title, a run in which every approved
   * item carries a title completes.
   */
  lemma TitledRunCompletes(env: Env, docs: map<string, Doc>)
    requires forall t :: env.slugify(Some(t)).Some?
    requires forall g, i :: 0 <= g < |FEEDS| && 0 <= i < |FetchFeed(env.fetch, FEEDS[g])| ==>
               TitledIfApproved(env, FetchFeed(env.fetch, FEEDS[g])[i])
    ensures FeedsFrom(env, 0, docs).finished
  {
    RunCompletes(env, 0, docs);
  }

  /**
   * An automatic draft passes the post rules, once an allowed channel is chosen, exactly
   * when the classification gave a title, an allowed format and no empty tag list.
   */
  lemma DraftValidity(data: Classification, link: string, slug: string, now: Timestamp, c: string)
    ensures !ValidPost(DraftDoc(data, link, slug, now))
    ensures ValidPost(DraftDoc(data, link, slug, now).(channel := Some(c))) <==>
              && c in CHANNELS
              && data.title.Some?
              && data.format.Some? && data.format.value in FORMATS
              && (data.tags.None? || |data.tags.value| >= 1)
  {
  }
}
