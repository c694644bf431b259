/**
 * The two Studio document actions on curation-queue entries: "promote to news" and
 * "promote to post". Each is offered only on an existing `queue` document; running it
 * builds a new `newsItem` or draft `post` from the entry, creates it, and only after the
 * create has completed deletes the entry.
 *
 * The Studio supplies the action's props (the document id, its schema type, and its
 * draft and published versions); the fresh uuid, the clock and whether each store call
 * gets through are parameters. Router navigation after the delete is not modelled.
 */
module PromoteActions {
  import opened Wrappers
  import opened Documents
  import opened PostSchema

  // ---------------------------------------------------------------------------
  // Slug rule: lowercase, each run of characters outside [a-z0-9] becomes one '-',
  // cut to 96 characters; "novo-post" when there is no title.
  // ---------------------------------------------------------------------------

  const DEFAULT_SLUG := "novo-post"

  /** ASCII lowercasing; every other character is left as it is. */
  function LowerChar(c: char): char
  {
    if 'A' <= c <= 'Z' then (c as int + 32) as char else c
  }

  function ToLower(s: string): string
  {
    seq(|s|, i requires 0 <= i < |s| => LowerChar(s[i]))
  }

  /** The characters the pattern `[^a-z0-9]` does not match. */
  predicate IsSlugChar(c: char)
  {
    'a' <= c <= 'z' || '0' <= c <= '9'
  }

  /** Only `a-z`, `0-9` and `-`. */
  predicate SlugAlphabet(s: string)
  {
    forall i :: 0 <= i < |s| ==> IsSlugChar(s[i]) || s[i] == '-'
  }

  /** No two consecutive dashes. */
  predicate NoDoubleDash(s: string)
  {
    forall i :: 0 < i < |s| ==> s[i - 1] != '-' || s[i] != '-'
  }

  /** The letters and digits of `s`, in order. */
  function Alnum(s: string): string
  {
    if s == [] then [] else (if IsSlugChar(s[0]) then [s[0]] else []) + Alnum(s[1..])
  }

  /** Drops the rest of a run of non-matching characters. */
  function SkipRun(s: string): (r: string)
    ensures |r| <= |s|
    ensures r == [] || IsSlugChar(r[0])
    ensures Alnum(r) == Alnum(s)
  {
    if s == [] || IsSlugChar(s[0]) then s else SkipRun(s[1..])
  }

  /** `s.replace(/[^a-z0-9]+/g, '-')`. */
  function CollapseRuns(s: string): string
    decreases |s|
  {
    if s == [] then []
    else if IsSlugChar(s[0]) then [s[0]] + CollapseRuns(s[1..])
    else "-" + CollapseRuns(SkipRun(s[1..]))
  }

  /** The slug base computed from an optional queue title. */
  function SlugBase(title: Option<string>): (r: string)
    ensures r != []
    ensures |r| <= SLUG_MAX_LENGTH
    ensures SlugAlphabet(r) && NoDoubleDash(r)
    ensures !Truthy(title) ==> r == DEFAULT_SLUG
    ensures Truthy(title) ==> Alnum(r) <= Alnum(ToLower(title.value))
    ensures Truthy(title) && |title.value| <= SLUG_MAX_LENGTH ==> Alnum(r) == Alnum(ToLower(title.value))
    ensures Truthy(title) ==> |r| == SLUG_MAX_LENGTH || Alnum(r) == Alnum(ToLower(title.value))
    ensures Truthy(title) ==> r == Truncate(SquashDashes(Dashify(ToLower(title.value))), SLUG_MAX_LENGTH)
  {
    if Truthy(title) then
      var full := CollapseRuns(ToLower(title.value));
      var n := if |full| <= SLUG_MAX_LENGTH then |full| else SLUG_MAX_LENGTH;
      CollapseShape(ToLower(title.value));
      CollapseKeepsAlnum(ToLower(title.value));
      CollapseIsSquashedDashify(ToLower(title.value));
      AlnumOfPrefix(full, n);
      assert full[..n] == full || n < |full|;
      full[..n]
    else
      DefaultSlugShape();
      DEFAULT_SLUG
  }

  /** `s.slice(0, n)`. */
  function Truncate(s: string, n: nat): (r: string)
    ensures |r| == if |s| <= n then |s| else n
    ensures r <= s
  {
    if |s| <= n then s else s[..n]
  }

  /** Every character outside `[a-z0-9]` replaced by `-`, one for one. */
  function Dashify(s: string): (r: string)
    ensures |r| == |s|
    ensures forall i :: 0 <= i < |s| ==> r[i] == if IsSlugChar(s[i]) then s[i] else '-'
  {
    seq(|s|, i requires 0 <= i < |s| => if IsSlugChar(s[i]) then s[i] else '-')
  }

  /** Drops each `-` that follows a `-`. */
  function SquashDashes(s: string): string
    decreases |s|
  {
    if |s| <= 1 then s
    else if s[0] == '-' && s[1] == '-' then SquashDashes(s[1..])
    else [s[0]] + SquashDashes(s[1..])
  }

  /**
   * Replacing each maximal run of characters outside `[a-z0-9]` by one `-` is the same as
   * replacing each such character by `-` and then dropping every `-` that follows a `-`.
   */
  lemma {:induction false} CollapseIsSquashedDashify(s: string)
    ensures CollapseRuns(s) == SquashDashes(Dashify(s))
    decreases |s|, 0
  {
    if s != [] {
      assert Dashify(s) == [Dashify(s)[0]] + Dashify(s[1..]);
      if IsSlugChar(s[0]) {
        CollapseIsSquashedDashify(s[1..]);
        if |s| > 1 {
          assert SquashDashes(Dashify(s)) == [s[0]] + SquashDashes(Dashify(s[1..]));
        }
      } else {
        DashThenCollapse(s[1..]);
      }
    }
  }

  /** A `-` in front of a dashified string absorbs the run that string starts with. */
  lemma {:induction false} DashThenCollapse(t: string)
    ensures SquashDashes("-" + Dashify(t)) == "-" + CollapseRuns(SkipRun(t))
    decreases |t|, 1
  {
    if t == [] {
      assert "-" + Dashify(t) == "-";
    } else {
      assert Dashify(t) == [Dashify(t)[0]] + Dashify(t[1..]);
      var d := "-" + Dashify(t);
      assert d[1..] == Dashify(t);
      if IsSlugChar(t[0]) {
        CollapseIsSquashedDashify(t);
        assert SquashDashes(d) == "-" + SquashDashes(Dashify(t));
      } else {
        assert Dashify(t) == "-" + Dashify(t[1..]);
        assert SquashDashes(d) == SquashDashes(Dashify(t));
        DashThenCollapse(t[1..]);
      }
    }
  }

  lemma DefaultSlugShape()
    ensures SlugAlphabet(DEFAULT_SLUG) && NoDoubleDash(DEFAULT_SLUG)
  {
  }

  /** The collapsed string uses the slug alphabet, has no `--`, is no longer than its input,
      is empty only for empty input, and starts with the input's first character when that is kept. */
  lemma {:induction false} CollapseShape(s: string)
    ensures SlugAlphabet(CollapseRuns(s)) && NoDoubleDash(CollapseRuns(s))
    ensures |CollapseRuns(s)| <= |s|
    ensures s != [] ==> CollapseRuns(s) != []
    ensures s != [] && IsSlugChar(s[0]) ==> CollapseRuns(s)[0] == s[0]
    ensures s != [] && !IsSlugChar(s[0]) ==> CollapseRuns(s)[0] == '-'
    decreases |s|
  {
    if s == [] {
    } else if IsSlugChar(s[0]) {
      var rest := CollapseRuns(s[1..]);
      CollapseShape(s[1..]);
      assert CollapseRuns(s) == [s[0]] + rest;
    } else {
      var t := SkipRun(s[1..]);
      var rest := CollapseRuns(t);
      CollapseShape(t);
      assert CollapseRuns(s) == "-" + rest;
      assert rest == [] || rest[0] != '-';
    }
  }

  /** Collapsing runs keeps every letter and digit, in order. */
  lemma {:induction false} CollapseKeepsAlnum(s: string)
    ensures Alnum(CollapseRuns(s)) == Alnum(s)
    decreases |s|
  {
    if s == [] {
    } else if IsSlugChar(s[0]) {
      CollapseKeepsAlnum(s[1..]);
      assert ([s[0]] + CollapseRuns(s[1..]))[1..] == CollapseRuns(s[1..]);
    } else {
      var t := SkipRun(s[1..]);
      CollapseKeepsAlnum(t);
      assert ("-" + CollapseRuns(t))[1..] == CollapseRuns(t);
    }
  }

  /** The letters and digits of a prefix are a prefix of the letters and digits. */
  lemma {:induction false} AlnumOfPrefix(s: string, n: nat)
    requires n <= |s|
    ensures Alnum(s[..n]) <= Alnum(s)
    ensures n == |s| ==> Alnum(s[..n]) == Alnum(s)
  {
    if n == 0 {
    } else {
      AlnumOfPrefix(s[1..], n - 1);
      assert s[..n][1..] == s[1..][..n - 1];
      assert s[..n][0] == s[0];
    }
    if n == |s| {
      assert s[..n] == s;
    }
  }

  /** A string in the slug alphabet without `--` is left as it is by the collapse. */
  lemma {:induction false} CollapseFixedPoint(s: string)
    requires SlugAlphabet(s) && NoDoubleDash(s)
    ensures CollapseRuns(s) == s
    decreases |s|
  {
    if s != [] {
      assert SlugAlphabet(s[1..]) && NoDoubleDash(s[1..]) by {
        forall i | 0 < i < |s[1..]| ensures s[1..][i - 1] != '-' || s[1..][i] != '-' {
          assert s[i] != '-' || s[i + 1] != '-';
        }
      }
      CollapseFixedPoint(s[1..]);
      if !IsSlugChar(s[0]) {
        assert |s| > 1 ==> s[1] != '-';
        assert SkipRun(s[1..]) == s[1..];
      }
      assert s == [s[0]] + s[1..];
    }
  }

  /** Letters and digits in front of a string are kept as they are. */
  lemma {:induction false} CollapseKeepsWord(w: string, t: string)
    requires forall i :: 0 <= i < |w| ==> IsSlugChar(w[i])
    ensures CollapseRuns(w + t) == w + CollapseRuns(t)
    decreases |w|
  {
    if w != [] {
      assert (w + t)[0] == w[0] && (w + t)[1..] == w[1..] + t;
      CollapseKeepsWord(w[1..], t);
      assert CollapseRuns(w + t) == [w[0]] + (w[1..] + CollapseRuns(t));
      assert w == [w[0]] + w[1..];
    } else {
      assert w + t == t;
    }
  }

  lemma LowerExample()
    ensures ToLower("Hello World") == "hello world"
  {
  }

  lemma DashExample()
    ensures CollapseRuns(" world") == "-world"
  {
    CollapseKeepsWord("world", []);
    assert "world" + [] == "world";
    assert " world"[1..] == "world";
    assert SkipRun("world") == "world";
  }

  lemma CollapseExample()
    ensures CollapseRuns("hello world") == "hello-world"
  {
    DashExample();
    CollapseKeepsWord("hello", " world");
    assert "hello" + " world" == "hello world";
    assert "hello" + "-world" == "hello-world";
  }

  /** A space between two words becomes one dash. */
  lemma SlugExample()
    ensures SlugBase(Some("Hello World")) == "hello-world"
  {
    LowerExample();
    CollapseExample();
    assert "hello-world"[..11] == "hello-world";
  }

  /** Applying the slug rule to its own output gives the same slug. */
  lemma SlugIdempotent(title: Option<string>)
    ensures SlugBase(Some(SlugBase(title))) == SlugBase(title)
  {
    var r := SlugBase(title);
    assert ToLower(r) == r;
    CollapseFixedPoint(r);
    assert CollapseRuns(ToLower(r))[..|r|] == r;
  }

  // ---------------------------------------------------------------------------
  // The actions
  // ---------------------------------------------------------------------------

  const QUEUE_TYPE := "queue"
  const NEWS_LABEL := "Promover para NEWS 🗞️"
  const POST_LABEL := "Promover para POST 🚀"
  const DEFAULT_NEWS_TITLE := "Sem Título"
  const DEFAULT_POST_TITLE := "Novo Post da Fila"
  const DEFAULT_POST_TAGS: seq<string> := ["Underground"]

  /** What the Studio passes to a document action. */
  datatype Props = Props(id: string, docType: string, draft: Option<Queue>, published: Option<Queue>)

  /** The action as offered in the Studio's menu. */
  datatype Action = Action(menuLabel: string)

  /** `draft || published`: the version the action reads. */
  function Subject(props: Props): (q: Option<Queue>)
    ensures q.Some? <==> props.draft.Some? || props.published.Some?
    ensures props.draft.Some? ==> q == props.draft
    ensures props.draft.None? ==> q == props.published
  {
    if props.draft.Some? then props.draft else props.published
  }

  predicate Applicable(props: Props)
  {
    props.docType == QUEUE_TYPE && Subject(props).Some?
  }

  function PromoteToNewsAction(props: Props): (r: Option<Action>)
    ensures r.Some? <==> props.docType == QUEUE_TYPE && (props.draft.Some? || props.published.Some?)
    ensures r.Some? ==> r.value.menuLabel == NEWS_LABEL
  {
    if Applicable(props) then Some(Action(NEWS_LABEL)) else None
  }

  function PromoteToPostAction(props: Props): (r: Option<Action>)
    ensures r.Some? <==> props.docType == QUEUE_TYPE && (props.draft.Some? || props.published.Some?)
    ensures r.Some? ==> r.value.menuLabel == POST_LABEL
  {
    if Applicable(props) then Some(Action(POST_LABEL)) else None
  }

  function NewsId(uuid: string): string { "news." + uuid }
  function PostDraftId(uuid: string): string { "drafts." + uuid }

  /** The news item built from a queue entry. */
  function NewsRecord(q: Queue, now: Timestamp): (n: NewsItem)
    ensures n.title != ""
    ensures Truthy(q.title) ==> n.title == q.title.value
    ensures !Truthy(q.title) ==> n.title == DEFAULT_NEWS_TITLE
    ensures Truthy(q.body) ==> n.description == q.body.value
    ensures !Truthy(q.body) ==> n.description == ""
    ensures n.tags == if q.tags.Some? then q.tags.value else []
    ensures n.link == q.link && n.source == q.source
    ensures n.channel.None? && n.date == now
  {
    NewsItem(
      title := StringOr(q.title, DEFAULT_NEWS_TITLE),
      channel := None,
      description := StringOr(q.body, ""),
      link := q.link,
      source := q.source,
      date := now,
      tags := if q.tags.Some? then q.tags.value else [])
  }

  /** The provenance line of a promoted post: empty when the entry names no source. */
  function Provenance(q: Queue): string
  {
    if Truthy(q.source) then "Fonte: " + q.source.value + " (" + Show(q.link) + ")" else ""
  }

  /** The draft post built from a queue entry. */
  function PostRecord(q: Queue, now: Timestamp): (p: Post)
    ensures p.format == Some(INITIAL_FORMAT) && FormatOk(p)
    ensures p.title.Some? && p.title.value != ""
    ensures Truthy(q.title) ==> p.title == q.title
    ensures !Truthy(q.title) ==> p.title == Some(DEFAULT_POST_TITLE)
    ensures p.slug == Some(SlugBase(q.title)) && |p.slug.value| <= SLUG_MAX_LENGTH
    ensures p.tags == Some(if q.tags.Some? then q.tags.value else DEFAULT_POST_TAGS)
    ensures p.body == [TextBlock(Some(StringOr(q.body, ""))), TextBlock(Some(Provenance(q)))]
    ensures p.channel.None? && p.excerpt.None? && p.publishedAt == Some(now)
  {
    Post(
      title := Some(StringOr(q.title, DEFAULT_POST_TITLE)),
      slug := Some(SlugBase(q.title)),
      format := Some("news"),
      channel := None,
      tags := Some(if q.tags.Some? then q.tags.value else DEFAULT_POST_TAGS),
      publishedAt := Some(now),
      excerpt := None,
      body := [TextBlock(Some(StringOr(q.body, ""))), TextBlock(Some(Provenance(q)))])
  }

  /**
   * A promoted post never passes validation, since promotion does not set the required
   * channel; once an allowed channel is chosen it passes unless the entry carried an
   * empty tag list (`[] || ['Underground']` keeps the empty list).
   */
  lemma PromotedPostValidity(q: Queue, now: Timestamp, c: string)
    ensures !ValidPost(PostRecord(q, now))
    ensures ValidPost(PostRecord(q, now).(channel := Some(c))) <==>
              c in CHANNELS && (q.tags.None? || |q.tags.value| >= 1)
  {
  }

  // ---------------------------------------------------------------------------
  // onHandle: create, then delete
  // ---------------------------------------------------------------------------

  datatype PromoteOutcome = Promoted | CreateFailed | DeleteFailed

  datatype Transition = Transition(outcome: PromoteOutcome, docs: map<string, Doc>)

  /**
   * The store transition of `await create(doc); await delete(queueId)`: a failed create
   * throws before the delete is reached.
   */
  function PromoteEffect(docs: map<string, Doc>, queueId: string, newId: string, doc: Doc,
                         createUp: bool, deleteUp: bool): (t: Transition)
    ensures t.outcome == CreateFailed <==> !createUp || newId in docs
    ensures t.outcome == Promoted <==> createUp && newId !in docs && deleteUp
    ensures t.outcome == CreateFailed ==> t.docs == docs
    ensures t.outcome == DeleteFailed ==> newId in t.docs && t.docs[newId] == doc
    ensures t.outcome == DeleteFailed ==> (queueId in t.docs <==> queueId in docs || queueId == newId)
    ensures t.outcome == Promoted ==> queueId !in t.docs
    ensures t.outcome == Promoted && newId != queueId ==> newId in t.docs && t.docs[newId] == doc
    ensures forall k :: k != newId && (k != queueId || t.outcome != Promoted) ==>
              (k in t.docs <==> k in docs) && (k in docs ==> t.docs[k] == docs[k])
  {
    if !createUp || newId in docs then
      Transition(CreateFailed, docs)
    else
      var created := docs[newId := doc];
      if deleteUp then Transition(Promoted, created - {queueId}) else Transition(DeleteFailed, created)
  }

  /** `onHandle` of `PromoteToNewsAction`. */
  method PromoteToNews(store: Store, props: Props, uuid: string, now: Timestamp,
                       createUp: bool, deleteUp: bool) returns (o: PromoteOutcome)
    requires PromoteToNewsAction(props).Some?
    modifies store
    ensures Transition(o, store.docs) ==
              PromoteEffect(old(store.docs), props.id, NewsId(uuid),
                            NewsDoc(NewsRecord(Subject(props).value, now)), createUp, deleteUp)
  {
    var q := Subject(props).value;
    var newId := NewsId(uuid);
    var created := store.Create(newId, NewsDoc(NewsRecord(q, now)), createUp);
    if !created {
      return CreateFailed;
    }
    var deleted := store.Delete(props.id, deleteUp);
    o := if deleted then Promoted else DeleteFailed;
  }

  /** `onHandle` of `PromoteToPostAction`. */
  method PromoteToPost(store: Store, props: Props, uuid: string, now: Timestamp,
                       createUp: bool, deleteUp: bool) returns (o: PromoteOutcome)
    requires PromoteToPostAction(props).Some?
    modifies store
    ensures Transition(o, store.docs) ==
              PromoteEffect(old(store.docs), props.id, PostDraftId(uuid),
                            PostDoc(PostRecord(Subject(props).value, now)), createUp, deleteUp)
  {
    var q := Subject(props).value;
    var newId := PostDraftId(uuid);
    var created := store.Create(newId, PostDoc(PostRecord(q, now)), createUp);
    if !created {
      return CreateFailed;
    }
    var deleted := store.Delete(props.id, deleteUp);
    o := if deleted then Promoted else DeleteFailed;
  }
}
