/**
 * The content-lake document store shared by the scraper, the Studio actions and the
 * subscription endpoint, and the document kinds they write into it.
 *
 * A document is stored under its `_id`; the `_type` discriminator is the constructor of
 * `Doc`. Drafts are not a field: a draft of document `x` is the document whose id is
 * `drafts.x` (or any id in the `drafts.` namespace).
 */
module Documents {
  import opened Wrappers

  /** An ISO-8601 string as produced by `new Date().toISOString()`; treated as opaque. */
  type Timestamp = string

  /** An element of a portable-text body: a text block with one span, or an image. */
  datatype Block = TextBlock(text: Option<string>) | ImageBlock

  /** A `post` document (schema in studio/schemaTypes/post.ts). */
  datatype Post = Post(
    title: Option<string>,
    slug: Option<string>,          // `slug.current`
    format: Option<string>,
    channel: Option<string>,
    tags: Option<seq<string>>,
    publishedAt: Option<Timestamp>,
    excerpt: Option<string>,
    body: seq<Block>)

  /** A `newsItem` document (schema in studio/schemaTypes/newsItem.ts). */
  datatype NewsItem = NewsItem(
    title: string,
    channel: Option<string>,
    description: string,
    link: Option<string>,
    source: Option<string>,
    date: Timestamp,
    tags: seq<string>)

  /** A `queue` document: an item waiting in the curation queue (studio/schemaTypes/queue.ts). */
  datatype Queue = Queue(
    title: Option<string>,
    body: Option<string>,
    link: Option<string>,
    source: Option<string>,
    format: Option<string>,
    tags: Option<seq<string>>,
    aiJson: Option<string>)

  /** A newsletter `subscriber` document. */
  datatype Subscriber = Subscriber(email: string, joinedAt: Timestamp, active: bool)

  datatype Doc =
    | PostDoc(post: Post)
    | NewsDoc(news: NewsItem)
    | QueueDoc(queue: Queue)
    | SubscriberDoc(subscriber: Subscriber)

  /** Ids of the subscriber documents whose email is exactly `email`. */
  function SubscriberIds(docs: map<string, Doc>, email: string): set<string>
  {
    set k | k in docs && docs[k].SubscriberDoc? && docs[k].subscriber.email == email
  }

  /** Result of a read query against the store. */
  datatype Lookup = Unreachable | Absent | Found(id: string)

  /**
   * The remote store. Whether a call reaches it is decided by the network, so every
   * operation takes a `reachable` flag; a call that does not reach it throws.
   */
  class Store {
    var docs: map<string, Doc>

    constructor (initial: map<string, Doc>)
      ensures docs == initial
    {
      docs := initial;
    }

    /** `create(doc)`: fails when unreachable or when a document with that id already exists. */
    method Create(id: string, doc: Doc, reachable: bool) returns (ok: bool)
      modifies this
      ensures ok <==> reachable && id !in old(docs)
      ensures docs == if ok then old(docs)[id := doc] else old(docs)
    {
      ok := reachable && id !in docs;
      if ok {
        docs := docs[id := doc];
      }
    }

    /** `delete(id)`: removes exactly that id; deleting an absent id is a no-op. */
    method Delete(id: string, reachable: bool) returns (ok: bool)
      modifies this
      ensures ok == reachable
      ensures docs == if ok then old(docs) - {id} else old(docs)
    {
      ok := reachable;
      if ok {
        docs := docs - {id};
      }
    }

    /** `fetch(*[_type == "subscriber" && email == $email][0])`: some matching document, or none. */
    method FindSubscriber(email: string, reachable: bool) returns (r: Lookup)
      ensures r.Unreachable? <==> !reachable
      ensures r.Found? ==> r.id in SubscriberIds(docs, email)
      ensures r.Absent? ==> SubscriberIds(docs, email) == {}
    {
      if !reachable {
        return Unreachable;
      }
      var matches := SubscriberIds(docs, email);
      if matches == {} {
        r := Absent;
      } else {
        var k :| k in matches;
        r := Found(k);
      }
    }
  }
}
