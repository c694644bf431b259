# Mixtape252 content pipeline — a Dafny model

This project models the sequential logic of the Mixtape252 zine's content tooling. Three
parts of it write into one Sanity document store:

- **The scraper** (`scraper.ts`). It reads five syndication feeds in a fixed order and takes
  the three newest items of each. It asks a chat-completion backend to classify each item,
  and saves every result that is not marked `skip` as an automatic draft `post`
  (id `drafts.auto-<uuid>`). That draft's body has two blocks: the text, then the source link.
- **The Studio promotion actions** (`studio/actions/promoteActions.ts`). They are offered on
  an existing curation-queue (`queue`) document. They turn it into a `newsItem` or a draft
  `post`, with defaults for missing fields and a slug computed from the title. They create
  the new document and only then delete the queue document.
- **The newsletter endpoint** (`src/pages/api/subscribe.ts`). It validates an email
  address, refuses one that is already subscribed, and otherwise stores an active
  `subscriber`.

The `post` schema's validation rules (`studio/schemaTypes/post.ts`) are modelled as a
predicate. The lemmas check the scraper's drafts and the promoted posts against it.

Layout, one module per file:

| file | module | contents |
|---|---|---|
| wrappers.dfy | `Wrappers` | `Option`, JavaScript truthiness, `||` on strings, template rendering of `undefined` |
| documents.dfy | `Documents` | document kinds (`Post`, `NewsItem`, `Queue`, `Subscriber`), the `Store` class |
| post_schema.dfy | `PostSchema` | allowed formats and channels, initial values, `ValidPost` |
| scraper.dfy | `Scraper` | `fetchFeed`, `processWithAI`, `saveDraft`, `main` and what a run does to the store |
| promote.dfy | `PromoteActions` | slug rule, record construction, the two actions and their create-then-delete handlers |
| subscribe.dfy | `Subscribe` | the email pattern, the `POST` handler and its outcomes |

The store is a `Store` object whose field `docs: map<string, Doc>` maps document ids to
documents. `Create` fails when the store is unreachable or the id is already taken.
`Delete` removes exactly the given id, and deleting an absent id does nothing.
Each state-changing handler (`Scraper.SaveDraft`, `Scraper.Run`,
`PromoteActions.PromoteToNews`, `PromoteActions.PromoteToPost`,
`Subscribe.HandleSubscribe`) is an imperative method on that store. Each one is proved to
produce exactly the store and result given by a specification function
(`SaveDraftEffect`, `FeedsFrom`, `PromoteEffect`, `SubscribeEffect`). The properties are
proved about those functions.

Outside collaborators are parameters. The scraper's `Env` holds:

- the feed reader;
- the chat-completion backend, as a function of the user prompt;
- `JSON.parse`;
- the `slugify` library;
- a per-item draw of uuid, timestamp and store availability, indexed by feed and item.

The handlers take the uuid, the timestamp and whether each store call gets through as
arguments.

Facts about the code that the model keeps as they are:

- each feed contributes at most its first 3 items, and the feeds are read in the order
  `FEEDS` lists them;
- the scraper does not check whether an item was seen before; repeated runs can save the
  same item again under a new draft id;
- each promotion is a manual per-document action with no limit on how many are made;
- the scraper copies the classifier's `format` and `tags` unchanged.

## Model

| member | source | states |
|---|---|---|
| `Documents.Store.Create` | scraper.ts:140 | the store's `create` succeeds exactly when the store is reachable and the id is free, and then adds exactly that document |
| `Documents.Store.Delete` | studio/actions/promoteActions.ts:39 | `delete(id)` removes exactly that id when the call gets through and changes nothing otherwise |
| `Documents.Store.FindSubscriber` | src/pages/api/subscribe.ts:29-32 | the subscriber query fails only when the store is unreachable; a hit is a subscriber with exactly that email; a miss means there is none |
| `PostSchema.InitialPost` | studio/schemaTypes/post.ts:43-74 | the initial values `news` and `distorcao` are among the allowed formats and channels, yet a post holding only them is not valid |
| `PostSchema.ValidPost` | studio/schemaTypes/post.ts:8-96 | the schema rules of a post: title and slug present, format present and one of `news`, `article`, `review`, `interview`, channel present and one of `system_log`, `distorcao`, `pixel_trash`, and a present tag list non-empty |
| `PostSchema.InitialPostCompletion` | studio/schemaTypes/post.ts:8-23 | a new post that keeps its initial format and channel is valid exactly when both a title and a slug are present |
| `PostSchema.ValidExceptChannel` | studio/schemaTypes/post.ts:59-74 | a post that meets every other rule is valid exactly when its channel is one of `system_log`, `distorcao`, `pixel_trash`; it is never valid without one |
| `Scraper.FetchFeed` | scraper.ts:63-72 | at most 3 items, a prefix of the feed's list of length min(3, n); the empty list when fetching or parsing fails |
| `Scraper.UserPrompt` | scraper.ts:84 | the user message: the item's title, its `contentSnippet` or else its `content`, and its link, each rendered as a template renders it (`undefined` when absent) |
| `Scraper.ProcessWithAI` | scraper.ts:74-98 | null when the backend call throws or its content is missing or empty; when the content is non-empty, exactly the parse of that content (null when it is not JSON) |
| `Scraper.DraftId` | scraper.ts:107 | every draft id lies in the `drafts.auto-` namespace |
| `Scraper.DraftDoc` | scraper.ts:109-137 | the draft copies title, format and tags unchanged; it has exactly two blocks, the classified body and `Fonte original: ` + link; it sets no channel |
| `Scraper.SaveDraftEffect` | scraper.ts:100-145 | `skip` adds nothing; a throwing slugify adds nothing; a failed create is swallowed and adds nothing; otherwise exactly one new document appears, an automatic draft, and every existing document is unchanged |
| `Scraper.SaveDraft` | scraper.ts:100-145 | the imperative `saveDraft` produces exactly the outcome and store of `SaveDraftEffect` |
| `Scraper.LinkOf` | scraper.ts:156 | the link passed to `saveDraft` is the item's link when it is present and non-empty, and `""` otherwise |
| `Scraper.ItemsFrom` | scraper.ts:153-158 | the reference definition of one feed's inner loop: items in order, `saveDraft` only for a truthy classifier result, and a stop when `saveDraft` throws |
| `Scraper.FeedsFrom` | scraper.ts:150-159 | the reference definition of `main`: feeds in `FEEDS` order, each through `ItemsFrom`, and a stop as soon as a feed's items stop |
| `Scraper.Run` | scraper.ts:147-162 | the nested feed/item loop, in `FEEDS` order and item order, passing only truthy classifier results to `saveDraft` and stopping only when `saveDraft` throws, produces exactly the store and completion flag of `FeedsFrom` |
| `Scraper.SaveAddsDraft` | scraper.ts:100-145 | one `saveDraft` keeps every existing document and adds at most one, an automatic draft |
| `Scraper.ItemsFromStep` | scraper.ts:153-158 | one pass of the inner loop: a truthy classifier result goes to `saveDraft`, whose throw stops the loop; any other result moves on to the next item with the store unchanged |
| `Scraper.ItemsAddDrafts` | scraper.ts:153-158 | processing one feed's items adds at most one automatic draft per item and changes nothing already stored |
| `Scraper.RunAddsOnlyDrafts` | scraper.ts:150-159 | a run, complete or cut short, keeps every existing document unchanged and adds at most 3 × number of feeds documents, all automatic drafts |
| `Scraper.ItemsWithoutApproval` | scraper.ts:153-158 | a feed none of whose items is approved leaves the store unchanged and lets the run continue |
| `Scraper.NothingApprovedNothingSaved` | scraper.ts:150-159 | when none of the items the run reads from the remaining feeds gets a non-skip classification (failed feeds, null or skip results), the run completes and the store is unchanged |
| `Scraper.ItemsComplete` | scraper.ts:153-158 | a feed's remaining items are all processed exactly when `slugify` throws on the title of none of the approved ones: failed classifications and failed creates do not stop the loop |
| `Scraper.RunCompletes` | scraper.ts:150-159 | a run completes exactly when `slugify` throws on the title of none of the approved items it reads; failed feeds, failed classifications and failed creates never stop it |
| `Scraper.TitledRunCompletes` | scraper.ts:106 | with a `slugify` that succeeds on every present title, a run whose approved items all carry a title completes |
| `Scraper.DraftValidity` | scraper.ts:109-137 | an automatic draft is never a valid post, since it has no channel; with an allowed channel it is valid exactly when the classification gave a title, a listed format and no empty tag list |
| `PromoteActions.SkipRun` | studio/actions/promoteActions.ts:60 | skipping a run of non-`[a-z0-9]` characters stops at a letter or digit, never lengthens the string and drops no letter or digit |
| `PromoteActions.CollapseRuns` | studio/actions/promoteActions.ts:60 | `replace(/[^a-z0-9]+/g, '-')`: each maximal run of characters outside `[a-z0-9]` becomes one `-` |
| `PromoteActions.SlugBase` | studio/actions/promoteActions.ts:59-61 | for a title, the slug is the first 96 characters of the lowercased title with each character outside `[a-z0-9]` turned into `-` and each `-` after a `-` dropped; it is non-empty, over `a-z0-9-`, never has `--`, and keeps all the title's letters and digits unless it was cut at 96; an absent or empty title gives `novo-post` |
| `PromoteActions.DefaultSlugShape` | studio/actions/promoteActions.ts:61 | the fallback `novo-post` is itself in slug form |
| `PromoteActions.CollapseShape` | studio/actions/promoteActions.ts:60 | replacing each run of non-`[a-z0-9]` characters by `-` gives a string over `a-z0-9-` with no `--`, no longer than its input and empty only for empty input |
| `PromoteActions.CollapseKeepsAlnum` | studio/actions/promoteActions.ts:60 | that replacement keeps every letter and digit in order |
| `PromoteActions.AlnumOfPrefix` | studio/actions/promoteActions.ts:60 | cutting to a prefix (the `slice(0, 96)`) keeps a prefix of the letters and digits |
| `PromoteActions.CollapseFixedPoint` | studio/actions/promoteActions.ts:60 | a string already over `a-z0-9-` without `--` is unchanged by the replacement |
| `PromoteActions.Truncate` | studio/actions/promoteActions.ts:60 | `slice(0, n)` is a prefix of length min(n, length) |
| `PromoteActions.Dashify` | studio/actions/promoteActions.ts:60 | each character outside `[a-z0-9]` becomes `-`, one for one, and the others stay in place |
| `PromoteActions.CollapseIsSquashedDashify` | studio/actions/promoteActions.ts:60 | replacing each run of characters outside `[a-z0-9]` by one `-` equals turning each such character into `-` and then dropping every `-` that follows a `-` |
| `PromoteActions.DashThenCollapse` | studio/actions/promoteActions.ts:60 | a `-` in front of a dashified string absorbs the run of dashes that string starts with |
| `PromoteActions.CollapseKeepsWord` | studio/actions/promoteActions.ts:60 | letters and digits in front of a string pass through the replacement unchanged |
| `PromoteActions.SlugExample` | studio/actions/promoteActions.ts:59-61 | the title `Hello World` gives the slug `hello-world` |
| `PromoteActions.SlugIdempotent` | studio/actions/promoteActions.ts:59-61 | applying the slug rule to its own output gives the same slug |
| `PromoteActions.Subject` | studio/actions/promoteActions.ts:17 | the action reads the draft version when there is one, else the published one, and has nothing to read when neither exists |
| `PromoteActions.PromoteToNewsAction` | studio/actions/promoteActions.ts:15-21 | the news action is offered exactly on a `queue` document with a draft or published version |
| `PromoteActions.PromoteToPostAction` | studio/actions/promoteActions.ts:45-51 | the post action is offered exactly on a `queue` document with a draft or published version |
| `PromoteActions.NewsRecord` | studio/actions/promoteActions.ts:28-37 | the news item's title is the queue title, or `Sem Título` when that is absent or empty; description defaults to `""` and tags to `[]`; link and source are copied unchanged; no channel is set |
| `PromoteActions.PostRecord` | studio/actions/promoteActions.ts:63-81 | the promoted post always has format `news`, a non-empty title (default `Novo Post da Fila`), the slug of the title, tags defaulting to `["Underground"]`, a two-block body (text defaulting to `""`, then the provenance line) and no channel |
| `PromoteActions.Provenance` | studio/actions/promoteActions.ts:78 | the provenance line `Fonte: <source> (<link>)` when the entry names a source, with an absent link rendered `undefined`, and `""` otherwise |
| `PromoteActions.PromotedPostValidity` | studio/actions/promoteActions.ts:63-81 | a promoted post is never valid, because no channel is set; with an allowed channel it is valid unless the queue entry carried an empty tag list |
| `PromoteActions.PromoteEffect` | studio/actions/promoteActions.ts:28-39 | a failed create leaves the store unchanged, so the queue document stays; after a full promotion the new id holds the new document and the queue id is gone; a failed delete leaves the queue document as it was and the new document beside it; every other id, the queue entry's `drafts.` copy included, is unchanged |
| `PromoteActions.PromoteToNews` | studio/actions/promoteActions.ts:25-41 | `onHandle` of the news action creates `news.<uuid>` and then deletes the queue id, with exactly the effect of `PromoteEffect` |
| `PromoteActions.PromoteToPost` | studio/actions/promoteActions.ts:55-85 | `onHandle` of the post action creates `drafts.<uuid>` and then deletes the queue id, with exactly the effect of `PromoteEffect` |
| `Subscribe.IsEmail` | src/pages/api/subscribe.ts:20-21 | the handler's email test, read by the first `@`: a non-empty local part, no white space and no second `@`, and a `.` in the domain with something on each side |
| `Subscribe.IsEmailMatchesPattern` | src/pages/api/subscribe.ts:20-21 | the handler's email test accepts exactly the strings of the form plain+ `@` plain+ `.` plain+, where plain excludes `@` and every JavaScript white-space character |
| `Subscribe.SubscribeEffect` | src/pages/api/subscribe.ts:7-60 | the status is one of 200, 400, 409 or 500; the store changes exactly when the status is 200, and then by exactly one active subscriber for a well-formed, not yet subscribed email under a fresh id |
| `Subscribe.HandleSubscribe` | src/pages/api/subscribe.ts:7-60 | the imperative handler returns exactly the response and leaves exactly the store of `SubscribeEffect` |
| `Subscribe.MissingEmailRejected` | src/pages/api/subscribe.ts:12-17 | a missing or empty email gives 400 `Email é obrigatório` and leaves the store unchanged |
| `Subscribe.MalformedEmailRejected` | src/pages/api/subscribe.ts:20-26 | an email the pattern does not match gives 400 `Email inválido` and leaves the store unchanged |
| `Subscribe.DuplicateRejected` | src/pages/api/subscribe.ts:29-39 | an email that already has a subscriber gives 409 and leaves the store unchanged |
| `Subscribe.StoreErrorsGive500` | src/pages/api/subscribe.ts:53-59 | an unreadable form, a failed lookup or a failed create gives 500 and leaves the store unchanged |
| `Subscribe.NewEmailSubscribed` | src/pages/api/subscribe.ts:42-52 | a new well-formed email gives 200 and exactly one new document, an active subscriber with that email, which is then the only one with it |
| `Subscribe.SubscribeTwice` | src/pages/api/subscribe.ts:29-52 | subscribing the same new email twice gives 200 then 409, and exactly one subscriber with that email remains |

## Left out

- Configuration: the environment checks and `process.exit` at startup, and client construction (scraper.ts:37-59). This is environment plumbing.
- All `console` logging, and the Studio router navigation after a promotion (`navigateIntent`). Neither touches the store.
- The OpenAI and rss-parser calls, `JSON.parse`, the `slugify` library, `uuidv4`/`uuid()` and `new Date()`. These are foreign code, so they are parameters. Timestamps are opaque strings.
- The fixed system prompt. It is part of the backend abstraction; the backend is modelled as a deterministic function of the user prompt.
- Scraper.Classification: JSON fields are modelled as strings and string lists. `skip` is modelled by its truthiness. A truthy JSON value that is not an object reads as an object with no fields.
- Scraper.Env: whether `slugify` throws is left to the library parameter. A throw escapes `saveDraft` and ends the run (`main()` has no handler); the model records this as an unfinished run.
- Documents.Store.FindSubscriber: the query's `[0]` returns some matching document, not a particular one, since the store's default order is not modelled.
- Subscribe.HandleSubscribe: the store assigns the new subscriber's id. The model takes it as a parameter, and a clash with an existing id counts as a store error (500). A form field that is a file is not modelled.
- PromoteActions.SlugBase: lowercasing is ASCII only, and every non-ASCII character counts as outside `[a-z0-9]`. JavaScript's `toLowerCase` maps a few non-ASCII characters (for example the Kelvin sign) to ASCII letters.
- PostSchema.ValidPost: "required" means "present". The lists of allowed `format` and `channel` values are treated as validation rules. `min(1)` on `tags` applies only when a tag list is present, as Sanity skips non-required rules for absent values. Body elements are text blocks or images by construction of `Block`, so that rule needs no check. The `mainImage` field has no rule and is not modelled.
- The Studio supplies the action props (id, type, draft and published versions). The model does not derive them from the store.
- Concurrency: every call is awaited in turn, so each one is a sequential step on the store.
- `src/pages/api/og.ts`, `studio/verify.ts`, `src/lib/sanity.server.ts` and `src/lib/sanity.ts` hold image rendering, diagnostics and client configuration. They are not part of this model. `queue.ts` and `newsItem.ts` are used only for their field lists.
