/** The post summary of the listing page (src/pages/index.tsx, lines 18-31) and the
    projection that turns a content-API document into one (lines 47-55 and 116-124). */
module Posts {
  import opened Optional

  /** The `data` object of a content-API document: the three text fields the listing
      page keeps (each `None` when the API sends `null` for an empty field), and every
      other field of the document type, kept opaque. */
  datatype RawData = RawData(
    title: Option<string>,
    subtitle: Option<string>,
    author: Option<string>,
    others: map<string, string>)

  /** A document as the content API returns it. `uid` and `first_publication_date`
      may be missing or null (`None`); `others` holds the top-level fields the
      listing page never reads (id, type, tags, last publication date, ...). */
  datatype RawDocument = RawDocument(
    uid: Option<string>,
    firstPublicationDate: Option<string>,
    data: RawData,
    others: map<string, string>)

  datatype PostData = PostData(title: Option<string>, subtitle: Option<string>, author: Option<string>)

  /** The `Post` summary rendered by the listing page. */
  datatype Post = Post(
    uid: Option<string>,
    firstPublicationDate: Option<string>,
    data: PostData)

  /** `PostPagination`: one page of summaries and the cursor of the page after it.
      The cursor is the URL the content API hands out; `None` is its `null`. */
  datatype PostPagination = PostPagination(nextPage: Option<string>, results: seq<Post>)

  /** The payload of a content-API query and of a fetch of a cursor URL. */
  datatype ApiResponse = ApiResponse(results: seq<RawDocument>, nextPage: Option<string>)

  /** The two documents carry the same five fields the listing page keeps. */
  predicate SameSummaryFields(a: RawDocument, b: RawDocument) {
    && a.uid == b.uid
    && a.firstPublicationDate == b.firstPublicationDate
    && a.data.title == b.data.title
    && a.data.subtitle == b.data.subtitle
    && a.data.author == b.data.author
  }

  /** The object literal built for each document by `results.map(post => ({ ... }))`. */
  function Summarize(doc: RawDocument): (post: Post)
    ensures post.uid == doc.uid
    ensures post.firstPublicationDate == doc.firstPublicationDate
    ensures post.data == PostData(doc.data.title, doc.data.subtitle, doc.data.author)
  {
    Post(doc.uid, doc.firstPublicationDate,
         PostData(doc.data.title, doc.data.subtitle, doc.data.author))
  }

  /** A post read back as a document: an object with exactly the post's fields. */
  function AsDocument(post: Post): RawDocument {
    RawDocument(post.uid, post.firstPublicationDate,
                RawData(post.data.title, post.data.subtitle, post.data.author, map[]),
                map[])
  }

  function AsDocuments(posts: seq<Post>): (docs: seq<RawDocument>)
    ensures |docs| == |posts|
    ensures forall i :: 0 <= i < |posts| ==> docs[i] == AsDocument(posts[i])
  {
    if posts == [] then [] else [AsDocument(posts[0])] + AsDocuments(posts[1..])
  }

  /** `results.map(...)` with the projection: same length, same order, element by element. */
  function Summaries(docs: seq<RawDocument>): (posts: seq<Post>)
    ensures |posts| == |docs|
    ensures forall i :: 0 <= i < |docs| ==> posts[i] == Summarize(docs[i])
  {
    if docs == [] then [] else [Summarize(docs[0])] + Summaries(docs[1..])
  }

  /** The projection keeps exactly the five summary fields: two documents have the same
      summary if and only if they agree on those fields, whatever else they hold. */
  lemma SummarizeKeepsOnlySummaryFields(a: RawDocument, b: RawDocument)
    ensures Summarize(a) == Summarize(b) <==> SameSummaryFields(a, b)
  {
  }

  /** Projecting a post that already is a summary gives it back unchanged. */
  lemma SummarizeIdempotent(post: Post)
    ensures Summarize(AsDocument(post)) == post
  {
  }

  /** Mapping the projection over a list of summaries gives the same list back. */
  lemma SummariesIdempotent(posts: seq<Post>)
    ensures Summaries(AsDocuments(posts)) == posts
  {
  }

  /** Mapping distributes over concatenation, so a page mapped in pieces is the page mapped once. */
  lemma SummariesAppend(a: seq<RawDocument>, b: seq<RawDocument>)
    ensures Summaries(a + b) == Summaries(a) + Summaries(b)
  {
  }
}
