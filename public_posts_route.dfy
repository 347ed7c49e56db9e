/** The public listing of published posts (app/api/public/posts/route.ts):
    bearer-token protected, at most 100 posts a page, each with a title and
    an excerpt derived from its markdown. */
module PublicPostsRoute {
  import opened Wrappers
  import opened JsText
  import opened MarkdownHeading
  import opened BlogTypes
  import ApiAuth

  const MaxLimit: int := 100
  const ExcerptLength: nat := 200
  const Ellipsis: string := "..."

  /** The content with its first heading match removed, then trimmed. */
  function ExcerptSource(content: string): string {
    Trim(RemoveFirstHeading(content))
  }

  /** The first 200 characters of the source, with "..." when it was cut. */
  function Excerpt(content: string): string {
    var rest := ExcerptSource(content);
    Prefix(rest, ExcerptLength) + (if |rest| > ExcerptLength then Ellipsis else "")
  }

  /** A short remainder is the excerpt exactly; a long one is cut to 200
      characters and marked with "..."; so the excerpt is never longer than
      203 characters, and it is longer than 200 exactly when it was cut. */
  lemma ExcerptSpec(content: string)
    ensures var rest := ExcerptSource(content);
      && (|rest| <= 200 ==> Excerpt(content) == rest)
      && (|rest| > 200 ==> Excerpt(content) == rest[..200] + "...")
      && |Excerpt(content)| <= 203
      && (|Excerpt(content)| > 200 <==> |rest| > 200)
  {
  }

  /** For a post without a heading the excerpt source is simply the trimmed
      content. */
  lemma ExcerptWithoutHeading(content: string)
    requires NoMatch(content)
    ensures ExcerptSource(content) == Trim(content)
  {
  }

  /** "..." alone does not tell a cut excerpt: a short text that ends in
      "..." is its own excerpt. */
  lemma EllipsisMayBeOwnText()
    ensures Excerpt("...") == "..."
  {
    var s := "...";
    assert MatchAt(s, 3) == None;
    assert MatchFrom(s, 3) == None;
    assert MatchAt(s, 2) == None;
    assert MatchFrom(s, 2) == None;
    assert MatchAt(s, 1) == None;
    assert MatchFrom(s, 1) == None;
    assert MatchAt(s, 0) == None;
    assert RemoveFirstHeading(s) == s;
    TrimOfPadded("", s, "");
    assert "" + s + "" == s;
  }

  /** The row `findMany` gives for a published post. */
  datatype PublicRow = PublicRow(id: string, contentJa: string, imageUrl: Option<string>,
                                 publishedAt: Option<Timestamp>, createdAt: Timestamp)

  datatype PublicPost = PublicPost(id: string, title: string, excerpt: string, imageUrl: Option<string>,
                                   publishedAt: Timestamp)

  datatype Meta = Meta(total: int, limit: int, offset: int, count: int)

  /** A `findMany` of the published, not deleted posts, newest first, with
      `take` and `skip`, paired with a `count` of them. */
  datatype PublicQuery = PublicQuery(take: int, skip: int)

  type PublicStore = PublicQuery -> Result<(seq<PublicRow>, int), StoreError>

  datatype PublicResponse =
    | Listing(posts: seq<PublicPost>, meta: Meta, lang: string)
    | PublicError(body: ErrorBody)

  /** The answer and the queries made to the store. */
  datatype PublicOutcome = PublicOutcome(response: PublicResponse, queries: seq<PublicQuery>)

  function PublicPostOf(row: PublicRow): PublicPost {
    PublicPost(row.id, Title(row.contentJa), Excerpt(row.contentJa), row.imageUrl,
               row.publishedAt.GetOr(row.createdAt))
  }

  /** `GET`, given the `authorization` header, the configured API token, the
      `limit`, `offset` and `lang` parameters (None when missing or empty)
      and the store. */
  function ListPublishedPosts(authorization: Option<string>, configured: Option<string>,
                              limit: Option<int>, offset: Option<int>, lang: Option<string>,
                              store: PublicStore): (o: PublicOutcome)
    ensures !ApiAuth.VerifyApiToken(authorization, configured) ==>
      o == PublicOutcome(PublicError(ErrorBody(401, "Unauthorized")), [])
    ensures ApiAuth.VerifyApiToken(authorization, configured) && limit.Some? && limit.value > 100 ==>
      o == PublicOutcome(PublicError(ErrorBody(400, "Limit cannot exceed 100")), [])
    ensures o.queries != [] <==>
      ApiAuth.VerifyApiToken(authorization, configured) && !(limit.Some? && limit.value > 100)
    ensures o.queries != [] ==>
      && o.queries == [PublicQuery(if limit.Some? then limit.value else 10, if offset.Some? then offset.value else 0)]
      && (store(o.queries[0]).Failure? ==> o.response == PublicError(InternalServerError))
      && (store(o.queries[0]).Success? ==>
            var (rows, total) := store(o.queries[0]).value;
            && o.response.Listing?
            && o.response.meta == Meta(total, o.queries[0].take, o.queries[0].skip, |rows|)
            && |o.response.posts| == |rows|
            && (forall i :: 0 <= i < |rows| ==> o.response.posts[i] == PublicPostOf(rows[i]))
            && o.response.lang == (if lang.Some? && lang.value != "" then lang.value else "ja"))
  {
    if !ApiAuth.VerifyApiToken(authorization, configured) then
      var denied := ApiAuth.UnauthorizedApiResponse(None);
      PublicOutcome(PublicError(ErrorBody(denied.status, denied.error)), [])
    else
      var take := limit.GetOr(10);
      var skip := offset.GetOr(0);
      var language := if lang.Some? && lang.value != "" then lang.value else "ja";
      if take > MaxLimit then PublicOutcome(PublicError(ErrorBody(400, "Limit cannot exceed 100")), [])
      else
        var query := PublicQuery(take, skip);
        match store(query)
        case Failure(_) => PublicOutcome(PublicError(InternalServerError), [query])
        case Success((rows, total)) =>
          var posts := seq(|rows|, i requires 0 <= i < |rows| => PublicPostOf(rows[i]));
          PublicOutcome(Listing(posts, Meta(total, take, skip, |posts|), language), [query])
  }

  /** Each listed post: its title by the heading rule, its excerpt, and its
      publication time falling back to its creation time. */
  lemma PublicPostFields(row: PublicRow)
    ensures PublicPostOf(row).title == Title(row.contentJa)
    ensures FirstMatch(row.contentJa).None? ==> PublicPostOf(row).title == "Untitled"
    ensures |PublicPostOf(row).excerpt| <= 203
    ensures PublicPostOf(row).publishedAt == if row.publishedAt.Some? then row.publishedAt.value else row.createdAt
  {
    ExcerptSpec(row.contentJa);
  }

  /** `lang` is only echoed back: two requests that differ in it get the
      same posts and the same queries. */
  lemma LangIsOnlyEchoed(authorization: Option<string>, configured: Option<string>,
                         limit: Option<int>, offset: Option<int>, l1: Option<string>, l2: Option<string>,
                         store: PublicStore)
    ensures var o1 := ListPublishedPosts(authorization, configured, limit, offset, l1, store);
      var o2 := ListPublishedPosts(authorization, configured, limit, offset, l2, store);
      && o1.queries == o2.queries
      && o1.response.Listing? == o2.response.Listing?
      && (o1.response.Listing? ==> o1.response.posts == o2.response.posts && o1.response.meta == o2.response.meta)
      && (!o1.response.Listing? ==> o1.response == o2.response)
  {
  }
}
