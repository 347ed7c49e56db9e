/** The admin post collection (app/api/posts/route.ts): listing posts with
    a status filter and a title taken from the first markdown heading, and
    creating a post, which always starts as a draft. */
module PostsRoute {
  import opened Wrappers
  import opened JsText
  import opened JsonValue
  import opened MarkdownHeading
  import opened BlogTypes

  // ---------------------------------------------------------------------
  // GET /api/posts

  /** A value in the store's filter object. */
  datatype FilterValue = NullValue | Text(s: string)

  /** The `where` object: `deleted_at: null`, and `status` set to the
      upper-cased filter when a non-empty one is given. */
  method BuildWhereClause(status: Option<string>) returns (filter: map<string, FilterValue>)
    ensures filter.Keys <= {"deleted_at", "status"}
    ensures "deleted_at" in filter && filter["deleted_at"] == NullValue
    ensures "status" in filter <==> status.Some? && status.value != ""
    ensures "status" in filter ==> filter["status"] == Text(ToUpperCase(status.value))
  {
    filter := map["deleted_at" := NullValue];
    if status.Some? && status.value != "" {
      filter := filter["status" := Text(ToUpperCase(status.value))];
    }
  }

  /** A numeric query parameter: its value, or the default when missing. */
  function NumberParam(param: Option<int>, default: int): int {
    param.GetOr(default)
  }

  /** A `findMany` with `take` and `skip`, paired with a `count` on the same
      filter. */
  datatype ListQuery = ListQuery(filter: map<string, FilterValue>, take: int, skip: int)

  datatype PostRow = PostRow(id: string, contentJa: string, imageUrl: Option<string>, status: PostStatus,
                             createdAt: Timestamp, updatedAt: Timestamp)

  datatype PostListItem = PostListItem(id: string, title: string, imageUrl: Option<string>, status: PostStatus,
                                       createdAt: Timestamp, updatedAt: Timestamp)

  datatype ListResponse = PostList(posts: seq<PostListItem>, total: int) | ListError(body: ErrorBody)

  /** The store behind the listing: the rows of the page and the total. */
  type ListStore = ListQuery -> Result<(seq<PostRow>, int), StoreError>

  function ListItem(row: PostRow): PostListItem {
    PostListItem(row.id, Title(row.contentJa), row.imageUrl, row.status, row.createdAt, row.updatedAt)
  }

  /** `GET`: the query built from the parameters, and the page with each
      post's title, or a 500 when the store fails. */
  method ListPosts(status: Option<string>, limit: Option<int>, offset: Option<int>, store: ListStore)
    returns (response: ListResponse, query: ListQuery)
    ensures query.take == (if limit.Some? then limit.value else 10)
    ensures query.skip == (if offset.Some? then offset.value else 0)
    ensures "deleted_at" in query.filter && query.filter["deleted_at"] == NullValue
    ensures query.filter.Keys <= {"deleted_at", "status"}
    ensures ("status" in query.filter <==> status.Some? && status.value != "")
    ensures "status" in query.filter ==> query.filter["status"] == Text(ToUpperCase(status.value))
    ensures store(query).Failure? ==> response == ListError(InternalServerError)
    ensures store(query).Success? ==>
      var (rows, total) := store(query).value;
      && response.PostList? && response.total == total && |response.posts| == |rows|
      && forall i :: 0 <= i < |rows| ==>
           response.posts[i].id == rows[i].id && response.posts[i].title == Title(rows[i].contentJa)
           && response.posts[i] == ListItem(rows[i])
  {
    var filter := BuildWhereClause(status);
    query := ListQuery(filter, NumberParam(limit, 10), NumberParam(offset, 0));
    match store(query)
    case Failure(_) =>
      response := ListError(InternalServerError);
    case Success((rows, total)) =>
      var items := seq(|rows|, i requires 0 <= i < |rows| => ListItem(rows[i]));
      response := PostList(items, total);
  }

  // ---------------------------------------------------------------------
  // POST /api/posts

  const MaxContentLength: int := 10000

  /** What `createPostSchema.parse` accepts. */
  datatype CreateInput = CreateInput(contentJa: string, imageUrl: Option<string>)

  /** The issues the schema reports, in the order of its fields. */
  datatype Issue = BodyNotObject | ContentJaInvalid | ImageUrlInvalid

  predicate ValidContent(v: Option<Json>) {
    v.Some? && v.value.JStr? && 1 <= |v.value.s| <= MaxContentLength
  }

  predicate ValidImageUrl(v: Option<Json>, isUrl: string -> bool) {
    v.None? || (v.value.JStr? && isUrl(v.value.s))
  }

  /** `createPostSchema.parse(body)`: an object whose `content_ja` is a
      string of 1 to 10000 characters and whose `image_url`, when present,
      is a string that `isUrl` accepts. Other keys are dropped. */
  function ParseCreatePost(body: Json, isUrl: string -> bool): (r: Result<CreateInput, seq<Issue>>)
    ensures r.Success? <==>
      body.JObj? && ValidContent(Field(body, "content_ja")) && ValidImageUrl(Field(body, "image_url"), isUrl)
    ensures r.Success? ==>
      && Field(body, "content_ja") == Some(JStr(r.value.contentJa))
      && 1 <= |r.value.contentJa| <= 10000
      && (r.value.imageUrl.None? <==> "image_url" !in body.fields)
      && (r.value.imageUrl.Some? ==> body.fields["image_url"] == JStr(r.value.imageUrl.value) && isUrl(r.value.imageUrl.value))
    ensures r.Failure? ==> r.error != []
  {
    if !body.JObj? then Failure([BodyNotObject])
    else
      var content := Field(body, "content_ja");
      var image := Field(body, "image_url");
      var issues := (if ValidContent(content) then [] else [ContentJaInvalid])
                  + (if ValidImageUrl(image, isUrl) then [] else [ImageUrlInvalid]);
      if issues != [] then Failure(issues)
      else Success(CreateInput(content.value.s, if image.Some? then Some(image.value.s) else None))
  }

  /** The boundaries of `content_ja`: 1 and 10000 characters pass, 0 and
      10001 do not; a `null` image URL is refused. */
  lemma ContentLengthBounds(isUrl: string -> bool, s: string)
    ensures ParseCreatePost(JObj(map["content_ja" := JStr(s)]), isUrl).Success? <==> 1 <= |s| <= 10000
    ensures ParseCreatePost(JObj(map["content_ja" := JStr(s), "image_url" := JNull]), isUrl).Failure?
  {
  }

  /** The `data` of `prisma.post.create`. */
  datatype NewPost = NewPost(contentJa: string, imageUrl: Option<string>, status: PostStatus)

  /** What the store gives back for a created post. */
  datatype CreatedPost = CreatedPost(id: string, status: PostStatus, createdAt: Timestamp)

  type PostCreator = NewPost -> Result<CreatedPost, StoreError>

  datatype CreateResponse =
    | PostCreated(id: string, status: PostStatus, createdAt: Timestamp)
    | InvalidInput(issues: seq<Issue>)
    | CreateError(body: ErrorBody)

  function CreateStatus(r: CreateResponse): int {
    match r
    case PostCreated(_, _, _) => 200
    case InvalidInput(_) => 400
    case CreateError(body) => body.status
  }

  /** The answer and the posts the store was asked to create. */
  datatype CreateOutcome = CreateOutcome(response: CreateResponse, created: seq<NewPost>)

  /** `POST`: authentication (`authenticated`, the result of `verifyAuth`),
      then the body (None when it is not JSON), then the schema, then the
      store. A schema failure is a 400, any other failure a 500. */
  function CreatePost(authenticated: bool, body: Option<Json>, isUrl: string -> bool, create: PostCreator): (o: CreateOutcome)
    ensures !authenticated ==> o == CreateOutcome(CreateError(ErrorBody(401, "Unauthorized")), [])
    ensures authenticated && body.None? ==> o == CreateOutcome(CreateError(InternalServerError), [])
    ensures authenticated && body.Some? && ParseCreatePost(body.value, isUrl).Failure? ==>
      o == CreateOutcome(InvalidInput(ParseCreatePost(body.value, isUrl).error), [])
    ensures o.created != [] <==> authenticated && body.Some? && ParseCreatePost(body.value, isUrl).Success?
    ensures o.created != [] ==>
      var input := ParseCreatePost(body.value, isUrl).value;
      && o.created == [NewPost(input.contentJa, input.imageUrl, Draft)]
      && o.response == (match create(o.created[0])
                        case Success(p) => PostCreated(p.id, p.status, p.createdAt)
                        case Failure(_) => CreateError(InternalServerError))
    ensures CreateStatus(o.response) in {200, 400, 401, 500}
  {
    if !authenticated then CreateOutcome(CreateError(ErrorBody(401, "Unauthorized")), [])
    else if body.None? then CreateOutcome(CreateError(InternalServerError), [])
    else
      match ParseCreatePost(body.value, isUrl)
      case Failure(issues) => CreateOutcome(InvalidInput(issues), [])
      case Success(input) =>
        var data := NewPost(input.contentJa, input.imageUrl, Draft);
        match create(data)
        case Success(p) => CreateOutcome(PostCreated(p.id, p.status, p.createdAt), [data])
        case Failure(_) => CreateOutcome(CreateError(InternalServerError), [data])
  }

  /** An unauthenticated request is answered without looking at the body or
      touching the store; every post the route creates is a draft. */
  lemma CreatePostGuards(b1: Option<Json>, b2: Option<Json>, isUrl: string -> bool, c1: PostCreator, c2: PostCreator,
                         authenticated: bool, body: Option<Json>, create: PostCreator)
    ensures CreatePost(false, b1, isUrl, c1) == CreatePost(false, b2, isUrl, c2)
    ensures forall k :: 0 <= k < |CreatePost(authenticated, body, isUrl, create).created| ==>
      CreatePost(authenticated, body, isUrl, create).created[k].status == Draft
    ensures |CreatePost(authenticated, body, isUrl, create).created| <= 1
  {
  }
}
