/** Blog posts as the blog API helper builds them from untyped API records. Random fallback
    ids and today's date text are parameters. */
module BlogApi {
  import opened Wrappers
  import opened Text
  import opened Api

  datatype BlogPost = BlogPost(
    id: string,
    category: string,
    title: string,
    excerpt: string,
    imageSrc: string,
    imageAlt: string,
    authorName: string,
    authorAvatar: string,
    date: string)

  datatype RawAuthor = RawAuthor(name: Option<string>, avatar: Option<string>)

  /** An untyped API post record. */
  datatype RawPost = RawPost(
    id: Option<string>,
    category: Option<string>,
    title: Option<string>,
    excerpt: Option<string>,
    content: Option<string>,
    imageUrl: Option<string>,
    imageAlt: Option<string>,
    author: Option<RawAuthor>,
    date: Option<string>,
    createdAt: Option<string>)

  const Placeholder := "/placeholders/placeholder3.avif"

  /** `content?.slice(0, 30)` */
  function Slice30(content: Option<string>): (r: Option<string>)
    ensures content.None? <==> r.None?
    ensures content.Some? ==> |r.value| == if |content.value| < 30 then |content.value| else 30
    ensures content.Some? ==> r.value == content.value[..|r.value|]
  {
    match content
    case None => None
    case Some(c) => Some(if |c| < 30 then c else c[..30])
  }

  /** One record: every displayed field falls back to a fixed default. */
  function MapPost(raw: RawPost, freshId: string, today: string): (p: BlogPost)
    ensures p.id == Or(raw.id, freshId)
    ensures p.category == Or(raw.category, "General") && p.category != ""
    ensures p.title == Or(raw.title, "Untitled") && p.title != ""
    ensures Truthy(raw.excerpt) ==> p.excerpt == raw.excerpt.value
    ensures !Truthy(raw.excerpt) && raw.content.Some? ==>
      var c := raw.content.value; p.excerpt == c[..if |c| < 30 then |c| else 30]
    ensures !Truthy(raw.excerpt) && raw.content.Some? && raw.content.value != "" ==> p.excerpt != ""
    ensures !Truthy(raw.excerpt) && raw.content.None? ==> p.excerpt == ""
    ensures p.imageSrc == Or(raw.imageUrl, Placeholder) && p.imageSrc != ""
    ensures p.imageAlt == Or(raw.imageAlt, Or(raw.title, ""))
    ensures p.authorName != "" && p.authorAvatar != ""
    ensures raw.author.None? ==> p.authorName == "Anonymous" && p.authorAvatar == Placeholder
    ensures raw.author.Some? ==> p.authorName == Or(raw.author.value.name, "Anonymous")
    ensures raw.author.Some? ==> p.authorAvatar == Or(raw.author.value.avatar, Placeholder)
    ensures p.date == Or(raw.date, Or(raw.createdAt, today))
  {
    var author := raw.author.GetOr(RawAuthor(None, None));
    BlogPost(
      id := Or(raw.id, freshId),
      category := Or(raw.category, "General"),
      title := Or(raw.title, "Untitled"),
      excerpt := Or(raw.excerpt, Or(Slice30(raw.content), "")),
      imageSrc := Or(raw.imageUrl, Placeholder),
      imageAlt := Or(raw.imageAlt, Or(raw.title, "")),
      authorName := Or(author.name, "Anonymous"),
      authorAvatar := Or(author.avatar, Placeholder),
      date := Or(raw.date, Or(raw.createdAt, today)))
  }

  /** The records of a response: `resp.data` when it is a non-empty array. */
  function PostRecords(resp: Json<RawPost>): (rs: Option<seq<Option<RawPost>>>)
    ensures rs.Some? <==> HasPostArray(resp)
    ensures rs.Some? ==> |rs.value| > 0 && rs.value == resp.Member().value.elements
  {
    match resp.Member()
    case Some(JArray(rs)) => if |rs| > 0 then Some(rs) else None
    case _ => None
  }

  /** `fetchBlogPosts`: `freshIds(i)` is the random id the `i`-th record would get. A `null`
      element makes the `map` callback throw on `post.id`, and the `catch` gives no posts. */
  function FetchBlogPosts(config: Config, response: Response<Json<RawPost>>, freshIds: nat -> string, today: string)
    : (posts: seq<BlogPost>)
    ensures !config.Present() || !response.Ok? ==> posts == []
    ensures response.Ok? && PostRecords(response.body).None? ==> posts == []
    ensures response.Ok? && PostRecords(response.body).Some? && !NoNullElement(PostRecords(response.body).value) ==>
      posts == []
    ensures config.Present() && response.Ok? && PostRecords(response.body).Some? &&
            NoNullElement(PostRecords(response.body).value) ==>
      var rs := PostRecords(response.body).value;
      |posts| == |rs| && forall i :: 0 <= i < |rs| ==> posts[i] == MapPost(rs[i].value, freshIds(i), today)
  {
    if !config.Present() then []
    else
      match response
      case Ok(resp) =>
        (match PostRecords(resp)
         case None => []
         case Some(rs) =>
           if NoNullElement(rs) then seq(|rs|, i requires 0 <= i < |rs| => MapPost(rs[i].value, freshIds(i), today))
           else [])
      case _ => []
  }

  /** `resp.data` is a non-empty array. */
  predicate HasPostArray(resp: Json<RawPost>) {
    resp.Member().Some? && resp.Member().value.JArray? && |resp.Member().value.elements| > 0
  }

  /** A body whose `data` is not a non-empty array (an empty array, `null`, an object, or
      no `data` at all) yields no posts. */
  lemma EmptyDataYieldsNoPosts(config: Config, resp: Json<RawPost>, freshIds: nat -> string, today: string)
    requires !HasPostArray(resp)
    ensures FetchBlogPosts(config, Ok(resp), freshIds, today) == []
  {
  }

  /** One `null` or `undefined` record among the posts gives no posts at all. */
  lemma NullRecordYieldsNoPosts(config: Config, resp: Json<RawPost>, freshIds: nat -> string, today: string, i: nat)
    requires PostRecords(resp).Some? && i < |PostRecords(resp).value|
    requires PostRecords(resp).value[i].None?
    ensures FetchBlogPosts(config, Ok(resp), freshIds, today) == []
  {
  }
}
