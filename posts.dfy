/**
 * The posts collection route: POST creates a post (and its SEO record) for
 * the signed-in user; GET lists a page of posts with a search, a category
 * filter and an order.
 */
module Posts {
  import opened Wrappers
  import opened Auth
  import Text
  import Validation
  import Listing

  // ---------------------------------------------------------------------------
  // POST: create a post

  /** The post row `post.create` writes: the validated fields and the author. */
  datatype NewPost = NewPost(title: string, slug: string, content: string, categoryId: string, authorId: string)

  /** The SEO row `postSEO.create` writes for the new post. */
  datatype NewSeo = NewSeo(data: Validation.SeoMetadata, postId: string)

  /** The writes of the transaction. */
  datatype Created = Created(post: NewPost, seo: Option<NewSeo>)

  /**
   * POST. `newId` is the id the database gives the new post; `slugTaken`,
   * `categoryExists` and `isUrl` are the schema's database and URL checks.
   * A created post is answered with status 201.
   */
  function Create(user: Option<User>, input: Validation.PostInput, newId: string,
                  slugTaken: string -> bool, categoryExists: string -> bool, isUrl: string -> bool): (r: Reply<Created>)
    ensures user.None? ==> r == Fail(Unauthorized)
    ensures user.Some? && !Validation.ValidPost(input, slugTaken, categoryExists, isUrl) ==> r == Fail(BadRequest)
    ensures user.Some? && Validation.ValidPost(input, slugTaken, categoryExists, isUrl) ==> r.Ok?
    ensures r.Ok? ==>
      && r.value.post.authorId == user.value.id
      && Some(r.value.post.title) == input.title && Some(r.value.post.slug) == input.slug
      && Some(r.value.post.content) == input.content && Some(r.value.post.categoryId) == input.categoryId
      && (r.value.seo.Some? <==> input.seo.Some?)
      && (r.value.seo.Some? ==> r.value.seo.value == NewSeo(input.seo.value, newId))
  {
    if user.None? then Fail(Unauthorized)
    else if !Validation.ValidPost(input, slugTaken, categoryExists, isUrl) then Fail(BadRequest)
    else
      var post := NewPost(input.title.value, input.slug.value, input.content.value,
                          input.categoryId.value, user.value.id);
      Ok(Created(post, if input.seo.Some? then Some(NewSeo(input.seo.value, newId)) else None))
  }

  /** Any signed-in user, not only an administrator, may create a post, and it respects the post bounds. */
  lemma CreateBounds(user: Option<User>, input: Validation.PostInput, newId: string,
                     slugTaken: string -> bool, categoryExists: string -> bool, isUrl: string -> bool)
    requires Create(user, input, newId, slugTaken, categoryExists, isUrl).Ok?
    ensures var p := Create(user, input, newId, slugTaken, categoryExists, isUrl).value.post;
      10 <= |p.title| <= 100 && |p.content| >= 100 && 2 <= |p.slug| <= 50 && !slugTaken(p.slug)
      && categoryExists(p.categoryId)
  {
    Validation.PostBounds(input, slugTaken, categoryExists, isUrl);
    Validation.SlugAcceptIff(input.slug.value, isUrl);
  }

  // ---------------------------------------------------------------------------
  // GET: list posts

  /** A stored post, as far as the filter, the order and the summary look at it. */
  datatype PostRow = PostRow(id: string, title: string, slug: string, content: string,
                             categoryId: string, createdAt: int, updatedAt: int)

  /**
   * The `where` object: `OR` over title and content when `search` is set,
   * and `categoryId` when `category` is set.
   */
  datatype Where = Where(search: Option<string>, categoryId: Option<string>)

  /** The rows a `where` object selects. */
  predicate Selects(w: Where, p: PostRow)
  {
    && (w.search.Some? ==>
          Listing.ContainsInsensitive(p.title, w.search.value) || Listing.ContainsInsensitive(p.content, w.search.value))
    && (w.categoryId.Some? ==> p.categoryId == w.categoryId.value)
  }

  /** The `where` object is built field by field, each only when its parameter is non-empty. */
  method BuildWhere(search: string, category: string) returns (w: Where)
    ensures w.search.Some? <==> search != ""
    ensures w.categoryId.Some? <==> category != ""
    ensures w.search.Some? ==> w.search.value == search
    ensures w.categoryId.Some? ==> w.categoryId.value == category
    ensures forall p :: Selects(w, p) <==>
      && (search == "" || Listing.ContainsInsensitive(p.title, search) || Listing.ContainsInsensitive(p.content, search))
      && (category == "" || p.categoryId == category)
  {
    w := Where(None, None);
    if search != "" {
      w := w.(search := Some(search));
    }
    if category != "" {
      w := w.(categoryId := Some(category));
    }
  }

  datatype Direction = Asc | Desc

  /** The `orderBy` object: a direction for `createdAt`, or no order at all. */
  method BuildOrder(sort: string) returns (createdAt: Option<Direction>)
    ensures createdAt == Some(Desc) <==> sort == "newest"
    ensures createdAt == Some(Asc) <==> sort == "oldest"
    ensures createdAt.None? <==> sort != "newest" && sort != "oldest"
  {
    createdAt := None;
    if sort == "newest" {
      createdAt := Some(Desc);
    } else if sort == "oldest" {
      createdAt := Some(Asc);
    }
  }

  /** The query parameters, each as `searchParams.get` gives it. */
  datatype Params = Params(page: Option<string>, limit: Option<string>, search: Option<string>,
                           category: Option<string>, sort: Option<string>)

  /** The `findMany` query. */
  datatype Query = Query(skip: int, take: int, filter: Where, createdAt: Option<Direction>)

  /**
   * GET's query: page 1, 10 rows, no filter and newest first unless the
   * parameters say otherwise. A page or a limit that is not a number gives
   * no query.
   */
  method PlanQuery(q: Params) returns (r: Option<Query>)
    ensures r.None? <==> Listing.IntParam(q.page, "1").None? || Listing.IntParam(q.limit, "10").None?
    ensures r.Some? ==>
      var page, limit := Listing.IntParam(q.page, "1").value, Listing.IntParam(q.limit, "10").value;
      var search, category := Listing.TextParam(q.search, ""), Listing.TextParam(q.category, "");
      && r.value.skip == Listing.Skip(page, limit) && r.value.take == limit
      && (forall p :: Selects(r.value.filter, p) <==>
            && (search == "" || Listing.ContainsInsensitive(p.title, search) || Listing.ContainsInsensitive(p.content, search))
            && (category == "" || p.categoryId == category))
      && (r.value.createdAt == Some(Desc) <==> Listing.TextParam(q.sort, "newest") == "newest")
      && (r.value.createdAt == Some(Asc) <==> Listing.TextParam(q.sort, "newest") == "oldest")
  {
    var page := Listing.IntParam(q.page, "1");
    var limit := Listing.IntParam(q.limit, "10");
    if page.None? || limit.None? {
      return None;
    }
    var w := BuildWhere(Listing.TextParam(q.search, ""), Listing.TextParam(q.category, ""));
    var order := BuildOrder(Listing.TextParam(q.sort, "newest"));
    r := Some(Query(Listing.Skip(page.value, limit.value), limit.value, w, order));
  }

  // ---------------------------------------------------------------------------
  // The reply

  const Ellipsis: string := "..."

  /** `content.substring(0, 150) + '...'`. */
  function Excerpt(content: string): (r: string)
    ensures |r| <= 153 && |r| >= 3
    ensures r[|r| - 3..] == Ellipsis
    ensures |r| - 3 <= |content| && r[..|r| - 3] == content[..|r| - 3]
    ensures |content| >= 150 <==> |r| == 153
  {
    Text.Prefix(content, 150) + Ellipsis
  }

  /** A short post is shown whole before the ellipsis. */
  lemma ShortExcerpt(content: string)
    requires |content| <= 150
    ensures Excerpt(content) == content + Ellipsis
  {
    assert content[..|content|] == content;
  }

  /** A listed post: the row with its content replaced by the excerpt. */
  datatype Summary = Summary(id: string, title: string, slug: string, excerpt: string, createdAt: int, updatedAt: int)

  datatype Pagination = Pagination(total: nat, page: int, totalPages: Option<int>, limit: int)

  datatype Listed = Listed(data: seq<Summary>, pagination: Pagination)

  /** The reply for the rows of the page and the number of rows the filter selects. */
  function ListReply(rows: seq<PostRow>, total: nat, page: int, limit: int): (r: Listed)
    ensures |r.data| == |rows|
    ensures forall i :: 0 <= i < |rows| ==>
      var s, p := r.data[i], rows[i];
      s.id == p.id && s.title == p.title && s.slug == p.slug && s.createdAt == p.createdAt
      && s.updatedAt == p.updatedAt && s.excerpt == Excerpt(p.content)
    ensures r.pagination.total == total && r.pagination.page == page && r.pagination.limit == limit
    ensures r.pagination.totalPages == Listing.TotalPages(total, limit)
  {
    var data := seq(|rows|, i requires 0 <= i < |rows| =>
      Summary(rows[i].id, rows[i].title, rows[i].slug, Excerpt(rows[i].content), rows[i].createdAt, rows[i].updatedAt));
    Listed(data, Pagination(total, page, Listing.TotalPages(total, limit), limit))
  }
}
