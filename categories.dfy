/**
 * The categories collection route: POST creates a category for an
 * administrator; GET lists a page of categories, newest first, optionally
 * filtered by name.
 */
module Categories {
  import opened Wrappers
  import opened Auth
  import Validation
  import Listing

  /** The row `category.create` writes. */
  datatype NewCategory = NewCategory(name: string, slug: string, createdBy: string)

  /** POST: administrators only; then `categorySchema`; then the row, owned by the caller. */
  function Create(user: Option<User>, input: Validation.CategoryInput,
                  slugTaken: string -> bool, isUrl: string -> bool): (r: Reply<NewCategory>)
    ensures !IsAdmin(user) ==> r == Fail(Forbidden)
    ensures IsAdmin(user) && !Validation.ValidCategory(input, slugTaken, isUrl) ==> r == Fail(BadRequest)
    ensures IsAdmin(user) && Validation.ValidCategory(input, slugTaken, isUrl) ==> r.Ok?
    ensures r.Ok? ==>
      r.value.createdBy == user.value.id && Some(r.value.name) == input.name && Some(r.value.slug) == input.slug
  {
    if !IsAdmin(user) then Fail(Forbidden)
    else if !Validation.ValidCategory(input, slugTaken, isUrl) then Fail(BadRequest)
    else Ok(NewCategory(input.name.value, input.slug.value, user.value.id))
  }

  /** A created category has a 2 to 50 character name and a free slug of `[a-z0-9-]`. */
  lemma CreateBounds(user: Option<User>, input: Validation.CategoryInput, slugTaken: string -> bool, isUrl: string -> bool)
    requires Create(user, input, slugTaken, isUrl).Ok?
    ensures var c := Create(user, input, slugTaken, isUrl).value;
      2 <= |c.name| <= 50 && 2 <= |c.slug| <= 50 && Validation.AllIn(c.slug, Validation.IsSlugChar)
      && !slugTaken(c.slug)
  {
    Validation.CategoryBounds(input, slugTaken, isUrl);
  }

  /** A stored category, as far as the filter looks at it. */
  datatype CategoryRow = CategoryRow(id: string, name: string, slug: string)

  /** `search ? { name: { contains: search, mode: 'insensitive' } } : {}`: the search, when there is one. */
  function NameFilter(search: string): (w: Option<string>)
    ensures w.None? <==> search == ""
    ensures w.Some? ==> w.value == search
  {
    if search != "" then Some(search) else None
  }

  /** The rows a filter selects. */
  predicate Selects(w: Option<string>, c: CategoryRow)
  {
    w.Some? ==> Listing.ContainsInsensitive(c.name, w.value)
  }

  /** The empty filter selects every category, and a search selects exactly the names that contain it. */
  lemma NameFilterSelects(search: string, c: CategoryRow)
    ensures Selects(NameFilter(search), c) <==> search == "" || Listing.ContainsInsensitive(c.name, search)
  {
  }

  /** The query parameters, each as `searchParams.get` gives it. */
  datatype Params = Params(page: Option<string>, limit: Option<string>, search: Option<string>)

  /** The `findMany` query; its order is always `createdAt` descending. */
  datatype Query = Query(skip: int, take: int, filter: Option<string>)

  /** GET's query: page 1 and 10 rows unless the parameters say otherwise; a page or limit that is not a number gives none. */
  function PlanQuery(q: Params): (r: Option<Query>)
    ensures r.None? <==> Listing.IntParam(q.page, "1").None? || Listing.IntParam(q.limit, "10").None?
    ensures r.Some? ==>
      var page, limit := Listing.IntParam(q.page, "1").value, Listing.IntParam(q.limit, "10").value;
      && r.value.skip == Listing.Skip(page, limit) && r.value.take == limit
      && r.value.filter == NameFilter(Listing.TextParam(q.search, ""))
  {
    var page, limit := Listing.IntParam(q.page, "1"), Listing.IntParam(q.limit, "10");
    if page.None? || limit.None? then None
    else Some(Query(Listing.Skip(page.value, limit.value), limit.value, NameFilter(Listing.TextParam(q.search, ""))))
  }

  /** Without parameters GET asks for the first ten categories, unfiltered. */
  lemma DefaultQuery()
    ensures PlanQuery(Params(None, None, None)) == Some(Query(0, 10, None))
  {
    Listing.DefaultPaging();
  }

  datatype Pagination = Pagination(total: nat, page: int, totalPages: Option<int>, limit: int)

  /** The reply's `pagination`: `Math.ceil(total / limit)` pages. */
  function Paginate(total: nat, page: int, limit: int): (r: Pagination)
    ensures r.total == total && r.page == page && r.limit == limit
    ensures r.totalPages == Listing.TotalPages(total, limit)
    ensures limit > 0 ==> r.totalPages.Some? && r.totalPages.value * limit >= total
  {
    Pagination(total, page, Listing.TotalPages(total, limit), limit)
  }
}
