/**
 * The SEO settings route: which table and key a request's entity type
 * selects, the settings POST stores, the settings GET returns (with its
 * defaults) and the sitemap PUT builds.
 */
module Seo {
  import opened Wrappers
  import opened Auth
  import opened Entities
  import Json
  import Text
  import Seqs
  import Validation
  import Numeric

  // ---------------------------------------------------------------------------
  // Entity dispatch

  /** The three SEO tables. */
  datatype SeoModel = PostSeoModel | PageSeoModel | CategorySeoModel

  function ModelName(m: SeoModel): string
  {
    match m
    case PostSeoModel => "postSEO"
    case PageSeoModel => "pageSEO"
    case CategorySeoModel => "categorySEO"
  }

  /** The `switch (entityType)` of POST and GET. */
  function Dispatch(e: EntityType): (m: SeoModel)
    ensures e == PostEntity <==> m == PostSeoModel
    ensures e == PageEntity <==> m == PageSeoModel
    ensures e == CategoryEntity <==> m == CategorySeoModel
  {
    match e
    case PostEntity => PostSeoModel
    case PageEntity => PageSeoModel
    case CategoryEntity => CategorySeoModel
  }

  /** `` `${entityType.toLowerCase()}Id` ``: the field of the table that holds the entity's id. */
  function KeyField(e: EntityType): string
  {
    Text.Lower(EntityName(e)) + "Id"
  }

  /** The key fields are `postId`, `pageId` and `categoryId`, and the table is named after the same word. */
  lemma KeyFields(e: EntityType)
    ensures KeyField(PostEntity) == "postId"
    ensures KeyField(PageEntity) == "pageId"
    ensures KeyField(CategoryEntity) == "categoryId"
    ensures ModelName(Dispatch(e)) == Text.Lower(EntityName(e)) + "SEO"
  {
    assert Text.Lower("POST") == "post";
    assert Text.Lower("PAGE") == "page";
    assert Text.Lower("CATEGORY") == "category";
  }

  /** Different entity types select different tables and different key fields. */
  lemma DispatchInjective(e: EntityType, f: EntityType)
    requires e != f
    ensures Dispatch(e) != Dispatch(f) && KeyField(e) != KeyField(f)
  {
    KeyFields(e);
  }

  // ---------------------------------------------------------------------------
  // POST: store the settings

  datatype TwitterCard = TwitterCard(cardType: string, site: Option<string>, creator: Option<string>)

  /** The settings fields of a request (everything but the entity type and id). */
  datatype SeoData = SeoData(
    metaTitle: Option<string>, metaDescription: Option<string>, metaKeywords: Option<string>,
    canonicalUrl: Option<string>, noIndex: Option<bool>, openGraphImage: Option<string>,
    twitterCard: Option<TwitterCard>, schemaMarkup: Option<map<string, Json.Json>>)

  datatype SeoRequest = SeoRequest(entityType: Option<string>, entityId: Option<string>, data: SeoData)

  /** `z.enum(['summary', 'summary_large_image', 'app', 'player'])`. */
  predicate KnownCardType(t: string)
  {
    t == "summary" || t == "summary_large_image" || t == "app" || t == "player"
  }

  /** `seoManagementSchema`; `isUrl` is the URL parser's verdict. */
  predicate ValidRequest(q: SeoRequest, isUrl: string -> bool)
  {
    && q.entityType.Some? && ParseEntity(q.entityType.value).Some?
    && q.entityId.Some?
    && Validation.Optional([Validation.MaxLength(100)], q.data.metaTitle, isUrl)
    && Validation.Optional([Validation.MaxLength(160)], q.data.metaDescription, isUrl)
    && Validation.Optional(Validation.UrlChecks, q.data.canonicalUrl, isUrl)
    && Validation.Optional(Validation.UrlChecks, q.data.openGraphImage, isUrl)
    && (q.data.twitterCard.Some? ==> KnownCardType(q.data.twitterCard.value.cardType))
  }

  /** The `upsert` POST issues: the record with `keyField = entityId` in `model` gets `update`, or is created. */
  datatype Upsert = Upsert(model: SeoModel, keyField: string, entityId: string, update: SeoData)

  /** POST: administrators only; then the body is validated; then the upsert. */
  function Post(user: Option<User>, q: SeoRequest, isUrl: string -> bool): (r: Reply<Upsert>)
    ensures !IsAdmin(user) ==> r == Fail(Forbidden)
    ensures IsAdmin(user) && !ValidRequest(q, isUrl) ==> r == Fail(BadRequest)
    ensures IsAdmin(user) && ValidRequest(q, isUrl) ==> r.Ok?
    ensures r.Ok? ==> var e := ParseEntity(q.entityType.value).value;
      r.value == Upsert(Dispatch(e), KeyField(e), q.entityId.value, q.data)
  {
    if !IsAdmin(user) then Fail(Forbidden)
    else if !ValidRequest(q, isUrl) then Fail(BadRequest)
    else
      var e := ParseEntity(q.entityType.value).value;
      Ok(Upsert(Dispatch(e), KeyField(e), q.entityId.value, q.data))
  }

  /** A stored title and description respect the request bounds. */
  lemma PostBounds(user: Option<User>, q: SeoRequest, isUrl: string -> bool)
    requires Post(user, q, isUrl).Ok?
    ensures var d := Post(user, q, isUrl).value.update;
      (d.metaTitle.Some? ==> |d.metaTitle.value| <= 100) &&
      (d.metaDescription.Some? ==> |d.metaDescription.value| <= 160)
  {
  }

  // ---------------------------------------------------------------------------
  // GET: read the settings

  /** The title and content of a post, for the defaults. */
  datatype PostBasics = PostBasics(title: string, content: string)

  datatype SeoView =
    | Stored(data: SeoData)
    | Defaults(metaTitle: string, metaDescription: string, noIndex: bool)

  /**
   * GET. `stored(model, keyField, id)` is the settings record of the table
   * whose key field holds the id, and `findPost(id)` the post with that id.
   */
  function Get(entityType: Option<string>, entityId: Option<string>,
               stored: (SeoModel, string, string) -> Option<SeoData>,
               findPost: string -> Option<PostBasics>): (r: Reply<SeoView>)
    ensures !Truthy(entityType) || !Truthy(entityId) ==> r == Fail(BadRequest)
    ensures Truthy(entityType) && ParseEntity(entityType.value).None? ==> r == Fail(BadRequest)
    ensures r.Ok? ==> Truthy(entityType) && Truthy(entityId) && ParseEntity(entityType.value).Some?
    ensures r.Ok? ==>
      var e := ParseEntity(entityType.value).value;
      var found := stored(Dispatch(e), KeyField(e), entityId.value);
      (found.Some? <==> r.value.Stored?) && (found.Some? ==> r.value.data == found.value)
  {
    if !Truthy(entityType) || !Truthy(entityId) then Fail(BadRequest)
    else match ParseEntity(entityType.value)
      case None => Fail(BadRequest)
      case Some(e) =>
        match stored(Dispatch(e), KeyField(e), entityId.value)
        case Some(d) => Ok(Stored(d))
        case None => Ok(DefaultView(e, findPost(entityId.value)))
  }

  /** The defaults when no settings are stored: from the post for a post, empty otherwise. */
  function DefaultView(e: EntityType, post: Option<PostBasics>): (v: SeoView)
    ensures v.Defaults? && !v.noIndex && |v.metaDescription| <= 160
    ensures e != PostEntity || post.None? ==> v.metaTitle == "" && v.metaDescription == ""
    ensures e == PostEntity && post.Some? ==>
      v.metaTitle == post.value.title &&
      |v.metaDescription| == Numeric.Min(160, |post.value.content|) &&
      v.metaDescription == post.value.content[..|v.metaDescription|]
  {
    if e == PostEntity && post.Some? then
      Defaults(post.value.title, Text.Prefix(post.value.content, 160), false)
    else
      Defaults("", "", false)
  }

  // ---------------------------------------------------------------------------
  // PUT: the sitemap

  /** A post, page or category that goes into the sitemap (its date as printed). */
  datatype Listed = Listed(slug: string, updatedAt: string)

  /** One `<url>` entry of the sitemap. */
  datatype UrlEntry = UrlEntry(kind: EntityType, slug: string, lastmod: string)

  function LocPrefix(k: EntityType): string
  {
    match k
    case PostEntity => "https://sajjadakbari.ir/posts/"
    case PageEntity => "https://sajjadakbari.ir/pages/"
    case CategoryEntity => "https://sajjadakbari.ir/categories/"
  }

  function ChangeFreq(k: EntityType): string
  {
    match k
    case PostEntity => "weekly"
    case PageEntity => "monthly"
    case CategoryEntity => "weekly"
  }

  function Priority(k: EntityType): string
  {
    match k
    case PostEntity => "0.8"
    case PageEntity => "0.6"
    case CategoryEntity => "0.7"
  }

  const SitemapHead: string := "<?xml version=\"1.0\" encoding=\"UTF-8\"?>\n      <urlset xmlns=\"http://www.sitemaps.org/schemas/sitemap/0.9\">\n        "
  const SitemapTail: string := "\n      </urlset>\n    "

  /** The template of one entry. */
  function UrlBlock(u: UrlEntry): string
  {
    "\n            <url>\n              <loc>" + LocPrefix(u.kind) + u.slug + "</loc>\n              <lastmod>" + u.lastmod +
    "</lastmod>\n              <changefreq>" + ChangeFreq(u.kind) + "</changefreq>\n              <priority>" + Priority(u.kind) + "</priority>\n            </url>\n          "
  }

  function EntriesOf(k: EntityType, xs: seq<Listed>): (r: seq<UrlEntry>)
    ensures |r| == |xs| && forall i :: 0 <= i < |xs| ==> r[i] == UrlEntry(k, xs[i].slug, xs[i].updatedAt)
  {
    seq(|xs|, i requires 0 <= i < |xs| => UrlEntry(k, xs[i].slug, xs[i].updatedAt))
  }

  /** The entries in the order the sitemap lists them: posts, then pages, then categories. */
  function Entries(posts: seq<Listed>, pages: seq<Listed>, categories: seq<Listed>): (r: seq<UrlEntry>)
    ensures |r| == |posts| + |pages| + |categories|
    ensures forall i :: 0 <= i < |posts| ==> r[i] == UrlEntry(PostEntity, posts[i].slug, posts[i].updatedAt)
    ensures forall i :: 0 <= i < |pages| ==>
      r[|posts| + i] == UrlEntry(PageEntity, pages[i].slug, pages[i].updatedAt)
    ensures forall i :: 0 <= i < |categories| ==>
      r[|posts| + |pages| + i] == UrlEntry(CategoryEntity, categories[i].slug, categories[i].updatedAt)
  {
    EntriesOf(PostEntity, posts) + EntriesOf(PageEntity, pages) + EntriesOf(CategoryEntity, categories)
  }

  function Blocks(es: seq<UrlEntry>): (r: seq<string>)
    ensures |r| == |es| && forall i :: 0 <= i < |es| ==> r[i] == UrlBlock(es[i])
  {
    seq(|es|, i requires 0 <= i < |es| => UrlBlock(es[i]))
  }

  /** The sitemap document. */
  function Sitemap(posts: seq<Listed>, pages: seq<Listed>, categories: seq<Listed>): string
  {
    SitemapHead + Text.Concat(Blocks(Entries(posts, pages, categories))) + SitemapTail
  }

  lemma BlocksAppend(a: seq<UrlEntry>, b: seq<UrlEntry>)
    ensures Blocks(a + b) == Blocks(a) + Blocks(b)
  {
    var l, r := Blocks(a + b), Blocks(a) + Blocks(b);
    assert |l| == |r|;
    forall i | 0 <= i < |l| ensures l[i] == r[i] {
      if i < |a| {
        assert l[i] == UrlBlock(a[i]);
      } else {
        assert l[i] == UrlBlock(b[i - |a|]);
      }
    }
  }

  /** The entries of one kind, rendered. */
  function Section(k: EntityType, xs: seq<Listed>): string
  {
    Text.Concat(Blocks(EntriesOf(k, xs)))
  }

  /** The entries of the document are the posts', then the pages', then the categories'. */
  lemma {:induction false} EntriesSections(posts: seq<Listed>, pages: seq<Listed>, categories: seq<Listed>)
    ensures Text.Concat(Blocks(Entries(posts, pages, categories))) ==
      Section(PostEntity, posts) + Section(PageEntity, pages) + Section(CategoryEntity, categories)
  {
    var a, b, c := EntriesOf(PostEntity, posts), EntriesOf(PageEntity, pages), EntriesOf(CategoryEntity, categories);
    BlocksAppend(a + b, c);
    BlocksAppend(a, b);
    Text.ConcatAppend(Blocks(a) + Blocks(b), Blocks(c));
    Text.ConcatAppend(Blocks(a), Blocks(b));
  }

  /** The document is the head, the posts' entries, the pages', the categories', and the tail. */
  lemma SitemapSections(posts: seq<Listed>, pages: seq<Listed>, categories: seq<Listed>)
    ensures Sitemap(posts, pages, categories) ==
      SitemapHead +
      (Section(PostEntity, posts) + Section(PageEntity, pages) + Section(CategoryEntity, categories)) +
      SitemapTail
  {
    EntriesSections(posts, pages, categories);
  }

  /** PUT: administrators only; the listed records are those with an SEO row whose `noIndex` is false. */
  function Put(user: Option<User>, posts: seq<Listed>, pages: seq<Listed>, categories: seq<Listed>): (r: Reply<string>)
    ensures !IsAdmin(user) <==> r == Fail(Forbidden)
    ensures r.Ok? ==> r.value == Sitemap(posts, pages, categories)
  {
    if !IsAdmin(user) then Fail(Forbidden) else Ok(Sitemap(posts, pages, categories))
  }

  /** The value words of `<changefreq>` the sitemap protocol defines. */
  predicate ProtocolChangeFreq(s: string)
  {
    s == "always" || s == "hourly" || s == "daily" || s == "weekly" ||
    s == "monthly" || s == "yearly" || s == "never"
  }

  /** A `<priority>` of the form `0.d`, which lies between 0.0 and 1.0 as the protocol requires. */
  predicate ProtocolPriority(s: string)
  {
    |s| == 3 && s[0] == '0' && s[1] == '.' && '0' <= s[2] <= '9'
  }

  /** Per kind: the location prefix, a protocol `changefreq` value and a protocol `priority`. */
  lemma EntryFields(k: EntityType)
    ensures ProtocolChangeFreq(ChangeFreq(k)) && ProtocolPriority(Priority(k))
    ensures k == PostEntity ==> ChangeFreq(k) == "weekly" && Priority(k) == "0.8"
    ensures k == PageEntity ==> ChangeFreq(k) == "monthly" && Priority(k) == "0.6"
    ensures k == CategoryEntity ==> ChangeFreq(k) == "weekly" && Priority(k) == "0.7"
    ensures Text.StartsWith(LocPrefix(k), "https://sajjadakbari.ir/")
  {
  }

  /** Characters that the sitemap protocol requires to be written as entities inside a value. */
  predicate NeedsEscape(c: char)
  {
    c == '&' || c == '\'' || c == '"' || c == '<' || c == '>'
  }

  /** A slug the slug schema accepts needs no escaping inside `<loc>`. */
  lemma ValidSlugNeedsNoEscape(slug: string, isUrl: string -> bool)
    requires Validation.Accepts(Validation.SlugChecks, slug, isUrl)
    ensures forall i :: 0 <= i < |slug| ==> !NeedsEscape(slug[i])
  {
    Validation.SlugAcceptIff(slug, isUrl);
  }
}
