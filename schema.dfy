/**
 * The structured-data route: POST stores schema.org markup for a post, a
 * page, a category or a free-standing record; GET renders the stored markup
 * as JSON-LD; and the default schema a post or a page gets when it has none.
 */
module Schema {
  import opened Wrappers
  import opened Auth
  import opened Entities
  import opened Json
  import Text
  import Seo

  // ---------------------------------------------------------------------------
  // POST: store markup

  /** What markup is attached to: one of the entity kinds, or nothing (`CUSTOM`). */
  datatype Target = Attached(e: EntityType) | Custom

  function TargetName(t: Target): string
  {
    match t
    case Attached(e) => EntityName(e)
    case Custom => "CUSTOM"
  }

  /** `z.enum(['POST', 'PAGE', 'CATEGORY', 'CUSTOM'])`. */
  function ParseTarget(s: string): (r: Option<Target>)
    ensures forall t :: r == Some(t) <==> TargetName(t) == s
  {
    if s == "CUSTOM" then Some(Custom)
    else match ParseEntity(s)
      case Some(e) => Some(Attached(e))
      case None => None
  }

  /** The schema.org types a request may name. */
  const SchemaTypes: seq<string> := ["Article", "NewsArticle", "BlogPosting", "WebPage", "AboutPage",
    "ContactPage", "BreadcrumbList", "FAQPage", "Product"]

  datatype SchemaRequest = SchemaRequest(
    entityType: Option<string>, entityId: Option<string>, schemaType: Option<string>, markupData: Option<Json>)

  /** `schemaMarkupSchema`: a known target, a known type and an object of markup; the id may be absent. */
  predicate ValidRequest(q: SchemaRequest)
  {
    && q.entityType.Some? && ParseTarget(q.entityType.value).Some?
    && q.schemaType.Some? && q.schemaType.value in SchemaTypes
    && q.markupData.Some? && q.markupData.value.JObj?
  }

  /** The write POST issues. */
  datatype Write =
      /** `upsert` of the record whose `keyField` is `entityId` in `model`, setting type and markup. */
    | UpsertSchema(model: Seo.SeoModel, keyField: string, entityId: Option<string>,
                   schemaType: string, markup: map<string, Json>)
      /** `customSchema.create` of a record owned by `createdBy`. */
    | CreateCustom(schemaType: string, markup: map<string, Json>, createdBy: string)

  /** POST: administrators only; then the body is validated; then the write for its target. */
  function Post(user: Option<User>, q: SchemaRequest): (r: Reply<Write>)
    ensures !IsAdmin(user) ==> r == Fail(Forbidden)
    ensures IsAdmin(user) && !ValidRequest(q) ==> r == Fail(BadRequest)
    ensures IsAdmin(user) && ValidRequest(q) ==> r.Ok?
    ensures r.Ok? ==> q.schemaType.Some? && q.markupData.Some? && q.markupData.value.JObj?
    ensures (r.Ok? && q.entityType == Some(TargetName(Custom))) ==>
      r.value == CreateCustom(q.schemaType.value, q.markupData.value.fields, user.value.id)
    ensures forall e :: (r.Ok? && q.entityType == Some(EntityName(e))) ==>
      r.value == UpsertSchema(Seo.Dispatch(e), Seo.KeyField(e), q.entityId,
                              q.schemaType.value, q.markupData.value.fields)
  {
    if !IsAdmin(user) then Fail(Forbidden)
    else if !ValidRequest(q) then Fail(BadRequest)
    else
      var ty, markup := q.schemaType.value, q.markupData.value.fields;
      match ParseTarget(q.entityType.value).value
      case Custom => Ok(CreateCustom(ty, markup, user.value.id))
      case Attached(e) => Ok(UpsertSchema(Seo.Dispatch(e), Seo.KeyField(e), q.entityId, ty, markup))
  }

  /** An accepted write names a known schema.org type, and a free-standing record is owned by the caller. */
  lemma PostAccepted(user: Option<User>, q: SchemaRequest)
    requires Post(user, q).Ok?
    ensures IsAdmin(user)
    ensures Post(user, q).value.schemaType in SchemaTypes
    ensures Post(user, q).value.CreateCustom? <==> q.entityType == Some("CUSTOM")
    ensures Post(user, q).value.CreateCustom? ==> Post(user, q).value.createdBy == user.value.id
    ensures Post(user, q).value.UpsertSchema? ==>
      Post(user, q).value.keyField in {"postId", "pageId", "categoryId"}
  {
    Seo.KeyFields(PostEntity);
  }

  // ---------------------------------------------------------------------------
  // GET: render as JSON-LD

  const SchemaOrg: string := "https://schema.org"

  /** A stored record as GET selects it; either column may be null. */
  datatype StoredSchema = StoredSchema(schemaType: Option<string>, schemaMarkup: Option<map<string, Json>>)

  /** A nullable column as a JSON value. */
  function NullableString(s: Option<string>): Json
  {
    if s.Some? then JStr(s.value) else JNull
  }

  /** Spreading a markup column: a null column adds nothing. */
  function Spread(m: Option<map<string, Json>>): map<string, Json>
  {
    if m.Some? then m.value else map[]
  }

  /**
   * `{'@context': ..., '@type': ..., ...markup}`. The keyword entries come
   * first and the spread later, so a key of the markup replaces them. A
   * `@type` of `undefined` (`ty` is None) is dropped when the reply is
   * serialised.
   */
  function Ld(ty: Option<Json>, markup: map<string, Json>): map<string, Json>
  {
    var keywords := map["@context" := JStr(SchemaOrg)];
    (if ty.Some? then keywords["@type" := ty.value] else keywords) + markup
  }

  /** One record of an array. */
  function ItemLd(item: StoredSchema): map<string, Json>
  {
    Ld(Some(NullableString(item.schemaType)), Spread(item.schemaMarkup))
  }

  /** A single lookup: `data?.schemaType` and `...data?.schemaMarkup` on a record or on nothing. */
  function SingleLd(data: Option<StoredSchema>): map<string, Json>
  {
    if data.Some? then ItemLd(data.value) else Ld(None, map[])
  }

  datatype Rendered = One(obj: map<string, Json>) | Many(objs: seq<map<string, Json>>)

  /** `generateJSONLD` over the list of free-standing records: one object per record, in order. */
  function ListLd(items: seq<StoredSchema>): (r: seq<map<string, Json>>)
    ensures |r| == |items|
    ensures forall i :: 0 <= i < |items| ==> r[i] == ItemLd(items[i])
  {
    seq(|items|, i requires 0 <= i < |items| => ItemLd(items[i]))
  }

  /**
   * GET. `find(model, keyField, id)` is the record of the table whose key
   * field holds the id; `customs` are the free-standing records. Any other
   * entity type, `CUSTOM` and a missing one included, lists the
   * free-standing records.
   */
  function Get(entityType: Option<string>, entityId: Option<string>,
               find: (Seo.SeoModel, string, Option<string>) -> Option<StoredSchema>,
               customs: seq<StoredSchema>): (r: Rendered)
    ensures forall e :: entityType == Some(EntityName(e)) ==>
      r == One(SingleLd(find(Seo.Dispatch(e), Seo.KeyField(e), entityId)))
    ensures (entityType.None? || ParseEntity(entityType.value).None?) ==> r == Many(ListLd(customs))
  {
    if entityType.Some? && ParseEntity(entityType.value).Some? then
      var e := ParseEntity(entityType.value).value;
      One(SingleLd(find(Seo.Dispatch(e), Seo.KeyField(e), entityId)))
    else Many(ListLd(customs))
  }

  /**
   * JSON-LD 1.1, sections 3.1 and 3.5: every key and value of the markup is
   * kept, the only keys added are `@context` and `@type`, and those two hold
   * the schema.org context and the given type unless the markup sets them.
   */
  lemma LdMerge(ty: Option<Json>, markup: map<string, Json>)
    ensures var r := Ld(ty, markup);
      && (forall k :: k in markup ==> k in r && r[k] == markup[k])
      && (forall k :: k in r ==> k in markup || k == "@context" || (k == "@type" && ty.Some?))
      && ("@context" !in markup ==> "@context" in r && r["@context"] == JStr(SchemaOrg))
      && (("@type" !in markup && ty.Some?) ==> "@type" in r && r["@type"] == ty.value)
      && ("@type" !in markup && ty.None? ==> "@type" !in r)
  {
  }

  /** A stored record renders as its markup plus the context and its own type. */
  lemma ItemLdKeys(item: StoredSchema)
    ensures ItemLd(item).Keys == {"@context", "@type"} + Spread(item.schemaMarkup).Keys
    ensures "@type" !in Spread(item.schemaMarkup) ==> ItemLd(item)["@type"] == NullableString(item.schemaType)
  {
  }

  /** A lookup that finds nothing renders as the bare context. */
  lemma MissingLd()
    ensures SingleLd(None) == map["@context" := JStr(SchemaOrg)]
  {
  }

  // ---------------------------------------------------------------------------
  // The default schema of a post or a page

  datatype PostRecord = PostRecord(title: string, content: string, createdAt: string, updatedAt: string,
                                   authorName: Option<string>)
  datatype PageRecord = PageRecord(title: string, content: string)

  const BlogPostingType: string := "BlogPosting"
  const PersonType: string := "Person"
  const OrganizationType: string := "Organization"
  const PublisherName: string := "Sajjad Akbari"
  const WebPageType: string := "WebPage"

  /** `{'@type': ..., name: ...}`; an undefined or null name is left out of the object. */
  function Named(ty: string, name: Option<string>): Json
  {
    var fields := map["@type" := JStr(ty)];
    JObj(if name.Some? then fields["name" := JStr(name.value)] else fields)
  }

  function PostSchema(post: PostRecord): Json
  {
    JObj(map[
      "@type" := JStr(BlogPostingType),
      "headline" := JStr(post.title),
      "description" := JStr(Text.Prefix(post.content, 200)),
      "datePublished" := JStr(post.createdAt),
      "dateModified" := JStr(post.updatedAt),
      "author" := Named(PersonType, post.authorName),
      "publisher" := Named(OrganizationType, Some(PublisherName))])
  }

  function PageSchema(page: PageRecord): Json
  {
    JObj(map[
      "@type" := JStr(WebPageType),
      "headline" := JStr(page.title),
      "description" := JStr(Text.Prefix(page.content, 200))])
  }

  /**
   * `generateDefaultSchema`: a post or a page found by id gets a schema; any
   * other entity type, and an id that finds nothing, get none.
   */
  function DefaultSchema(entityType: string, entityId: string,
                         findPost: string -> Option<PostRecord>,
                         findPage: string -> Option<PageRecord>): (r: Option<Json>)
    ensures r.Some? <==> (entityType == "POST" && findPost(entityId).Some?) ||
                         (entityType == "PAGE" && findPage(entityId).Some?)
  {
    if entityType == "POST" then
      (match findPost(entityId) case Some(post) => Some(PostSchema(post)) case None => None)
    else if entityType == "PAGE" then
      (match findPage(entityId) case Some(page) => Some(PageSchema(page)) case None => None)
    else None
  }

  /** The description of a default schema is its content's first at most 200 characters. */
  predicate DescribedBy(j: Json, content: string)
  {
    && j.JObj? && "description" in j.fields && j.fields["description"].JStr?
    && var d := j.fields["description"].s;
       |d| <= 200 && |d| <= |content| && d == content[..|d|] && (|content| >= 200 ==> |d| == 200)
  }

  /** A post's default schema is a `BlogPosting` published by the site's owner; a page's is a `WebPage`. */
  lemma DefaultSchemaShape(entityType: string, entityId: string,
                           findPost: string -> Option<PostRecord>,
                           findPage: string -> Option<PageRecord>)
    requires DefaultSchema(entityType, entityId, findPost, findPage).Some?
    ensures var j := DefaultSchema(entityType, entityId, findPost, findPage).value;
      && j.JObj? && "@type" in j.fields && "headline" in j.fields
      && (entityType == "POST" ==>
            && j.fields["@type"] == JStr("BlogPosting")
            && j.fields["headline"] == JStr(findPost(entityId).value.title)
            && DescribedBy(j, findPost(entityId).value.content)
            && "publisher" in j.fields && j.fields["publisher"] == JObj(map["@type" := JStr("Organization"), "name" := JStr("Sajjad Akbari")]))
      && (entityType == "PAGE" ==>
            && j.fields["@type"] == JStr("WebPage")
            && j.fields["headline"] == JStr(findPage(entityId).value.title)
            && DescribedBy(j, findPage(entityId).value.content)
            && j.fields.Keys == {"@type", "headline", "description"})
  {
  }
}
