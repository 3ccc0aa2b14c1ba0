/**
 * The input schemas of the content routes: each string field carries a list
 * of checks (minimum and maximum length, a pattern, a URL test), a value is
 * accepted when no check fails, and `.partial()` makes every field optional.
 */
module Validation {
  import opened Wrappers
  import Entities

  // ---------------------------------------------------------------------------
  // Character classes and patterns

  /** `[a-z0-9-]`. */
  predicate IsSlugChar(c: char)
  {
    ('a' <= c <= 'z') || ('0' <= c <= '9') || c == '-'
  }

  /** `\d` (without the unicode flag). */
  predicate IsDigitChar(c: char)
  {
    '0' <= c <= '9'
  }

  /** `\w` (without the unicode flag). */
  predicate IsWordChar(c: char)
  {
    ('a' <= c <= 'z') || ('A' <= c <= 'Z') || ('0' <= c <= '9') || c == '_'
  }

  predicate AllIn(s: string, cls: char -> bool)
  {
    forall i :: 0 <= i < |s| ==> cls(s[i])
  }

  /** `^[a-z0-9-]+$`. */
  predicate SlugPattern(s: string)
  {
    |s| >= 1 && AllIn(s, IsSlugChar)
  }

  /** `^\d+$`. */
  predicate DigitsPattern(s: string)
  {
    |s| >= 1 && AllIn(s, IsDigitChar)
  }

  /**
   * `^@?(\w){1,15}$`: the string splits into what `@?` takes (nothing or one
   * `@`) and a run of 1 to 15 word characters.
   */
  predicate TwitterPattern(s: string)
  {
    exists k :: 0 <= k <= 1 && k <= |s| && (k == 1 ==> s[0] == '@') &&
      1 <= |s| - k <= 15 && AllIn(s[k..], IsWordChar)
  }

  /** The handle is an optional leading `@` and then 1 to 15 word characters, whichever way `@?` is read. */
  lemma TwitterPatternIff(s: string)
    ensures TwitterPattern(s) <==>
      var name := if |s| > 0 && s[0] == '@' then s[1..] else s;
      1 <= |name| <= 15 && AllIn(name, IsWordChar)
  {
    var name := if |s| > 0 && s[0] == '@' then s[1..] else s;
    if TwitterPattern(s) {
      var k :| 0 <= k <= 1 && k <= |s| && (k == 1 ==> s[0] == '@') &&
        1 <= |s| - k <= 15 && AllIn(s[k..], IsWordChar);
      assert s[k..][0] == s[k];
      assert s[k..] == name;
    }
    if 1 <= |name| <= 15 && AllIn(name, IsWordChar) {
      var k := if |s| > 0 && s[0] == '@' then 1 else 0;
      assert s[k..] == name;
    }
  }

  /** Examples of the handle pattern. */
  lemma TwitterPatternExamples()
    ensures TwitterPattern("@sajjad") && TwitterPattern("sajjad_1")
    ensures !TwitterPattern("@") && !TwitterPattern("@@a") && !TwitterPattern("a-b")
  {
    TwitterPatternIff("@sajjad");
    assert "@sajjad"[1..] == "sajjad";
    TwitterPatternIff("sajjad_1");
    TwitterPatternIff("@");
    TwitterPatternIff("@@a");
    assert "@@a"[1..] == "@a" && !IsWordChar("@a"[0]);
    TwitterPatternIff("a-b");
    assert !IsWordChar("a-b"[1]);
  }

  // ---------------------------------------------------------------------------
  // String checks

  /** One check of a string schema. */
  datatype Check =
    | MinLength(n: nat)
    | MaxLength(n: nat)
    | Slug
    | TwitterHandle
    | Digits
    | Url

  /** Whether a check passes; `isUrl` is the URL parser's verdict. */
  predicate Passes(c: Check, s: string, isUrl: string -> bool)
  {
    match c
    case MinLength(n) => |s| >= n
    case MaxLength(n) => |s| <= n
    case Slug => SlugPattern(s)
    case TwitterHandle => TwitterPattern(s)
    case Digits => DigitsPattern(s)
    case Url => isUrl(s)
  }

  /** The checks that fail, in the order of the schema (each gives one issue). */
  function Failures(checks: seq<Check>, s: string, isUrl: string -> bool): (r: seq<Check>)
    ensures |r| <= |checks|
    ensures forall c :: c in r <==> c in checks && !Passes(c, s, isUrl)
    decreases |checks|
  {
    if checks == [] then []
    else if Passes(checks[0], s, isUrl) then Failures(checks[1..], s, isUrl)
    else [checks[0]] + Failures(checks[1..], s, isUrl)
  }

  predicate Accepts(checks: seq<Check>, s: string, isUrl: string -> bool)
  {
    Failures(checks, s, isUrl) == []
  }

  /** A required field: present and accepted. */
  predicate Required(checks: seq<Check>, v: Option<string>, isUrl: string -> bool)
  {
    v.Some? && Accepts(checks, v.value, isUrl)
  }

  /** `.optional()`: absent, or present and accepted. */
  predicate Optional(checks: seq<Check>, v: Option<string>, isUrl: string -> bool)
  {
    v.None? || Accepts(checks, v.value, isUrl)
  }

  /** A string is accepted exactly when it lies within both bounds. */
  lemma BoundsAccept(lo: nat, hi: nat, s: string, isUrl: string -> bool)
    ensures Accepts([MinLength(lo), MaxLength(hi)], s, isUrl) <==> lo <= |s| <= hi
  {
    var cs := [MinLength(lo), MaxLength(hi)];
    assert cs[1..] == [MaxLength(hi)] && cs[1..][1..] == [];
    assert Failures(cs[1..], s, isUrl) == if |s| <= hi then [] else [MaxLength(hi)];
  }

  // ---------------------------------------------------------------------------
  // The fields

  const SlugChecks: seq<Check> := [MinLength(2), MaxLength(50), Slug]
  const TitleChecks: seq<Check> := [MinLength(10), MaxLength(100)]
  const DescriptionChecks: seq<Check> := [MinLength(30), MaxLength(160)]
  const KeywordsChecks: seq<Check> := [MaxLength(200)]
  const ContentChecks: seq<Check> := [MinLength(100)]
  const AnalysisContentChecks: seq<Check> := [MinLength(50)]
  const NameChecks: seq<Check> := [MinLength(2), MaxLength(50)]
  const UrlChecks: seq<Check> := [Url]
  const TwitterChecks: seq<Check> := [TwitterHandle]
  const FacebookChecks: seq<Check> := [Digits]
  const RobotsChecks: seq<Check> := [MaxLength(1000)]
  const NoChecks: seq<Check> := []

  /** A slug is accepted exactly when it has 2 to 50 characters from `[a-z0-9-]`. */
  lemma SlugAcceptIff(s: string, isUrl: string -> bool)
    ensures Accepts(SlugChecks, s, isUrl) <==> 2 <= |s| <= 50 && AllIn(s, IsSlugChar)
  {
    assert SlugChecks[1..] == [MaxLength(50), Slug] && SlugChecks[2..] == [Slug];
  }

  /** A Facebook app id is accepted exactly when it is a non-empty run of digits. */
  lemma FacebookAcceptIff(s: string, isUrl: string -> bool)
    ensures Accepts(FacebookChecks, s, isUrl) <==> |s| >= 1 && AllIn(s, IsDigitChar)
  {
  }

  /** A slug that has too few characters and a bad character gets both issues, in order. */
  lemma SlugFailureOrder()
    ensures Failures(SlugChecks, "A", (u: string) => true) == [MinLength(2), Slug]
  {
    assert !IsSlugChar("A"[0]);
    assert SlugChecks[1..] == [MaxLength(50), Slug] && SlugChecks[2..] == [Slug];
  }

  // ---------------------------------------------------------------------------
  // The object schemas. A field of type Option is absent when None; the
  // asynchronous uniqueness and existence refinements are the parameters
  // `slugTaken` and `categoryExists` (database lookups).

  datatype SeoMetadata = SeoMetadata(metaTitle: Option<string>, metaDescription: Option<string>,
                                     metaKeywords: Option<string>, canonicalUrl: Option<string>,
                                     noIndex: Option<bool>, openGraphImage: Option<string>)

  /** `seoMetadataSchema`: every field optional. */
  predicate ValidSeoMetadata(m: SeoMetadata, isUrl: string -> bool)
  {
    && Optional(TitleChecks, m.metaTitle, isUrl)
    && Optional(DescriptionChecks, m.metaDescription, isUrl)
    && Optional(KeywordsChecks, m.metaKeywords, isUrl)
    && Optional(UrlChecks, m.canonicalUrl, isUrl)
    && Optional(UrlChecks, m.openGraphImage, isUrl)
  }

  /** The SEO metadata bounds: title 10 to 100, description 30 to 160, keywords at most 200. */
  lemma SeoMetadataBounds(m: SeoMetadata, isUrl: string -> bool)
    requires ValidSeoMetadata(m, isUrl)
    ensures m.metaTitle.Some? ==> 10 <= |m.metaTitle.value| <= 100
    ensures m.metaDescription.Some? ==> 30 <= |m.metaDescription.value| <= 160
    ensures m.metaKeywords.Some? ==> |m.metaKeywords.value| <= 200
  {
    if m.metaTitle.Some? {
      BoundsAccept(10, 100, m.metaTitle.value, isUrl);
    }
    if m.metaDescription.Some? {
      BoundsAccept(30, 160, m.metaDescription.value, isUrl);
    }
  }

  datatype SeoInput = SeoInput(entityType: Option<string>, entityId: Option<string>, data: Option<SeoMetadata>)

  /** `seoSchema`: a known entity type, an id and the metadata object. */
  predicate ValidSeoInput(v: SeoInput, isUrl: string -> bool)
  {
    && v.entityType.Some? && Entities.ParseEntity(v.entityType.value).Some?
    && v.entityId.Some?
    && v.data.Some? && ValidSeoMetadata(v.data.value, isUrl)
  }

  datatype CategoryInput = CategoryInput(name: Option<string>, slug: Option<string>)

  predicate FreeSlug(slug: Option<string>, slugTaken: string -> bool)
  {
    slug.Some? ==> !slugTaken(slug.value)
  }

  /** `categorySchema`. */
  predicate ValidCategory(c: CategoryInput, slugTaken: string -> bool, isUrl: string -> bool)
  {
    Required(NameChecks, c.name, isUrl) && Required(SlugChecks, c.slug, isUrl) && FreeSlug(c.slug, slugTaken)
  }

  /** `categorySchema.partial()`. */
  predicate ValidCategoryUpdate(c: CategoryInput, slugTaken: string -> bool, isUrl: string -> bool)
  {
    Optional(NameChecks, c.name, isUrl) && Optional(SlugChecks, c.slug, isUrl) && FreeSlug(c.slug, slugTaken)
  }

  /** The partial category schema accepts whatever the full one accepts. */
  lemma CategoryPartial(c: CategoryInput, slugTaken: string -> bool, isUrl: string -> bool)
    requires ValidCategory(c, slugTaken, isUrl)
    ensures ValidCategoryUpdate(c, slugTaken, isUrl)
  {
  }

  /** A created category has a 2 to 50 character name and a free, well-formed slug. */
  lemma CategoryBounds(c: CategoryInput, slugTaken: string -> bool, isUrl: string -> bool)
    requires ValidCategory(c, slugTaken, isUrl)
    ensures 2 <= |c.name.value| <= 50
    ensures 2 <= |c.slug.value| <= 50 && AllIn(c.slug.value, IsSlugChar) && !slugTaken(c.slug.value)
  {
    BoundsAccept(2, 50, c.name.value, isUrl);
    SlugAcceptIff(c.slug.value, isUrl);
  }

  datatype PostInput = PostInput(title: Option<string>, slug: Option<string>, content: Option<string>,
                                 categoryId: Option<string>, seo: Option<SeoMetadata>)

  predicate ValidSeo(seo: Option<SeoMetadata>, isUrl: string -> bool)
  {
    seo.Some? ==> ValidSeoMetadata(seo.value, isUrl)
  }

  /** `postSchema`. */
  predicate ValidPost(p: PostInput, slugTaken: string -> bool, categoryExists: string -> bool, isUrl: string -> bool)
  {
    && Required(TitleChecks, p.title, isUrl)
    && Required(SlugChecks, p.slug, isUrl) && FreeSlug(p.slug, slugTaken)
    && Required(ContentChecks, p.content, isUrl)
    && Required(NoChecks, p.categoryId, isUrl) && (p.categoryId.Some? ==> categoryExists(p.categoryId.value))
    && ValidSeo(p.seo, isUrl)
  }

  /** `postSchema.partial()`. */
  predicate ValidPostUpdate(p: PostInput, slugTaken: string -> bool, categoryExists: string -> bool, isUrl: string -> bool)
  {
    && Optional(TitleChecks, p.title, isUrl)
    && Optional(SlugChecks, p.slug, isUrl) && FreeSlug(p.slug, slugTaken)
    && Optional(ContentChecks, p.content, isUrl)
    && (p.categoryId.Some? ==> categoryExists(p.categoryId.value))
    && ValidSeo(p.seo, isUrl)
  }

  lemma PostPartial(p: PostInput, slugTaken: string -> bool, categoryExists: string -> bool, isUrl: string -> bool)
    requires ValidPost(p, slugTaken, categoryExists, isUrl)
    ensures ValidPostUpdate(p, slugTaken, categoryExists, isUrl)
  {
  }

  /** A created post has a 10 to 100 character title and at least 100 characters of content. */
  lemma PostBounds(p: PostInput, slugTaken: string -> bool, categoryExists: string -> bool, isUrl: string -> bool)
    requires ValidPost(p, slugTaken, categoryExists, isUrl)
    ensures 10 <= |p.title.value| <= 100 && |p.content.value| >= 100
    ensures categoryExists(p.categoryId.value)
  {
    BoundsAccept(10, 100, p.title.value, isUrl);
  }

  datatype PageInput = PageInput(title: Option<string>, slug: Option<string>, content: Option<string>,
                                 seo: Option<SeoMetadata>, schemaType: Option<string>)

  /** `pageSchema`; `schemaType` belongs to the `seo` object and is any string. */
  predicate ValidPage(p: PageInput, slugTaken: string -> bool, isUrl: string -> bool)
  {
    && Required(TitleChecks, p.title, isUrl)
    && Required(SlugChecks, p.slug, isUrl) && FreeSlug(p.slug, slugTaken)
    && Required(ContentChecks, p.content, isUrl)
    && ValidSeo(p.seo, isUrl)
  }

  /** `pageSchema.partial()`. */
  predicate ValidPageUpdate(p: PageInput, slugTaken: string -> bool, isUrl: string -> bool)
  {
    && Optional(TitleChecks, p.title, isUrl)
    && Optional(SlugChecks, p.slug, isUrl) && FreeSlug(p.slug, slugTaken)
    && Optional(ContentChecks, p.content, isUrl)
    && ValidSeo(p.seo, isUrl)
  }

  lemma PagePartial(p: PageInput, slugTaken: string -> bool, isUrl: string -> bool)
    requires ValidPage(p, slugTaken, isUrl)
    ensures ValidPageUpdate(p, slugTaken, isUrl)
  {
  }

  lemma PageBounds(p: PageInput, slugTaken: string -> bool, isUrl: string -> bool)
    requires ValidPage(p, slugTaken, isUrl)
    ensures 10 <= |p.title.value| <= 100 && |p.content.value| >= 100
  {
    BoundsAccept(10, 100, p.title.value, isUrl);
  }

  datatype GlobalSeoInput = GlobalSeoInput(
    siteName: Option<string>, defaultTitle: Option<string>, defaultDescription: Option<string>,
    defaultKeywords: Option<string>, logo: Option<string>, twitterHandle: Option<string>,
    facebookAppId: Option<string>, defaultSocialImage: Option<string>, robotsTxt: Option<string>)

  /** `globalSeoSchema`. */
  predicate ValidGlobalSeo(g: GlobalSeoInput, isUrl: string -> bool)
  {
    && Required(NameChecks, g.siteName, isUrl)
    && Required(TitleChecks, g.defaultTitle, isUrl)
    && Required(DescriptionChecks, g.defaultDescription, isUrl)
    && Optional(KeywordsChecks, g.defaultKeywords, isUrl)
    && Optional(UrlChecks, g.logo, isUrl)
    && Optional(TwitterChecks, g.twitterHandle, isUrl)
    && Optional(FacebookChecks, g.facebookAppId, isUrl)
    && Optional(UrlChecks, g.defaultSocialImage, isUrl)
    && Optional(RobotsChecks, g.robotsTxt, isUrl)
  }

  /** The global bounds, and the handle and app-id formats. */
  lemma GlobalSeoBounds(g: GlobalSeoInput, isUrl: string -> bool)
    requires ValidGlobalSeo(g, isUrl)
    ensures 2 <= |g.siteName.value| <= 50
    ensures 10 <= |g.defaultTitle.value| <= 100
    ensures 30 <= |g.defaultDescription.value| <= 160
    ensures g.robotsTxt.Some? ==> |g.robotsTxt.value| <= 1000
    ensures g.twitterHandle.Some? ==> TwitterPattern(g.twitterHandle.value)
    ensures g.facebookAppId.Some? ==> DigitsPattern(g.facebookAppId.value)
  {
    BoundsAccept(2, 50, g.siteName.value, isUrl);
    BoundsAccept(10, 100, g.defaultTitle.value, isUrl);
    BoundsAccept(30, 160, g.defaultDescription.value, isUrl);
  }

  datatype AnalysisInput = AnalysisInput(content: Option<string>, title: Option<string>, keywords: Option<string>)

  /** `seoAnalysisSchema`. */
  predicate ValidAnalysis(a: AnalysisInput, isUrl: string -> bool)
  {
    Required(AnalysisContentChecks, a.content, isUrl) && Optional(TitleChecks, a.title, isUrl) &&
    Optional(NoChecks, a.keywords, isUrl)
  }

  lemma AnalysisBounds(a: AnalysisInput, isUrl: string -> bool)
    requires ValidAnalysis(a, isUrl)
    ensures |a.content.value| >= 50
    ensures a.title.Some? ==> 10 <= |a.title.value| <= 100
  {
    if a.title.Some? {
      BoundsAccept(10, 100, a.title.value, isUrl);
    }
  }
}
