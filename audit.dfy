/**
 * The page auditor: content, technical and link audits over facts already
 * extracted from the fetched page, each building a list of issues.
 */
module Audit {
  import opened Wrappers
  import opened Text
  import opened Numeric
  import opened Auth
  import Seqs

  // ---------------------------------------------------------------------
  // Issues

  datatype Category = ContentIssue | TechnicalIssue | LinksIssue
  datatype Severity = High | Medium

  /** What an issue reports, with the counts its message quotes. */
  datatype Finding =
    | MissingTitle | LongTitle | MissingDescription | MissingH1 | ManyH1
    | MissingAlt(images: nat) | ShortContent
    | SlowLoad | NoViewport | NoCanonical | NoIndex
    | BrokenLinks(links: nat)

  /** One issue: its type, its severity and what it reports. */
  datatype Issue = Issue(kind: Category, severity: Severity, finding: Finding)

  /** The `type` field of an issue. */
  function CategoryName(c: Category): string
  {
    match c
    case ContentIssue => "content"
    case TechnicalIssue => "technical"
    case LinksIssue => "links"
  }

  /** The `message` field of an issue. */
  function Message(f: Finding): string
  {
    match f
    case MissingTitle => "صفحه فاقد تگ عنوان (Title) است"
    case LongTitle => "عنوان صفحه بسیار طولانی است"
    case MissingDescription => "صفحه فاقد توضیحات متا (Meta Description) است"
    case MissingH1 => "صفحه فاقد تگ H1 است"
    case ManyH1 => "صفحه دارای چندین تگ H1 است"
    case MissingAlt(n) => NatToString(n) + " تصویر فاقد متن جایگزین (Alt Text)"
    case ShortContent => "محتوای صفحه بسیار کوتاه است"
    case SlowLoad => "زمان بارگذاری صفحه بسیار طولانی است"
    case NoViewport => "صفحه فاقد متا تگ viewport است"
    case NoCanonical => "صفحه فاقد لینک canonical است"
    case NoIndex => "صفحه دارای تگ noindex است"
    case BrokenLinks(n) => NatToString(n) + " لینک داخلی شکسته یافت شد"
  }

  /** The `suggestion` field of an issue. */
  function SuggestionText(f: Finding): string
  {
    match f
    case MissingTitle => "یک عنوان جذاب و حاوی کلمه کلیدی اصلی اضافه کنید"
    case LongTitle => "عنوان را به کمتر از 60 کاراکتر کاهش دهید"
    case MissingDescription => "توضیحات متای جذابی با 120-160 کاراکتر ایجاد کنید"
    case MissingH1 => "حداقل یک تگ H1 حاوی کلمه کلیدی اصلی اضافه کنید"
    case ManyH1 => "تنها یک تگ H1 اصلی در صفحه داشته باشید"
    case MissingAlt(_) => "برای تمام تصاویر متن جایگزین توصیفی اضافه کنید"
    case ShortContent => "محتوای خود را به حداقل 300 کلمه افزایش دهید"
    case SlowLoad => "بهینه\U{200C}سازی تصاویر، فعال کردن کش و فشرده\U{200C}سازی را بررسی کنید"
    case NoViewport => "متا تگ viewport را برای پشتیبانی از دستگاه\U{200C}های موبایل اضافه کنید"
    case NoCanonical => "یک لینک canonical برای جلوگیری از محتوای تکراری اضافه کنید"
    case NoIndex => "در صورت نیاز به ایندکس شدن، این تگ را حذف کنید"
    case BrokenLinks(_) => "لینک\U{200C}های شکسته را تعمیر یا حذف کنید"
  }

  // ---------------------------------------------------------------------
  // Content audit

  /** An image, with its alt text already defaulted to the empty string. */
  datatype Image = Image(src: Option<string>, alt: string)

  /** The parts of the page the content audit reads. */
  datatype PageContent = PageContent(
    body: string, title: string, metaDescription: string,
    h1: seq<string>, h2: seq<string>, images: seq<Image>)

  predicate MissingAltText(img: Image)
  {
    img.alt == ""
  }

  function TitleIssues(title: string): seq<Issue>
  {
    if title == "" then [Issue(ContentIssue, High, MissingTitle)]
    else if |title| > 60 then [Issue(ContentIssue, Medium, LongTitle)]
    else []
  }

  function DescriptionIssues(metaDescription: string): seq<Issue>
  {
    if metaDescription == "" then [Issue(ContentIssue, Medium, MissingDescription)] else []
  }

  function H1Issues(h1: seq<string>): seq<Issue>
  {
    if |h1| == 0 then [Issue(ContentIssue, High, MissingH1)]
    else if |h1| > 1 then [Issue(ContentIssue, Medium, ManyH1)]
    else []
  }

  function AltIssues(images: seq<Image>): seq<Issue>
  {
    var missing := Seqs.Filter(images, MissingAltText);
    if |missing| > 0 then [Issue(ContentIssue, Medium, MissingAlt(|missing|))] else []
  }

  function LengthIssues(wordCount: nat): seq<Issue>
  {
    if wordCount < 300 then [Issue(ContentIssue, Medium, ShortContent)] else []
  }

  /** The content issues in the order the audit pushes them. */
  function ContentIssues(p: PageContent): seq<Issue>
  {
    TitleIssues(p.title) + DescriptionIssues(p.metaDescription) + H1Issues(p.h1)
    + AltIssues(p.images) + LengthIssues(|Words(p.body)|)
  }

  /** What the content audit returns. */
  datatype ContentAudit = ContentAudit(
    wordCount: nat, title: string, titleLength: nat, metaDescription: string, metaDescriptionLength: nat,
    h1: seq<string>, h2: seq<string>, imagesCount: nat, imagesWithoutAltCount: nat, issues: seq<Issue>)

  /** The content audit's record: the page's counters and its content issues. */
  function ContentAuditOf(p: PageContent): ContentAudit
  {
    ContentAudit(|Words(p.body)|, p.title, |p.title|, p.metaDescription, |p.metaDescription|,
                 p.h1, p.h2, |p.images|, |Seqs.Filter(p.images, MissingAltText)|, ContentIssues(p))
  }

  /** The content audit, pushing one check after another. */
  method RunContentAudit(p: PageContent) returns (r: ContentAudit)
    ensures r == ContentAuditOf(p)
    ensures r.issues == ContentIssues(p)
    ensures r.wordCount == |Words(p.body)| && r.title == p.title && r.titleLength == |p.title|
    ensures r.metaDescription == p.metaDescription && r.metaDescriptionLength == |p.metaDescription|
    ensures r.h1 == p.h1 && r.h2 == p.h2 && r.imagesCount == |p.images|
    ensures r.imagesWithoutAltCount == |Seqs.Filter(p.images, MissingAltText)|
    ensures r.imagesWithoutAltCount <= r.imagesCount
  {
    var issues: seq<Issue> := [];
    var wordCount := |Words(p.body)|;
    if p.title == "" {
      issues := issues + [Issue(ContentIssue, High, MissingTitle)];
    } else if |p.title| > 60 {
      issues := issues + [Issue(ContentIssue, Medium, LongTitle)];
    }
    assert issues == TitleIssues(p.title);
    ghost var s1 := issues;
    if p.metaDescription == "" {
      issues := issues + [Issue(ContentIssue, Medium, MissingDescription)];
    } else {
      Seqs.AppendNothing(issues);
    }
    assert issues == s1 + DescriptionIssues(p.metaDescription);
    ghost var s2 := issues;
    if |p.h1| == 0 {
      issues := issues + [Issue(ContentIssue, High, MissingH1)];
    } else if |p.h1| > 1 {
      issues := issues + [Issue(ContentIssue, Medium, ManyH1)];
    } else {
      Seqs.AppendNothing(issues);
    }
    assert issues == s2 + H1Issues(p.h1);
    ghost var s3 := issues;
    var imagesWithoutAlt := Seqs.Filter(p.images, MissingAltText);
    if |imagesWithoutAlt| > 0 {
      issues := issues + [Issue(ContentIssue, Medium, MissingAlt(|imagesWithoutAlt|))];
    } else {
      Seqs.AppendNothing(issues);
    }
    assert issues == s3 + AltIssues(p.images);
    ghost var s4 := issues;
    if wordCount < 300 {
      issues := issues + [Issue(ContentIssue, Medium, ShortContent)];
    } else {
      Seqs.AppendNothing(issues);
    }
    assert issues == s4 + LengthIssues(wordCount);
    r := ContentAudit(wordCount, p.title, |p.title|, p.metaDescription, |p.metaDescription|,
                      p.h1, p.h2, |p.images|, |imagesWithoutAlt|, issues);
  }

  /** The position of a content check in the audit's order. */
  function ContentRank(f: Finding): nat
  {
    match f
    case MissingTitle => 0
    case LongTitle => 0
    case MissingDescription => 1
    case MissingH1 => 2
    case ManyH1 => 2
    case MissingAlt(_) => 3
    case _ => 4
  }

  /** At most five content issues, one per check at most, all of type content. */
  lemma ContentIssuesBound(p: PageContent)
    ensures |ContentIssues(p)| <= 5
    ensures forall i :: 0 <= i < |ContentIssues(p)| ==> ContentIssues(p)[i].kind == ContentIssue
  {
  }

  /** The content issues come in the order title, description, h1, images, length. */
  lemma ContentIssuesOrdered(p: PageContent)
    ensures forall i, j :: 0 <= i < j < |ContentIssues(p)| ==>
      ContentRank(ContentIssues(p)[i].finding) < ContentRank(ContentIssues(p)[j].finding)
  {
    var t, d, h, a, l := TitleIssues(p.title), DescriptionIssues(p.metaDescription), H1Issues(p.h1),
      AltIssues(p.images), LengthIssues(|Words(p.body)|);
    assert ContentIssues(p) == t + d + h + a + l;
    RanksIncrease(t, d, h, a, l);
  }

  lemma RanksIncrease(t: seq<Issue>, d: seq<Issue>, h: seq<Issue>, a: seq<Issue>, l: seq<Issue>)
    requires |t| <= 1 && |d| <= 1 && |h| <= 1 && |a| <= 1 && |l| <= 1
    requires forall x :: x in t ==> ContentRank(x.finding) == 0
    requires forall x :: x in d ==> ContentRank(x.finding) == 1
    requires forall x :: x in h ==> ContentRank(x.finding) == 2
    requires forall x :: x in a ==> ContentRank(x.finding) == 3
    requires forall x :: x in l ==> ContentRank(x.finding) == 4
    ensures forall i, j :: 0 <= i < j < |t + d + h + a + l| ==>
      ContentRank((t + d + h + a + l)[i].finding) < ContentRank((t + d + h + a + l)[j].finding)
  {
    var s := t + d + h + a + l;
    forall i | 0 <= i < |s| ensures ContentRank(s[i].finding) <= 4 && s[i] in s && (
      if i < |t| then ContentRank(s[i].finding) == 0
      else if i < |t + d| then ContentRank(s[i].finding) == 1
      else if i < |t + d + h| then ContentRank(s[i].finding) == 2
      else if i < |t + d + h + a| then ContentRank(s[i].finding) == 3
      else ContentRank(s[i].finding) == 4)
    {
      if i < |t| { assert s[i] == t[i]; }
      else if i < |t + d| { assert s[i] == d[i - |t|]; }
      else if i < |t + d + h| { assert s[i] == h[i - |t + d|]; }
      else if i < |t + d + h + a| { assert s[i] == a[i - |t + d + h|]; }
      else { assert s[i] == l[i - |t + d + h + a|]; }
    }
  }

  /** The title checks: missing iff empty, too long iff non-empty and over 60, never both. */
  lemma TitleIssueConditions(p: PageContent)
    ensures Issue(ContentIssue, High, MissingTitle) in ContentIssues(p) <==> p.title == ""
    ensures Issue(ContentIssue, Medium, LongTitle) in ContentIssues(p) <==> p.title != "" && |p.title| > 60
    ensures !(Issue(ContentIssue, High, MissingTitle) in ContentIssues(p)
              && Issue(ContentIssue, Medium, LongTitle) in ContentIssues(p))
  {
    var t, d, h, a, l := TitleIssues(p.title), DescriptionIssues(p.metaDescription), H1Issues(p.h1),
      AltIssues(p.images), LengthIssues(|Words(p.body)|);
    var x, y := Issue(ContentIssue, High, MissingTitle), Issue(ContentIssue, Medium, LongTitle);
    InContentIssues(p, x);
    InContentIssues(p, y);
    assert x !in d && x !in h && x !in a && x !in l;
    assert y !in d && y !in h && y !in a && y !in l;
  }

  /** The h1 checks: missing iff there is none, too many iff there are several. */
  lemma HeadingConditions(p: PageContent)
    ensures Issue(ContentIssue, High, MissingH1) in ContentIssues(p) <==> |p.h1| == 0
    ensures Issue(ContentIssue, Medium, ManyH1) in ContentIssues(p) <==> |p.h1| > 1
  {
    var t, d, h, a, l := TitleIssues(p.title), DescriptionIssues(p.metaDescription), H1Issues(p.h1),
      AltIssues(p.images), LengthIssues(|Words(p.body)|);
    var x, y := Issue(ContentIssue, High, MissingH1), Issue(ContentIssue, Medium, ManyH1);
    InContentIssues(p, x);
    InContentIssues(p, y);
    assert x !in t && x !in d && x !in a && x !in l;
    assert y !in t && y !in d && y !in a && y !in l;
  }

  /** An issue is in the content audit's list iff one of the five checks gives it. */
  lemma InContentIssues(p: PageContent, x: Issue)
    ensures x in ContentIssues(p) <==>
      x in TitleIssues(p.title) || x in DescriptionIssues(p.metaDescription) || x in H1Issues(p.h1)
      || x in AltIssues(p.images) || x in LengthIssues(|Words(p.body)|)
  {
  }

  predicate IsMissingDescription(x: Issue)
  {
    x.finding == MissingDescription
  }

  /** A missing meta description gives exactly one issue, and only then. */
  lemma DescriptionConditions(p: PageContent)
    ensures |Seqs.Filter(ContentIssues(p), IsMissingDescription)| == if p.metaDescription == "" then 1 else 0
  {
    var t, d, h, a, l := TitleIssues(p.title), DescriptionIssues(p.metaDescription), H1Issues(p.h1),
      AltIssues(p.images), LengthIssues(|Words(p.body)|);
    NoMissingDescription(t);
    NoMissingDescription(h);
    NoMissingDescription(a);
    NoMissingDescription(l);
    Seqs.FilterSecondOfFive(t, d, h, a, l, IsMissingDescription);
    assert ContentIssues(p) == t + d + h + a + l;
  }

  /** A check that gives at most one issue, and not a missing description, filters to nothing. */
  lemma NoMissingDescription(s: seq<Issue>)
    requires |s| <= 1 && (s != [] ==> !IsMissingDescription(s[0]))
    ensures Seqs.Filter(s, IsMissingDescription) == []
  {
    if s != [] {
      assert s[1..] == [];
    }
  }

  /** One alt-text issue at most, present iff some image lacks alt text, quoting how many do. */
  lemma AltIssueConditions(p: PageContent)
    ensures (exists x :: x in ContentIssues(p) && x.finding.MissingAlt?) <==>
      |Seqs.Filter(p.images, MissingAltText)| > 0
    ensures |AltIssues(p.images)| <= 1
    ensures forall x :: x in ContentIssues(p) && x.finding.MissingAlt? ==>
      x.finding.images == |Seqs.Filter(p.images, MissingAltText)| <= |p.images|
    ensures (exists x :: x in ContentIssues(p) && x.finding == ShortContent) <==> |Words(p.body)| < 300
  {
    var t, d, h, a, l := TitleIssues(p.title), DescriptionIssues(p.metaDescription), H1Issues(p.h1),
      AltIssues(p.images), LengthIssues(|Words(p.body)|);
    var s := ContentIssues(p);
    assert s == t + d + h + a + l;
    assert forall x :: x in s <==> x in t || x in d || x in h || x in a || x in l;
    if |a| > 0 { assert a[0] in s; }
    if |l| > 0 { assert l[0] in s; }
  }

  // ---------------------------------------------------------------------
  // Technical audit

  /** The attributes the technical audit reads and the two response headers it reports. */
  datatype TechFacts = TechFacts(
    viewport: Option<string>, canonical: Option<string>, robotsMeta: Option<string>,
    contentEncoding: Option<string>, cacheControl: Option<string>)

  /** `robotsMeta?.includes('noindex')`. */
  predicate NoIndexed(f: TechFacts)
  {
    f.robotsMeta.Some? && Contains(f.robotsMeta.value, "noindex")
  }

  /** The technical issues in the order the audit pushes them. */
  function TechnicalIssues(f: TechFacts, loadTime: int): seq<Issue>
  {
    (if loadTime > 3000 then [Issue(TechnicalIssue, High, SlowLoad)] else [])
    + (if !Truthy(f.viewport) then [Issue(TechnicalIssue, High, NoViewport)] else [])
    + (if !Truthy(f.canonical) then [Issue(TechnicalIssue, Medium, NoCanonical)] else [])
    + (if NoIndexed(f) then [Issue(TechnicalIssue, High, NoIndex)] else [])
  }

  /** What the technical audit returns. */
  datatype TechnicalAudit = TechnicalAudit(
    loadTime: int, isResponsive: bool, hasCanonical: bool, indexingAllowed: bool,
    contentEncoding: Option<string>, cacheControl: Option<string>, issues: seq<Issue>)

  /** The technical audit's record: the load time, the page's flags and headers, its issues. */
  function TechnicalAuditOf(f: TechFacts, loadTime: int): TechnicalAudit
  {
    TechnicalAudit(loadTime, Truthy(f.viewport), Truthy(f.canonical), !NoIndexed(f),
                   f.contentEncoding, f.cacheControl, TechnicalIssues(f, loadTime))
  }

  /** The technical audit, pushing one check after another. */
  method RunTechnicalAudit(f: TechFacts, loadTime: int) returns (r: TechnicalAudit)
    ensures r == TechnicalAuditOf(f, loadTime)
    ensures r.issues == TechnicalIssues(f, loadTime)
    ensures r.loadTime == loadTime
    ensures r.isResponsive == Truthy(f.viewport) && r.hasCanonical == Truthy(f.canonical)
    ensures r.indexingAllowed == !NoIndexed(f)
    ensures r.contentEncoding == f.contentEncoding && r.cacheControl == f.cacheControl
  {
    var issues: seq<Issue> := [];
    if loadTime > 3000 {
      issues := issues + [Issue(TechnicalIssue, High, SlowLoad)];
    }
    ghost var s1 := issues;
    if !Truthy(f.viewport) {
      issues := issues + [Issue(TechnicalIssue, High, NoViewport)];
    } else {
      Seqs.AppendNothing(issues);
    }
    ghost var s2 := issues;
    if !Truthy(f.canonical) {
      issues := issues + [Issue(TechnicalIssue, Medium, NoCanonical)];
    } else {
      Seqs.AppendNothing(issues);
    }
    ghost var s3 := issues;
    var noIndex := f.robotsMeta.Some? && Contains(f.robotsMeta.value, "noindex");
    if noIndex {
      issues := issues + [Issue(TechnicalIssue, High, NoIndex)];
    } else {
      Seqs.AppendNothing(issues);
    }
    r := TechnicalAudit(loadTime, Truthy(f.viewport), Truthy(f.canonical), !noIndex,
                        f.contentEncoding, f.cacheControl, issues);
  }

  /** Each flag of the technical audit holds exactly when its issue is absent. */
  lemma TechnicalIssueConditions(f: TechFacts, loadTime: int)
    ensures var s := TechnicalIssues(f, loadTime);
      && |s| <= 4
      && (forall x :: x in s ==> x.kind == TechnicalIssue)
      && (Issue(TechnicalIssue, High, SlowLoad) in s <==> loadTime > 3000)
      && (Issue(TechnicalIssue, High, NoViewport) in s <==> !Truthy(f.viewport))
      && (Issue(TechnicalIssue, Medium, NoCanonical) in s <==> !Truthy(f.canonical))
      && (Issue(TechnicalIssue, High, NoIndex) in s <==> NoIndexed(f))
  {
  }

  // ---------------------------------------------------------------------
  // Links audit

  /** An anchor's attributes; an absent attribute is None. */
  datatype Link = Link(href: Option<string>, text: string, rel: Option<string>, target: Option<string>)

  /** A link that is not empty, not a fragment and not `javascript:`. */
  predicate IsValidLink(l: Link)
  {
    Truthy(l.href) && !StartsWith(l.href.value, "#") && !StartsWith(l.href.value, "javascript:")
  }

  /** `href?.startsWith('/') || href?.includes(baseUrl)`. */
  predicate IsInternal(baseUrl: string, l: Link)
  {
    l.href.Some? && (StartsWith(l.href.value, "/") || Contains(l.href.value, baseUrl))
  }

  /** `!href?.startsWith('/') && !href?.includes(baseUrl)`. */
  predicate IsExternal(baseUrl: string, l: Link)
  {
    !(l.href.Some? && StartsWith(l.href.value, "/")) && !(l.href.Some? && Contains(l.href.value, baseUrl))
  }

  predicate IsNofollow(l: Link)
  {
    l.rel.Some? && Contains(l.rel.value, "nofollow")
  }

  /** `links.filter((_, index) => index % 10 === 0)`: the items at indices 0, 10, 20, ... */
  function EveryTenth(links: seq<Link>): (r: seq<Link>)
    ensures |r| == (|links| + 9) / 10
  {
    seq((|links| + 9) / 10, i requires 0 <= i < (|links| + 9) / 10 => links[10 * i])
  }

  /** The placeholder sampler: every tenth internal link, at most three. */
  function FindBrokenLinks(links: seq<Link>): (r: seq<Link>)
    ensures |r| == Min(3, (|links| + 9) / 10)
    ensures forall i :: 0 <= i < |r| ==> 10 * i < |links| && r[i] == links[10 * i]
  {
    Seqs.Take(EveryTenth(links), 3)
  }

  /** The sample is empty exactly when there is no internal link. */
  lemma BrokenLinksEmptyIff(links: seq<Link>)
    ensures FindBrokenLinks(links) == [] <==> links == []
  {
  }

  /** What the links audit returns. */
  datatype LinksAudit = LinksAudit(
    totalLinks: nat, internalLinks: nat, externalLinks: nat, nofollowLinks: nat, brokenLinks: nat,
    issues: seq<Issue>)

  function ValidLinks(links: seq<Link>): seq<Link>
  {
    Seqs.Filter(links, IsValidLink)
  }

  function InternalLinks(baseUrl: string, links: seq<Link>): seq<Link>
  {
    Seqs.Filter(ValidLinks(links), (l: Link) => IsInternal(baseUrl, l))
  }

  /** The links audit's record: the four counts, the sampled broken links and their issue. */
  function LinksAuditOf(baseUrl: string, links: seq<Link>): LinksAudit
  {
    var valid := ValidLinks(links);
    var broken := |FindBrokenLinks(InternalLinks(baseUrl, links))|;
    LinksAudit(|valid|, |InternalLinks(baseUrl, links)|,
               |Seqs.Filter(valid, (l: Link) => IsExternal(baseUrl, l))|, |Seqs.Filter(valid, IsNofollow)|,
               broken, if broken > 0 then [Issue(LinksIssue, High, BrokenLinks(broken))] else [])
  }

  /** The links audit: classify the valid links and report the sampled broken ones. */
  method RunLinksAudit(baseUrl: string, links: seq<Link>) returns (r: LinksAudit)
    ensures r == LinksAuditOf(baseUrl, links)
    ensures var valid := ValidLinks(links);
      && r.totalLinks == |valid|
      && r.internalLinks == |InternalLinks(baseUrl, links)|
      && r.externalLinks == |Seqs.Filter(valid, (l: Link) => IsExternal(baseUrl, l))|
      && r.nofollowLinks == |Seqs.Filter(valid, IsNofollow)|
      && r.brokenLinks == |FindBrokenLinks(InternalLinks(baseUrl, links))|
      && r.issues == (if r.brokenLinks > 0 then [Issue(LinksIssue, High, BrokenLinks(r.brokenLinks))] else [])
  {
    var issues: seq<Issue> := [];
    var valid := Seqs.Filter(links, IsValidLink);
    var internal := Seqs.Filter(valid, (l: Link) => IsInternal(baseUrl, l));
    var external := Seqs.Filter(valid, (l: Link) => IsExternal(baseUrl, l));
    var nofollow := Seqs.Filter(valid, IsNofollow);
    var broken := FindBrokenLinks(internal);
    if |broken| > 0 {
      issues := issues + [Issue(LinksIssue, High, BrokenLinks(|broken|))];
    }
    r := LinksAudit(|valid|, |internal|, |external|, |nofollow|, |broken|, issues);
  }

  /**
   * Every valid link is internal or external and not both, so the two
   * counts add up to the total; nofollow links are among the valid ones;
   * fragment and `javascript:` links are never counted.
   */
  lemma LinkCounts(baseUrl: string, links: seq<Link>)
    ensures var valid := ValidLinks(links);
      && |InternalLinks(baseUrl, links)| + |Seqs.Filter(valid, (l: Link) => IsExternal(baseUrl, l))| == |valid|
      && |Seqs.Filter(valid, IsNofollow)| <= |valid|
      && (forall l :: l in valid ==> !StartsWith(l.href.value, "#") && !StartsWith(l.href.value, "javascript:"))
  {
    var valid := ValidLinks(links);
    Seqs.FilterSplit(valid, (l: Link) => IsInternal(baseUrl, l), (l: Link) => IsExternal(baseUrl, l));
  }

  /** The broken-link issue appears exactly when some valid link is internal. */
  lemma BrokenLinkIssueIff(baseUrl: string, links: seq<Link>)
    ensures |FindBrokenLinks(InternalLinks(baseUrl, links))| > 0 <==> InternalLinks(baseUrl, links) != []
    ensures |FindBrokenLinks(InternalLinks(baseUrl, links))| <= 3
  {
  }

  // ---------------------------------------------------------------------
  // The route

  /** The request body; an absent flag takes its default. */
  datatype AuditRequest = AuditRequest(
    url: string, analyzeContent: Option<bool>, analyzeTechnical: Option<bool>, analyzeLinks: Option<bool>)

  function Enabled(flag: Option<bool>, default: bool): bool
  {
    if flag.Some? then flag.value else default
  }

  /** What the route returns. */
  datatype AuditResult = AuditResult(
    url: string, contentAudit: Option<ContentAudit>, technicalAudit: Option<TechnicalAudit>,
    linksAudit: Option<LinksAudit>, loadTime: int)

  /**
   * The route: 403 for a non-admin, 400 when the URL does not parse
   * (`isUrl`), else each enabled audit over the fetched page's facts and a
   * disabled one as null. Content and technical audits default to on, the
   * links audit to off.
   */
  method Post(user: Option<User>, body: AuditRequest, isUrl: string -> bool,
              page: PageContent, tech: TechFacts, links: seq<Link>, loadTime: int)
    returns (r: Reply<AuditResult>)
    ensures !IsAdmin(user) ==> r == Fail(Forbidden)
    ensures IsAdmin(user) && !isUrl(body.url) ==> r == Fail(BadRequest)
    ensures r.Ok? <==> IsAdmin(user) && isUrl(body.url)
    ensures r.Ok? ==>
      && r.value.url == body.url && r.value.loadTime == loadTime
      && (r.value.contentAudit.Some? <==> Enabled(body.analyzeContent, true))
      && (r.value.technicalAudit.Some? <==> Enabled(body.analyzeTechnical, true))
      && (r.value.linksAudit.Some? <==> Enabled(body.analyzeLinks, false))
      && (r.value.contentAudit.Some? ==> r.value.contentAudit.value == ContentAuditOf(page))
      && (r.value.technicalAudit.Some? ==> r.value.technicalAudit.value == TechnicalAuditOf(tech, loadTime))
      && (r.value.linksAudit.Some? ==> r.value.linksAudit.value == LinksAuditOf(body.url, links))
  {
    if !IsAdmin(user) {
      return Fail(Forbidden);
    }
    if !isUrl(body.url) {
      return Fail(BadRequest);
    }
    var contentAudit: Option<ContentAudit> := None;
    if Enabled(body.analyzeContent, true) {
      var c := RunContentAudit(page);
      contentAudit := Some(c);
    }
    var technicalAudit: Option<TechnicalAudit> := None;
    if Enabled(body.analyzeTechnical, true) {
      var t := RunTechnicalAudit(tech, loadTime);
      technicalAudit := Some(t);
    }
    var linksAudit: Option<LinksAudit> := None;
    if Enabled(body.analyzeLinks, false) {
      var l := RunLinksAudit(body.url, links);
      linksAudit := Some(l);
    }
    r := Ok(AuditResult(body.url, contentAudit, technicalAudit, linksAudit, loadTime));
  }
}
