/**
 * The SEO monitoring route: the issue query, the aggregation of the issues
 * it returns (`analysis`), the record `logSeoIssue` stores and the
 * missing-alt-text pass of the health check.
 */
module Monitor {
  import opened Wrappers
  import opened Auth
  import opened Entities
  import Json
  import Text
  import Markdown
  import Seqs
  import Numeric

  // ---------------------------------------------------------------------------
  // Issues and their record

  datatype Severity = Error | Warning

  function SeverityName(s: Severity): string
  {
    match s
    case Error => "ERROR"
    case Warning => "WARNING"
  }

  /** A stored SEO issue. */
  datatype SeoIssue = SeoIssue(entityType: EntityType, entityId: string, message: string,
                               severity: Severity, details: map<string, Json.Json>)

  /** The argument of `logSeoIssue`, whose `details` may be left out. */
  datatype IssueInput = IssueInput(entityType: EntityType, entityId: string, message: string,
                                   severity: Severity, details: Option<map<string, Json.Json>>)

  /**
   * The record `logSeoIssue` stores: every supplied field, and empty details
   * when none are supplied (an object is truthy, so supplied details are kept
   * even when empty).
   */
  function LogRecord(d: IssueInput): (r: SeoIssue)
    ensures r.entityType == d.entityType && r.entityId == d.entityId
    ensures r.message == d.message && r.severity == d.severity
    ensures d.details.None? ==> r.details == map[]
    ensures d.details.Some? ==> r.details == d.details.value
  {
    SeoIssue(d.entityType, d.entityId, d.message, d.severity,
             if d.details.Some? then d.details.value else map[])
  }

  // ---------------------------------------------------------------------------
  // Counting folds

  /**
   * `xs.reduce((acc, x) => { acc[x] = (acc[x] || 0) + 1; return acc }, {})`:
   * how often each value occurs.
   */
  function CountBy<K>(xs: seq<K>): map<K, nat>
    decreases |xs|
  {
    if xs == [] then map[]
    else
      var acc := CountBy(xs[..|xs| - 1]);
      var k := xs[|xs| - 1];
      acc[k := (if k in acc then acc[k] else 0) + 1]
  }

  /** The keys of the count are the values of the list, and each count is its multiplicity. */
  lemma {:induction false} CountByCounts<K>(xs: seq<K>)
    ensures forall k :: k in CountBy(xs) <==> k in xs
    ensures forall k :: k in CountBy(xs) ==> CountBy(xs)[k] == multiset(xs)[k]
    decreases |xs|
  {
    if xs != [] {
      var init, k := xs[..|xs| - 1], xs[|xs| - 1];
      assert xs == init + [k];
      CountByCounts(init);
    }
  }

  ghost function PickKey<K>(m: map<K, nat>): K
    requires |m| > 0
  {
    var k :| k in m; k
  }

  /** The sum of the values of a map. */
  ghost function SumValues<K>(m: map<K, nat>): nat
    decreases |m|
  {
    if |m| == 0 then 0
    else
      var k := PickKey(m);
      m[k] + SumValues(m - {k})
  }

  /** The sum does not depend on which key is taken first. */
  lemma {:induction false} SumValuesRemove<K>(m: map<K, nat>, k: K)
    requires k in m
    ensures SumValues(m) == m[k] + SumValues(m - {k})
    decreases |m|
  {
    var j := PickKey(m);
    if j != k {
      assert |m - {j}| == |m| - 1;
      SumValuesRemove(m - {j}, k);
      assert |m - {k}| == |m| - 1;
      SumValuesRemove(m - {k}, j);
      assert m - {j} - {k} == m - {k} - {j};
    }
  }

  /** The counts of a fold add up to the length of the list. */
  lemma {:induction false} CountBySum<K>(xs: seq<K>)
    ensures SumValues(CountBy(xs)) == |xs|
    decreases |xs|
  {
    if xs != [] {
      var init, k := xs[..|xs| - 1], xs[|xs| - 1];
      var acc := CountBy(init);
      CountBySum(init);
      var m := CountBy(xs);
      SumValuesRemove(m, k);
      if k in acc {
        SumValuesRemove(acc, k);
        assert m - {k} == acc - {k};
      } else {
        assert m - {k} == acc;
      }
    }
  }

  // ---------------------------------------------------------------------------
  // The `analysis` object of GET

  /** One row of the group-by-severity statistics. */
  datatype GroupCount = GroupCount(severity: Severity, count: nat)

  /** `stats.find(s => s.severity === sev)?._count._all || 0`. */
  function GroupedCount(stats: seq<GroupCount>, sev: Severity): (n: nat)
    ensures forall i :: (0 <= i < |stats| && stats[i].severity == sev &&
      (forall j :: 0 <= j < i ==> stats[j].severity != sev)) ==> n == stats[i].count
    ensures (forall i :: 0 <= i < |stats| ==> stats[i].severity != sev) ==> n == 0
    decreases |stats|
  {
    if stats == [] then 0
    else if stats[0].severity == sev then stats[0].count
    else GroupedCount(stats[1..], sev)
  }

  /** Statistics that group exactly the severities `sevs`, one row per severity. */
  predicate IsGrouping(stats: seq<GroupCount>, sevs: seq<Severity>)
  {
    && (forall i, j :: 0 <= i < j < |stats| ==> stats[i].severity != stats[j].severity)
    && (forall i :: 0 <= i < |stats| ==> stats[i].count == multiset(sevs)[stats[i].severity])
    && (forall s :: s in sevs ==> exists i :: 0 <= i < |stats| && stats[i].severity == s)
  }

  /** Over a grouping, the looked-up count is the number of issues of that severity. */
  lemma GroupedCountOfGrouping(stats: seq<GroupCount>, sevs: seq<Severity>, sev: Severity)
    requires IsGrouping(stats, sevs)
    ensures GroupedCount(stats, sev) == multiset(sevs)[sev]
  {
    if exists i :: 0 <= i < |stats| && stats[i].severity == sev {
      var i :| 0 <= i < |stats| && stats[i].severity == sev;
      assert forall j :: 0 <= j < i ==> stats[j].severity != sev;
    } else {
      assert sev !in sevs;
    }
  }

  function EntityKeys(issues: seq<SeoIssue>): (r: seq<string>)
    ensures |r| == |issues| && forall i :: 0 <= i < |issues| ==> r[i] == EntityName(issues[i].entityType)
  {
    seq(|issues|, i requires 0 <= i < |issues| => EntityName(issues[i].entityType))
  }

  function MessageKeys(issues: seq<SeoIssue>): (r: seq<string>)
    ensures |r| == |issues| && forall i :: 0 <= i < |issues| ==> r[i] == issues[i].message
  {
    seq(|issues|, i requires 0 <= i < |issues| => issues[i].message)
  }

  function Severities(issues: seq<SeoIssue>): (r: seq<Severity>)
    ensures |r| == |issues| && forall i :: 0 <= i < |issues| ==> r[i] == issues[i].severity
  {
    seq(|issues|, i requires 0 <= i < |issues| => issues[i].severity)
  }

  datatype Analysis = Analysis(total: nat, errors: nat, warnings: nat,
                               byEntity: map<string, nat>, commonIssues: map<string, nat>)

  function Analyze(issues: seq<SeoIssue>, stats: seq<GroupCount>): Analysis
  {
    Analysis(|issues|, GroupedCount(stats, Error), GroupedCount(stats, Warning),
             CountBy(EntityKeys(issues)), CountBy(MessageKeys(issues)))
  }

  /** Both folds count every returned issue once, under its entity type or its message. */
  lemma AnalyzeFolds(issues: seq<SeoIssue>, stats: seq<GroupCount>)
    ensures var a := Analyze(issues, stats);
      && a.total == |issues|
      && SumValues(a.byEntity) == a.total
      && SumValues(a.commonIssues) == a.total
      && (forall k :: k in a.byEntity ==> a.byEntity[k] == multiset(EntityKeys(issues))[k])
      && (forall k :: k in a.commonIssues ==> a.commonIssues[k] == multiset(MessageKeys(issues))[k])
  {
    CountBySum(EntityKeys(issues));
    CountBySum(MessageKeys(issues));
    CountByCounts(EntityKeys(issues));
    CountByCounts(MessageKeys(issues));
  }

  /** A key of `commonIssues` is exactly the message of some returned issue. */
  lemma CommonIssueKeys(issues: seq<SeoIssue>, stats: seq<GroupCount>, k: string)
    ensures k in Analyze(issues, stats).commonIssues <==>
      exists i :: 0 <= i < |issues| && issues[i].message == k
  {
    var keys := MessageKeys(issues);
    CountByCounts(keys);
    if k in keys {
      var i :| 0 <= i < |keys| && keys[i] == k;
      assert issues[i].message == k;
    }
    if exists i :: 0 <= i < |issues| && issues[i].message == k {
      var i :| 0 <= i < |issues| && issues[i].message == k;
      assert keys[i] == k;
    }
  }

  /** When the statistics group the issues by severity, `errors` and `warnings` count them. */
  lemma AnalyzeSeverities(issues: seq<SeoIssue>, stats: seq<GroupCount>, grouped: seq<SeoIssue>)
    requires IsGrouping(stats, Severities(grouped))
    ensures Analyze(issues, stats).errors == multiset(Severities(grouped))[Error]
    ensures Analyze(issues, stats).warnings == multiset(Severities(grouped))[Warning]
  {
    GroupedCountOfGrouping(stats, Severities(grouped), Error);
    GroupedCountOfGrouping(stats, Severities(grouped), Warning);
  }

  // ---------------------------------------------------------------------------
  // The query of GET

  datatype ReportType = AllIssues | Errors | Warnings

  function ReportTypeName(t: ReportType): string
  {
    match t
    case AllIssues => "ALL"
    case Errors => "ERRORS"
    case Warnings => "WARNINGS"
  }

  /** `z.enum(['ALL', 'ERRORS', 'WARNINGS'])`. */
  function ParseReportType(s: string): (r: Option<ReportType>)
    ensures forall t :: r == Some(t) <==> ReportTypeName(t) == s
  {
    if s == "ALL" then Some(AllIssues)
    else if s == "ERRORS" then Some(Errors)
    else if s == "WARNINGS" then Some(Warnings)
    else None
  }

  /** Whether an issue passes a `where` filter on severity (by name) and entity type. */
  predicate Matches(i: SeoIssue, severity: Option<string>, entity: Option<EntityType>)
  {
    (severity.None? || SeverityName(i.severity) == severity.value) &&
    (entity.None? || i.entityType == entity.value)
  }

  /**
   * The issues the query returns: `recent` are the stored issues newer than
   * the threshold, newest first; the filter applies and at most 100 are taken.
   */
  function SelectIssues(recent: seq<SeoIssue>, severity: Option<string>, entity: Option<EntityType>): (r: seq<SeoIssue>)
    ensures |r| <= 100
    ensures forall i :: 0 <= i < |r| ==> r[i] in recent && Matches(r[i], severity, entity)
    ensures |r| < 100 ==> forall i :: i in recent && Matches(i, severity, entity) ==> i in r
  {
    var matching := Seqs.Filter(recent, i => Matches(i, severity, entity));
    var r := Seqs.Take(matching, 100);
    assert |r| < 100 ==> r == matching;
    r
  }

  /** `type === 'ALL' ? undefined : type`, as written: the report type's own name. */
  function SeverityFilter(t: ReportType): Option<string>
  {
    if t == AllIssues then None else Some(ReportTypeName(t))
  }

  /** As written, a filtered report asks for a severity no issue has. */
  lemma {:induction false} SeverityFilterSelectsNothing(recent: seq<SeoIssue>, t: ReportType, entity: Option<EntityType>)
    requires t != AllIssues
    ensures SelectIssues(recent, SeverityFilter(t), entity) == []
  {
    forall i: SeoIssue ensures !Matches(i, SeverityFilter(t), entity) {
      assert |SeverityName(i.severity)| != |ReportTypeName(t)|;
    }
    Seqs.FilterNone(recent, i => Matches(i, SeverityFilter(t), entity));
  }

  /** The evidently intended filter: `ERRORS` asks for `ERROR` issues and `WARNINGS` for `WARNING` ones. */
  function IntendedSeverityFilter(t: ReportType): (r: Option<string>)
    ensures t == AllIssues <==> r.None?
    ensures t == Errors ==> r == Some(SeverityName(Error))
    ensures t == Warnings ==> r == Some(SeverityName(Warning))
  {
    match t
    case AllIssues => None
    case Errors => Some(SeverityName(Error))
    case Warnings => Some(SeverityName(Warning))
  }

  /** The issues an error report is meant to hold: the (first hundred) error issues. */
  lemma ErrorReportSelectsErrors(recent: seq<SeoIssue>, entity: Option<EntityType>)
    ensures var r := SelectIssues(recent, IntendedSeverityFilter(Errors), entity);
      (forall i :: i in r ==> i.severity == Error) &&
      (|r| < 100 ==> forall i :: (i in recent && i.severity == Error &&
        (entity.None? || i.entityType == entity.value)) ==> i in r)
  {
    var r := SelectIssues(recent, IntendedSeverityFilter(Errors), entity);
    forall i | i in r ensures i.severity == Error {
      assert Matches(i, Some("ERROR"), entity);
      assert SeverityName(Warning) != "ERROR";
    }
  }

  /** The query string of GET: `days` as parsed (None for NaN), `type`, `entityType`. */
  datatype MonitorQuery = MonitorQuery(days: Option<int>, reportType: Option<string>, entityType: Option<string>)

  /** `searchParams.get('type') || 'ALL'`. */
  function ReportTypeParam(q: MonitorQuery): string
  {
    if Truthy(q.reportType) then q.reportType.value else "ALL"
  }

  /** The query passes `monitorSchema`: days within 1..365, a known type and entity type. */
  predicate ValidQuery(q: MonitorQuery)
  {
    && q.days.Some? && 1 <= q.days.value <= 365
    && ParseReportType(ReportTypeParam(q)).Some?
    && (!Truthy(q.entityType) || ParseEntity(q.entityType.value).Some?)
  }

  datatype Report = Report(days: int, reportType: ReportType, entityType: Option<EntityType>,
                           issues: seq<SeoIssue>, analysis: Analysis)

  /**
   * GET with a given severity filter: administrators only, then the query is
   * checked, then the issues are selected and analysed. `stats` is the
   * group-by-severity result.
   */
  function Respond(user: Option<User>, q: MonitorQuery, recent: seq<SeoIssue>, stats: seq<GroupCount>,
                   filter: ReportType -> Option<string>): (r: Reply<Report>)
    ensures !IsAdmin(user) ==> r == Fail(Forbidden)
    ensures IsAdmin(user) && !ValidQuery(q) ==> r == Fail(BadRequest)
    ensures IsAdmin(user) && ValidQuery(q) ==> r.Ok?
    ensures r.Ok? ==> r.value.analysis.total == |r.value.issues| <= 100
    ensures r.Ok? ==> ReportTypeName(r.value.reportType) == ReportTypeParam(q)
    ensures r.Ok? ==> r.value.issues == SelectIssues(recent, filter(r.value.reportType), r.value.entityType)
  {
    if !IsAdmin(user) then Fail(Forbidden)
    else if !ValidQuery(q) then Fail(BadRequest)
    else
      var t := ParseReportType(ReportTypeParam(q)).value;
      var e := if Truthy(q.entityType) then ParseEntity(q.entityType.value) else None;
      var issues := SelectIssues(recent, filter(t), e);
      Ok(Report(q.days.value, t, e, issues, Analyze(issues, stats)))
  }

  /**
   * GET as written: the severity filter is the report type's own name, so an
   * `ERRORS` or `WARNINGS` report lists no issue.
   */
  function Get(user: Option<User>, q: MonitorQuery, recent: seq<SeoIssue>, stats: seq<GroupCount>): (r: Reply<Report>)
    ensures !IsAdmin(user) ==> r == Fail(Forbidden)
    ensures IsAdmin(user) && !ValidQuery(q) ==> r == Fail(BadRequest)
    ensures IsAdmin(user) && ValidQuery(q) ==> r.Ok?
    ensures r.Ok? ==> r.value.analysis.total == |r.value.issues| <= 100
    ensures r.Ok? && r.value.reportType == AllIssues ==>
      r.value.issues == SelectIssues(recent, None, r.value.entityType)
    ensures r.Ok? && r.value.reportType != AllIssues ==> r.value.issues == []
  {
    var r := Respond(user, q, recent, stats, SeverityFilter);
    if r.Ok? && r.value.reportType != AllIssues then
      SeverityFilterSelectsNothing(recent, r.value.reportType, r.value.entityType);
      r
    else r
  }

  /**
   * GET with the evidently intended filter: the issues of the requested
   * severity and entity type, at most 100, all of them when fewer were taken.
   */
  function GetIntended(user: Option<User>, q: MonitorQuery, recent: seq<SeoIssue>, stats: seq<GroupCount>): (r: Reply<Report>)
    ensures !IsAdmin(user) ==> r == Fail(Forbidden)
    ensures IsAdmin(user) && !ValidQuery(q) ==> r == Fail(BadRequest)
    ensures IsAdmin(user) && ValidQuery(q) ==> r.Ok?
    ensures r.Ok? ==> r.value.analysis.total == |r.value.issues| <= 100
    ensures r.Ok? ==> forall i :: i in r.value.issues ==>
      i in recent && Matches(i, IntendedSeverityFilter(r.value.reportType), r.value.entityType)
    ensures r.Ok? && |r.value.issues| < 100 ==> forall i ::
      i in recent && Matches(i, IntendedSeverityFilter(r.value.reportType), r.value.entityType) ==>
      i in r.value.issues
  {
    Respond(user, q, recent, stats, IntendedSeverityFilter)
  }

  // ---------------------------------------------------------------------------
  // The missing-alt-text pass of the health check

  datatype PostContent = PostContent(id: string, content: string)

  /** The predicate of the health check's image filter, as written. */
  predicate LacksAltText(content: string)
  {
    exists img :: img in Markdown.ImageMatches(content) &&
      (!Text.Contains(img, "![") || Text.Contains(img, "![]("))
  }

  /** Every image match contains `![`, so only the `![](` test can fire. */
  lemma LacksAltTextIff(content: string)
    ensures LacksAltText(content) <==>
      exists img :: img in Markdown.ImageMatches(content) && Text.Contains(img, "![](")
  {
    Markdown.ImageMatchShape(content, 0);
    forall img | img in Markdown.ImageMatches(content) ensures Text.Contains(img, "![") {
      assert Text.OccursAt(img, "![", 0);
    }
  }

  /** An image with an empty alt text is flagged. */
  lemma EmptyAltFlagged()
    ensures LacksAltText("![](a)")
  {
    Markdown.EmptyAltImage();
    assert Text.OccursAt("![](a)", "![](", 0);
    assert Text.Contains("![](a)", "![](");
    assert "![](a)" in Markdown.ImageMatches("![](a)");
  }

  predicate HasImageMarker(p: PostContent)
  {
    Text.Contains(p.content, "![")
  }

  predicate Flagged(p: PostContent)
  {
    LacksAltText(p.content)
  }

  /** `postsWithoutAltText`: the posts containing `![` whose images lack alt text. */
  function PostsWithoutAltText(posts: seq<PostContent>): seq<PostContent>
  {
    Seqs.Filter(Seqs.Filter(posts, HasImageMarker), Flagged)
  }

  /** The `contains: '!['` pre-selection drops no flagged post. */
  lemma PostsWithoutAltTextAll(posts: seq<PostContent>)
    ensures PostsWithoutAltText(posts) == Seqs.Filter(posts, Flagged)
  {
    forall p | Flagged(p) ensures HasImageMarker(p) {
      var img :| img in Markdown.ImageMatches(p.content) &&
        (!Text.Contains(img, "![") || Text.Contains(img, "![]("));
      Markdown.ImageMatchShape(p.content, 0);
      ContainsWithin(p.content, img);
    }
    Seqs.FilterNarrow(posts, Flagged, HasImageMarker);
  }

  /** An image match is a piece of the content, so the content contains its opening `![`. */
  lemma ContainsWithin(content: string, img: string)
    requires img in Markdown.ImageMatches(content)
    requires Text.StartsWith(img, "![")
    ensures Text.Contains(content, "![")
  {
    var i := MatchPosition(content, 0, img);
    assert content[i..i + 2] == img[..2];
    assert Text.OccursAt(content, "![", i);
  }

  /** Where a match of the image regex sits in the content. */
  lemma {:induction false} MatchPosition(s: string, from: nat, img: string) returns (i: nat)
    requires img in Markdown.ImageMatchesFrom(s, from)
    ensures i + |img| <= |s| && s[i..i + |img|] == img
    decreases |s| - from
  {
    match Markdown.ImageMatchEnd(s, from)
    case Some(e) =>
      if img == s[from..e] {
        i := from;
      } else {
        i := MatchPosition(s, e, img);
      }
    case None =>
      i := MatchPosition(s, from + 1, img);
  }

  const AltTextMessage: string := "تصویر بدون متن جایگزین (alt text)"

  /** The issue logged for a post without alt text. */
  function AltTextIssue(p: PostContent): IssueInput
  {
    IssueInput(PostEntity, p.id, AltTextMessage, Warning, None)
  }

  /** The records the health check stores: one warning per flagged post, for the first 20. */
  function AltTextRecords(flagged: seq<PostContent>): (r: seq<SeoIssue>)
    ensures |r| == Numeric.Min(20, |flagged|)
    ensures forall i :: 0 <= i < |r| ==>
      r[i] == SeoIssue(PostEntity, flagged[i].id, AltTextMessage, Warning, map[])
  {
    var capped := Seqs.Take(flagged, 20);
    seq(|capped|, i requires 0 <= i < |capped| => LogRecord(AltTextIssue(capped[i])))
  }

  datatype HealthStats = HealthStats(postsWithoutMetaTitle: nat, duplicateContent: nat, postsWithoutAltText: nat)

  datatype HealthCheck = HealthCheck(issuesFound: nat, stats: HealthStats, altTextRecords: seq<SeoIssue>)

  /**
   * The alt-text part of `runSeoHealthCheck`; the other two checks are
   * database queries whose results come in as lists.
   */
  function RunHealthCheck(withoutMetaTitle: seq<string>, duplicates: seq<string>, posts: seq<PostContent>): (h: HealthCheck)
    ensures h.issuesFound == h.stats.postsWithoutMetaTitle + h.stats.duplicateContent + h.stats.postsWithoutAltText
    ensures h.stats.postsWithoutAltText == |Seqs.Filter(posts, Flagged)|
    ensures |h.altTextRecords| <= 20 && |h.altTextRecords| <= h.stats.postsWithoutAltText
  {
    var flagged := PostsWithoutAltText(posts);
    PostsWithoutAltTextAll(posts);
    HealthCheck(|withoutMetaTitle| + |duplicates| + |flagged|,
                HealthStats(|withoutMetaTitle|, |duplicates|, |flagged|),
                AltTextRecords(flagged))
  }
}
