/**
 * The content analyser of the SEO analyse route: title, meta description,
 * keyword and body figures, the weighted overall score, readability and the
 * ordered list of suggestions.
 */
module Analyze {
  import opened Wrappers
  import opened Text
  import opened Numeric
  import opened Auth
  import Markdown
  import Seqs

  /** The request body of the route, after JSON decoding. */
  datatype AnalyzeInput = AnalyzeInput(
    content: string, title: string, metaDescription: Option<string>, keywords: Option<string>)

  /** The request schema: content of 100 characters or more, a title of 10 to 100, a description of at most 160. */
  predicate ValidInput(d: AnalyzeInput)
  {
    && |d.content| >= 100
    && 10 <= |d.title| <= 100
    && (d.metaDescription.Some? ==> |d.metaDescription.value| <= 160)
  }

  /** The figures reported for the title and for the meta description. */
  datatype TextAnalysis = TextAnalysis(length: nat, ideal: bool, containsKeyword: bool, score: int)

  /** Whether the keyword string, when given and not empty, occurs in `text`, both lower-cased. */
  predicate MentionsKeyword(text: string, keywords: Option<string>)
  {
    Truthy(keywords) && Contains(Lower(text), Lower(keywords.value))
  }

  /** The title figures: ideal between 40 and 60 characters, one and a half points per character up to 100. */
  function AnalyzeTitle(title: string, keywords: Option<string>): (r: TextAnalysis)
    ensures r.length == |title|
    ensures r.ideal <==> 40 <= |title| <= 60
    ensures r.containsKeyword <==> MentionsKeyword(title, keywords)
    ensures r.score == Min(100, 3 * |title| / 2)
    ensures 0 <= r.score <= 100
  {
    var q := 3 * |title| / 2;
    assert 2 * q <= 3 * |title| < 2 * q + 2;
    assert q as real <= |title| as real * 1.5 < q as real + 1.0;
    TextAnalysis(|title|, 40 <= |title| <= 60, MentionsKeyword(title, keywords),
                 Min(100, (|title| as real * 1.5).Floor))
  }

  /** The description that is scored: the meta description when not empty, else the first 160 characters of the content. */
  function Description(d: AnalyzeInput): (r: string)
    ensures Truthy(d.metaDescription) ==> r == d.metaDescription.value
    ensures !Truthy(d.metaDescription) ==> |r| == Min(160, |d.content|) && r == d.content[..|r|]
  {
    if Truthy(d.metaDescription) then d.metaDescription.value else Prefix(d.content, 160)
  }

  /** A request the schema accepts is scored on a description of 1 to 160 characters, and of 100 or more when it has none of its own. */
  lemma DescriptionAtMost160(d: AnalyzeInput)
    requires ValidInput(d)
    ensures 0 < |Description(d)| <= 160
    ensures !Truthy(d.metaDescription) ==> |Description(d)| >= 100
  {
  }

  /** The description figures: ideal between 120 and 160 characters, five points per eight characters up to 100. */
  function AnalyzeDescription(description: string, keywords: Option<string>): (r: TextAnalysis)
    ensures r.length == |description|
    ensures r.ideal <==> 120 <= |description| <= 160
    ensures r.containsKeyword <==> MentionsKeyword(description, keywords)
    ensures r.score == Min(100, 5 * |description| / 8)
    ensures 0 <= r.score <= 100
  {
    var q := 5 * |description| / 8;
    assert 8 * q <= 5 * |description| < 8 * q + 8;
    assert q as real <= |description| as real * 0.625 < q as real + 1.0;
    TextAnalysis(|description|, 120 <= |description| <= 160, MentionsKeyword(description, keywords),
                 Min(100, (|description| as real * 0.625).Floor))
  }

  /** One reported keyword position and the text around it. */
  datatype KeywordPosition = KeywordPosition(position: nat, context: string)

  /** Twenty characters of the original content either side of the occurrence. */
  function Context(content: string, keyword: string, p: nat): string
  {
    Substring(content, Max(0, p - 20), p + |keyword| + 20)
  }

  /** The positions `ps` with their contexts. */
  function Positions(content: string, keyword: string, ps: seq<nat>): (r: seq<KeywordPosition>)
    ensures |r| == |ps|
    ensures forall i :: 0 <= i < |ps| ==>
      r[i] == KeywordPosition(ps[i], Context(content, keyword, ps[i]))
    decreases |ps|
  {
    if ps == [] then []
    else [KeywordPosition(ps[0], Context(content, keyword, ps[0]))] + Positions(content, keyword, ps[1..])
  }

  /**
   * What the position scan reports: the first five occurrences, overlapping
   * ones included, of the lower-cased keyword in the lower-cased content.
   */
  function KeywordPositions(content: string, keyword: string): (r: seq<KeywordPosition>)
    requires |keyword| > 0
    ensures |r| <= 5
    ensures forall i :: 0 <= i < |r| ==>
      OccursAt(Lower(content), keyword, r[i].position)
      && r[i].context == Context(content, keyword, r[i].position)
    ensures forall i, j :: 0 <= i < j < |r| ==> r[i].position < r[j].position
  {
    OccurrencesSpec(Lower(content), keyword, 0);
    var all := Occurrences(Lower(content), keyword, 0);
    assert forall i :: 0 <= i < |all| ==> all[i] in all;
    Seqs.Take(Positions(content, keyword, all), 5)
  }

  /** No occurrence is skipped: every one before the last reported, or every one when fewer than five are reported, is reported. */
  lemma KeywordPositionsComplete(content: string, keyword: string, p: int)
    requires |keyword| > 0 && OccursAt(Lower(content), keyword, p)
    ensures var r := KeywordPositions(content, keyword);
      (|r| < 5 || p <= r[|r| - 1].position) ==> exists i :: 0 <= i < |r| && r[i].position == p
  {
    var all := Occurrences(Lower(content), keyword, 0);
    OccurrencesSpec(Lower(content), keyword, 0);
    var ps := Positions(content, keyword, all);
    var r := KeywordPositions(content, keyword);
    assert r == Seqs.Take(ps, 5);
    assert |r| == Min(5, |all|);
    assert forall i :: 0 <= i < |r| ==> r[i] == ps[i];
    assert p in all;
    var j :| 0 <= j < |all| && all[j] == p;
    if |r| < 5 || p <= r[|r| - 1].position {
      if |r| == 5 {
        assert r[4].position == all[4];
        assert forall t :: 4 < t < |all| ==> all[4] < all[t];
      }
      assert j < |r|;
      assert r[j].position == all[j];
    }
  }

  /** The position scan: `indexOf` from the start, then from one past each hit, keeping the first five. */
  method GetKeywordPositions(content: string, keyword: string) returns (r: seq<KeywordPosition>)
    requires |keyword| > 0
    ensures r == KeywordPositions(content, keyword)
  {
    var lower := Lower(content);
    var found: seq<KeywordPosition> := [];
    ghost var from: nat := 0;
    ghost var all := Occurrences(lower, keyword, 0);
    ghost var rest := all;
    var pos := IndexOf(lower, keyword, 0);
    while pos != -1
      invariant from <= |lower| + 1
      invariant pos == IndexOf(lower, keyword, from)
      invariant rest == Occurrences(lower, keyword, from)
      invariant found + Positions(content, keyword, rest) == Positions(content, keyword, all)
      decreases |lower| + 1 - from
    {
      OccurrencesStep(lower, keyword, from);
      assert rest[0] == pos && rest[1..] == Occurrences(lower, keyword, pos + 1);
      PositionsStep(found, content, keyword, rest);
      found := found + [KeywordPosition(pos, Context(content, keyword, pos))];
      from := pos + 1;
      rest := rest[1..];
      pos := IndexOf(lower, keyword, pos + 1);
    }
    OccurrencesStep(lower, keyword, from);
    assert rest == [];
    assert found == Positions(content, keyword, all) by {
      assert Positions(content, keyword, rest) == [];
      assert found + [] == found;
    }
    r := Seqs.Take(found, 5);
  }

  /** The keyword figures of the route, where `density` is the unrounded percentage and `densityFixed` its two-decimal rounding. */
  datatype KeywordAnalysis = KeywordAnalysis(
    count: nat, density: real, densityFixed: real, ideal: bool,
    positions: seq<KeywordPosition>, score: int)

  /** The figures for `count` non-overlapping hits among `wordCount` words. */
  function KeywordFigures(count: nat, wordCount: nat, positions: seq<KeywordPosition>): (r: KeywordAnalysis)
    requires wordCount >= 1
    ensures r.density * wordCount as real == count as real * 100.0
    ensures r.densityFixed - 0.005 <= r.density < r.densityFixed + 0.005
    ensures r.ideal <==> 0.5 <= r.density <= 2.5
    ensures 0 <= r.score <= 100
    ensures r.score < 100 ==> r.score as real <= r.density * 40.0 < r.score as real + 1.0
  {
    var density := (count as real / wordCount as real) * 100.0;
    KeywordAnalysis(count, density, Round2(density), 0.5 <= density <= 2.5, positions,
                    Min(100, (density * 40.0).Floor))
  }

  /** The number of words: the pieces of the content split at runs of white space. */
  function WordCount(content: string): (n: nat)
    ensures n >= 1
  {
    |Words(content)|
  }

  /** The keyword figures, present exactly when the keyword string is given and not empty. */
  function AnalyzeKeyword(content: string, keywords: Option<string>): (r: Option<KeywordAnalysis>)
    ensures r.None? <==> !Truthy(keywords)
    ensures r.Some? ==>
      && r.value.count == SplitCount(Lower(content), Lower(keywords.value), 0)
      && r.value.count <= |Occurrences(Lower(content), Lower(keywords.value), 0)|
      && r.value.positions == KeywordPositions(content, Lower(keywords.value))
      && r.value == KeywordFigures(r.value.count, WordCount(content), r.value.positions)
  {
    if !Truthy(keywords) then None
    else
      var keyword := Lower(keywords.value);
      SplitCountAtMostOccurrences(Lower(content), keyword, 0);
      Some(KeywordFigures(SplitCount(Lower(content), keyword, 0), WordCount(content),
                          KeywordPositions(content, keyword)))
  }

  /** The keyword is counted exactly when at least one position is reported. */
  lemma CountZeroIffNoPositions(content: string, keywords: Option<string>)
    requires Truthy(keywords)
    ensures var k := AnalyzeKeyword(content, keywords).value;
      k.count == 0 <==> |k.positions| == 0
  {
    var keyword := Lower(keywords.value);
    SplitCountZero(Lower(content), keyword, 0);
    var all := Occurrences(Lower(content), keyword, 0);
    assert |Positions(content, keyword, all)| == |all|;
  }

  /** The reading-ease score: full marks up to ten words a sentence, two points less per extra word, never below 0. */
  function Readability(text: string): (r: real)
    ensures 0.0 <= r <= 100.0
    ensures var avg := |Words(text)| as real / |Sentences(text)| as real;
      && (avg <= 10.0 ==> r == 100.0)
      && (10.0 <= avg <= 60.0 ==> r == 120.0 - 2.0 * avg)
      && (avg >= 60.0 ==> r == 0.0)
  {
    var avg := |Words(text)| as real / |Sentences(text)| as real;
    MinReal(100.0, MaxReal(0.0, 100.0 - (avg - 10.0) * 2.0))
  }

  /** The weighted total: 30% title, 20% each description, keyword and length, 20 points for an H1, 10 for an image. */
  function OverallScore(titleScore: int, descriptionScore: int, keywordScore: int,
                        wordCount: nat, hasH1: bool, imageCount: nat): (r: int)
    requires 0 <= titleScore <= 100 && 0 <= descriptionScore <= 100 && 0 <= keywordScore <= 100
    ensures 0 <= r <= 120
  {
    Round(titleScore as real * 0.3 + descriptionScore as real * 0.2 + keywordScore as real * 0.2
          + MinReal(100.0, wordCount as real * 0.1) * 0.2
          + (if hasH1 then 20.0 else 0.0) + (if imageCount > 0 then 10.0 else 0.0))
  }

  /** The weights add up to 120, so a complete page scores above 100. */
  lemma OverallScoreReaches120()
    ensures OverallScore(100, 100, 100, 1000, true, 1) == 120
  {
    assert Round(120.0) == 120;
  }

  /** A page with no heading, no image and no keyword scores at most 70. */
  lemma OverallScoreWithoutBonuses(titleScore: int, descriptionScore: int, wordCount: nat)
    requires 0 <= titleScore <= 100 && 0 <= descriptionScore <= 100
    ensures OverallScore(titleScore, descriptionScore, 0, wordCount, false, 0) <= 70
  {
  }

  /** Moving the first remaining position onto the found ones keeps the whole list. */
  lemma PositionsStep(found: seq<KeywordPosition>, content: string, keyword: string, rest: seq<nat>)
    requires rest != []
    ensures found + Positions(content, keyword, rest)
      == (found + [KeywordPosition(rest[0], Context(content, keyword, rest[0]))]) + Positions(content, keyword, rest[1..])
  {
    var hit := KeywordPosition(rest[0], Context(content, keyword, rest[0]));
    assert Positions(content, keyword, rest) == [hit] + Positions(content, keyword, rest[1..]);
    Seqs.Associate(found, [hit], Positions(content, keyword, rest[1..]));
  }

  /** The suggestions of the route; `Message` gives each one's text. */
  datatype Suggestion =
    | TitleTooShort | TitleTooLong | KeywordNotInTitle
    | DescriptionTooShort | DescriptionTooLong
    | ContentTooShort | MissingH1 | MissingImage
    | DensityTooLow | DensityTooHigh | KeywordNotInContent
    | ContentIsGood

  function Message(s: Suggestion): string
  {
    match s
    case TitleTooShort => "عنوان شما کوتاه است. سعی کنید آن را به 40-60 کاراکتر برسانید."
    case TitleTooLong => "عنوان شما طولانی است. سعی کنید آن را زیر 60 کاراکتر نگه دارید."
    case KeywordNotInTitle => "کلمه کلیدی اصلی را در عنوان قرار دهید."
    case DescriptionTooShort => "توضیحات متا کوتاه است. سعی کنید آن را به 120-160 کاراکتر برسانید."
    case DescriptionTooLong => "توضیحات متا طولانی است. سعی کنید آن را زیر 160 کاراکتر نگه دارید."
    case ContentTooShort => "محتوای شما کوتاه است. سعی کنید حداقل 300 کلمه بنویسید."
    case MissingH1 => "از تگ H1 در محتوای خود استفاده کنید."
    case MissingImage => "حداقل یک تصویر به محتوای خود اضافه کنید."
    case DensityTooLow => "چگالی کلمه کلیدی شما کم است. سعی کنید آن را به 0.5-2.5% برسانید."
    case DensityTooHigh => "چگالی کلمه کلیدی شما زیاد است. از تکرار بیش از حد خودداری کنید."
    case KeywordNotInContent => "کلمه کلیدی را در محتوای خود استفاده کنید."
    case ContentIsGood => "محتوای شما از نظر سئو خوب است!"
  }

  /** The position, among the eight rules, of the rule that gives a suggestion (8 for the closing one). */
  function Rank(s: Suggestion): nat
  {
    match s
    case TitleTooShort | TitleTooLong => 0
    case KeywordNotInTitle => 1
    case DescriptionTooShort | DescriptionTooLong => 2
    case ContentTooShort => 3
    case MissingH1 => 4
    case MissingImage => 5
    case DensityTooLow | DensityTooHigh => 6
    case KeywordNotInContent => 7
    case ContentIsGood => 8
  }

  /** The part of the analysis the rules read. */
  datatype SuggestionInput = SuggestionInput(
    title: TextAnalysis, description: TextAnalysis, keyword: Option<KeywordAnalysis>,
    wordCount: nat, hasH1: bool, imageCount: nat)

  /** The density advice, which compares the two-decimal figure, not the one `ideal` was computed from. */
  function DensityAdvice(k: KeywordAnalysis): (s: Suggestion)
    ensures s == DensityTooLow || s == DensityTooHigh
  {
    if k.densityFixed < 0.5 then DensityTooLow else DensityTooHigh
  }

  /** The suggestion, if any, of rule number k. */
  function Rule(k: nat, a: SuggestionInput): (r: seq<Suggestion>)
    ensures |r| <= 1
    ensures forall i :: 0 <= i < |r| ==> Rank(r[i]) == k
  {
    if k == 0 then
      if !a.title.ideal then [if a.title.length < 40 then TitleTooShort else TitleTooLong] else []
    else if k == 1 then
      if a.keyword.Some? && !a.title.containsKeyword then [KeywordNotInTitle] else []
    else if k == 2 then
      if !a.description.ideal then
        [if a.description.length < 120 then DescriptionTooShort else DescriptionTooLong]
      else []
    else if k == 3 then
      if a.wordCount < 300 then [ContentTooShort] else []
    else if k == 4 then
      if !a.hasH1 then [MissingH1] else []
    else if k == 5 then
      if a.imageCount == 0 then [MissingImage] else []
    else if k == 6 then
      if a.keyword.Some? && !a.keyword.value.ideal then [DensityAdvice(a.keyword.value)] else []
    else if k == 7 then
      if a.keyword.Some? && |a.keyword.value.positions| == 0 then [KeywordNotInContent] else []
    else []
  }

  /** The suggestions of rules k to 7, in rule order. */
  function Fired(a: SuggestionInput, k: nat): seq<Suggestion>
    decreases 8 - k
  {
    if k >= 8 then [] else Rule(k, a) + Fired(a, k + 1)
  }

  /** The suggestions of the eight rules, in rule order. */
  function AllRules(a: SuggestionInput): seq<Suggestion>
  {
    Rule(0, a) + Rule(1, a) + Rule(2, a) + Rule(3, a) + Rule(4, a) + Rule(5, a) + Rule(6, a) + Rule(7, a)
  }

  /** The suggestions of all the rules, or the closing one alone when no rule fires. */
  function Suggestions(a: SuggestionInput): (r: seq<Suggestion>)
    ensures |r| >= 1
  {
    var f := AllRules(a);
    if f == [] then [ContentIsGood] else f
  }

  /** Rules k to 7 give at most one suggestion each, in rule order, and a suggestion only through its own rule. */
  lemma {:induction false} FiredShape(a: SuggestionInput, k: nat)
    requires k <= 8
    ensures |Fired(a, k)| <= 8 - k
    ensures forall i :: 0 <= i < |Fired(a, k)| ==> k <= Rank(Fired(a, k)[i]) < 8
    ensures forall i, j :: 0 <= i < j < |Fired(a, k)| ==> Rank(Fired(a, k)[i]) < Rank(Fired(a, k)[j])
    ensures forall s :: s in Fired(a, k) <==> k <= Rank(s) < 8 && s in Rule(Rank(s), a)
    decreases 8 - k
  {
    if k < 8 {
      FiredShape(a, k + 1);
      var head, tail := Rule(k, a), Fired(a, k + 1);
      assert Fired(a, k) == head + tail;
      assert forall s :: s in head ==> Rank(s) == k;
    }
  }

  /** The list is in rule order, has at most eight entries, and holds the closing message only when it is alone. */
  lemma SuggestionsOrdered(a: SuggestionInput)
    ensures |Suggestions(a)| <= 8
    ensures forall i, j :: 0 <= i < j < |Suggestions(a)| ==> Rank(Suggestions(a)[i]) < Rank(Suggestions(a)[j])
    ensures ContentIsGood in Suggestions(a) <==> Suggestions(a) == [ContentIsGood]
  {
    FiredShape(a, 0);
    FiredUnfold(a);
  }

  /** A suggestion other than the closing one is in the list exactly when its own rule gives it. */
  lemma InSuggestionsIff(a: SuggestionInput, s: Suggestion)
    requires s != ContentIsGood
    ensures s in Suggestions(a) <==> s in Rule(Rank(s), a)
  {
    FiredShape(a, 0);
    FiredUnfold(a);
    var f := AllRules(a);
    assert Rank(s) < 8;
    assert s in f <==> s in Rule(Rank(s), a);
    assert Suggestions(a) == if f == [] then [ContentIsGood] else f;
  }

  /** The rules from the first on are the eight rules written out. */
  lemma FiredUnfold(a: SuggestionInput)
    ensures Fired(a, 0) == AllRules(a)
  {
    var r0, r1, r2, r3 := Rule(0, a), Rule(1, a), Rule(2, a), Rule(3, a);
    var r4, r5, r6, r7 := Rule(4, a), Rule(5, a), Rule(6, a), Rule(7, a);
    assert Fired(a, 7) == r7 by {
      assert Fired(a, 8) == [];
      Seqs.AppendNothing(r7);
    }
    assert Fired(a, 6) == r6 + r7;
    assert Fired(a, 5) == r5 + r6 + r7 by {
      Seqs.Associate(r5, r6, r7);
    }
    assert Fired(a, 4) == r4 + r5 + r6 + r7 by {
      Seqs.Associate(r4, r5 + r6, r7);
      Seqs.Associate(r4, r5, r6);
    }
    assert Fired(a, 3) == r3 + r4 + r5 + r6 + r7 by {
      Seqs.Associate(r3, r4 + r5 + r6, r7);
      Seqs.Associate(r3, r4 + r5, r6);
      Seqs.Associate(r3, r4, r5);
    }
    assert Fired(a, 2) == r2 + r3 + r4 + r5 + r6 + r7 by {
      Seqs.Associate(r2, r3 + r4 + r5 + r6, r7);
      Seqs.Associate(r2, r3 + r4 + r5, r6);
      Seqs.Associate(r2, r3 + r4, r5);
      Seqs.Associate(r2, r3, r4);
    }
    assert Fired(a, 1) == r1 + r2 + r3 + r4 + r5 + r6 + r7 by {
      Seqs.Associate(r1, r2 + r3 + r4 + r5 + r6, r7);
      Seqs.Associate(r1, r2 + r3 + r4 + r5, r6);
      Seqs.Associate(r1, r2 + r3 + r4, r5);
      Seqs.Associate(r1, r2 + r3, r4);
      Seqs.Associate(r1, r2, r3);
    }
    assert Fired(a, 0) == r0 + r1 + r2 + r3 + r4 + r5 + r6 + r7 by {
      Seqs.Associate(r0, r1 + r2 + r3 + r4 + r5 + r6, r7);
      Seqs.Associate(r0, r1 + r2 + r3 + r4 + r5, r6);
      Seqs.Associate(r0, r1 + r2 + r3 + r4, r5);
      Seqs.Associate(r0, r1 + r2 + r3, r4);
      Seqs.Associate(r0, r1 + r2, r3);
      Seqs.Associate(r0, r1, r2);
    }
  }

  /** The title and description suggestions are given exactly when the route's conditions for them hold. */
  lemma TextSuggestionConditions(a: SuggestionInput)
    ensures TitleTooShort in Suggestions(a) <==> !a.title.ideal && a.title.length < 40
    ensures TitleTooLong in Suggestions(a) <==> !a.title.ideal && a.title.length >= 40
    ensures KeywordNotInTitle in Suggestions(a) <==> a.keyword.Some? && !a.title.containsKeyword
    ensures DescriptionTooShort in Suggestions(a) <==> !a.description.ideal && a.description.length < 120
    ensures DescriptionTooLong in Suggestions(a) <==> !a.description.ideal && a.description.length >= 120
  {
    TitleTooShortIff(a);
    TitleTooLongIff(a);
    KeywordNotInTitleIff(a);
    DescriptionTooShortIff(a);
    DescriptionTooLongIff(a);
  }

  /** The body suggestions are given exactly when the route's conditions for them hold. */
  lemma BodySuggestionConditions(a: SuggestionInput)
    ensures ContentTooShort in Suggestions(a) <==> a.wordCount < 300
    ensures MissingH1 in Suggestions(a) <==> !a.hasH1
    ensures MissingImage in Suggestions(a) <==> a.imageCount == 0
  {
    ContentTooShortIff(a);
    MissingH1Iff(a);
    MissingImageIff(a);
  }

  /** The keyword suggestions are given exactly when the route's conditions for them hold. */
  lemma KeywordSuggestionConditions(a: SuggestionInput)
    ensures DensityTooLow in Suggestions(a) <==>
      a.keyword.Some? && !a.keyword.value.ideal && a.keyword.value.densityFixed < 0.5
    ensures DensityTooHigh in Suggestions(a) <==>
      a.keyword.Some? && !a.keyword.value.ideal && a.keyword.value.densityFixed >= 0.5
    ensures KeywordNotInContent in Suggestions(a) <==>
      a.keyword.Some? && |a.keyword.value.positions| == 0
  {
    DensityTooLowIff(a);
    DensityTooHighIff(a);
    KeywordNotInContentIff(a);
  }

  // One suggestion at a time: its own rule's condition.

  lemma TitleTooShortIff(a: SuggestionInput)
    ensures TitleTooShort in Suggestions(a) <==> !a.title.ideal && a.title.length < 40
  {
    InSuggestionsIff(a, TitleTooShort);
    assert Rank(TitleTooShort) == 0;
  }

  lemma TitleTooLongIff(a: SuggestionInput)
    ensures TitleTooLong in Suggestions(a) <==> !a.title.ideal && a.title.length >= 40
  {
    InSuggestionsIff(a, TitleTooLong);
    assert Rank(TitleTooLong) == 0;
  }

  lemma KeywordNotInTitleIff(a: SuggestionInput)
    ensures KeywordNotInTitle in Suggestions(a) <==> a.keyword.Some? && !a.title.containsKeyword
  {
    InSuggestionsIff(a, KeywordNotInTitle);
    assert Rank(KeywordNotInTitle) == 1;
  }

  lemma DescriptionTooShortIff(a: SuggestionInput)
    ensures DescriptionTooShort in Suggestions(a) <==> !a.description.ideal && a.description.length < 120
  {
    InSuggestionsIff(a, DescriptionTooShort);
    assert Rank(DescriptionTooShort) == 2;
  }

  lemma DescriptionTooLongIff(a: SuggestionInput)
    ensures DescriptionTooLong in Suggestions(a) <==> !a.description.ideal && a.description.length >= 120
  {
    InSuggestionsIff(a, DescriptionTooLong);
    assert Rank(DescriptionTooLong) == 2;
  }

  lemma ContentTooShortIff(a: SuggestionInput)
    ensures ContentTooShort in Suggestions(a) <==> a.wordCount < 300
  {
    InSuggestionsIff(a, ContentTooShort);
    assert Rank(ContentTooShort) == 3;
  }

  lemma MissingH1Iff(a: SuggestionInput)
    ensures MissingH1 in Suggestions(a) <==> !a.hasH1
  {
    InSuggestionsIff(a, MissingH1);
    assert Rank(MissingH1) == 4;
  }

  lemma MissingImageIff(a: SuggestionInput)
    ensures MissingImage in Suggestions(a) <==> a.imageCount == 0
  {
    InSuggestionsIff(a, MissingImage);
    assert Rank(MissingImage) == 5;
  }

  lemma DensityTooLowIff(a: SuggestionInput)
    ensures DensityTooLow in Suggestions(a) <==> a.keyword.Some? && !a.keyword.value.ideal && a.keyword.value.densityFixed < 0.5
  {
    InSuggestionsIff(a, DensityTooLow);
    assert Rank(DensityTooLow) == 6;
  }

  lemma DensityTooHighIff(a: SuggestionInput)
    ensures DensityTooHigh in Suggestions(a) <==> a.keyword.Some? && !a.keyword.value.ideal && a.keyword.value.densityFixed >= 0.5
  {
    InSuggestionsIff(a, DensityTooHigh);
    assert Rank(DensityTooHigh) == 6;
  }

  lemma KeywordNotInContentIff(a: SuggestionInput)
    ensures KeywordNotInContent in Suggestions(a) <==> a.keyword.Some? && |a.keyword.value.positions| == 0
  {
    InSuggestionsIff(a, KeywordNotInContent);
    assert Rank(KeywordNotInContent) == 7;
  }

  /** The closing message is given exactly when every check passes. */
  lemma ContentIsGoodIff(a: SuggestionInput)
    ensures ContentIsGood in Suggestions(a) <==>
      && a.title.ideal && a.description.ideal && a.wordCount >= 300 && a.hasH1 && a.imageCount > 0
      && (a.keyword.Some? ==>
            a.title.containsKeyword && a.keyword.value.ideal && |a.keyword.value.positions| > 0)
  {
    FiredShape(a, 0);
    FiredUnfold(a);
    assert ContentIsGood !in AllRules(a);
  }

  /** The density advice is "too high" for one hit in 201 words, a density below 0.5, because 0.4975 rounds to 0.50. */
  lemma DensityJustBelowHalfCalledHigh(ps: seq<KeywordPosition>)
    ensures var k := KeywordFigures(1, 201, ps);
      k.density < 0.5 && !k.ideal && DensityAdvice(k) == DensityTooHigh
  {
    var k := KeywordFigures(1, 201, ps);
    assert k.density == 100.0 / 201.0;
    assert Round(k.density * 100.0) == 50;
  }

  /** The title rules: a length advice, then the keyword advice. */
  method TitleSuggestions(a: SuggestionInput) returns (s: seq<Suggestion>)
    ensures s == Rule(0, a) + Rule(1, a)
  {
    s := [];
    if !a.title.ideal {
      s := s + [if a.title.length < 40 then TitleTooShort else TitleTooLong];
    }
    if a.keyword.Some? && !a.title.containsKeyword {
      s := s + [KeywordNotInTitle];
    } else {
      Seqs.AppendNothing(s);
    }
  }

  /** The description rule appended to `s0`. */
  method AppendDescriptionSuggestions(a: SuggestionInput, s0: seq<Suggestion>) returns (s: seq<Suggestion>)
    ensures s == s0 + Rule(2, a)
  {
    s := s0;
    if !a.description.ideal {
      s := s + [if a.description.length < 120 then DescriptionTooShort else DescriptionTooLong];
    } else {
      Seqs.AppendNothing(s);
    }
  }

  /** The body rules appended to `s0`: length, H1, image. */
  method AppendContentSuggestions(a: SuggestionInput, s0: seq<Suggestion>) returns (s: seq<Suggestion>)
    ensures s == s0 + Rule(3, a) + Rule(4, a) + Rule(5, a)
  {
    s := s0;
    if a.wordCount < 300 {
      s := s + [ContentTooShort];
    } else {
      Seqs.AppendNothing(s);
    }
    assert s == s0 + Rule(3, a);
    if !a.hasH1 {
      s := s + [MissingH1];
    } else {
      Seqs.AppendNothing(s);
    }
    assert s == s0 + Rule(3, a) + Rule(4, a);
    if a.imageCount == 0 {
      s := s + [MissingImage];
    } else {
      Seqs.AppendNothing(s);
    }
  }

  /** The keyword rules appended to `s0`, which apply only when a keyword was analysed. */
  method AppendKeywordSuggestions(a: SuggestionInput, s0: seq<Suggestion>) returns (s: seq<Suggestion>)
    ensures s == s0 + Rule(6, a) + Rule(7, a)
  {
    s := s0;
    if a.keyword.Some? {
      if !a.keyword.value.ideal {
        s := s + [if a.keyword.value.densityFixed < 0.5 then DensityTooLow else DensityTooHigh];
      } else {
        Seqs.AppendNothing(s);
      }
      assert s == s0 + Rule(6, a);
      if |a.keyword.value.positions| == 0 {
        s := s + [KeywordNotInContent];
      } else {
        Seqs.AppendNothing(s);
      }
    } else {
      Seqs.AppendNothing(s);
      Seqs.AppendNothing(s + []);
    }
  }

  /** The rules applied one after another, section by section, as the route appends to its list. */
  method GenerateSuggestions(a: SuggestionInput) returns (r: seq<Suggestion>)
    ensures r == Suggestions(a)
  {
    var s := TitleSuggestions(a);
    s := AppendDescriptionSuggestions(a, s);
    s := AppendContentSuggestions(a, s);
    s := AppendKeywordSuggestions(a, s);
    r := if |s| > 0 then s else [ContentIsGood];
  }

  /** The figures of the body text. */
  datatype ContentAnalysis = ContentAnalysis(
    wordCount: nat, paragraphCount: nat, headingCount: nat, hasH1: bool,
    imageCount: nat, readabilityScore: real)

  /** The result of the analysis; the timestamped identifier is not modelled. */
  datatype Analysis = Analysis(
    overallScore: int, title: TextAnalysis, description: TextAnalysis,
    keyword: Option<KeywordAnalysis>, content: ContentAnalysis, suggestions: seq<Suggestion>)

  function KeywordScore(k: Option<KeywordAnalysis>): int
  {
    if k.Some? then k.value.score else 0
  }

  /** The whole analysis of one request body. */
  function AnalyzeContent(d: AnalyzeInput): (r: Analysis)
    ensures 0 <= r.overallScore <= 120
    ensures r.title == AnalyzeTitle(d.title, d.keywords)
    ensures r.description == AnalyzeDescription(Description(d), d.keywords)
    ensures r.keyword == AnalyzeKeyword(d.content, d.keywords)
    ensures r.content.wordCount == WordCount(d.content)
    ensures r.content.paragraphCount == SplitCount(d.content, "\n\n", 0) + 1
    ensures r.content.headingCount == |Markdown.HeadingMatches(d.content)|
    ensures r.content.hasH1 == Markdown.HasH1(d.content)
    ensures r.content.imageCount == |Markdown.ImageMatches(d.content)|
    ensures 0.0 <= r.content.readabilityScore <= 100.0
    ensures r.suggestions == Suggestions(SuggestionInput(
      r.title, r.description, r.keyword, r.content.wordCount, r.content.hasH1, r.content.imageCount))
  {
    var title := AnalyzeTitle(d.title, d.keywords);
    var description := AnalyzeDescription(Description(d), d.keywords);
    var keyword := AnalyzeKeyword(d.content, d.keywords);
    var words := WordCount(d.content);
    var hasH1 := Markdown.HasH1(d.content);
    var images := |Markdown.ImageMatches(d.content)|;
    var content := ContentAnalysis(words, SplitCount(d.content, "\n\n", 0) + 1,
      |Markdown.HeadingMatches(d.content)|, hasH1, images, Readability(d.content));
    Analysis(
      OverallScore(title.score, description.score, KeywordScore(keyword), words, hasH1, images),
      title, description, keyword, content,
      Suggestions(SuggestionInput(title, description, keyword, words, hasH1, images)))
  }

  /** The route: 401 without a session, 400 for a body the schema refuses, else the analysis. */
  function Post(user: Option<User>, body: AnalyzeInput): (r: Reply<Analysis>)
    ensures user.None? ==> r == Fail(Unauthorized)
    ensures user.Some? && !ValidInput(body) ==> r == Fail(BadRequest)
    ensures r.Ok? <==> user.Some? && ValidInput(body)
    ensures r.Ok? ==> r.value == AnalyzeContent(body)
  {
    if user.None? then Fail(Unauthorized)
    else if !ValidInput(body) then Fail(BadRequest)
    else Ok(AnalyzeContent(body))
  }
}
