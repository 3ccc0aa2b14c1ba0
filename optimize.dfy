/**
 * The optimisation route: term weights from a TF-IDF term list and the
 * user's keywords, the ten heaviest terms, keyword density, a Flesch-style
 * reading score, prioritised advice and generated metadata.
 */
module Optimize {
  import opened Wrappers
  import opened Text
  import opened Numeric
  import opened Auth
  import Seqs

  /** The current SEO fields the client may send. */
  datatype SeoData = SeoData(metaTitle: Option<string>, metaDescription: Option<string>)

  /** The request body of the route, after JSON decoding. */
  datatype OptimizeInput = OptimizeInput(
    content: string, title: string, keywords: Option<string>, currentSeoData: Option<SeoData>)

  /** The request schema: content of 100 characters or more and a title of 10 to 100. */
  predicate ValidInput(d: OptimizeInput)
  {
    |d.content| >= 100 && 10 <= |d.title| <= 100
  }

  // ---------------------------------------------------------------------
  // Term weights

  /** A term and its weight: an item of the TF-IDF term list, or an entry of the weight record. */
  datatype WeightedTerm = WeightedTerm(term: string, weight: real)

  /** The TF-IDF filter: terms longer than three characters that the stemmer leaves unchanged. */
  predicate Kept(stem: string -> string, t: WeightedTerm)
  {
    |t.term| > 3 && stem(t.term) == t.term
  }

  /** The weight record, as its entries in insertion order, has one entry per term. */
  predicate DistinctKeys(rec: seq<WeightedTerm>)
  {
    forall i, j :: 0 <= i < j < |rec| ==> rec[i].term != rec[j].term
  }

  /** `rec[k]`, or nothing when the record has no entry for k. */
  function Find(rec: seq<WeightedTerm>, k: string): Option<real>
    decreases |rec|
  {
    if rec == [] then None
    else if rec[0].term == k then Some(rec[0].weight)
    else Find(rec[1..], k)
  }

  /** `rec[k] = v`: the entry of k is replaced in place, or appended when there is none. */
  function Put(rec: seq<WeightedTerm>, k: string, v: real): (r: seq<WeightedTerm>)
    ensures forall i :: 0 <= i < |r| ==> r[i].term == k || r[i] in rec
    decreases |rec|
  {
    if rec == [] then [WeightedTerm(k, v)]
    else if rec[0].term == k then [WeightedTerm(k, v)] + rec[1..]
    else [rec[0]] + Put(rec[1..], k, v)
  }

  /** A lookup finds an entry exactly when the record has one for the key. */
  lemma {:induction false} FindSome(rec: seq<WeightedTerm>, k: string)
    ensures Find(rec, k).Some? <==> exists i :: 0 <= i < |rec| && rec[i].term == k
    decreases |rec|
  {
    if rec != [] {
      FindSome(rec[1..], k);
      assert forall i :: 1 <= i < |rec| ==> rec[i] == rec[1..][i - 1];
      if rec[0].term != k && Find(rec, k).Some? {
        var i :| 0 <= i < |rec[1..]| && rec[1..][i].term == k;
        assert rec[i + 1].term == k;
      }
    }
  }

  /** After `rec[k] = v`, k maps to v and every other key to what it mapped to. */
  lemma {:induction false} PutFind(rec: seq<WeightedTerm>, k: string, v: real, k2: string)
    ensures Find(Put(rec, k, v), k2) == if k2 == k then Some(v) else Find(rec, k2)
    decreases |rec|
  {
    if rec != [] && rec[0].term != k {
      PutFind(rec[1..], k, v, k2);
    }
  }

  /** An assignment keeps one entry per key. */
  lemma {:induction false} PutDistinct(rec: seq<WeightedTerm>, k: string, v: real)
    requires DistinctKeys(rec)
    ensures DistinctKeys(Put(rec, k, v))
    decreases |rec|
  {
    if rec != [] && rec[0].term != k {
      PutDistinct(rec[1..], k, v);
      var tail := Put(rec[1..], k, v);
      var r := Put(rec, k, v);
      assert r == [rec[0]] + tail;
      forall i, j | 0 <= i < j < |r| ensures r[i].term != r[j].term {
        if i == 0 {
          assert r[j] == tail[j - 1];
          if tail[j - 1].term != k {
            assert tail[j - 1] in rec[1..];
            var m :| 0 <= m < |rec[1..]| && rec[1..][m] == tail[j - 1];
            assert rec[m + 1] == tail[j - 1];
          }
        } else {
          assert r[i] == tail[i - 1] && r[j] == tail[j - 1];
        }
      }
    } else if rec != [] {
      var r := Put(rec, k, v);
      forall i, j | 0 <= i < j < |r| ensures r[i].term != r[j].term {
        assert r[j] == rec[j];
      }
    }
  }

  /** The weight record after the TF-IDF loop: each kept term set to its weight, in list order. */
  function TermWeights(terms: seq<WeightedTerm>, stem: string -> string): seq<WeightedTerm>
    decreases |terms|
  {
    if terms == [] then []
    else
      var rec := TermWeights(terms[..|terms| - 1], stem);
      var t := terms[|terms| - 1];
      if Kept(stem, t) then Put(rec, t.term, t.weight) else rec
  }

  /**
   * The user's keywords: the keyword string split at commas, each piece
   * trimmed and lower-cased; none when no keyword string is sent (an empty
   * string still gives one empty keyword).
   */
  function UserKeywordList(userKeywords: Option<string>): (r: seq<string>)
    ensures userKeywords.None? <==> r == []
  {
    if userKeywords.None? then []
    else Seqs.Map(SplitOn(userKeywords.value, ','), (k: string) => Lower(Trim(k)))
  }

  function OrZero(w: Option<real>): real
  {
    if w.Some? then w.value else 0.0
  }

  /** The weight record after the user-keyword loop: two more for each keyword, in list order. */
  function Boost(rec: seq<WeightedTerm>, users: seq<string>): seq<WeightedTerm>
    decreases |users|
  {
    if users == [] then rec
    else
      var r := Boost(rec, users[..|users| - 1]);
      var kw := users[|users| - 1];
      Put(r, kw, OrZero(Find(r, kw)) + 2.0)
  }

  /** The weight record the route sorts. */
  function KeywordWeights(terms: seq<WeightedTerm>, stem: string -> string, userKeywords: Option<string>): seq<WeightedTerm>
  {
    Boost(TermWeights(terms, stem), UserKeywordList(userKeywords))
  }

  /** The TF-IDF loop: each kept term is set to its weight. */
  method CollectTermWeights(terms: seq<WeightedTerm>, stem: string -> string) returns (rec: seq<WeightedTerm>)
    ensures rec == TermWeights(terms, stem)
  {
    rec := [];
    var i := 0;
    while i < |terms|
      invariant i <= |terms|
      invariant rec == TermWeights(terms[..i], stem)
    {
      var item := terms[i];
      assert terms[..i + 1][..i] == terms[..i] && terms[..i + 1][i] == item;
      if |item.term| > 3 && stem(item.term) == item.term {
        rec := Put(rec, item.term, item.weight);
      }
      i := i + 1;
    }
    assert terms[..|terms|] == terms;
  }

  /** The user-keyword loop: each keyword gains 2, starting from 0 when absent. */
  method BoostUserKeywords(rec0: seq<WeightedTerm>, users: seq<string>) returns (rec: seq<WeightedTerm>)
    ensures rec == Boost(rec0, users)
  {
    rec := rec0;
    var j := 0;
    while j < |users|
      invariant j <= |users|
      invariant rec == Boost(rec0, users[..j])
    {
      var kw := users[j];
      assert users[..j + 1][..j] == users[..j] && users[..j + 1][j] == kw;
      var current := Find(rec, kw);
      rec := Put(rec, kw, (if current.Some? then current.value else 0.0) + 2.0);
      j := j + 1;
    }
    assert users[..|users|] == users;
  }

  /** The two loops of the route, updating one record. */
  method CollectKeywordWeights(terms: seq<WeightedTerm>, stem: string -> string, userKeywords: Option<string>)
    returns (rec: seq<WeightedTerm>)
    ensures rec == KeywordWeights(terms, stem, userKeywords)
  {
    rec := CollectTermWeights(terms, stem);
    rec := BoostUserKeywords(rec, UserKeywordList(userKeywords));
  }

  /** Reference reading of the term loop: the weight of the last kept list item for k. */
  function LastKept(terms: seq<WeightedTerm>, stem: string -> string, k: string): Option<real>
    decreases |terms|
  {
    if terms == [] then None
    else if Kept(stem, terms[|terms| - 1]) && terms[|terms| - 1].term == k then Some(terms[|terms| - 1].weight)
    else LastKept(terms[..|terms| - 1], stem, k)
  }

  /** Reference reading of the keyword loop: n mentions add 2n to the weight, or to 0. */
  function Boosted(base: Option<real>, n: nat): Option<real>
  {
    if n == 0 then base else Some(OrZero(base) + 2.0 * n as real)
  }

  /** Only kept terms get a TF-IDF weight. */
  lemma {:induction false} LastKeptIsKept(terms: seq<WeightedTerm>, stem: string -> string, k: string)
    ensures LastKept(terms, stem, k).Some? ==> |k| > 3 && stem(k) == k
    decreases |terms|
  {
    if terms != [] {
      LastKeptIsKept(terms[..|terms| - 1], stem, k);
    }
  }

  lemma {:induction false} TermWeightsLookup(terms: seq<WeightedTerm>, stem: string -> string, k: string)
    ensures DistinctKeys(TermWeights(terms, stem))
    ensures Find(TermWeights(terms, stem), k) == LastKept(terms, stem, k)
    decreases |terms|
  {
    if terms != [] {
      var front, t := terms[..|terms| - 1], terms[|terms| - 1];
      TermWeightsLookup(front, stem, k);
      if Kept(stem, t) {
        PutFind(TermWeights(front, stem), t.term, t.weight, k);
        PutDistinct(TermWeights(front, stem), t.term, t.weight);
      }
    }
  }

  lemma {:induction false} BoostDistinct(rec: seq<WeightedTerm>, users: seq<string>)
    requires DistinctKeys(rec)
    ensures DistinctKeys(Boost(rec, users))
    decreases |users|
  {
    if users != [] {
      var front, kw := users[..|users| - 1], users[|users| - 1];
      BoostDistinct(rec, front);
      var b := Boost(rec, front);
      PutDistinct(b, kw, OrZero(Find(b, kw)) + 2.0);
    }
  }

  lemma {:induction false} BoostLookup(rec: seq<WeightedTerm>, users: seq<string>, k: string)
    ensures Find(Boost(rec, users), k) == Boosted(Find(rec, k), multiset(users)[k])
    decreases |users|
  {
    if users != [] {
      var front, kw := users[..|users| - 1], users[|users| - 1];
      BoostLookup(rec, front, k);
      BoostLookup(rec, front, kw);
      var b := Boost(rec, front);
      var v := OrZero(Find(b, kw)) + 2.0;
      assert Boost(rec, users) == Put(b, kw, v);
      PutFind(b, kw, v, k);
      MentionsLast(users, k);
      var n := multiset(front)[k];
      if k == kw {
        BoostedStep(Find(rec, k), n);
        assert Find(Boost(rec, users), k) == Some(v) == Boosted(Find(rec, k), n + 1);
      } else {
        assert Find(Boost(rec, users), k) == Find(b, k) == Boosted(Find(rec, k), n);
      }
    }
  }

  /** The last mention of a keyword counts once for it and for no other key. */
  lemma MentionsLast(users: seq<string>, k: string)
    requires users != []
    ensures multiset(users)[k] == multiset(users[..|users| - 1])[k] + if k == users[|users| - 1] then 1 else 0
  {
    var front, kw := users[..|users| - 1], users[|users| - 1];
    assert users == front + [kw];
    assert multiset(users) == multiset(front) + multiset{kw};
  }

  /** Two more on top of n boosts is n + 1 boosts. */
  lemma BoostedStep(base: Option<real>, n: nat)
    ensures Boosted(base, n + 1) == Some(OrZero(Boosted(base, n)) + 2.0)
  {
  }

  /**
   * The record holds one entry per term; a term's weight is its last kept
   * TF-IDF weight, plus 2 for each time the user lists it, which starts from
   * 0 for a keyword the TF-IDF filter dropped or never saw.
   */
  lemma KeywordWeightsLookup(terms: seq<WeightedTerm>, stem: string -> string, userKeywords: Option<string>, k: string)
    ensures DistinctKeys(KeywordWeights(terms, stem, userKeywords))
    ensures Find(KeywordWeights(terms, stem, userKeywords), k)
      == Boosted(LastKept(terms, stem, k), multiset(UserKeywordList(userKeywords))[k])
  {
    TermWeightsLookup(terms, stem, k);
    BoostDistinct(TermWeights(terms, stem), UserKeywordList(userKeywords));
    BoostLookup(TermWeights(terms, stem), UserKeywordList(userKeywords), k);
  }

  lemma {:induction false} ListedKeywordWeighted(rec: seq<WeightedTerm>, users: seq<string>, k: string)
    requires k in users
    ensures Find(Boost(rec, users), k).Some?
  {
    assert k in multiset(users);
    BoostLookup(rec, users, k);
  }

  /** A keyword the user lists always has a weight, whether or not the TF-IDF filter kept it. */
  lemma UserKeywordsBypassFilter(terms: seq<WeightedTerm>, stem: string -> string, userKeywords: Option<string>, k: string)
    requires k in UserKeywordList(userKeywords)
    ensures Find(KeywordWeights(terms, stem, userKeywords), k).Some?
  {
    TermWeightsLookup(terms, stem, k);
    ListedKeywordWeighted(TermWeights(terms, stem), UserKeywordList(userKeywords), k);
  }

  /** Any other weighted term passed the TF-IDF filter. */
  lemma OtherTermsKept(terms: seq<WeightedTerm>, stem: string -> string, userKeywords: Option<string>, k: string)
    requires k !in UserKeywordList(userKeywords)
    requires Find(KeywordWeights(terms, stem, userKeywords), k).Some?
    ensures |k| > 3 && stem(k) == k
  {
    KeywordWeightsLookup(terms, stem, userKeywords, k);
    var users := UserKeywordList(userKeywords);
    assert multiset(users)[k] == 0;
    LastKeptIsKept(terms, stem, k);
  }

  // ---------------------------------------------------------------------
  // The ten heaviest terms

  predicate SortedByWeight(s: seq<WeightedTerm>)
  {
    forall i, j :: 0 <= i < j < |s| ==> s[i].weight >= s[j].weight
  }

  /** Places x before the first entry it weighs at least as much as. */
  function InsertByWeight(x: WeightedTerm, s: seq<WeightedTerm>): (r: seq<WeightedTerm>)
    ensures multiset(r) == multiset(s) + multiset{x}
    ensures r[0] == x || r[0] == s[0]
    decreases |s|
  {
    if s == [] || x.weight >= s[0].weight then [x] + s
    else
      assert s == [s[0]] + s[1..];
      [s[0]] + InsertByWeight(x, s[1..])
  }

  /** Inserting into a heaviest-first sequence keeps it heaviest first. */
  lemma {:induction false} InsertSorted(x: WeightedTerm, s: seq<WeightedTerm>)
    requires SortedByWeight(s)
    ensures SortedByWeight(InsertByWeight(x, s))
    decreases |s|
  {
    if s != [] && x.weight < s[0].weight {
      var rest := InsertByWeight(x, s[1..]);
      InsertSorted(x, s[1..]);
      var r := InsertByWeight(x, s);
      assert r == [s[0]] + rest;
      assert rest[0].weight <= s[0].weight;
      forall i, j | 0 <= i < j < |r| ensures r[i].weight >= r[j].weight {
        if i == 0 {
          assert rest[0].weight >= rest[j - 1].weight || j == 1;
        } else {
          assert r[i] == rest[i - 1] && r[j] == rest[j - 1];
        }
      }
    }
  }

  /** `entries.sort((a, b) => b[1] - a[1])`: heaviest first, equal weights in entry order. */
  function SortByWeight(s: seq<WeightedTerm>): (r: seq<WeightedTerm>)
    ensures multiset(r) == multiset(s) && |r| == |s|
    ensures SortedByWeight(r)
    decreases |s|
  {
    if s == [] then []
    else
      assert s == [s[0]] + s[1..];
      var rest := SortByWeight(s[1..]);
      InsertSorted(s[0], rest);
      InsertByWeight(s[0], rest)
  }

  /** The terms of the first ten entries of the sorted record. */
  function TopKeywords(rec: seq<WeightedTerm>): (r: seq<string>)
    ensures |r| == Min(10, |rec|)
  {
    Seqs.Map(Seqs.Take(SortByWeight(rec), 10), (e: WeightedTerm) => e.term)
  }

  /**
   * The top terms are the first ten of a heaviest-first permutation of the
   * record, and no entry left out weighs more than one kept.
   */
  lemma TopKeywordsHeaviest(rec: seq<WeightedTerm>)
    ensures var sorted, top := SortByWeight(rec), TopKeywords(rec);
      && multiset(sorted) == multiset(rec)
      && (forall i :: 0 <= i < |top| ==> top[i] == sorted[i].term)
      && (forall i, j :: 0 <= i < j < |top| ==> sorted[i].weight >= sorted[j].weight)
      && (forall i, j :: 0 <= i < |top| <= j < |sorted| ==> sorted[j].weight <= sorted[i].weight)
  {
  }

  /** A record of ten entries or fewer has all its terms among the top terms. */
  lemma TopKeywordsAll(rec: seq<WeightedTerm>, e: WeightedTerm)
    requires |rec| <= 10 && e in rec
    ensures e.term in TopKeywords(rec)
  {
    var sorted := SortByWeight(rec);
    assert e in multiset(sorted);
    var i :| 0 <= i < |sorted| && sorted[i] == e;
    assert TopKeywords(rec)[i] == e.term;
  }

  function First(top: seq<string>): Option<string>
  {
    if top == [] then None else Some(top[0])
  }

  // ---------------------------------------------------------------------
  // Keyword density and reading score

  /** A share in percent, rounded to hundredths. */
  function Percent(count: nat, total: nat): (r: real)
    requires total >= 1
    ensures count <= total ==> 0.0 <= r <= 100.0
  {
    var share := count as real / total as real;
    if count <= total then
      assert share * total as real == count as real;
      assert share <= 1.0;
      Round2Bounds(share * 100.0);
      Round2(share * 100.0)
    else Round2(share * 100.0)
  }

  /** More hits among as many words never give a lower density. */
  lemma PercentMonotone(a: nat, b: nat, total: nat)
    requires total >= 1 && a <= b
    ensures Percent(a, total) <= Percent(b, total)
  {
    assert a as real / total as real <= b as real / total as real;
    Round2Monotone(a as real / total as real * 100.0, b as real / total as real * 100.0);
  }

  /** The words of the lower-cased text that contain the keyword. */
  function Hits(content: string, keyword: string): (r: nat)
    ensures r <= |Words(Lower(content))|
  {
    |Seqs.Filter(Words(Lower(content)), (w: string) => Contains(w, Lower(keyword)))|
  }

  /** The share of words containing the keyword: 0 without a keyword, else a percentage. */
  function KeywordDensity(content: string, keyword: Option<string>): (r: real)
    ensures !Truthy(keyword) ==> r == 0.0
    ensures 0.0 <= r <= 100.0
  {
    if !Truthy(keyword) then 0.0
    else Percent(Hits(content, keyword.value), |Words(Lower(content))|)
  }

  /** The sentences that are more than white space. */
  function NonEmptySentences(content: string): seq<string>
  {
    Seqs.Filter(Sentences(content), (s: string) => |Trim(s)| > 0)
  }

  /** `words.reduce((n, w) => n + max(1, |w| / 3), 0)`. */
  function Syllables(words: seq<string>): (r: real)
    ensures r >= |words| as real
    decreases |words|
  {
    if words == [] then 0.0
    else Syllables(words[..|words| - 1]) + MaxReal(1.0, |words[|words| - 1]| as real / 3.0)
  }

  /**
   * The Flesch-style score, rounded and clamped to [0, 100]. Without a
   * sentence the average sentence length is infinite and the clamp gives 0.
   */
  function FleschReadability(content: string): (r: int)
    ensures 0 <= r <= 100
    ensures |NonEmptySentences(content)| == 0 ==> r == 0
  {
    var sentences, words := NonEmptySentences(content), Words(content);
    if |sentences| == 0 then 0
    else
      var score := 206.835 - 1.015 * (|words| as real / |sentences| as real)
                   - 84.6 * (Syllables(words) / |words| as real);
      Min(100, Max(0, Round(score)))
  }

  /** A quotient is at least c when the dividend is at least c times the divisor. */
  lemma QuotientAtLeast(a: real, b: real, c: real)
    requires b > 0.0 && a >= c * b
    ensures a / b >= c
  {
    assert (a / b) * b == a;
  }

  /** Every word counts at least one syllable, so 121 words a sentence or more score 0. */
  lemma LongSentencesScoreZero(content: string)
    requires |Words(content)| >= 121 * |NonEmptySentences(content)| > 0
    ensures FleschReadability(content) == 0
  {
    var sentences, words := NonEmptySentences(content), Words(content);
    var avgWords := |words| as real / |sentences| as real;
    var avgSyllables := Syllables(words) / |words| as real;
    QuotientAtLeast(|words| as real, |sentences| as real, 121.0);
    QuotientAtLeast(Syllables(words), |words| as real, 1.0);
    var score := 206.835 - 1.015 * avgWords - 84.6 * avgSyllables;
    assert score <= -0.58;
    assert Round(score) <= -1;
  }

  // ---------------------------------------------------------------------
  // Keyword summary

  /** What the keyword analysis returns. */
  datatype KeywordSummary = KeywordSummary(
    topKeywords: seq<string>, keywordDensity: real, contentLength: nat, wordCount: nat)

  /**
   * The keyword analysis of the page text `text`, given the TF-IDF term list
   * of its lower-cased form and the stemmer.
   */
  function AnalyzeKeywords(text: string, terms: seq<WeightedTerm>, stem: string -> string,
                           userKeywords: Option<string>): (r: KeywordSummary)
    ensures |r.topKeywords| <= 10
    ensures 0.0 <= r.keywordDensity <= 100.0
    ensures r.topKeywords == [] ==> r.keywordDensity == 0.0
    ensures r.wordCount >= 1 && r.contentLength == |text|
  {
    SummaryOf(text, KeywordWeights(terms, stem, userKeywords))
  }

  /** The summary of the page text for a weight record: its top terms and the first one's density. */
  function SummaryOf(text: string, rec: seq<WeightedTerm>): (r: KeywordSummary)
    ensures |r.topKeywords| <= 10
    ensures 0.0 <= r.keywordDensity <= 100.0
    ensures r.topKeywords == [] ==> r.keywordDensity == 0.0
    ensures r.wordCount >= 1 && r.contentLength == |text|
  {
    var top := TopKeywords(rec);
    var density := KeywordDensity(text, First(top));
    assert |top| <= 10 && 0.0 <= density <= 100.0;
    KeywordSummary(top, density, |text|, |Words(text)|)
  }

  /** The method form of the analysis, which fills the record with loops. */
  method AnalyzeKeywordsLoop(text: string, terms: seq<WeightedTerm>, stem: string -> string,
                             userKeywords: Option<string>) returns (r: KeywordSummary)
    ensures r == AnalyzeKeywords(text, terms, stem, userKeywords)
  {
    var rec := CollectKeywordWeights(terms, stem, userKeywords);
    r := SummaryOf(text, rec);
  }

  // ---------------------------------------------------------------------
  // Advice

  datatype Kind = TitleKind | ContentKind | KeywordKind | MetadataKind
  datatype Priority = High | Medium

  /** What a piece of advice says, with the values its texts quote. */
  datatype Note =
    | ShortTitle(keyword: Option<string>)
    | ShortContent(wordCount: nat)
    | LowDensity(keyword: Option<string>)
    | NoMetaTitle(title: string, topKeywords: seq<string>)
    | NoMetaDescription(idealDescription: string)

  /** One piece of advice: its type, its priority and what it says. */
  datatype Advice = Advice(kind: Kind, priority: Priority, note: Note)

  /** The `type` field of a record. */
  function KindName(k: Kind): string
  {
    match k
    case TitleKind => "title"
    case ContentKind => "content"
    case KeywordKind => "keyword"
    case MetadataKind => "metadata"
  }

  /** How a template literal prints a keyword that may be missing. */
  function Show(keyword: Option<string>): string
  {
    if keyword.Some? then keyword.value else "undefined"
  }

  /** The `message` field of a record. */
  function Message(n: Note): string
  {
    match n
    case ShortTitle(_) => "عنوان کوتاه است (حداقل 40 کاراکتر توصیه می\U{200C}شود)"
    case ShortContent(w) => "محتوای شما " + NatToString(w) + " کلمه است (حداقل 800 کلمه توصیه می\U{200C}شود)"
    case LowDensity(_) => "چگالی کلمه کلیدی اصلی کم است"
    case NoMetaTitle(_, _) => "عنوان سئو (meta title) تعیین نشده است"
    case NoMetaDescription(_) => "توضیحات متا (meta description) تعیین نشده است"
  }

  /** The `suggestion` field of a record. */
  function SuggestionText(n: Note): string
  {
    match n
    case ShortTitle(kw) => "سعی کنید عنوان را با اضافه کردن کلمه کلیدی \"" + Show(kw) + "\" گسترش دهید"
    case ShortContent(_) => "مطالب بیشتری در مورد موضوع بنویسید یا مثال\U{200C}های عملی اضافه کنید"
    case LowDensity(kw) => "کلمه \"" + Show(kw) + "\" را به صورت طبیعی در محتوا بیشتر استفاده کنید"
    case NoMetaTitle(t, top) => "استفاده از عنوان \"" + t + " | " + Join(top, ", ") + "\" را در نظر بگیرید"
    case NoMetaDescription(d) => "استفاده از این توضیح را در نظر بگیرید: \"" + d + "\""
  }

  /** A title under 40 characters: high priority, suggesting the first top term. */
  function TitleAdvice(title: string, k: KeywordSummary): seq<Advice>
  {
    if |title| < 40 then [Advice(TitleKind, High, ShortTitle(First(k.topKeywords)))] else []
  }

  /** Fewer than 800 words: medium priority, quoting the word count. */
  function ContentAdvice(k: KeywordSummary): seq<Advice>
  {
    if k.wordCount < 800 then [Advice(ContentKind, Medium, ShortContent(k.wordCount))] else []
  }

  /** A density under 0.5: high priority, naming the first top term. */
  function KeywordAdvice(k: KeywordSummary): seq<Advice>
  {
    if k.keywordDensity < 0.5 then [Advice(KeywordKind, High, LowDensity(First(k.topKeywords)))] else []
  }

  /** Current SEO data without a meta title: high priority, proposing title and top terms. */
  function MetaTitleAdvice(title: string, k: KeywordSummary, current: Option<SeoData>): seq<Advice>
  {
    if current.Some? && !Truthy(current.value.metaTitle) then
      [Advice(MetadataKind, High, NoMetaTitle(title, k.topKeywords))]
    else []
  }

  /** Current SEO data without a meta description: medium priority, proposing the first 160 characters. */
  function MetaDescriptionAdvice(content: string, current: Option<SeoData>): seq<Advice>
  {
    if current.Some? && !Truthy(current.value.metaDescription) then
      [Advice(MetadataKind, Medium, NoMetaDescription(Prefix(content, 160)))]
    else []
  }

  /** The advice in the order the rules push it, before sorting. */
  function AdviceList(content: string, title: string, k: KeywordSummary, current: Option<SeoData>): seq<Advice>
  {
    TitleAdvice(title, k) + ContentAdvice(k) + KeywordAdvice(k)
    + MetaTitleAdvice(title, k, current) + MetaDescriptionAdvice(content, current)
  }

  predicate IsHigh(a: Advice)
  {
    a.priority == High
  }

  predicate IsMedium(a: Advice)
  {
    a.priority == Medium
  }

  function Reverse<T>(s: seq<T>): (r: seq<T>)
    ensures |r| == |s| && forall i :: 0 <= i < |s| ==> r[i] == s[|s| - 1 - i]
    decreases |s|
  {
    if s == [] then [] else Reverse(s[1..]) + [s[0]]
  }

  /**
   * The order the route's sort produces with its comparator, which puts a
   * high record first and calls two high records out of order: V8's
   * insertion sort then sends each high record to the front, so the high
   * records end up reversed, followed by the medium ones in their order.
   */
  function ByPriority(s: seq<Advice>): seq<Advice>
  {
    Reverse(Seqs.Filter(s, IsHigh)) + Seqs.Filter(s, IsMedium)
  }

  /** No medium record comes before a high one: what the comparator asks of any result. */
  predicate PriorityOrdered(s: seq<Advice>)
  {
    forall i, j :: 0 <= i < j < |s| ==> !(IsMedium(s[i]) && IsHigh(s[j]))
  }

  lemma FilterPartition(s: seq<Advice>)
    ensures multiset(Seqs.Filter(s, IsHigh)) + multiset(Seqs.Filter(s, IsMedium)) == multiset(s)
  {
    assert forall a: Advice :: IsMedium(a) == !IsHigh(a);
    Seqs.FilterSplitMultiset(s, IsHigh, IsMedium);
  }

  lemma {:induction false} ReverseMultiset(s: seq<Advice>)
    ensures multiset(Reverse(s)) == multiset(s)
    decreases |s|
  {
    if s != [] {
      ReverseMultiset(s[1..]);
      assert s == [s[0]] + s[1..];
    }
  }

  /** The sort returns a permutation of the pushed advice. */
  lemma ByPriorityPermutation(s: seq<Advice>)
    ensures multiset(ByPriority(s)) == multiset(s) && |ByPriority(s)| == |s|
  {
    var highs, mediums := Seqs.Filter(s, IsHigh), Seqs.Filter(s, IsMedium);
    FilterPartition(s);
    ReverseMultiset(highs);
    assert multiset(ByPriority(s)) == multiset(Reverse(highs)) + multiset(mediums);
    assert |ByPriority(s)| == |multiset(ByPriority(s))| == |multiset(s)| == |s|;
  }

  /** Every high record comes before every medium one. */
  lemma ByPriorityOrdered(s: seq<Advice>)
    ensures PriorityOrdered(ByPriority(s))
  {
    var highs, mediums := Reverse(Seqs.Filter(s, IsHigh)), Seqs.Filter(s, IsMedium);
    var r := ByPriority(s);
    forall i, j | 0 <= i < j < |r| && IsMedium(r[i]) ensures !IsHigh(r[j]) {
      assert r[j] == mediums[j - |highs|];
    }
  }

  /** The medium records keep their push order and the high ones are reversed. */
  lemma ByPriorityFilters(s: seq<Advice>)
    ensures Seqs.Filter(ByPriority(s), IsMedium) == Seqs.Filter(s, IsMedium)
    ensures Seqs.Filter(ByPriority(s), IsHigh) == Reverse(Seqs.Filter(s, IsHigh))
  {
    var highs, mediums := Reverse(Seqs.Filter(s, IsHigh)), Seqs.Filter(s, IsMedium);
    assert forall i :: 0 <= i < |highs| ==> IsHigh(highs[i]);
    Seqs.FilterAll(highs, IsHigh);
    Seqs.FilterNone(highs, IsMedium);
    Seqs.FilterAll(mediums, IsMedium);
    Seqs.FilterNone(mediums, IsHigh);
    Seqs.FilterAppend(highs, mediums, IsMedium);
    Seqs.FilterAppend(highs, mediums, IsHigh);
    assert mediums == [] + mediums;
    assert highs + [] == highs;
  }

  /** The rules push at most one record each, and metadata records only when current SEO data is sent. */
  lemma AdviceListShape(content: string, title: string, k: KeywordSummary, current: Option<SeoData>)
    ensures |AdviceList(content, title, k, current)| <= 5
    ensures current.None? ==> forall a :: a in AdviceList(content, title, k, current) ==> a.kind != MetadataKind
  {
    if current.None? {
      assert AdviceList(content, title, k, current) == TitleAdvice(title, k) + ContentAdvice(k) + KeywordAdvice(k) + [];
    }
  }

  /** Each kind of record is pushed exactly when its rule's condition holds. */
  lemma AdviceConditions(content: string, title: string, k: KeywordSummary, current: Option<SeoData>)
    ensures var s := AdviceList(content, title, k, current);
      && ((exists a :: a in s && a.kind == TitleKind) <==> |title| < 40)
      && ((exists a :: a in s && a.kind == ContentKind) <==> k.wordCount < 800)
      && ((exists a :: a in s && a.kind == KeywordKind) <==> k.keywordDensity < 0.5)
      && ((exists a :: a in s && a.kind == MetadataKind && a.priority == High)
            <==> current.Some? && !Truthy(current.value.metaTitle))
      && ((exists a :: a in s && a.kind == MetadataKind && a.priority == Medium)
            <==> current.Some? && !Truthy(current.value.metaDescription))
  {
    TitleAdviceIff(content, title, k, current);
    ContentAdviceIff(content, title, k, current);
    KeywordAdviceIff(content, title, k, current);
    MetaTitleAdviceIff(content, title, k, current);
    MetaDescriptionAdviceIff(content, title, k, current);
  }

  // One rule at a time: the kind it pushes is in the list iff its condition holds.

  lemma TitleAdviceIff(content: string, title: string, k: KeywordSummary, current: Option<SeoData>)
    ensures (exists a :: a in AdviceList(content, title, k, current) && a.kind == TitleKind) <==> |title| < 40
  {
    InAdviceList(content, title, k, current);
    if |title| < 40 { assert TitleAdvice(title, k)[0] in AdviceList(content, title, k, current); }
  }

  lemma ContentAdviceIff(content: string, title: string, k: KeywordSummary, current: Option<SeoData>)
    ensures (exists a :: a in AdviceList(content, title, k, current) && a.kind == ContentKind) <==> k.wordCount < 800
  {
    InAdviceList(content, title, k, current);
    if k.wordCount < 800 { assert ContentAdvice(k)[0] in AdviceList(content, title, k, current); }
  }

  lemma KeywordAdviceIff(content: string, title: string, k: KeywordSummary, current: Option<SeoData>)
    ensures (exists a :: a in AdviceList(content, title, k, current) && a.kind == KeywordKind) <==> k.keywordDensity < 0.5
  {
    InAdviceList(content, title, k, current);
    if k.keywordDensity < 0.5 { assert KeywordAdvice(k)[0] in AdviceList(content, title, k, current); }
  }

  lemma MetaTitleAdviceIff(content: string, title: string, k: KeywordSummary, current: Option<SeoData>)
    ensures (exists a :: a in AdviceList(content, title, k, current) && a.kind == MetadataKind && a.priority == High)
      <==> current.Some? && !Truthy(current.value.metaTitle)
  {
    InAdviceList(content, title, k, current);
    if current.Some? && !Truthy(current.value.metaTitle) {
      assert MetaTitleAdvice(title, k, current)[0] in AdviceList(content, title, k, current);
    }
  }

  lemma MetaDescriptionAdviceIff(content: string, title: string, k: KeywordSummary, current: Option<SeoData>)
    ensures (exists a :: a in AdviceList(content, title, k, current) && a.kind == MetadataKind && a.priority == Medium)
      <==> current.Some? && !Truthy(current.value.metaDescription)
  {
    InAdviceList(content, title, k, current);
    if current.Some? && !Truthy(current.value.metaDescription) {
      assert MetaDescriptionAdvice(content, current)[0] in AdviceList(content, title, k, current);
    }
  }

  /** A record is in the list iff one of the five rules pushes it. */
  lemma InAdviceList(content: string, title: string, k: KeywordSummary, current: Option<SeoData>)
    ensures forall a :: a in AdviceList(content, title, k, current) <==>
      a in TitleAdvice(title, k) || a in ContentAdvice(k) || a in KeywordAdvice(k)
      || a in MetaTitleAdvice(title, k, current) || a in MetaDescriptionAdvice(content, current)
  {
  }

  /** The title, content and keyword rules, pushing onto an empty list. */
  method PushPageAdvice(title: string, k: KeywordSummary) returns (s: seq<Advice>)
    ensures s == TitleAdvice(title, k) + ContentAdvice(k) + KeywordAdvice(k)
  {
    s := [];
    if |title| < 40 {
      s := s + [Advice(TitleKind, High, ShortTitle(First(k.topKeywords)))];
    }
    ghost var s1 := s;
    if k.wordCount < 800 {
      s := s + [Advice(ContentKind, Medium, ShortContent(k.wordCount))];
    } else {
      Seqs.AppendNothing(s);
    }
    assert s == s1 + ContentAdvice(k);
    ghost var s2 := s;
    if k.keywordDensity < 0.5 {
      s := s + [Advice(KeywordKind, High, LowDensity(First(k.topKeywords)))];
    } else {
      Seqs.AppendNothing(s);
    }
    assert s == s2 + KeywordAdvice(k);
  }

  /** The two metadata rules, which run only when current SEO data is sent. */
  method PushMetadataAdvice(content: string, title: string, k: KeywordSummary, current: Option<SeoData>,
                            s0: seq<Advice>) returns (s: seq<Advice>)
    ensures s == s0 + MetaTitleAdvice(title, k, current) + MetaDescriptionAdvice(content, current)
  {
    s := s0;
    if current.Some? {
      if !Truthy(current.value.metaTitle) {
        s := s + [Advice(MetadataKind, High, NoMetaTitle(title, k.topKeywords))];
      } else {
        Seqs.AppendNothing(s);
      }
      ghost var s1 := s;
      assert s1 == s0 + MetaTitleAdvice(title, k, current);
      if !Truthy(current.value.metaDescription) {
        var idealDescription := Prefix(content, 160);
        s := s + [Advice(MetadataKind, Medium, NoMetaDescription(idealDescription))];
      } else {
        Seqs.AppendNothing(s);
      }
      assert s == s1 + MetaDescriptionAdvice(content, current);
    } else {
      Seqs.AppendNothing(s0);
      Seqs.AppendNothing(s0 + []);
    }
  }

  /** The five rules pushing onto one list, then the sort. */
  method GenerateOptimizationSuggestions(content: string, title: string, k: KeywordSummary,
                                         current: Option<SeoData>) returns (r: seq<Advice>)
    ensures r == ByPriority(AdviceList(content, title, k, current))
  {
    var s := PushPageAdvice(title, k);
    s := PushMetadataAdvice(content, title, k, current, s);
    r := ByPriority(s);
  }

  // ---------------------------------------------------------------------
  // Metadata

  datatype Metadata = Metadata(
    metaTitle: string, metaDescription: string, focusKeyword: Option<string>, secondaryKeywords: seq<string>)

  const Brand: string := "سجاد اکبری"

  /**
   * The generated metadata: the current title and description when not
   * empty, else the templates; the first top term as focus keyword and the
   * next two as secondary keywords.
   */
  function OptimizedMetadata(title: string, content: string, k: KeywordSummary, current: Option<SeoData>): (r: Metadata)
    ensures current.Some? && Truthy(current.value.metaTitle) ==> r.metaTitle == current.value.metaTitle.value
    ensures !(current.Some? && Truthy(current.value.metaTitle)) ==>
      r.metaTitle == title + " | " + Show(First(k.topKeywords)) + " | " + Brand
    ensures current.Some? && Truthy(current.value.metaDescription) ==>
      r.metaDescription == current.value.metaDescription.value
    ensures !(current.Some? && Truthy(current.value.metaDescription)) ==>
      r.metaDescription == content[..Min(140, |content|)] + "..."
    ensures r.focusKeyword == First(k.topKeywords)
    ensures |r.secondaryKeywords| == Max(0, Min(3, |k.topKeywords|) - 1)
    ensures forall i :: 0 <= i < |r.secondaryKeywords| ==> r.secondaryKeywords[i] == k.topKeywords[i + 1]
  {
    var metaTitle := if current.Some? && Truthy(current.value.metaTitle) then current.value.metaTitle.value
                     else title + " | " + Show(First(k.topKeywords)) + " | " + Brand;
    var metaDescription := if current.Some? && Truthy(current.value.metaDescription) then current.value.metaDescription.value
                           else Prefix(content, 140) + "...";
    Metadata(metaTitle, metaDescription, First(k.topKeywords), Seqs.Slice(k.topKeywords, 1, 3))
  }

  /** For a request the schema accepts, a generated description has 103 to 143 characters and a generated title ends with the brand. */
  lemma GeneratedMetadataShape(d: OptimizeInput, k: KeywordSummary)
    requires ValidInput(d)
    ensures var m := OptimizedMetadata(d.title, d.content, k, d.currentSeoData);
      && (!(d.currentSeoData.Some? && Truthy(d.currentSeoData.value.metaDescription)) ==>
            103 <= |m.metaDescription| <= 143)
      && (!(d.currentSeoData.Some? && Truthy(d.currentSeoData.value.metaTitle)) ==>
            StartsWith(m.metaTitle, d.title) && m.metaTitle[|m.metaTitle| - |Brand|..] == Brand)
  {
    var m := OptimizedMetadata(d.title, d.content, k, d.currentSeoData);
    if !(d.currentSeoData.Some? && Truthy(d.currentSeoData.value.metaTitle)) {
      var rest := " | " + Show(First(k.topKeywords)) + " | ";
      assert m.metaTitle == d.title + rest + Brand;
      assert m.metaTitle[..|d.title|] == d.title;
    }
  }

  // ---------------------------------------------------------------------
  // The route

  datatype Optimization = Optimization(
    keywordAnalysis: KeywordSummary, optimizedMetadata: Metadata,
    suggestions: seq<Advice>, readabilityScore: int)

  /**
   * The route: 401 without a session, 400 for a body the schema refuses,
   * else the optimisation of the body, given the page text (`text`) and the
   * TF-IDF term list of its lower-cased form (`terms`).
   */
  function Post(user: Option<User>, body: OptimizeInput, text: string,
                terms: seq<WeightedTerm>, stem: string -> string): (r: Reply<Optimization>)
    ensures user.None? ==> r == Fail(Unauthorized)
    ensures user.Some? && !ValidInput(body) ==> r == Fail(BadRequest)
    ensures r.Ok? <==> user.Some? && ValidInput(body)
    ensures r.Ok? ==>
      && r.value.keywordAnalysis == AnalyzeKeywords(text, terms, stem, body.keywords)
      && |r.value.suggestions| <= 5
      && 0 <= r.value.readabilityScore <= 100
  {
    if user.None? then Fail(Unauthorized)
    else if !ValidInput(body) then Fail(BadRequest)
    else
      var k := AnalyzeKeywords(text, terms, stem, body.keywords);
      var advice := AdviceList(body.content, body.title, k, body.currentSeoData);
      AdviceListShape(body.content, body.title, k, body.currentSeoData);
      ByPriorityPermutation(advice);
      Ok(Optimization(k, OptimizedMetadata(body.title, body.content, k, body.currentSeoData),
                      ByPriority(advice), FleschReadability(body.content)))
  }
}
