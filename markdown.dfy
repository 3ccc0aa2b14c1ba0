/**
 * The two markdown regular expressions of the SEO routes, as scanners:
 * heading lines (`/^#+\s+.+/gm`) and images (`/!\[.*?\]\(.*?\)/g`).
 */
module Markdown {
  import opened Wrappers
  import opened Text
  import Seqs

  /** The number of `#` characters a line starts with. */
  function LeadingHashes(line: string): (n: nat)
    ensures n <= |line|
    ensures forall i :: 0 <= i < n ==> line[i] == '#'
    ensures n < |line| ==> line[n] != '#'
    decreases |line|
  {
    if line != [] && line[0] == '#' then 1 + LeadingHashes(line[1..]) else 0
  }

  /** JavaScript's line terminators: what `.` does not match, and what `^` follows under the `m` flag. */
  predicate IsLineBreak(c: char)
  {
    c == '\n' || c == '\r' || c == '\U{2028}' || c == '\U{2029}'
  }

  /** Under the `m` flag `^` holds at the start of the text and after every line terminator. */
  predicate AtLineStart(s: string, i: nat)
  {
    i == 0 || (i <= |s| && IsLineBreak(s[i - 1]))
  }

  /** The end (exclusive) of the run of `#` that starts at `i`. */
  function HashesEnd(s: string, i: nat): (r: nat)
    requires i <= |s|
    ensures i <= r <= |s|
    ensures r < |s| ==> s[r] != '#'
    decreases |s| - i
  {
    if i < |s| && s[i] == '#' then HashesEnd(s, i + 1) else i
  }

  /** The end (exclusive) of the white-space run that starts at `i`: what a greedy `\s+` takes. */
  function SpacesEnd(s: string, i: nat): (r: nat)
    requires i <= |s|
    ensures i <= r <= |s|
    ensures r < |s| ==> !IsSpace(s[r])
    decreases |s| - i
  {
    if i < |s| && IsSpace(s[i]) then SpacesEnd(s, i + 1) else i
  }

  /** The end (exclusive) of the line `i` lies on: what a greedy `.+` or `.*` takes. */
  function LineEnd(s: string, i: nat): (r: nat)
    requires i <= |s|
    ensures i <= r <= |s|
    ensures r < |s| ==> IsLineBreak(s[r])
    decreases |s| - i
  {
    if i < |s| && !IsLineBreak(s[i]) then LineEnd(s, i + 1) else i
  }

  /** Inside a line: no terminator, and the same line end. */
  lemma {:induction false} InsideLineEnd(s: string, i: nat, j: nat)
    requires i <= |s| && i <= j < LineEnd(s, i)
    ensures !IsLineBreak(s[j]) && LineEnd(s, j) == LineEnd(s, i)
    decreases j - i
  {
    if i < j {
      InsideLineEnd(s, i + 1, j);
    }
  }

  /** A white-space run stops at or before any character that is not white space. */
  lemma {:induction false} SpacesEndBefore(s: string, h: nat, k: nat)
    requires h <= k < |s| && !IsSpace(s[k])
    ensures SpacesEnd(s, h) <= k
    decreases k - h
  {
    if h < k && IsSpace(s[h]) {
      SpacesEndBefore(s, h + 1, k);
    }
  }

  /** The last index in `[lo, hi)` whose character is not a line terminator, if any. */
  function LastOnLine(s: string, lo: nat, hi: nat): (r: Option<nat>)
    requires lo <= hi <= |s|
    ensures r.Some? ==> lo <= r.value < hi && !IsLineBreak(s[r.value])
    decreases hi - lo
  {
    if lo == hi then None
    else if !IsLineBreak(s[hi - 1]) then Some(hi - 1)
    else LastOnLine(s, lo, hi - 1)
  }

  /**
   * The end (exclusive) of the match of `^#+\s+.+` (flag `m`) that starts at `i`, if any.
   * `#+` takes the whole run of hashes (a shorter one leaves a `#`, which `\s` refuses), `\s+`
   * the whole white-space run, line terminators included, and `.+` the rest of the line it
   * stops on. When that run reaches the end of the text, `\s+` gives characters back until
   * `.+` starts on one that is not a line terminator.
   */
  function HeadingMatchEnd(s: string, i: nat): (r: Option<nat>)
    ensures r.Some? ==> i + 3 <= r.value <= |s| && AtLineStart(s, i) && s[i] == '#'
    ensures r.Some? ==> r.value == |s| || IsLineBreak(s[r.value])
  {
    if !(i < |s| && AtLineStart(s, i)) then None
    else
      var h := HashesEnd(s, i);
      var w := SpacesEnd(s, h);
      if h == i || w == h then None
      else if w < |s| then Some(LineEnd(s, w))
      else match LastOnLine(s, h + 1, |s|)
        case None => None
        case Some(q) => Some(LineEnd(s, q))
  }

  /** The matches of the global heading expression at or after `from`, left to right. */
  function HeadingMatchesFrom(s: string, from: nat): seq<string>
    decreases |s| - from
  {
    if from >= |s| then []
    else match HeadingMatchEnd(s, from)
      case Some(e) => [s[from..e]] + HeadingMatchesFrom(s, e)
      case None => HeadingMatchesFrom(s, from + 1)
  }

  /** `content.match(/^#+\s+.+/gm) || []`. */
  function HeadingMatches(content: string): seq<string>
  {
    HeadingMatchesFrom(content, 0)
  }

  /** Whether some heading match starts with `# `. */
  predicate HasH1(content: string)
  {
    exists h :: h in HeadingMatches(content) && StartsWith(h, "# ")
  }

  /** The lines of `s` from the line start `i` on, split at every line terminator. */
  function LinesFrom(s: string, i: nat): (r: seq<string>)
    requires i <= |s|
    ensures |r| >= 1
    decreases |s| - i
  {
    var e := LineEnd(s, i);
    if e == |s| then [s[i..]] else [s[i..e]] + LinesFrom(s, e + 1)
  }

  function Lines(s: string): seq<string>
  {
    LinesFrom(s, 0)
  }

  /** A line the expression matches on its own: hashes, a white-space character and more text. */
  predicate IsHeadingLine(line: string)
  {
    var n := LeadingHashes(line);
    1 <= n && n + 2 <= |line| && IsSpace(line[n])
  }

  /**
   * A line of hashes and white space only. Followed by a line terminator, its `\s+` runs on
   * into the next line, so the match does not end where the line does.
   */
  predicate IsBareLine(line: string)
  {
    var n := LeadingHashes(line);
    1 <= n && forall j :: n <= j < |line| ==> IsSpace(line[j])
  }

  /** No line before the last is a bare line. */
  predicate NoBareLineBeforeLast(lines: seq<string>)
  {
    forall k :: 0 <= k < |lines| - 1 ==> !IsBareLine(lines[k])
  }

  /** The run of hashes at a line start, counted on the line. */
  lemma {:induction false} HashRunIsLeading(s: string, i: nat, e: nat)
    requires i <= e <= |s| && (e == |s| || s[e] != '#')
    ensures HashesEnd(s, i) == i + LeadingHashes(s[i..e])
    decreases e - i
  {
    if i < e && s[i] == '#' {
      assert s[i..e][1..] == s[i + 1..e];
      HashRunIsLeading(s, i + 1, e);
    }
  }

  /**
   * After the hashes `[i, h)` of a line, some character of the line is not white space: the
   * match, if any, is the whole line, and there is one exactly when white space follows the hashes.
   */
  lemma MatchWithText(s: string, i: nat, h: nat, k: nat)
    requires AtLineStart(s, i) && i < h == HashesEnd(s, i)
    requires h <= k < LineEnd(s, i) && !IsSpace(s[k])
    ensures HeadingMatchEnd(s, i) == if IsSpace(s[h]) then Some(LineEnd(s, i)) else None
  {
    var w := SpacesEnd(s, h);
    SpacesEndBefore(s, h, k);
    if IsSpace(s[h]) {
      InsideLineEnd(s, i, w);
      assert HeadingMatchEnd(s, i) == Some(LineEnd(s, w));
    } else {
      assert w == h;
    }
  }

  /** The line predicates, read on the text itself. */
  lemma LineFacts(s: string, i: nat, e: nat)
    requires i <= e <= |s| && (e == |s| || s[e] != '#')
    ensures var n := LeadingHashes(s[i..e]);
      && HashesEnd(s, i) == i + n
      && (IsHeadingLine(s[i..e]) <==> 1 <= n && i + n + 2 <= e && IsSpace(s[i + n]))
      && (IsBareLine(s[i..e]) <==> 1 <= n && forall k :: i + n <= k < e ==> IsSpace(s[k]))
  {
    var line := s[i..e];
    HashRunIsLeading(s, i, e);
    var n := LeadingHashes(line);
    if 1 <= n {
      assert n < |line| ==> line[n] == s[i + n];
      assert (forall k :: i + n <= k < e ==> IsSpace(s[k])) ==> IsBareLine(line) by {
        if forall k :: i + n <= k < e ==> IsSpace(s[k]) {
          forall j | n <= j < |line| ensures IsSpace(line[j]) {
            assert line[j] == s[i + j];
          }
        }
      }
      assert IsBareLine(line) ==> forall k :: i + n <= k < e ==> IsSpace(s[k]) by {
        if IsBareLine(line) {
          forall k | i + n <= k < e ensures IsSpace(s[k]) {
            assert line[k - i] == s[k];
          }
        }
      }
    }
  }

  /** The match at the start of a line followed by a line terminator that is not bare. */
  lemma MatchAtLine(s: string, i: nat, e: nat)
    requires AtLineStart(s, i) && i <= e < |s|
    requires e == LineEnd(s, i)
    requires !IsBareLine(s[i..e])
    ensures HeadingMatchEnd(s, i) == if IsHeadingLine(s[i..e]) then Some(e) else None
  {
    LineFacts(s, i, e);
    var h := HashesEnd(s, i);
    if i < h {
      var k :| h <= k < e && !IsSpace(s[k]);
      MatchWithText(s, i, h, k);
      if IsSpace(s[h]) {
        assert k != h;
      }
    }
  }

  /** The match at the start of the last line, which no line terminator follows. */
  lemma MatchAtLastLine(s: string, i: nat)
    requires AtLineStart(s, i) && i <= |s|
    requires LineEnd(s, i) == |s|
    ensures HeadingMatchEnd(s, i) == if IsHeadingLine(s[i..]) then Some(|s|) else None
  {
    LineFacts(s, i, |s|);
    assert s[i..|s|] == s[i..];
    var h := HashesEnd(s, i);
    if i < h < |s| {
      if exists k :: h <= k < |s| && !IsSpace(s[k]) {
        var k :| h <= k < |s| && !IsSpace(s[k]);
        MatchWithText(s, i, h, k);
        if IsSpace(s[h]) {
          assert k != h;
        }
      } else {
        AllSpacesToEnd(s, i, h);
      }
    }
  }

  /** A last line whose hashes are followed by white space only. */
  lemma AllSpacesToEnd(s: string, i: nat, h: nat)
    requires AtLineStart(s, i) && i < h == HashesEnd(s, i) < |s| == LineEnd(s, i)
    requires forall k :: h <= k < |s| ==> IsSpace(s[k])
    ensures HeadingMatchEnd(s, i) == if h + 2 <= |s| then Some(|s|) else None
  {
    SpacesToEnd(s, h);
    if h + 1 < |s| {
      InsideLineEnd(s, i, |s| - 1);
      assert LastOnLine(s, h + 1, |s|) == Some(|s| - 1);
      assert HeadingMatchEnd(s, i) == Some(LineEnd(s, |s| - 1));
    } else {
      assert LastOnLine(s, h + 1, |s|) == None;
    }
  }

  /** A white-space run that nothing else follows runs to the end. */
  lemma {:induction false} SpacesToEnd(s: string, h: nat)
    requires h <= |s| && forall k :: h <= k < |s| ==> IsSpace(s[k])
    ensures SpacesEnd(s, h) == |s|
    decreases |s| - h
  {
    if h < |s| {
      SpacesToEnd(s, h + 1);
    }
  }

  /** The scan steps over a position where no match starts. */
  lemma MatchesSkip(s: string, from: nat)
    requires from < |s| && HeadingMatchEnd(s, from).None?
    ensures HeadingMatchesFrom(s, from) == HeadingMatchesFrom(s, from + 1)
  {
  }

  /** No match starts at a position that is no line start or holds no `#`. */
  lemma MatchesSkipPlain(s: string, from: nat)
    requires from < |s| && (!AtLineStart(s, from) || s[from] != '#')
    ensures HeadingMatchesFrom(s, from) == HeadingMatchesFrom(s, from + 1)
  {
  }

  /** The scan takes the match that starts at `from` and goes on after it. */
  lemma MatchesTake(s: string, from: nat, e: nat)
    requires from < |s| && HeadingMatchEnd(s, from) == Some(e)
    ensures HeadingMatchesFrom(s, from) == [s[from..e]] + HeadingMatchesFrom(s, e)
  {
  }

  /** No line between `a` and `b` starts with `#`, so the scan goes on from `b`. */
  lemma {:induction false} SkipToMatches(s: string, a: nat, b: nat)
    requires a <= b <= |s|
    requires forall j :: a <= j < b ==> !AtLineStart(s, j) || s[j] != '#'
    ensures HeadingMatchesFrom(s, a) == HeadingMatchesFrom(s, b)
    decreases b - a
  {
    if a < b {
      MatchesSkipPlain(s, a);
      SkipToMatches(s, a + 1, b);
    }
  }

  /** Inside a line no position is a line start, and the terminator ending it is no `#`. */
  lemma InsideLine(s: string, i: nat, e: nat)
    requires i <= e <= |s| && e == LineEnd(s, i)
    ensures forall j :: i < j <= e && j < |s| ==> !AtLineStart(s, j) || s[j] != '#'
  {
    forall j | i < j <= e && j < |s| ensures !AtLineStart(s, j) || s[j] != '#' {
      if j < e {
        InsideLineEnd(s, i, j - 1);
      } else {
        assert e < |s| && IsLineBreak(s[e]);
      }
    }
  }

  /** The last line matches whole when it is a heading line, and nothing else matches in it. */
  lemma LastLineMatches(s: string, i: nat)
    requires AtLineStart(s, i) && i <= |s|
    requires LineEnd(s, i) == |s|
    ensures HeadingMatchesFrom(s, i) == Seqs.Filter([s[i..]], IsHeadingLine)
  {
    InsideLine(s, i, |s|);
    MatchAtLastLine(s, i);
    if i < |s| {
      if IsHeadingLine(s[i..]) {
        assert s[i..|s|] == s[i..];
        MatchesTake(s, i, |s|);
      } else {
        MatchesSkip(s, i);
        SkipToMatches(s, i + 1, |s|);
      }
    }
  }

  /** A heading line that a terminator ends is one match, and the scan goes on after the terminator. */
  lemma HeadingLineStep(s: string, i: nat, e: nat)
    requires AtLineStart(s, i) && i <= e < |s| && e == LineEnd(s, i)
    requires HeadingMatchEnd(s, i) == Some(e)
    ensures HeadingMatchesFrom(s, i) == [s[i..e]] + HeadingMatchesFrom(s, e + 1)
  {
    MatchesTake(s, i, e);
    MatchesSkipPlain(s, e);
  }

  /** A line where no match starts is skipped with its terminator. */
  lemma PlainLineStep(s: string, i: nat, e: nat)
    requires AtLineStart(s, i) && i <= e < |s| && e == LineEnd(s, i)
    requires HeadingMatchEnd(s, i).None?
    ensures HeadingMatchesFrom(s, i) == HeadingMatchesFrom(s, e + 1)
  {
    MatchesSkip(s, i);
    SkipRestOfLine(s, i, e);
  }

  /** Past its first character, a line that a terminator ends holds no match start. */
  lemma SkipRestOfLine(s: string, i: nat, e: nat)
    requires i <= e < |s| && e == LineEnd(s, i)
    ensures HeadingMatchesFrom(s, i + 1) == HeadingMatchesFrom(s, e + 1)
  {
    InsideLine(s, i, e);
    SkipToMatches(s, i + 1, e + 1);
  }

  /** A line that a terminator ends is followed by the lines after the terminator. */
  lemma LinesCons(s: string, i: nat, e: nat)
    requires i <= e < |s| && e == LineEnd(s, i)
    ensures LinesFrom(s, i) == [s[i..e]] + LinesFrom(s, e + 1)
  {
  }

  /** The lines after the first keep the hypothesis. */
  lemma NoBareLineTail(s: string, i: nat, e: nat)
    requires i <= e < |s| && e == LineEnd(s, i)
    requires NoBareLineBeforeLast(LinesFrom(s, i))
    ensures !IsBareLine(s[i..e]) && NoBareLineBeforeLast(LinesFrom(s, e + 1))
  {
    var all, rest := LinesFrom(s, i), LinesFrom(s, e + 1);
    LinesCons(s, i, e);
    assert all[0] == s[i..e];
    forall k | 0 <= k < |rest| - 1 ensures !IsBareLine(rest[k]) {
      assert rest[k] == all[k + 1];
    }
  }

  /**
   * When no line before the last consists of hashes and white space only, the global
   * expression matches exactly the heading lines, each one whole.
   */
  lemma {:induction false} MatchesAreHeadingLines(s: string, i: nat)
    requires AtLineStart(s, i) && i <= |s|
    requires NoBareLineBeforeLast(LinesFrom(s, i))
    ensures HeadingMatchesFrom(s, i) == Seqs.Filter(LinesFrom(s, i), IsHeadingLine)
    decreases |s| - i
  {
    var e := LineEnd(s, i);
    if e == |s| {
      LastLineMatches(s, i);
    } else {
      NoBareLineTail(s, i, e);
      MatchesAreHeadingLines(s, e + 1);
      LinesStep(s, i, e);
    }
  }

  /** The inductive step: a line and the lines after it. */
  lemma LinesStep(s: string, i: nat, e: nat)
    requires AtLineStart(s, i) && i <= e < |s| && e == LineEnd(s, i)
    requires !IsBareLine(s[i..e])
    requires HeadingMatchesFrom(s, e + 1) == Seqs.Filter(LinesFrom(s, e + 1), IsHeadingLine)
    ensures HeadingMatchesFrom(s, i) == Seqs.Filter(LinesFrom(s, i), IsHeadingLine)
  {
    var line, rest := s[i..e], LinesFrom(s, e + 1);
    LinesCons(s, i, e);
    MatchAtLine(s, i, e);
    Seqs.FilterCons(line, rest, IsHeadingLine);
    if IsHeadingLine(line) {
      HeadingLineStep(s, i, e);
    } else {
      PlainLineStep(s, i, e);
      assert [] + Seqs.Filter(rest, IsHeadingLine) == Seqs.Filter(rest, IsHeadingLine);
    }
  }

  /** A line `#`, a space and at least one more character. */
  predicate IsH1Line(line: string)
  {
    |line| >= 3 && line[..2] == "# "
  }

  /** A heading line starting with `# ` is exactly an H1 line. */
  lemma H1LineIff(line: string)
    ensures IsHeadingLine(line) && StartsWith(line, "# ") <==> IsH1Line(line)
  {
    if IsH1Line(line) {
      assert line[0] == '#' && line[1] == ' ';
      assert LeadingHashes(line) == 1;
    }
  }

  /** Among the heading lines, one starts with `# ` exactly when some line is an H1 line. */
  lemma H1AmongHeadingLines(lines: seq<string>, matches: seq<string>)
    requires matches == Seqs.Filter(lines, IsHeadingLine)
    ensures (exists h :: h in matches && StartsWith(h, "# ")) <==>
      exists line :: line in lines && IsH1Line(line)
  {
    if exists h :: h in matches && StartsWith(h, "# ") {
      var h :| h in matches && StartsWith(h, "# ");
      H1LineIff(h);
    }
    if exists line :: line in lines && IsH1Line(line) {
      var line :| line in lines && IsH1Line(line);
      H1LineIff(line);
      assert line in matches;
    }
  }

  /**
   * With no bare line before the last, a level-one heading exists exactly when some line is
   * `#`, a space, and at least one more character.
   */
  lemma HasH1Iff(content: string)
    requires NoBareLineBeforeLast(Lines(content))
    ensures HasH1(content) <==> exists line :: line in Lines(content) && IsH1Line(line)
  {
    MatchesAreHeadingLines(content, 0);
    H1AmongHeadingLines(Lines(content), HeadingMatches(content));
  }

  /** A line `## x` is a heading but not a level-one heading; `# x` is one. */
  lemma SecondLevelIsNotH1()
    ensures HeadingMatches("## x") == ["## x"]
    ensures !HasH1("## x")
    ensures HasH1("# x")
  {
    var s, t := "## x", "# x";
    assert HashesEnd(s, 0) == 2 && SpacesEnd(s, 2) == 3 && LineEnd(s, 3) == 4;
    MatchesTake(s, 0, 4);
    assert s[0..4] == s;
    assert HashesEnd(t, 0) == 1 && SpacesEnd(t, 1) == 2 && LineEnd(t, 2) == 3;
    MatchesTake(t, 0, 3);
    assert t[0..3] == t && StartsWith(t, "# ");
  }

  /** The white space after a line's hashes runs on into the next line: one match, an H1. */
  lemma HeadingSpanningBreak()
    ensures HeadingMatches("# \nText") == ["# \nText"]
    ensures HasH1("# \nText")
  {
    var s := "# \nText";
    assert HashesEnd(s, 0) == 1;
    assert SpacesEnd(s, 1) == 3;
    assert LineEnd(s, 3) == 7;
    assert HeadingMatchEnd(s, 0) == Some(7);
    assert s[0..7] == s;
    assert HeadingMatches(s) == [s] + HeadingMatchesFrom(s, 7);
    assert StartsWith(s, "# ");
  }

  /** A lone `#` swallows the heading on the next line, which then gives no H1. */
  lemma HeadingAfterBareHash()
    ensures HeadingMatches("#\n# Title") == ["#\n# Title"]
    ensures !HasH1("#\n# Title")
  {
    var s := "#\n# Title";
    assert HashesEnd(s, 0) == 1;
    assert SpacesEnd(s, 1) == 2;
    assert LineEnd(s, 2) == 9;
    assert HeadingMatchEnd(s, 0) == Some(9);
    assert s[0..9] == s;
    assert HeadingMatches(s) == [s] + HeadingMatchesFrom(s, 9);
    assert !StartsWith(s, "# ");
  }

  /**
   * The first index at or after `from` where `k` occurs with no line terminator
   * before it: what a lazy `.*?` followed by `k` finds.
   */
  function FindOnLine(s: string, k: string, from: nat): (r: Option<nat>)
    ensures r.Some? ==> from <= r.value && OccursAt(s, k, r.value)
    ensures r.Some? ==> forall j :: from <= j < r.value ==> !IsLineBreak(s[j])
    decreases |s| - from
  {
    if from + |k| > |s| then None
    else if OccursAt(s, k, from) then Some(from)
    else if IsLineBreak(s[from]) then None
    else FindOnLine(s, k, from + 1)
  }

  /** The end (exclusive) of the match of `!\[.*?\]\(.*?\)` that starts at `i`, if any. */
  function ImageMatchEnd(s: string, i: nat): (r: Option<nat>)
    ensures r.Some? ==> i + 5 <= r.value <= |s| && OccursAt(s, "![", i) && s[r.value - 1] == ')'
    ensures r.Some? ==> forall j :: i <= j < r.value ==> !IsLineBreak(s[j])
  {
    if !OccursAt(s, "![", i) then None
    else match FindOnLine(s, "](", i + 2)
      case None => None
      case Some(q) =>
        match FindOnLine(s, ")", q + 2)
        case None => None
        case Some(e) => ImageSpanOnLine(s, i, q, e); Some(e + 1)
  }

  /** The pieces of an image match, `![`, `.*?`, `](`, `.*?` and `)`, hold no line terminator. */
  lemma ImageSpanOnLine(s: string, i: nat, q: nat, e: nat)
    requires OccursAt(s, "![", i) && OccursAt(s, "](", q) && OccursAt(s, ")", e)
    requires i + 2 <= q && q + 2 <= e
    requires forall j :: i + 2 <= j < q ==> !IsLineBreak(s[j])
    requires forall j :: q + 2 <= j < e ==> !IsLineBreak(s[j])
    ensures forall j :: i <= j < e + 1 ==> !IsLineBreak(s[j])
  {
    assert s[i] == s[i..i + 2][0] == '!' && s[i + 1] == s[i..i + 2][1] == '[';
    assert s[q] == s[q..q + 2][0] == ']' && s[q + 1] == s[q..q + 2][1] == '(';
    assert s[e] == s[e..e + 1][0] == ')';
  }

  /** The matches of the global image regex at or after `from`, left to right. */
  function ImageMatchesFrom(s: string, from: nat): seq<string>
    decreases |s| - from
  {
    if from >= |s| then []
    else match ImageMatchEnd(s, from)
      case Some(e) => [s[from..e]] + ImageMatchesFrom(s, e)
      case None => ImageMatchesFrom(s, from + 1)
  }

  function ImageMatches(s: string): seq<string>
  {
    ImageMatchesFrom(s, 0)
  }

  /** Every image match starts with `![` and ends with `)`. */
  lemma {:induction false} ImageMatchShape(s: string, from: nat)
    ensures forall m :: m in ImageMatchesFrom(s, from) ==> ImageShaped(m)
    decreases |s| - from
  {
    if from < |s| {
      match ImageMatchEnd(s, from)
      case Some(e) =>
        ImageMatchShape(s, e);
        MatchIsShaped(s, from, e);
      case None =>
        ImageMatchShape(s, from + 1);
    }
  }

  /** At least five characters, opening with `![`, closing with `)`, on one line. */
  predicate ImageShaped(m: string)
  {
    |m| >= 5 && StartsWith(m, "![") && m[|m| - 1] == ')' &&
    forall j :: 0 <= j < |m| ==> !IsLineBreak(m[j])
  }

  lemma MatchIsShaped(s: string, from: nat, e: nat)
    requires ImageMatchEnd(s, from) == Some(e)
    ensures ImageShaped(s[from..e])
  {
    assert s[from..e][..2] == s[from..from + 2];
  }

  /** A markdown image with no alt text is found as a match. */
  lemma EmptyAltImage()
    ensures ImageMatches("![](a)") == ["![](a)"]
  {
    var s := "![](a)";
    assert OccursAt(s, "![", 0) && OccursAt(s, "](", 2) && OccursAt(s, ")", 5);
    assert FindOnLine(s, "](", 2) == Some(2);
    assert s[4..5] == "a";
    assert !OccursAt(s, ")", 4);
    assert FindOnLine(s, ")", 4) == Some(5);
    assert ImageMatchEnd(s, 0) == Some(6);
    assert s[0..6] == s;
  }
}
