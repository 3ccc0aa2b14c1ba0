/**
 * The JavaScript string operations the routes call, with their edge cases:
 * `split` on a character class, `substring` clamping, `indexOf`, `includes`,
 * `trim` and `toLowerCase` (on ASCII letters).
 */
module Text {

  /** The characters of JavaScript's `\s` class, which are also what `trim` strips. */
  predicate IsSpace(c: char)
  {
    || c == '\t' || c == '\n' || c == '\U{000B}' || c == '\U{000C}' || c == '\r' || c == ' '
    || c == '\U{00A0}' || c == '\U{1680}' || ('\U{2000}' <= c <= '\U{200A}')
    || c == '\U{2028}' || c == '\U{2029}' || c == '\U{202F}' || c == '\U{205F}'
    || c == '\U{3000}' || c == '\U{FEFF}'
  }

  /** The characters of the class `[.!?]`. */
  predicate IsSentenceMark(c: char)
  {
    c == '.' || c == '!' || c == '?'
  }

  function LowerChar(c: char): char
  {
    if 'A' <= c <= 'Z' then (c as int + 32) as char else c
  }

  /** `toLowerCase`, on the ASCII letters; it keeps the length. */
  function Lower(s: string): (r: string)
    ensures |r| == |s| && forall i :: 0 <= i < |s| ==> r[i] == LowerChar(s[i])
  {
    seq(|s|, i requires 0 <= i < |s| => LowerChar(s[i]))
  }

  predicate StartsWith(s: string, p: string)
  {
    |p| <= |s| && s[..|p|] == p
  }

  predicate OccursAt(s: string, k: string, i: int)
  {
    0 <= i && i + |k| <= |s| && s[i..i + |k|] == k
  }

  /** `s.includes(k)`. */
  predicate Contains(s: string, k: string)
  {
    exists i :: 0 <= i <= |s| - |k| && OccursAt(s, k, i)
  }

  function ClampIndex(x: int, n: nat): (r: nat)
    ensures r <= n
  {
    if x < 0 then 0 else if x > n then n else x
  }

  /** `s.substring(start, end)`: both ends clamped to [0, |s|], swapped when reversed. */
  function Substring(s: string, start: int, end: int): string
  {
    var a, b := ClampIndex(start, |s|), ClampIndex(end, |s|);
    if a <= b then s[a..b] else s[b..a]
  }

  /** `s.substring(0, n)`: the first n characters, or the whole string. */
  function Prefix(s: string, n: nat): (r: string)
    ensures |r| == if |s| < n then |s| else n
    ensures r == s[..|r|]
  {
    Substring(s, 0, n)
  }

  /** `s.indexOf(k, from)` for a non-empty `k`: the first occurrence at or after `from`, or -1. */
  function IndexOf(s: string, k: string, from: nat): (r: int)
    requires |k| > 0
    ensures r == -1 || (from <= r && OccursAt(s, k, r))
    ensures forall j :: from <= j && (r == -1 || j < r) ==> !OccursAt(s, k, j)
    decreases |s| - from
  {
    if from + |k| > |s| then -1
    else if OccursAt(s, k, from) then from
    else IndexOf(s, k, from + 1)
  }

  /** Every index at or after `from` where a non-empty `k` occurs, in increasing order. */
  function Occurrences(s: string, k: string, from: nat): seq<nat>
    requires |k| > 0
    decreases |s| - from
  {
    if from >= |s| then []
    else if OccursAt(s, k, from) then [from] + Occurrences(s, k, from + 1)
    else Occurrences(s, k, from + 1)
  }

  /** `Occurrences` lists exactly the occurrences at or after `from`, strictly increasing. */
  lemma {:induction false} OccurrencesSpec(s: string, k: string, from: nat)
    requires |k| > 0
    ensures forall i :: i in Occurrences(s, k, from) <==> from <= i && OccursAt(s, k, i)
    ensures forall a, b :: 0 <= a < b < |Occurrences(s, k, from)| ==>
      Occurrences(s, k, from)[a] < Occurrences(s, k, from)[b]
    decreases |s| - from
  {
    if from < |s| {
      OccurrencesSpec(s, k, from + 1);
      var rest := Occurrences(s, k, from + 1);
      if OccursAt(s, k, from) {
        forall b | 0 < b < |rest| + 1 ensures from < ([from] + rest)[b] {
          assert rest[b - 1] in rest;
        }
      }
    }
  }

  /** What one `indexOf` step of a scan tells about the remaining occurrences. */
  lemma {:induction false} OccurrencesStep(s: string, k: string, from: nat)
    requires |k| > 0
    ensures IndexOf(s, k, from) == -1 ==> Occurrences(s, k, from) == []
    ensures IndexOf(s, k, from) >= 0 ==>
      Occurrences(s, k, from) == [IndexOf(s, k, from) as nat] + Occurrences(s, k, IndexOf(s, k, from) + 1)
    decreases |s| - from
  {
    if from + |k| > |s| {
      assert IndexOf(s, k, from) == -1;
      OccurrencesNone(s, k, from);
    } else if OccursAt(s, k, from) {
      assert IndexOf(s, k, from) == from;
      assert Occurrences(s, k, from) == [from] + Occurrences(s, k, from + 1);
    } else {
      assert IndexOf(s, k, from) == IndexOf(s, k, from + 1);
      assert Occurrences(s, k, from) == Occurrences(s, k, from + 1);
      OccurrencesStep(s, k, from + 1);
    }
  }

  lemma {:induction false} OccurrencesNone(s: string, k: string, from: nat)
    requires |k| > 0 && from + |k| > |s|
    ensures Occurrences(s, k, from) == []
    decreases |s| - from
  {
    if from < |s| {
      OccurrencesNone(s, k, from + 1);
    }
  }

  /**
   * `s.split(k).length - 1` for a non-empty separator `k`, scanning from
   * `from`: the occurrences a left-to-right scan finds without overlap.
   */
  function SplitCount(s: string, k: string, from: nat): nat
    requires |k| > 0
    decreases |s| - from
  {
    if from + |k| > |s| then 0
    else if OccursAt(s, k, from) then 1 + SplitCount(s, k, from + |k|)
    else SplitCount(s, k, from + 1)
  }

  /** A scan finds no separator exactly when the separator does not occur. */
  lemma {:induction false} SplitCountZero(s: string, k: string, from: nat)
    requires |k| > 0
    ensures SplitCount(s, k, from) == 0 <==> Occurrences(s, k, from) == []
    decreases |s| - from
  {
    if from + |k| > |s| {
      OccurrencesNone(s, k, from);
    } else if !OccursAt(s, k, from) {
      SplitCountZero(s, k, from + 1);
    }
  }

  lemma {:induction false} OccurrencesAntitone(s: string, k: string, a: nat, b: nat)
    requires |k| > 0 && a <= b
    ensures |Occurrences(s, k, b)| <= |Occurrences(s, k, a)|
    decreases b - a
  {
    if a < b {
      OccurrencesAntitone(s, k, a + 1, b);
    }
  }

  /** Non-overlapping occurrences are never more than all occurrences. */
  lemma {:induction false} SplitCountAtMostOccurrences(s: string, k: string, from: nat)
    requires |k| > 0
    ensures SplitCount(s, k, from) <= |Occurrences(s, k, from)|
    decreases |s| - from
  {
    if from + |k| <= |s| {
      if OccursAt(s, k, from) {
        SplitCountAtMostOccurrences(s, k, from + |k|);
        OccurrencesAntitone(s, k, from + 1, from + |k|);
      } else {
        SplitCountAtMostOccurrences(s, k, from + 1);
      }
    }
  }

  /** Drops the leading characters of `s` that satisfy `sep`. */
  function DropWhile(s: string, sep: char -> bool): (r: string)
    ensures |r| <= |s|
    decreases |s|
  {
    if s != [] && sep(s[0]) then DropWhile(s[1..], sep) else s
  }

  /**
   * `s.split(/c+/)` where c is the class `sep`: the pieces between maximal
   * runs of separators (a leading or trailing run gives an empty piece).
   */
  function SplitRuns(s: string, sep: char -> bool): (r: seq<string>)
    ensures |r| >= 1
    decreases |s|
  {
    if s == [] then [""]
    else if sep(s[0]) then [""] + SplitRuns(DropWhile(s[1..], sep), sep)
    else var rest := SplitRuns(s[1..], sep); [[s[0]] + rest[0]] + rest[1..]
  }

  /** `s.split(/\s+/)`. */
  function Words(s: string): (r: seq<string>)
    ensures |r| >= 1
  {
    SplitRuns(s, IsSpace)
  }

  /** `s.split(/[.!?]+/)`. */
  function Sentences(s: string): (r: seq<string>)
    ensures |r| >= 1
  {
    SplitRuns(s, IsSentenceMark)
  }

  /** `s.split(c)` for a one-character separator. */
  function SplitOn(s: string, c: char): (r: seq<string>)
    ensures |r| >= 1
    decreases |s|
  {
    if s == [] then [""]
    else if s[0] == c then [""] + SplitOn(s[1..], c)
    else var rest := SplitOn(s[1..], c); [[s[0]] + rest[0]] + rest[1..]
  }

  /** Splitting at a separator that follows a separator-free piece. */
  lemma {:induction false} SplitOnAppend(a: string, c: char, b: string)
    requires c !in a
    ensures SplitOn(a + [c] + b, c) == [a] + SplitOn(b, c)
    decreases |a|
  {
    if a == [] {
      assert a + [c] + b == [c] + b;
    } else {
      assert (a + [c] + b)[1..] == a[1..] + [c] + b;
      SplitOnAppend(a[1..], c, b);
      var rest := SplitOn(a[1..] + [c] + b, c);
      assert rest[0] == a[1..] && rest[1..] == SplitOn(b, c);
      assert [a[0]] + a[1..] == a;
    }
  }

  /** A piece that contains no separator splits to itself. */
  lemma {:induction false} SplitOnPlain(a: string, c: char)
    requires c !in a
    ensures SplitOn(a, c) == [a]
    decreases |a|
  {
    if a != [] {
      SplitOnPlain(a[1..], c);
      assert [a[0]] + a[1..] == a;
    }
  }

  function TrimEnd(s: string): string
    decreases |s|
  {
    if s != [] && IsSpace(s[|s| - 1]) then TrimEnd(s[..|s| - 1]) else s
  }

  /** `s.trim()`. */
  function Trim(s: string): string
  {
    TrimEnd(DropWhile(s, IsSpace))
  }

  /** `parts.join(sep)`. */
  function Join(parts: seq<string>, sep: string): string
    decreases |parts|
  {
    if parts == [] then ""
    else if |parts| == 1 then parts[0]
    else parts[0] + sep + Join(parts[1..], sep)
  }

  /** `parts.join('')`. */
  function Concat(parts: seq<string>): string
    decreases |parts|
  {
    if parts == [] then "" else parts[0] + Concat(parts[1..])
  }

  lemma {:induction false} ConcatAppend(a: seq<string>, b: seq<string>)
    ensures Concat(a + b) == Concat(a) + Concat(b)
    decreases |a|
  {
    if a == [] {
      assert a + b == b;
    } else {
      assert (a + b)[1..] == a[1..] + b;
      ConcatAppend(a[1..], b);
    }
  }

  function Digit(d: nat): char
    requires d < 10
  {
    "0123456789"[d]
  }

  /** How a template literal prints a non-negative integer. */
  function NatToString(n: nat): (r: string)
    ensures |r| >= 1
    decreases n
  {
    if n < 10 then [Digit(n)] else NatToString(n / 10) + [Digit(n % 10)]
  }
}
