/** The array methods the routes call (`filter`, `slice`, `map`), on sequences. */
module Seqs {

  /** `s.filter(p)`. */
  function Filter<T>(s: seq<T>, p: T -> bool): (r: seq<T>)
    ensures |r| <= |s|
    ensures forall i :: 0 <= i < |r| ==> r[i] in s && p(r[i])
    ensures forall i :: 0 <= i < |s| && p(s[i]) ==> s[i] in r
    decreases |s|
  {
    if s == [] then []
    else if p(s[0]) then [s[0]] + Filter(s[1..], p)
    else Filter(s[1..], p)
  }

  /** Filtering a sequence that starts with `x`. */
  lemma FilterCons<T>(x: T, rest: seq<T>, p: T -> bool)
    ensures Filter([x] + rest, p) == (if p(x) then [x] else []) + Filter(rest, p)
  {
    assert ([x] + rest)[1..] == rest;
    if !p(x) {
      assert [] + Filter(rest, p) == Filter(rest, p);
    }
  }

  /** `s.slice(0, n)` for n >= 0. */
  function Take<T>(s: seq<T>, n: nat): (r: seq<T>)
    ensures |r| == if |s| < n then |s| else n
    ensures r == s[..|r|]
  {
    if |s| <= n then s else s[..n]
  }

  /** `s.slice(a, b)` for 0 <= a: both ends clamped to the length. */
  function Slice<T>(s: seq<T>, a: nat, b: nat): (r: seq<T>)
    ensures a < |s| ==> a + |r| <= |s|
    ensures a >= |s| || a >= b ==> r == []
    ensures a < b ==> |r| <= b - a
    ensures forall i :: 0 <= i < |r| ==> r[i] == s[a + i]
  {
    var hi := if b <= |s| then b else |s|;
    if a < hi then s[a..hi] else []
  }

  /** `s.map(f)`. */
  function Map<T, U>(s: seq<T>, f: T -> U): (r: seq<U>)
    ensures |r| == |s| && forall i :: 0 <= i < |s| ==> r[i] == f(s[i])
  {
    seq(|s|, i requires 0 <= i < |s| => f(s[i]))
  }

  /** The map of a non-empty sequence: its head's image, then the map of its tail. */
  lemma MapCons<T, U>(s: seq<T>, f: T -> U)
    requires s != []
    ensures Map(s, f)[0] == f(s[0]) && Map(s, f)[1..] == Map(s[1..], f)
  {
  }

  /** Filtering a sequence by a predicate and by its negation splits it in two. */
  lemma {:induction false} FilterSplit<T>(s: seq<T>, p: T -> bool, q: T -> bool)
    requires forall x :: q(x) == !p(x)
    ensures |Filter(s, p)| + |Filter(s, q)| == |s|
    decreases |s|
  {
    if s != [] {
      FilterSplit(s[1..], p, q);
    }
  }

  /** Filtering by a stronger predicate keeps fewer elements. */
  lemma {:induction false} FilterWeaker<T>(s: seq<T>, p: T -> bool, q: T -> bool)
    requires forall x :: p(x) ==> q(x)
    ensures |Filter(s, p)| <= |Filter(s, q)|
    decreases |s|
  {
    if s != [] {
      FilterWeaker(s[1..], p, q);
    }
  }

  /** Filtering keeps a sequence whose every element passes. */
  lemma {:induction false} FilterAll<T>(s: seq<T>, p: T -> bool)
    requires forall i :: 0 <= i < |s| ==> p(s[i])
    ensures Filter(s, p) == s
    decreases |s|
  {
    if s != [] {
      FilterAll(s[1..], p);
      assert s == [s[0]] + s[1..];
    }
  }

  /** Filtering empties a sequence none of whose elements passes. */
  lemma {:induction false} FilterNone<T>(s: seq<T>, p: T -> bool)
    requires forall x :: x in s ==> !p(x)
    ensures Filter(s, p) == []
    decreases |s|
  {
    if s != [] {
      FilterNone(s[1..], p);
    }
  }

  /** Filtering distributes over concatenation. */
  lemma {:induction false} FilterAppend<T>(a: seq<T>, b: seq<T>, p: T -> bool)
    ensures Filter(a + b, p) == Filter(a, p) + Filter(b, p)
    decreases |a|
  {
    if a != [] {
      FilterAppend(a[1..], b, p);
      assert (a + b)[0] == a[0] && (a + b)[1..] == a[1..] + b;
      if p(a[0]) {
        assert Filter(a + b, p) == [a[0]] + Filter(a[1..] + b, p);
        assert Filter(a, p) == [a[0]] + Filter(a[1..], p);
        Associate([a[0]], Filter(a[1..], p), Filter(b, p));
      } else {
        assert Filter(a + b, p) == Filter(a[1..] + b, p);
        assert Filter(a, p) == Filter(a[1..], p);
      }
    } else {
      assert a + b == b;
    }
  }

  lemma Associate<T>(x: seq<T>, y: seq<T>, z: seq<T>)
    ensures (x + y) + z == x + (y + z)
  {
  }

  lemma AppendNothing<T>(s: seq<T>)
    ensures s + [] == s
  {
  }

  /** When only the second of five parts has elements that pass, the filter of the whole is the filter of that part. */
  lemma FilterSecondOfFive<T>(t: seq<T>, d: seq<T>, h: seq<T>, a: seq<T>, l: seq<T>, p: T -> bool)
    requires Filter(t, p) == [] && Filter(h, p) == [] && Filter(a, p) == [] && Filter(l, p) == []
    ensures Filter(t + d + h + a + l, p) == Filter(d, p)
  {
    FilterAppend(t + d + h + a, l, p);
    FilterAppend(t + d + h, a, p);
    FilterAppend(t + d, h, p);
    FilterAppend(t, d, p);
    var f := Filter(d, p);
    assert [] + f + [] + [] + [] == f;
  }

  /** Two complementary filters split a sequence between them, as a multiset. */
  lemma {:induction false} FilterSplitMultiset<T>(s: seq<T>, p: T -> bool, q: T -> bool)
    requires forall x :: q(x) == !p(x)
    ensures multiset(Filter(s, p)) + multiset(Filter(s, q)) == multiset(s)
    decreases |s|
  {
    if s != [] {
      FilterSplitMultiset(s[1..], p, q);
      assert s == [s[0]] + s[1..];
    }
  }

  /** Filtering first by a weaker predicate changes nothing. */
  lemma {:induction false} FilterNarrow<T>(s: seq<T>, p: T -> bool, q: T -> bool)
    requires forall x :: p(x) ==> q(x)
    ensures Filter(Filter(s, q), p) == Filter(s, p)
    decreases |s|
  {
    if s != [] {
      FilterNarrow(s[1..], p, q);
    }
  }
}
