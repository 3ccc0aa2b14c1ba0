/**
 * What the list endpoints of posts and categories share: reading `page` and
 * `limit` with `parseInt`, the offset of a page, the number of pages and the
 * case-insensitive `contains` filter.
 */
module Listing {
  import opened Wrappers
  import Text

  // ---------------------------------------------------------------------------
  // parseInt

  /** The value of `c` as a digit of the radix (10 or 16), if it is one. */
  function DigitValue(c: char, radix: nat): (r: Option<nat>)
    ensures r.Some? ==> r.value < radix
  {
    if '0' <= c <= '9' && (c as int - '0' as int) < radix then Some(c as int - '0' as int)
    else if radix == 16 && 'a' <= c <= 'f' then Some(c as int - 'a' as int + 10)
    else if radix == 16 && 'A' <= c <= 'F' then Some(c as int - 'A' as int + 10)
    else None
  }

  /** The number of leading characters of `s` that are digits of the radix. */
  function LeadingDigits(s: string, radix: nat): (n: nat)
    ensures n <= |s|
    ensures forall i :: 0 <= i < n ==> DigitValue(s[i], radix).Some?
    ensures n < |s| ==> DigitValue(s[n], radix).None?
    decreases |s|
  {
    if s != [] && DigitValue(s[0], radix).Some? then 1 + LeadingDigits(s[1..], radix) else 0
  }

  /** The value of a string of digits, most significant first. */
  function Value(d: string, radix: nat): nat
    requires forall i :: 0 <= i < |d| ==> DigitValue(d[i], radix).Some?
    decreases |d|
  {
    if d == [] then 0
    else
      var front := d[..|d| - 1];
      assert forall i :: 0 <= i < |front| ==> front[i] == d[i];
      Value(front, radix) * radix + DigitValue(d[|d| - 1], radix).value
  }

  /** The digits after the sign: hexadecimal after `0x` or `0X`, decimal otherwise. */
  function Unsigned(s: string): Option<nat>
  {
    var hex := |s| >= 2 && s[0] == '0' && (s[1] == 'x' || s[1] == 'X');
    var radix := if hex then 16 else 10;
    var body := if hex then s[2..] else s;
    var n := LeadingDigits(body, radix);
    if n == 0 then None else Some(Value(body[..n], radix))
  }

  /** One optional sign, then the digits. */
  function Signed(t: string): (r: Option<int>)
  {
    if t != [] && (t[0] == '-' || t[0] == '+') then
      match Unsigned(t[1..])
      case Some(v) => Some(if t[0] == '-' then -(v as int) else v as int)
      case None => None
    else
      match Unsigned(t)
      case Some(v) => Some(v)
      case None => None
  }

  /**
   * `parseInt(s)` without a radix: leading white space is skipped, one sign
   * is read, then the longest run of digits; no digits give `NaN` (None).
   */
  function ParseInt(s: string): (r: Option<int>)
  {
    Signed(Text.DropWhile(s, Text.IsSpace))
  }

  lemma {:induction false} NatToStringDigits(n: nat)
    ensures var s := Text.NatToString(n);
      (forall i :: 0 <= i < |s| ==> DigitValue(s[i], 10).Some?) && Value(s, 10) == n
    decreases n
  {
    var s := Text.NatToString(n);
    if n >= 10 {
      var p := Text.NatToString(n / 10);
      NatToStringDigits(n / 10);
      assert s == p + [Text.Digit(n % 10)];
      assert s[..|s| - 1] == p;
    }
  }

  lemma {:induction false} AllDigitsLeading(s: string, radix: nat)
    requires forall i :: 0 <= i < |s| ==> DigitValue(s[i], radix).Some?
    ensures LeadingDigits(s, radix) == |s|
    decreases |s|
  {
    if s != [] {
      AllDigitsLeading(s[1..], radix);
    }
  }

  /** A non-empty string of decimal digits reads as its value. */
  lemma UnsignedDecimal(s: string)
    requires s != [] && forall i :: 0 <= i < |s| ==> DigitValue(s[i], 10).Some?
    ensures Unsigned(s) == Some(Value(s, 10))
  {
    if |s| >= 2 {
      assert DigitValue(s[1], 10).Some?;
      assert s[1] != 'x' && s[1] != 'X';
    }
    assert !(|s| >= 2 && s[0] == '0' && (s[1] == 'x' || s[1] == 'X'));
    AllDigitsLeading(s, 10);
    assert s[..LeadingDigits(s, 10)] == s;
  }

  /** Text that does not start with white space is read from its first character. */
  lemma NoLeadingSpace(s: string)
    requires s == [] || !Text.IsSpace(s[0])
    ensures ParseInt(s) == Signed(s)
  {
  }

  /** A number printed in decimal reads back as itself. */
  lemma ParseIntRoundTrip(n: nat)
    ensures ParseInt(Text.NatToString(n)) == Some(n)
  {
    var s := Text.NatToString(n);
    NatToStringDigits(n);
    SignedDigits(s);
    NoLeadingSpace(s);
  }

  /** A decimal digit is neither white space nor a sign. */
  lemma DigitNotSpace(c: char)
    requires DigitValue(c, 10).Some?
    ensures !Text.IsSpace(c) && c != '-' && c != '+'
  {
  }

  /** Unsigned decimal digits read as their value, with nothing to skip. */
  lemma SignedDigits(s: string)
    requires s != [] && forall i :: 0 <= i < |s| ==> DigitValue(s[i], 10).Some?
    ensures Signed(s) == Some(Value(s, 10)) && !Text.IsSpace(s[0])
  {
    UnsignedDecimal(s);
    DigitNotSpace(s[0]);
  }

  /** With a `-` in front it reads back as its negation. */
  lemma ParseIntNegative(n: nat)
    ensures ParseInt("-" + Text.NatToString(n)) == Some(-(n as int))
  {
    var s := Text.NatToString(n);
    NatToStringDigits(n);
    UnsignedDecimal(s);
    ParseIntMinus(s);
  }

  /** A `-` negates what the digits after it read as. */
  lemma ParseIntMinus(s: string)
    requires Unsigned(s).Some?
    ensures ParseInt("-" + s) == Some(-(Unsigned(s).value as int))
  {
    var m := "-" + s;
    assert m[0] == '-' && m[1..] == s;
    assert Signed(m) == Some(-(Unsigned(s).value as int));
    NoLeadingSpace(m);
  }

  /** The run of digits stops at the first character that is not one. */
  lemma {:induction false} LeadingDigitsAppend(d: string, t: string, radix: nat)
    requires forall i :: 0 <= i < |d| ==> DigitValue(d[i], radix).Some?
    requires t == [] || DigitValue(t[0], radix).None?
    ensures LeadingDigits(d + t, radix) == |d|
    decreases |d|
  {
    if d == [] {
      assert d + t == t;
    } else {
      assert (d + t)[0] == d[0] && (d + t)[1..] == d[1..] + t;
      LeadingDigitsAppend(d[1..], t, radix);
    }
  }

  /**
   * Text after the decimal digits is ignored, unless a lone `0` followed by
   * `x` or `X` makes it a hexadecimal prefix.
   */
  lemma ParseIntTrailing(d: string, t: string)
    requires d != [] && forall i :: 0 <= i < |d| ==> DigitValue(d[i], 10).Some?
    requires t == [] || DigitValue(t[0], 10).None?
    requires !(d == "0" && t != [] && (t[0] == 'x' || t[0] == 'X'))
    ensures ParseInt(d + t) == Some(Value(d, 10))
  {
    var s := d + t;
    assert s[0] == d[0];
    assert !(|s| >= 2 && s[0] == '0' && (s[1] == 'x' || s[1] == 'X')) by {
      if |s| >= 2 {
        if |d| >= 2 {
          assert s[1] == d[1] && DigitValue(d[1], 10).Some?;
        } else {
          assert s[1] == t[0];
        }
      }
    }
    assert Unsigned(s) == Some(Value(d, 10)) by {
      LeadingDigitsAppend(d, t, 10);
      assert s[..|d|] == d;
    }
    DigitNotSpace(d[0]);
    assert Signed(s) == Unsigned(s);
    NoLeadingSpace(s);
  }

  /** After `0x` or `0X` the hexadecimal digits are read, and what follows them is ignored. */
  lemma ParseIntHex(x: char, h: string, t: string)
    requires x == 'x' || x == 'X'
    requires h != [] && forall i :: 0 <= i < |h| ==> DigitValue(h[i], 16).Some?
    requires t == [] || DigitValue(t[0], 16).None?
    ensures ParseInt(['0', x] + (h + t)) == Some(Value(h, 16))
  {
    var s := ['0', x] + (h + t);
    assert s[0] == '0' && s[1] == x && s[2..] == h + t;
    assert Unsigned(s) == Some(Value(h, 16)) by {
      LeadingDigitsAppend(h, t, 16);
      assert (h + t)[..|h|] == h;
    }
    assert Signed(s) == Unsigned(s);
    NoLeadingSpace(s);
  }

  /** Text with no digits, the empty text among them, is `NaN`. */
  lemma ParseIntNaN()
    ensures ParseInt("abc") == None
    ensures ParseInt("") == None
  {
    NoLeadingSpace("abc");
    assert LeadingDigits("abc", 10) == 0;
    NoLeadingSpace("");
  }

  /** `parseInt(searchParams.get(name) || fallback)`: a missing or empty parameter reads the fallback. */
  function IntParam(raw: Option<string>, fallback: string): (r: Option<int>)
    ensures !Truthy(raw) ==> r == ParseInt(fallback)
    ensures Truthy(raw) ==> r == ParseInt(raw.value)
  {
    ParseInt(if Truthy(raw) then raw.value else fallback)
  }

  /** `searchParams.get(name) || fallback` for a text parameter. */
  function TextParam(raw: Option<string>, fallback: string): (r: string)
    ensures Truthy(raw) ==> r == raw.value
    ensures !Truthy(raw) ==> r == fallback
  {
    if Truthy(raw) then raw.value else fallback
  }

  /** Without parameters a list starts at page 1 with 10 entries a page. */
  lemma DefaultPaging()
    ensures IntParam(None, "1") == Some(1)
    ensures IntParam(None, "10") == Some(10)
  {
    ParseIntRoundTrip(1);
    ParseIntRoundTrip(10);
    assert Text.NatToString(1) == "1" by {
      assert Text.Digit(1) == '1';
    }
    assert Text.NatToString(10) == "10" by {
      assert Text.Digit(0) == '0';
    }
  }

  // ---------------------------------------------------------------------------
  // Pages

  /** `(page - 1) * limit`: the number of rows before the page. */
  function Skip(page: int, limit: int): (r: int)
  {
    (page - 1) * limit
  }

  /** Consecutive pages start `limit` rows apart, and page 1 starts at the first row. */
  lemma SkipSteps(page: int, limit: int)
    ensures Skip(1, limit) == 0
    ensures Skip(page + 1, limit) == Skip(page, limit) + limit
  {
  }

  /**
   * `Math.ceil(total / limit)` for a count and an integer limit. A limit of 0
   * divides into `Infinity` or `NaN`, which the JSON reply prints as null
   * (None).
   */
  function TotalPages(total: nat, limit: int): (r: Option<int>)
    ensures limit == 0 <==> r.None?
    ensures limit > 0 ==> r.Some? && r.value >= 0 && r.value * limit >= total && (r.value - 1) * limit < total
    ensures limit < 0 ==> r.Some? && r.value <= 0 && r.value * limit <= total && (r.value - 1) * limit > total
  {
    if limit == 0 then None
    else if limit > 0 then Some(CeilPositive(total, limit))
    else Some(CeilNegative(total, limit))
  }

  /** The ceiling of `total / limit` for a positive limit. */
  function CeilPositive(total: nat, limit: int): (c: int)
    requires limit > 0
    ensures c >= 0 && c * limit >= total && (c - 1) * limit < total
  {
    var q := total / limit;
    DivisionFacts(total, limit);
    if q * limit == total then q else q + 1
  }

  /** The ceiling of `total / limit` for a negative limit: the negated floor of `total / -limit`. */
  function CeilNegative(total: nat, limit: int): (c: int)
    requires limit < 0
    ensures c <= 0 && c * limit <= total && (c - 1) * limit > total
  {
    var p := total / -limit;
    DivisionFacts(total, -limit);
    NegateFacts(p, limit);
    -p
  }

  /** The quotient brackets the dividend, and its neighbours are one divisor away. */
  lemma DivisionFacts(total: nat, d: int)
    requires d > 0
    ensures var q := total / d;
      q * d <= total < q * d + d && (q + 1) * d == q * d + d && (q - 1) * d == q * d - d
  {
  }

  /** The products with a negated divisor. */
  lemma NegateFacts(p: int, limit: int)
    ensures (-p) * limit == p * -limit && (-p - 1) * limit == p * -limit + -limit
  {
  }

  /** With a positive limit, the last page holds at least one row and no row lies beyond it. */
  lemma LastPage(total: nat, limit: int)
    requires limit > 0 && total > 0
    ensures var n := TotalPages(total, limit).value;
      n >= 1 && Skip(n, limit) < total <= Skip(n + 1, limit)
  {
  }

  /** No rows give no pages; a full first page gives exactly one. */
  lemma TotalPagesEdges(limit: int)
    requires limit > 0
    ensures TotalPages(0, limit) == Some(0)
    ensures TotalPages(limit, limit) == Some(1)
  {
  }

  // ---------------------------------------------------------------------------
  // Filtering

  /** Prisma's `contains` with `mode: 'insensitive'`, with case folded on ASCII letters. */
  predicate ContainsInsensitive(text: string, search: string)
  {
    Text.Contains(Text.Lower(text), Text.Lower(search))
  }

  /** Every text contains the empty search. */
  lemma ContainsEmpty(text: string)
    ensures ContainsInsensitive(text, "")
  {
    assert Text.OccursAt(Text.Lower(text), "", 0);
  }
}
