/**
 Text helpers the adapter relies on: decimal rendering of integers (Go's
 `%v` for `uint64` and `strconv.FormatInt(_, 10)`), the inverse a collector
 applies to read a number back, and splitting a string at the first
 occurrence of a separator character (the part of `strings.Split` the
 adapter uses, and the way a reader takes a line apart at its spaces).
 */
module Text {

  predicate IsDigit(c: char) {
    '0' <= c <= '9'
  }

  function DigitChar(d: nat): (c: char)
    requires d < 10
    ensures IsDigit(c) && c as int - '0' as int == d
  {
    ('0' as int + d) as char
  }

  /** Decimal rendering of a natural number, most significant digit first, no leading zeros. */
  function NatToDecimal(n: nat): (s: string)
    ensures |s| > 0
    ensures forall i :: 0 <= i < |s| ==> IsDigit(s[i])
    ensures s[0] == '0' ==> n == 0
    decreases n
  {
    if n < 10 then [DigitChar(n)] else NatToDecimal(n / 10) + [DigitChar(n % 10)]
  }

  /** Decimal rendering of a signed integer, as `strconv.FormatInt(i, 10)` writes it. */
  function IntToDecimal(i: int): (s: string)
    ensures |s| > 0 && ' ' !in s && '~' !in s
    ensures i < 0 <==> s[0] == '-'
    ensures forall k :: (if i < 0 then 1 else 0) <= k < |s| ==> IsDigit(s[k])
    ensures i < 0 ==> |s| > 1
    ensures s[if i < 0 then 1 else 0] == '0' ==> i == 0
  {
    if i < 0 then "-" + NatToDecimal(-i) else NatToDecimal(i)
  }

  /** The digits of a rendered integer, after its sign, read back as its magnitude. */
  lemma IntDecimalRoundTrip(i: int)
    ensures var s := IntToDecimal(i);
      var digits := if i < 0 then s[1..] else s;
      && (forall k :: 0 <= k < |digits| ==> IsDigit(digits[k]))
      && ParseDecimal(digits) == (if i < 0 then -i else i)
  {
    if i < 0 {
      assert IntToDecimal(i)[1..] == NatToDecimal(-i);
      DecimalRoundTrip(-i);
    } else {
      DecimalRoundTrip(i);
    }
  }

  /** The value of a string of decimal digits. */
  function ParseDecimal(s: string): nat
    requires forall i :: 0 <= i < |s| ==> IsDigit(s[i])
  {
    if s == [] then 0
    else
      var last := s[|s| - 1];
      assert IsDigit(last);
      ParseDecimal(s[..|s| - 1]) * 10 + (last as int - '0' as int)
  }

  /** Reading a rendered number back gives the number. */
  lemma {:induction false} DecimalRoundTrip(n: nat)
    ensures ParseDecimal(NatToDecimal(n)) == n
    decreases n
  {
    if n >= 10 {
      var s := NatToDecimal(n);
      assert s[..|s| - 1] == NatToDecimal(n / 10);
      DecimalRoundTrip(n / 10);
    }
  }

  /** The part of `s` before the first `c`, or all of `s` when it holds no `c`. */
  function TakeUntil(s: string, c: char): (r: string)
    ensures |r| <= |s| && r == s[..|r|]
    ensures c !in r
    ensures |r| < |s| ==> s[|r|] == c
    ensures c !in s ==> r == s
  {
    if s == [] || s[0] == c then [] else [s[0]] + TakeUntil(s[1..], c)
  }

  /** The part of `s` after the first `c`, or the empty string when `s` holds no `c`. */
  function DropThrough(s: string, c: char): (r: string)
    ensures |r| < |s| || r == []
    ensures c in s ==> s == TakeUntil(s, c) + [c] + r
  {
    if s == [] then []
    else if s[0] == c then s[1..]
    else
      assert s == [s[0]] + s[1..];
      DropThrough(s[1..], c)
  }

  /** Without `c` there is nothing after it. */
  lemma {:induction false} DropThroughMissing(s: string, c: char)
    requires c !in s
    ensures DropThrough(s, c) == []
  {
    if s != [] {
      DropThroughMissing(s[1..], c);
    }
  }

  /** Splitting `a + [c] + b` at its first `c` gives back `a` and `b` when `a` holds no `c`. */
  lemma {:induction false} SplitAtFirst(a: string, c: char, b: string)
    requires c !in a
    ensures TakeUntil(a + [c] + b, c) == a
    ensures DropThrough(a + [c] + b, c) == b
  {
    if a != [] {
      assert (a + [c] + b)[1..] == a[1..] + [c] + b;
      SplitAtFirst(a[1..], c, b);
    }
  }
}
