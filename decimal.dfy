/**
 * Go's 64-bit `int` and the two `strconv` conversions the connector uses:
 * `strconv.Itoa` (page offsets turned into next-page tokens) and
 * `strconv.Atoi` (page tokens turned back into offsets).
 */
module Decimal {
  import opened Wrappers

  const MinInt64: int := -0x8000_0000_0000_0000
  const MaxInt64: int := 0x7fff_ffff_ffff_ffff
  const TwoTo64: int := 0x1_0000_0000_0000_0000

  /** Go's `int` on a 64-bit platform. */
  type Int64 = i: int | MinInt64 <= i <= MaxInt64

  /** Go's `+` on `int`: two's-complement wrap-around on overflow. */
  function WrapAdd(a: Int64, b: Int64): (r: Int64)
    ensures (r - (a + b)) % TwoTo64 == 0
    ensures MinInt64 <= a + b <= MaxInt64 ==> r == a + b
  {
    var s := a + b;
    if s > MaxInt64 then s - TwoTo64
    else if s < MinInt64 then s + TwoTo64
    else s
  }

  predicate IsDigit(c: char) {
    '0' <= c <= '9'
  }

  predicate AllDigits(s: string) {
    forall i :: 0 <= i < |s| ==> IsDigit(s[i])
  }

  function DigitChar(d: nat): (c: char)
    requires d < 10
    ensures IsDigit(c) && c as int - '0' as int == d
  {
    ('0' as int + d) as char
  }

  /** The decimal digits of `n`, most significant first, with no leading zeros. */
  function NatToString(n: nat): string
    decreases n
  {
    if n < 10 then [DigitChar(n)] else NatToString(n / 10) + [DigitChar(n % 10)]
  }

  /** The value of a string of decimal digits. */
  function DigitsValue(s: string): nat
    requires AllDigits(s)
  {
    if |s| == 0 then 0
    else DigitsValue(s[..|s| - 1]) * 10 + (s[|s| - 1] as int - '0' as int)
  }

  /** `strconv.Itoa`: the decimal form of `n`, with a leading '-' when negative. */
  function Itoa(n: int): (s: string)
    ensures n >= 0 ==> |s| > 0 && AllDigits(s)
    ensures n < 0 ==> |s| > 1 && s[0] == '-' && AllDigits(s[1..])
  {
    if n < 0 then
      NatToStringDigits(-n);
      assert ("-" + NatToString(-n))[1..] == NatToString(-n);
      "-" + NatToString(-n)
    else
      NatToStringDigits(n);
      NatToString(n)
  }

  /**
   * `strconv.Atoi`: an optional '+' or '-' sign followed by at least one
   * decimal digit, whose value fits in 64 bits; anything else is an error.
   */
  function Atoi(s: string): (r: Option<Int64>)
    ensures r.Some? ==> |s| > 0
    ensures r.Some? ==> AllDigits(s) || ((s[0] == '+' || s[0] == '-') && |s| > 1 && AllDigits(s[1..]))
  {
    var signed := |s| > 0 && (s[0] == '+' || s[0] == '-');
    var digits := if signed then s[1..] else s;
    if |digits| == 0 || !AllDigits(digits) then None
    else
      var magnitude: int := DigitsValue(digits);
      var v: int := if signed && s[0] == '-' then -magnitude else magnitude;
      if MinInt64 <= v <= MaxInt64 then Some(v) else None
  }

  lemma {:induction false} NatToStringDigits(n: nat)
    ensures |NatToString(n)| > 0
    ensures AllDigits(NatToString(n))
    ensures DigitsValue(NatToString(n)) == n
    decreases n
  {
    if n >= 10 {
      NatToStringDigits(n / 10);
      var s := NatToString(n / 10) + [DigitChar(n % 10)];
      assert s[..|s| - 1] == NatToString(n / 10);
    }
  }

  /** The page tokens the adapters emit parse back to the offset they were made from. */
  lemma AtoiItoa(n: Int64)
    ensures Atoi(Itoa(n)) == Some(n)
  {
    var m: int := n;
    if m < 0 {
      NatToStringDigits(-m);
      var digits := NatToString(-m);
      var s := "-" + digits;
      assert s == Itoa(n);
      assert s[1..] == digits;
      assert DigitsValue(s[1..]) == -m;
    } else {
      NatToStringDigits(m);
      var s := NatToString(m);
      assert s == Itoa(n);
      assert IsDigit(s[0]);
    }
  }

  /**
   * What `strconv.Atoi` gives for a well-formed number: the value of its
   * digits, negated after a '-', when that fits in 64 bits, and an error
   * otherwise.
   */
  lemma AtoiValue(s: string)
    ensures |s| > 0 && AllDigits(s) ==>
      Atoi(s) == if DigitsValue(s) <= MaxInt64 then Some(DigitsValue(s)) else None
    ensures |s| > 1 && s[0] == '+' && AllDigits(s[1..]) ==>
      Atoi(s) == if DigitsValue(s[1..]) <= MaxInt64 then Some(DigitsValue(s[1..])) else None
    ensures |s| > 1 && s[0] == '-' && AllDigits(s[1..]) ==>
      Atoi(s) == if DigitsValue(s[1..]) <= -MinInt64 then Some(0 - DigitsValue(s[1..])) else None
  {
    if |s| > 0 && AllDigits(s) {
      assert IsDigit(s[0]);
    }
  }

  /** The empty string is not a number: `strconv.Atoi("")` fails. */
  lemma AtoiEmpty()
    ensures Atoi("") == None
  {
  }
}
