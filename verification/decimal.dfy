/**
 * Base-10 integer text as Go's standard library reads and writes it:
 * `strconv.Atoi` (an optional sign, then decimal digits; a syntax error
 * yields 0, an out-of-range value is clamped to the 64-bit bounds),
 * `strconv.Itoa`, and the grammar `big.Int.SetString(s, 10)` accepts
 * (an optional sign, then one or more decimal digits, no underscores).
 * Go's `int` is taken to be 64 bits wide.
 */
module Decimal {

  const MinInt64: int := -0x8000_0000_0000_0000
  const MaxInt64: int := 0x7fff_ffff_ffff_ffff
  const MaxUint64: int := 0xffff_ffff_ffff_ffff

  predicate IsDigit(c: char) {
    '0' <= c <= '9'
  }

  predicate AllDigits(s: string) {
    forall i | 0 <= i < |s| :: IsDigit(s[i])
  }

  function DigitValue(c: char): (d: nat)
    requires IsDigit(c)
    ensures d < 10
  {
    (c as int) - ('0' as int)
  }

  function DigitChar(d: nat): (c: char)
    requires d < 10
    ensures IsDigit(c) && DigitValue(c) == d
  {
    (('0' as int) + d) as char
  }

  /** The value of a string of decimal digits, most significant first. */
  function DigitsValue(s: string): nat
    requires AllDigits(s)
  {
    if s == [] then 0 else DigitsValue(s[..|s| - 1]) * 10 + DigitValue(s[|s| - 1])
  }

  /** The shortest decimal spelling of `n`: no leading zero unless `n` is 0. */
  function NatDigits(n: nat): (s: string)
    ensures |s| >= 1 && AllDigits(s)
    ensures |s| > 1 ==> s[0] != '0'
  {
    if n < 10 then [DigitChar(n)] else NatDigits(n / 10) + [DigitChar(n % 10)]
  }

  lemma {:induction false} DigitsValueOfNatDigits(n: nat)
    ensures DigitsValue(NatDigits(n)) == n
  {
    if n >= 10 {
      var s := NatDigits(n);
      assert s[..|s| - 1] == NatDigits(n / 10);
      DigitsValueOfNatDigits(n / 10);
    }
  }

  /** The number of decimal digits `s` starts with. */
  function DigitPrefixLength(s: string): (k: nat)
    ensures k <= |s|
    ensures AllDigits(s[..k])
    ensures k < |s| ==> !IsDigit(s[k])
  {
    if s == [] || !IsDigit(s[0]) then 0
    else
      var k := 1 + DigitPrefixLength(s[1..]);
      assert s[..k] == [s[0]] + s[1..][..k - 1];
      k
  }

  predicate IsSign(c: char) {
    c == '+' || c == '-'
  }

  /** What follows an optional leading sign. */
  function Unsigned(s: string): string
  {
    if s != [] && IsSign(s[0]) then s[1..] else s
  }

  predicate Negative(s: string) {
    s != [] && s[0] == '-'
  }

  /**
   * True when the digits `s` starts with (after its sign) denote a value
   * beyond 2^64 - 1: Go's digit scan then reports "out of range" before it
   * reaches any character that is not a digit.
   */
  predicate ScanOverflows(s: string) {
    var body := Unsigned(s);
    DigitsValue(body[..DigitPrefixLength(body)]) > MaxUint64
  }

  /** `strconv.Atoi` on a 64-bit platform. */
  function Atoi(s: string): (n: int)
    ensures MinInt64 <= n <= MaxInt64
    ensures !IsDecimal(s) && !ScanOverflows(s) ==> n == 0
    ensures ScanOverflows(s) ==> n == (if Negative(s) then MinInt64 else MaxInt64)
    ensures IsDecimal(s) ==> n == Clamp64(DecimalValue(s))
  {
    var body := Unsigned(s);
    var k := DigitPrefixLength(body);
    var u: int := DigitsValue(body[..k]);
    if k == 0 then 0
    // the digit scan stops with a syntax error before any overflow was seen
    else if k < |body| && u <= MaxUint64 then 0
    else
      assert k == |body| ==> body[..k] == body;
      if Negative(s) then (if -u < MinInt64 then MinInt64 else -u)
      else (if u > MaxInt64 then MaxInt64 else u)
  }

  /** Saturation to the 64-bit range, as `strconv.ParseInt` reports out-of-range values. */
  function Clamp64(x: int): int
  {
    if x < MinInt64 then MinInt64 else if x > MaxInt64 then MaxInt64 else x
  }

  const TwoTo64: int := 0x1_0000_0000_0000_0000

  /** Two's-complement wrap-around of Go's 64-bit `int` addition. */
  function Wrap64(x: int): (r: int)
    ensures MinInt64 <= r <= MaxInt64
    ensures (r - x) % TwoTo64 == 0
    ensures MinInt64 <= x <= MaxInt64 ==> r == x
    ensures MaxInt64 < x <= MaxInt64 + TwoTo64 ==> r == x - TwoTo64
  {
    var a := x - MinInt64;
    ModOfNearby(a);
    a % TwoTo64 + MinInt64
  }

  lemma ModOfNearby(a: int)
    ensures 0 <= a < TwoTo64 ==> a % TwoTo64 == a
    ensures TwoTo64 <= a < 2 * TwoTo64 ==> a % TwoTo64 == a - TwoTo64
    ensures (a % TwoTo64 - a) % TwoTo64 == 0
  {
    var q, r := a / TwoTo64, a % TwoTo64;
    assert a == TwoTo64 * q + r && 0 <= r < TwoTo64;
    assert r - a == TwoTo64 * (-q);
  }

  /**
   * The text `big.Int.SetString(s, 10)` accepts: a digit or a sign in
   * front, and digits everywhere else, with at least one digit in all.
   */
  function IsDecimal(s: string): (b: bool)
    ensures b <==> && |s| >= 1 && (IsDigit(s[0]) || (IsSign(s[0]) && |s| >= 2))
                   && (forall i | 1 <= i < |s| :: IsDigit(s[i]))
  {
    var body := Unsigned(s);
    assert s != [] && IsSign(s[0]) ==> forall i | 1 <= i < |s| :: s[i] == body[i - 1];
    s != [] && body != [] && AllDigits(body)
  }

  function Pow10(k: nat): (p: nat)
    ensures p >= 1
  {
    if k == 0 then 1 else 10 * Pow10(k - 1)
  }

  lemma {:induction false} DigitsValueBound(d: string)
    requires AllDigits(d)
    ensures DigitsValue(d) < Pow10(|d|)
  {
    if d != [] {
      DigitsValueBound(d[..|d| - 1]);
    }
  }

  /**
   * The value `big.Int.SetString(s, 10)` assigns to accepted text: negative
   * only after a minus sign, and fewer than 10^k in size for k digits.
   */
  function DecimalValue(s: string): (v: int)
    requires IsDecimal(s)
    ensures v < 0 ==> Negative(s)
    ensures v > 0 ==> !Negative(s)
    ensures v < Pow10(|Unsigned(s)|) && -v < Pow10(|Unsigned(s)|)
  {
    var u: int := DigitsValue(Unsigned(s));
    DigitsValueBound(Unsigned(s));
    if Negative(s) then -u else u
  }

  /**
   * `strconv.Itoa`: a minus sign exactly for negative numbers, then the
   * digits with no leading zero.
   */
  function Itoa(n: int): (s: string)
    ensures s != [] && (s[0] == '-' <==> n < 0)
    ensures Unsigned(s) != [] && AllDigits(Unsigned(s))
    ensures |Unsigned(s)| > 1 ==> Unsigned(s)[0] != '0'
  {
    if n < 0 then
      assert Unsigned("-" + NatDigits(-n)) == NatDigits(-n);
      "-" + NatDigits(-n)
    else NatDigits(n)
  }

  /** Decimal text as `Itoa` writes it: no plus sign, no leading zero, no "-0". */
  predicate Canonical(s: string) {
    && IsDecimal(s)
    && s[0] != '+'
    && (|Unsigned(s)| > 1 ==> Unsigned(s)[0] != '0')
    && (Negative(s) ==> Unsigned(s) != "0")
  }

  lemma {:induction false} LeadingDigitPositive(d: string)
    requires d != [] && AllDigits(d) && d[0] != '0'
    ensures DigitsValue(d) >= 1
    ensures |d| >= 2 ==> DigitsValue(d) >= 10
  {
    if |d| >= 2 {
      var init := d[..|d| - 1];
      assert init[0] == d[0];
      LeadingDigitPositive(init);
    }
  }

  lemma {:induction false} NatDigitsOfDigitsValue(d: string)
    requires d != [] && AllDigits(d)
    requires |d| > 1 ==> d[0] != '0'
    ensures NatDigits(DigitsValue(d)) == d
  {
    var init, c := d[..|d| - 1], d[|d| - 1];
    var n := DigitsValue(d);
    if |d| == 1 {
      assert DigitChar(DigitValue(c)) == c;
    } else {
      LeadingDigitPositive(d);
      assert init[0] == d[0];
      NatDigitsOfDigitsValue(init);
      assert n / 10 == DigitsValue(init) && n % 10 == DigitValue(c);
      assert DigitChar(DigitValue(c)) == c;
      assert d == init + [c];
    }
  }

  /** Every integer's spelling is accepted by `SetString` and denotes the integer. */
  lemma ItoaIsDecimal(n: int)
    ensures IsDecimal(Itoa(n))
    ensures DecimalValue(Itoa(n)) == n
  {
    var s := Itoa(n);
    if n < 0 {
      assert Unsigned(s) == NatDigits(-n);
      DigitsValueOfNatDigits(-n);
    } else {
      assert Unsigned(s) == NatDigits(n);
      DigitsValueOfNatDigits(n);
    }
  }

  /** Formatting the value of canonical decimal text writes the same text again. */
  lemma ItoaOfCanonical(s: string)
    requires Canonical(s)
    ensures Itoa(DecimalValue(s)) == s
  {
    var body := Unsigned(s);
    NatDigitsOfDigitsValue(body);
    if Negative(s) {
      assert body != [] && body[0] != '0' by {
        if |body| == 1 { assert body == "0" || body[0] != '0'; }
      }
      LeadingDigitPositive(body);
      assert s == "-" + body;
    } else {
      assert s == body;
    }
  }

  /** `Atoi` reads back what `Itoa` wrote, for every 64-bit integer. */
  lemma AtoiOfItoa(n: int)
    requires MinInt64 <= n <= MaxInt64
    ensures Atoi(Itoa(n)) == n
  {
    ItoaIsDecimal(n);
  }
}
