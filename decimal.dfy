/** Base-10 formatting and parsing of 64-bit signed integers, as Go's strconv
    package does it for FormatInt(x, 10) (and fmt's "%v" of an int64) and
    ParseInt(s, 10, 64). Both venue drivers turn numeric ids into strings
    and back with these. */
module Decimal {

  const MinInt64: int := -0x8000_0000_0000_0000
  const MaxInt64: int := 0x7FFF_FFFF_FFFF_FFFF
  const MaxUint64: int := 0xFFFF_FFFF_FFFF_FFFF

  predicate IsInt64(n: int) {
    MinInt64 <= n <= MaxInt64
  }

  /** Go's int64. */
  type Int64 = n: int | IsInt64(n)

  /** The outcome of ParseInt: a value, or the kind of strconv.NumError. */
  datatype Parsed = Parsed(value: int) | SyntaxError | RangeError

  predicate IsDigit(c: char) {
    '0' <= c <= '9'
  }

  predicate AllDigits(s: string) {
    forall i :: 0 <= i < |s| ==> IsDigit(s[i])
  }

  function DigitChar(d: nat): (c: char)
    requires d < 10
    ensures IsDigit(c)
  {
    (('0' as int) + d) as char
  }

  function DigitValue(c: char): (d: nat)
    requires IsDigit(c)
    ensures d < 10 && DigitChar(d) == c
  {
    (c as int) - ('0' as int)
  }

  /** The decimal digits of n, most significant first, without leading zeros. */
  function NatText(n: nat): (s: string)
    ensures |s| > 0 && AllDigits(s)
    ensures n > 0 ==> s[0] != '0'
    decreases n
  {
    if n < 10 then [DigitChar(n)] else NatText(n / 10) + [DigitChar(n % 10)]
  }

  /** The number a string of decimal digits denotes. */
  function DigitsValue(s: string): nat
    requires AllDigits(s)
  {
    if s == [] then 0 else DigitsValue(s[..|s| - 1]) * 10 + DigitValue(s[|s| - 1])
  }

  /** strconv.FormatInt(n, 10): an optional minus sign, then the digits of |n|. */
  function FormatInt(n: int): (s: string)
    ensures |s| > 0
    ensures n >= 0 ==> AllDigits(s)
    ensures n < 0 ==> s[0] == '-' && AllDigits(s[1..])
  {
    if n < 0 then "-" + NatText(-n) else NatText(n)
  }

  /** The number of leading decimal digits of s. */
  function DigitPrefix(s: string): (k: nat)
    ensures k <= |s| && AllDigits(s[..k])
    ensures k < |s| ==> !IsDigit(s[k])
  {
    if s == [] || !IsDigit(s[0]) then 0
    else
      var k := 1 + DigitPrefix(s[1..]);
      assert s[..k] == [s[0]] + s[1..][..k - 1];
      k
  }

  /** The text after one optional leading sign. */
  function Unsigned(s: string): string {
    if s != [] && (s[0] == '+' || s[0] == '-') then s[1..] else s
  }

  /** u with the sign the text starts with. */
  function ApplySign(s: string, u: int): int {
    if s != [] && s[0] == '-' then -u else u
  }

  /** strconv.ParseInt(s, 10, 64). An optional sign, then at least one digit.
      The scan stops at the first character that is not a digit (a syntax
      error) or at the first digit that takes the value past the uint64
      maximum (a range error), whichever comes first; a value that fits in
      uint64 but not in int64 is a range error too. */
  function ParseInt(s: string): (r: Parsed)
    ensures r.Parsed? <==>
      && Unsigned(s) != [] && AllDigits(Unsigned(s))
      && IsInt64(ApplySign(s, DigitsValue(Unsigned(s))))
    ensures r.Parsed? ==> r.value == ApplySign(s, DigitsValue(Unsigned(s)))
    ensures r.RangeError? <==>
      && Unsigned(s) != []
      && var digits := Unsigned(s)[..DigitPrefix(Unsigned(s))];
         || DigitsValue(digits) > MaxUint64
         || (AllDigits(Unsigned(s)) && !IsInt64(ApplySign(s, DigitsValue(Unsigned(s)))))
  {
    var body := Unsigned(s);
    if body == [] then SyntaxError
    else
      var k := DigitPrefix(body);
      if DigitsValue(body[..k]) > MaxUint64 then
        assert AllDigits(body) ==> body[..k] == body by {
          if AllDigits(body) {
            AllDigitsPrefix(body);
          }
        }
        RangeError
      else if k < |body| then SyntaxError
      else
        assert body[..k] == body;
        var u: int := DigitsValue(body);
        if !IsInt64(ApplySign(s, u)) then RangeError
        else Parsed(ApplySign(s, u))
  }

  lemma {:induction false} NatTextValue(n: nat)
    ensures DigitsValue(NatText(n)) == n
    decreases n
  {
    if n >= 10 {
      var s := NatText(n);
      NatTextValue(n / 10);
      assert s[..|s| - 1] == NatText(n / 10);
    }
  }

  lemma {:induction false} AllDigitsPrefix(s: string)
    requires AllDigits(s)
    ensures DigitPrefix(s) == |s|
  {
    if s != [] {
      AllDigitsPrefix(s[1..]);
    }
  }

  /** Every int64 survives FormatInt followed by ParseInt. */
  lemma FormatParseRoundTrip(n: int)
    requires IsInt64(n)
    ensures ParseInt(FormatInt(n)) == Parsed(n)
  {
    var s := FormatInt(n);
    var m: nat := if n < 0 then -n else n;
    var body := NatText(m);
    NatTextValue(m);
    AllDigitsPrefix(body);
    assert body[..|body|] == body;
    if n < 0 {
      assert s[1..] == body;
    } else {
      assert s == body;
    }
  }

  /** Distinct integers have distinct decimal texts. */
  lemma FormatIntInjective(a: int, b: int)
    requires FormatInt(a) == FormatInt(b)
    ensures a == b
  {
    var sa, sb := FormatInt(a), FormatInt(b);
    var ma: nat := if a < 0 then -a else a;
    var mb: nat := if b < 0 then -b else b;
    NatTextValue(ma);
    NatTextValue(mb);
    if a < 0 {
      assert sa[1..] == NatText(ma);
    }
    if b < 0 {
      assert sb[1..] == NatText(mb);
    }
    assert (a < 0) == (b < 0) by {
      assert IsDigit(NatText(ma)[0]) && IsDigit(NatText(mb)[0]);
    }
    if a < 0 {
      assert NatText(ma) == NatText(mb);
    }
  }
}
