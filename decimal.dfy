/** ASCII decimal digits, decimal strings and their values. */
module Decimal {
  import opened GoInt

  predicate IsDigit(c: char) {
    '0' <= c <= '9'
  }

  predicate AllDigits(s: string) {
    forall i | 0 <= i < |s| :: IsDigit(s[i])
  }

  /** `c - '0'`, the value of an ASCII digit. */
  function DigitValue(c: char): nat
    requires IsDigit(c)
  {
    c as int - '0' as int
  }

  /** `'0' + d`, the ASCII digit of a value below ten. */
  function DigitChar(d: int): (c: char)
    requires 0 <= d < 10
    ensures IsDigit(c) && DigitValue(c) == d
  {
    ('0' as int + d) as char
  }

  function Pow10(n: nat): (r: nat)
    ensures r > 0
  {
    if n == 0 then 1 else 10 * Pow10(n - 1)
  }

  /** The value of a decimal string read most significant digit first. */
  function DecimalValue(s: string): (v: nat)
    requires AllDigits(s)
    ensures v < Pow10(|s|)
  {
    if s == [] then 0 else DecimalValue(s[..|s| - 1]) * 10 + DigitValue(s[|s| - 1])
  }

  /** The last `width` decimal digits of `n`, most significant first. */
  function DigitsOf(n: nat, width: nat): (ds: seq<int>)
    ensures |ds| == width
    ensures forall i | 0 <= i < width :: 0 <= ds[i] < 10
  {
    if width == 0 then [] else DigitsOf(n / 10, width - 1) + [n % 10]
  }

  /** Go's `fmt.Sprintf("%0*d", width, n)`: the decimal digits of `n`, zero-padded to `width`. */
  function Format(n: nat, width: nat): (s: string)
    ensures AllDigits(s)
    decreases n, width
  {
    if n == 0 && width == 0 then []
    else Format(n / 10, if width > 0 then width - 1 else 0) + [DigitChar(n % 10)]
  }

  /** Below 10^width, formatting writes exactly `width` characters, one per digit of `n`. */
  lemma {:induction false} FormatFixedWidth(n: nat, width: nat)
    requires n < Pow10(width)
    ensures |Format(n, width)| == width
    ensures forall i | 0 <= i < width :: Format(n, width)[i] == DigitChar(DigitsOf(n, width)[i])
  {
    if width > 0 {
      FormatFixedWidth(n / 10, width - 1);
    }
  }

  /** Parsing undoes formatting for every value that fits the width. */
  lemma {:induction false} ValueOfFormat(n: nat, width: nat)
    requires n < Pow10(width)
    ensures |Format(n, width)| == width && DecimalValue(Format(n, width)) == n
  {
    if width > 0 {
      ValueOfFormat(n / 10, width - 1);
      var s := Format(n, width);
      assert s[..|s| - 1] == Format(n / 10, width - 1);
    }
  }

  /** Formatting undoes parsing: the value and the length give back the string, leading zeros included. */
  lemma {:induction false} FormatOfValue(s: string)
    requires AllDigits(s)
    ensures Format(DecimalValue(s), |s|) == s
  {
    if s != [] {
      var init := s[..|s| - 1];
      FormatOfValue(init);
      var v := DecimalValue(s);
      assert v / 10 == DecimalValue(init) && v % 10 == DigitValue(s[|s| - 1]);
      assert s == init + [s[|s| - 1]];
    }
  }

  lemma Pow10Values()
    ensures Pow10(12) == 1000000000000
    ensures Pow10(13) == 10000000000000
  {
    assert Pow10(6) == 1000000;
  }

  /** Reducing an accumulator mod 10 before adding to it does not change the sum's last digit. */
  lemma AddMod10(a: nat, b: nat)
    ensures ((a % 10) + b) % 10 == (a + b) % 10
  {
    assert a == (a / 10) * 10 + a % 10;
    assert a + b == (a % 10 + b) + (a / 10) * 10;
  }

  /** Digit k of the fixed-width digits, counted from the left, is n divided by the power of ten
      of its place, mod 10. */
  lemma {:induction false} DigitsOfAt(n: nat, width: nat, k: nat)
    requires k < width
    ensures DigitsOf(n, width)[k] == (n / Pow10(width - 1 - k)) % 10
    decreases width
  {
    if k < width - 1 {
      DigitsOfAt(n / 10, width - 1, k);
      DivDiv(n, 10, Pow10(width - 2 - k));
    }
  }

  /** A string whose characters are the place digits of n, most significant first, is n formatted. */
  lemma PlaceDigitsFormat(s: string, n: nat)
    requires n < Pow10(|s|)
    requires forall k | 0 <= k < |s| :: s[k] == DigitChar((n / Pow10(|s| - 1 - k)) % 10)
    ensures Format(n, |s|) == s
  {
    FormatFixedWidth(n, |s|);
    var f := Format(n, |s|);
    forall k | 0 <= k < |s|
      ensures f[k] == s[k]
    {
      var d := (n / Pow10(|s| - 1 - k)) % 10;
      assert s[k] == DigitChar(d);
      DigitsOfAt(n, |s|, k);
      assert f[k] == DigitChar(DigitsOf(n, |s|)[k]);
    }
  }

  /** Such a string is all digits and has value n. */
  lemma ValueOfDigitString(s: string, n: nat)
    requires n < Pow10(|s|)
    requires forall k | 0 <= k < |s| :: s[k] == DigitChar((n / Pow10(|s| - 1 - k)) % 10)
    ensures AllDigits(s) && DecimalValue(s) == n
  {
    PlaceDigitsFormat(s, n);
    ValueOfFormat(n, |s|);
  }

  lemma Pow10Table()
    ensures Pow10(0) == 1 && Pow10(1) == 10 && Pow10(2) == 100 && Pow10(3) == 1000
    ensures Pow10(4) == 10000 && Pow10(5) == 100000 && Pow10(6) == 1000000
    ensures Pow10(7) == 10000000 && Pow10(8) == 100000000 && Pow10(9) == 1000000000
    ensures Pow10(10) == 10000000000 && Pow10(11) == 100000000000 && Pow10(12) == 1000000000000
    ensures Pow10(13) == 10000000000000
  {
    assert Pow10(3) == 1000;
    assert Pow10(6) == 1000000;
    assert Pow10(9) == 1000000000;
  }
}
