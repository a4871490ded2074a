/** The numeric EAN-13 value type of the top-level package (ean.go). */
module Barcode {
  import opened Wrappers
  import opened GoInt
  import opened Decimal
  import opened Errors

  /** checksumWeights in ean.go: index i % 2, counting digits from the right starting at 0. */
  const ChecksumWeights: seq<nat> := [3, 1]

  /** The weighted digit sum of `c`, whose rightmost digit sits at position `i` from the right. */
  function WeightedSum(c: nat, i: nat): nat
    decreases c
  {
    if c == 0 then 0 else (c % 10) * ChecksumWeights[i % 2] + WeightedSum(c / 10, i + 1)
  }

  /** The EAN-13 check digit: the digit that brings the weighted sum up to a multiple of ten. */
  function CheckDigit(code: nat): nat {
    (10 - WeightedSum(code, 0) % 10) % 10
  }

  lemma {:induction false} WeightedSumPeriodic(c: nat, i: nat)
    ensures WeightedSum(c, i + 2) == WeightedSum(c, i)
    decreases c
  {
    if c != 0 {
      WeightedSumPeriodic(c / 10, i + 1);
    }
  }

  /** The check digit is a digit, and with weight 1 appended after a payload weighted 3, 1, 3, ...
      from the right it makes the weighted sum of all thirteen digits a multiple of ten. */
  lemma CheckDigitCompletesSum(code12: nat)
    ensures CheckDigit(code12) < 10
    ensures WeightedSum(code12 * 10 + CheckDigit(code12), 1) % 10 == 0
  {
    var sum := WeightedSum(code12, 0);
    var d := CheckDigit(code12);
    WeightedSumAppend(code12, d, 1);
    WeightedSumPeriodic(code12, 0);
    assert ChecksumWeights[1 % 2] == 1;
    assert d * ChecksumWeights[1 % 2] == d;
    CompletesMod10(sum);
  }

  /** Appending a digit on the right puts it at position i and shifts the rest one position left. */
  lemma WeightedSumAppend(c: nat, d: nat, i: nat)
    requires d < 10
    ensures WeightedSum(c * 10 + d, i) == d * ChecksumWeights[i % 2] + WeightedSum(c, i + 1)
  {
    var n := c * 10 + d;
    DivUnique(n, 10, c, d);
    if n == 0 {
      assert c == 0 && d == 0;
    }
  }

  /** (10 - s mod 10) mod 10 is what brings s up to a multiple of ten. */
  lemma CompletesMod10(s: nat)
    ensures ((10 - s % 10) % 10 + s) % 10 == 0
  {
    var r := s % 10;
    assert s == (s / 10) * 10 + r;
    if r == 0 {
      assert (10 - r) % 10 == 0;
    } else {
      assert (10 - r) % 10 == 10 - r;
      assert (10 - r) + s == (s / 10 + 1) * 10;
    }
  }

  /** One iteration of computeEANChecksum keeps the last digit of the running total. */
  lemma ChecksumStep(c: nat, i: nat, checksum: nat)
    requires c > 0
    ensures ((checksum + (c % 10) * ChecksumWeights[i % 2]) % 10 + WeightedSum(c / 10, i + 1)) % 10
      == (checksum + WeightedSum(c, i)) % 10
  {
    var term := (c % 10) * ChecksumWeights[i % 2];
    assert WeightedSum(c, i) == term + WeightedSum(c / 10, i + 1);
    AddMod10(checksum + term, WeightedSum(c / 10, i + 1));
  }

  /** computeEANChecksum (ean.go:52-61): folds the digits from the right, reducing mod 10 each step. */
  method ComputeEANChecksum(code: uint64) returns (checksum: uint64)
    ensures checksum < 10
    ensures checksum == CheckDigit(code)
  {
    checksum := 0;
    var i := 0;
    var c := code;
    while c > 0
      invariant checksum < 10
      invariant (checksum + WeightedSum(c, i)) % 10 == WeightedSum(code, 0) % 10
      decreases c
    {
      ChecksumStep(c, i, checksum);
      checksum := (checksum + (c % 10) * ChecksumWeights[i % 2]) % 10;
      c := c / 10;
      i := i + 1;
    }
    checksum := (10 - checksum) % 10;
  }

  const MaxCode12: nat := 999999999999
  const MaxCode13: nat := 9999999999999

  /** A thirteen-digit code whose last digit is the check digit of the first twelve. */
  predicate IsValidCode13(code13: nat) {
    code13 <= MaxCode13 && code13 % 10 == CheckDigit(code13 / 10)
  }

  /** EAN13 (ean.go:12-30): a 13-digit code held as an unsigned integer. */
  datatype EAN13 = EAN13(code13: uint64) {

    function Code13(): uint64 {
      code13
    }

    function Code12(): uint64 {
      code13 / 10
    }

    function Checksum(): uint8 {
      code13 % 10
    }

    /** fmt.Sprintf("%013d", code13) */
    function String(): string {
      Format(code13, 13)
    }

    predicate Valid() {
      IsValidCode13(code13)
    }
  }

  /** The accessors split the code into payload and check digit. */
  lemma AccessorsSplitCode(e: EAN13)
    ensures e.Code12() * 10 + e.Checksum() == e.Code13()
    ensures e.Checksum() < 10
  {
  }

  /** EAN13FromCode12 (ean.go:68-76): appends the check digit to a payload of at most twelve digits. */
  function EAN13FromCode12(code12: uint64): (r: Result<EAN13, BarcodeError>)
    ensures r.Failure? <==> code12 > MaxCode12
    ensures r.Failure? ==> r.error == InvalidEAN
    ensures r.Success? ==> r.value.Valid() && r.value.Code12() == code12
                           && r.value.Checksum() == CheckDigit(code12)
  {
    if code12 > MaxCode12 then Failure(InvalidEAN)
    else
      CheckDigitCompletesSum(code12);
      Success(EAN13(code12 * 10 + CheckDigit(code12)))
  }

  /** EAN13FromCode13 (ean.go:78-89): accepts a thirteen-digit code whose check digit is right. */
  function EAN13FromCode13(code13: uint64): (r: Result<EAN13, BarcodeError>)
    ensures code13 > MaxCode13 ==> r == Failure(InvalidEAN)
    ensures code13 <= MaxCode13 && code13 % 10 != CheckDigit(code13 / 10) ==> r == Failure(InvalidEANChecksum)
    ensures IsValidCode13(code13) ==> r == Success(EAN13(code13))
    ensures r.Success? ==> r.value.Valid()
  {
    if code13 > MaxCode13 then Failure(InvalidEAN)
    else if code13 % 10 != CheckDigit(code13 / 10) then Failure(InvalidEANChecksum)
    else Success(EAN13(code13))
  }

  /** A code built from a payload is accepted unchanged as a full code. */
  lemma {:induction false} Code12RoundTrip(code12: uint64)
    requires code12 <= MaxCode12
    ensures EAN13FromCode12(code12).Success?
    ensures EAN13FromCode13(EAN13FromCode12(code12).value.Code13()) == EAN13FromCode12(code12)
  {
    var e := EAN13FromCode12(code12).value;
    assert e.code13 / 10 == code12;
  }

  /** allDigits (ean.go:91-98): scans the string and stops at the first non-digit. */
  method ScanAllDigits(code: string) returns (ok: bool)
    ensures ok <==> AllDigits(code)
  {
    for i := 0 to |code|
      invariant AllDigits(code[..i])
    {
      if !('0' <= code[i] <= '9') {
        return false;
      }
      assert code[..i + 1] == code[..i] + [code[i]];
    }
    assert code[..|code|] == code;
    return true;
  }

  /** EAN13FromString12 (ean.go:100-109): exactly twelve ASCII digits, read as a payload. */
  function EAN13FromString12(code: string): (r: Result<EAN13, BarcodeError>)
    ensures r.Success? <==> |code| == 12 && AllDigits(code)
    ensures r.Failure? ==> r.error == InvalidEAN
    ensures r.Success? ==> r.value.Valid() && r.value.Code12() == DecimalValue(code)
                           && r.value.Checksum() == CheckDigit(DecimalValue(code))
    ensures r.Success? ==> r.value.String() == code + [DigitChar(CheckDigit(DecimalValue(code)))]
  {
    if |code| != 12 || !AllDigits(code) then Failure(InvalidEAN)
    else
      Pow10Values();
      FormatOfValue(code);
      CodeString(DecimalValue(code));
      EAN13FromCode12(DecimalValue(code))
  }

  /** A code built from a payload prints as the payload's twelve digits and its check digit. */
  lemma CodeString(code12: uint64)
    requires code12 <= MaxCode12
    ensures EAN13FromCode12(code12).value.String() == Format(code12, 12) + [DigitChar(CheckDigit(code12))]
  {
    var e := EAN13FromCode12(code12).value;
    CheckDigitCompletesSum(code12);
    DivUnique(e.code13, 10, code12, CheckDigit(code12));
  }

  /** EAN13FromString13 (ean.go:111-120): exactly thirteen ASCII digits, read as a full code. */
  function EAN13FromString13(code: string): (r: Result<EAN13, BarcodeError>)
    ensures r.Success? <==> |code| == 13 && AllDigits(code) && IsValidCode13(DecimalValue(code))
    ensures r.Failure? ==> r.error == (if |code| == 13 && AllDigits(code) then InvalidEANChecksum else InvalidEAN)
    ensures r.Success? ==> r.value.Code13() == DecimalValue(code) && r.value.String() == code
  {
    if |code| != 13 || !AllDigits(code) then Failure(InvalidEAN)
    else
      Pow10Values();
      FormatOfValue(code);
      EAN13FromCode13(DecimalValue(code))
  }

  /** EAN13FromString (ean.go:122-131): dispatches on the length of the string. */
  function EAN13FromString(code: string): (r: Result<EAN13, BarcodeError>)
    ensures r.Success? ==> (|code| == 12 || |code| == 13) && AllDigits(code) && r.value.Valid()
    ensures |code| == 12 ==> r == EAN13FromString12(code)
    ensures |code| == 13 ==> r == EAN13FromString13(code)
    ensures |code| != 12 && |code| != 13 ==> r == Failure(InvalidEAN)
  {
    match |code|
    case 12 => EAN13FromString12(code)
    case 13 => EAN13FromString13(code)
    case _ => Failure(InvalidEAN)
  }

  /** A valid value prints as thirteen digits, and parsing the printed form gives it back. */
  lemma {:induction false} StringRoundTrip(e: EAN13)
    requires e.Valid()
    ensures |e.String()| == 13 && AllDigits(e.String())
    ensures EAN13FromString(e.String()) == Success(e)
  {
    Pow10Values();
    ValueOfFormat(e.code13, 13);
  }

  /** ean_test.go:34-61 for every payload: the parsers accept `%012d` of the payload and
      `%012d%d` of the payload and its check digit, and give the value EAN13FromCode12 builds. */
  lemma {:induction false} PayloadStrings(p: uint64)
    requires p <= MaxCode12
    ensures var s12 := Format(p, 12);
      && EAN13FromString12(s12) == EAN13FromCode12(p)
      && EAN13FromString(s12) == EAN13FromCode12(p)
    ensures var s13 := Format(p, 12) + [DigitChar(CheckDigit(p))];
      && EAN13FromString13(s13) == EAN13FromCode12(p)
      && EAN13FromString(s13) == EAN13FromCode12(p)
  {
    Pow10Values();
    ValueOfFormat(p, 12);
    FormatOfValue(Format(p, 12));
    CodeString(p);
    StringRoundTrip(EAN13FromCode12(p).value);
  }

  /* The check digits of ean_test.go:13-18, each unfolded digit by digit from the right. */

  lemma CheckDigitOf590123412345()
    ensures CheckDigit(590123412345) == 7
  {
    assert WeightedSum(5, 11) == 5;
    assert WeightedSum(59, 10) == 32;
    assert WeightedSum(590, 9) == 32;
    assert WeightedSum(5901, 8) == 35;
    assert WeightedSum(59012, 7) == 37;
    assert WeightedSum(590123, 6) == 46;
    assert WeightedSum(5901234, 5) == 50;
    assert WeightedSum(59012341, 4) == 53;
    assert WeightedSum(590123412, 3) == 55;
    assert WeightedSum(5901234123, 2) == 64;
    assert WeightedSum(59012341234, 1) == 68;
    assert WeightedSum(590123412345, 0) == 83;
  }

  lemma CheckDigitOf111234567890()
    ensures CheckDigit(111234567890) == 1
  {
    assert WeightedSum(1, 11) == 1;
    assert WeightedSum(11, 10) == 4;
    assert WeightedSum(111, 9) == 5;
    assert WeightedSum(1112, 8) == 11;
    assert WeightedSum(11123, 7) == 14;
    assert WeightedSum(111234, 6) == 26;
    assert WeightedSum(1112345, 5) == 31;
    assert WeightedSum(11123456, 4) == 49;
    assert WeightedSum(111234567, 3) == 56;
    assert WeightedSum(1112345678, 2) == 80;
    assert WeightedSum(11123456789, 1) == 89;
    assert WeightedSum(111234567890, 0) == 89;
  }

  lemma CheckDigitOf354212567890()
    ensures CheckDigit(354212567890) == 2
  {
    assert WeightedSum(3, 11) == 3;
    assert WeightedSum(35, 10) == 18;
    assert WeightedSum(354, 9) == 22;
    assert WeightedSum(3542, 8) == 28;
    assert WeightedSum(35421, 7) == 29;
    assert WeightedSum(354212, 6) == 35;
    assert WeightedSum(3542125, 5) == 40;
    assert WeightedSum(35421256, 4) == 58;
    assert WeightedSum(354212567, 3) == 65;
    assert WeightedSum(3542125678, 2) == 89;
    assert WeightedSum(35421256789, 1) == 98;
    assert WeightedSum(354212567890, 0) == 98;
  }

  lemma CheckDigitOf12345678901()
    ensures CheckDigit(12345678901) == 2
  {
    assert WeightedSum(1, 10) == 3;
    assert WeightedSum(12, 9) == 5;
    assert WeightedSum(123, 8) == 14;
    assert WeightedSum(1234, 7) == 18;
    assert WeightedSum(12345, 6) == 33;
    assert WeightedSum(123456, 5) == 39;
    assert WeightedSum(1234567, 4) == 60;
    assert WeightedSum(12345678, 3) == 68;
    assert WeightedSum(123456789, 2) == 95;
    assert WeightedSum(1234567890, 1) == 95;
    assert WeightedSum(12345678901, 0) == 98;
  }

  lemma CheckDigitVectors()
    ensures CheckDigit(590123412345) == 7
    ensures CheckDigit(111234567890) == 1
    ensures CheckDigit(354212567890) == 2
    ensures CheckDigit(12345678901) == 2
  {
    CheckDigitOf590123412345();
    CheckDigitOf111234567890();
    CheckDigitOf354212567890();
    CheckDigitOf12345678901();
  }

  /** The payloads of ean_test.go:13-33 give the expected codes and check digits. */
  lemma ChecksumVectors()
    ensures EAN13FromCode12(590123412345) == Success(EAN13(5901234123457))
    ensures EAN13FromCode12(111234567890) == Success(EAN13(1112345678901))
    ensures EAN13FromCode12(354212567890) == Success(EAN13(3542125678902))
    ensures EAN13FromCode12(12345678901) == Success(EAN13(123456789012))
    ensures EAN13FromCode13(5901234123457) == Success(EAN13(5901234123457))
  {
    CheckDigitVectors();
  }

  /** The out-of-range and wrong-checksum codes of ean_test.go:66-83. */
  lemma RejectionVectors()
    ensures EAN13FromCode12(1000000000000) == Failure(InvalidEAN)
    ensures EAN13FromCode12(9999999999999) == Failure(InvalidEAN)
    ensures EAN13FromCode13(10000000000000) == Failure(InvalidEAN)
    ensures EAN13FromCode13(5901234123450) == Failure(InvalidEANChecksum)
  {
    CheckDigitVectors();
  }

  /** The decimal values of the literals of ean_test.go:48 and 91, read off digit by digit. */
  lemma ValueOf590123412345()
    ensures AllDigits("590123412345") && DecimalValue("590123412345") == 590123412345
  {
    var s, n := "590123412345", 590123412345;
    Pow10Table();
    forall k | 0 <= k < 12
      ensures s[k] == DigitChar((n / Pow10(11 - k)) % 10)
    {
      if k == 0 {
        assert n / Pow10(11) % 10 == 5;
      } else if k == 1 {
        assert n / Pow10(10) % 10 == 9;
      } else if k == 2 {
        assert n / Pow10(9) % 10 == 0;
      } else if k == 3 {
        assert n / Pow10(8) % 10 == 1;
      } else if k == 4 {
        assert n / Pow10(7) % 10 == 2;
      } else if k == 5 {
        assert n / Pow10(6) % 10 == 3;
      } else if k == 6 {
        assert n / Pow10(5) % 10 == 4;
      } else if k == 7 {
        assert n / Pow10(4) % 10 == 1;
      } else if k == 8 {
        assert n / Pow10(3) % 10 == 2;
      } else if k == 9 {
        assert n / Pow10(2) % 10 == 3;
      } else if k == 10 {
        assert n / Pow10(1) % 10 == 4;
      } else {
        assert n / Pow10(0) % 10 == 5;
      }
    }
    ValueOfDigitString(s, n);
  }

  lemma ValueOf5901234123450()
    ensures AllDigits("5901234123450") && DecimalValue("5901234123450") == 5901234123450
  {
    var s, n := "5901234123450", 5901234123450;
    Pow10Table();
    forall k | 0 <= k < 13
      ensures s[k] == DigitChar((n / Pow10(12 - k)) % 10)
    {
      if k == 0 {
        assert n / Pow10(12) % 10 == 5;
      } else if k == 1 {
        assert n / Pow10(11) % 10 == 9;
      } else if k == 2 {
        assert n / Pow10(10) % 10 == 0;
      } else if k == 3 {
        assert n / Pow10(9) % 10 == 1;
      } else if k == 4 {
        assert n / Pow10(8) % 10 == 2;
      } else if k == 5 {
        assert n / Pow10(7) % 10 == 3;
      } else if k == 6 {
        assert n / Pow10(6) % 10 == 4;
      } else if k == 7 {
        assert n / Pow10(5) % 10 == 1;
      } else if k == 8 {
        assert n / Pow10(4) % 10 == 2;
      } else if k == 9 {
        assert n / Pow10(3) % 10 == 3;
      } else if k == 10 {
        assert n / Pow10(2) % 10 == 4;
      } else if k == 11 {
        assert n / Pow10(1) % 10 == 5;
      } else {
        assert n / Pow10(0) % 10 == 0;
      }
    }
    ValueOfDigitString(s, n);
  }

  /** The strings of ean_test.go:48 and 84-93. */
  lemma StringVectors()
    ensures EAN13FromString("590123412345") == Success(EAN13(5901234123457))
    ensures EAN13FromString("10000000000000") == Failure(InvalidEAN)
    ensures EAN13FromString("123456789012a") == Failure(InvalidEAN)
    ensures EAN13FromString("5901234123450") == Failure(InvalidEANChecksum)
  {
    AcceptedString();
    RejectedChecksumString();
    RejectedShapes();
  }

  lemma RejectedShapes()
    ensures EAN13FromString("10000000000000") == Failure(InvalidEAN)
    ensures EAN13FromString("123456789012a") == Failure(InvalidEAN)
  {
    assert !IsDigit("123456789012a"[12]);
  }

  lemma AcceptedString()
    ensures EAN13FromString("590123412345") == Success(EAN13(5901234123457))
  {
    CheckDigitOf590123412345();
    ValueOf590123412345();
    assert EAN13FromString("590123412345") == EAN13FromCode12(590123412345);
  }

  lemma RejectedChecksumString()
    ensures EAN13FromString("5901234123450") == Failure(InvalidEANChecksum)
  {
    CheckDigitOf590123412345();
    ValueOf5901234123450();
    assert EAN13FromString("5901234123450") == EAN13FromCode13(5901234123450);
  }
}
