/** The string-based checks of the ean sub-package (ean/validate.go). */
module EanValidate {
  import opened Wrappers
  import opened Decimal

  /** The errors of ean/validate.go; the message texts are not modelled, the offending
      position and characters are. */
  datatype CodeError =
    | WrongLength
    | InvalidChar(index: nat)
    | ChecksumMismatch(expected: char, actual: char)

  /** The digit scan of allNumbersWithLength from position i on: the first non-digit, if any. */
  function DigitScan(code: string, i: nat): Outcome<CodeError>
    requires i <= |code|
    decreases |code| - i
  {
    if i == |code| then Pass
    else if !IsDigit(code[i]) then Fail(InvalidChar(i))
    else DigitScan(code, i + 1)
  }

  /** allNumbersWithLength (ean/validate.go:9-19): the length check, then the digit scan. */
  function NumbersCheck(code: string, length: int): Outcome<CodeError> {
    if |code| != length then Fail(WrongLength) else DigitScan(code, 0)
  }

  /** The scan passes iff the rest of the string is digits, and otherwise names the first non-digit. */
  lemma {:induction false} DigitScanFindsFirst(code: string, i: nat)
    requires i <= |code|
    ensures DigitScan(code, i) == Pass <==> forall k | i <= k < |code| :: IsDigit(code[k])
    ensures DigitScan(code, i).Fail? ==>
      && DigitScan(code, i).error.InvalidChar?
      && var j := DigitScan(code, i).error.index;
      && i <= j < |code| && !IsDigit(code[j])
      && forall k | i <= k < j :: IsDigit(code[k])
    decreases |code| - i
  {
    if i < |code| && IsDigit(code[i]) {
      DigitScanFindsFirst(code, i + 1);
    }
  }

  /** allNumbersWithLength accepts exactly the all-digit strings of the given length; it reports a
      wrong length before any character, and otherwise the first offending character. */
  lemma NumbersCheckMeaning(code: string, length: int)
    ensures NumbersCheck(code, length) == Pass <==> |code| == length && AllDigits(code)
    ensures |code| != length ==> NumbersCheck(code, length) == Fail(WrongLength)
    ensures |code| == length && !AllDigits(code) ==>
      && NumbersCheck(code, length).Fail?
      && NumbersCheck(code, length).error.InvalidChar?
      && var j := NumbersCheck(code, length).error.index;
      && j < |code| && !IsDigit(code[j]) && AllDigits(code[..j])
  {
    DigitScanFindsFirst(code, 0);
    if |code| == length && !AllDigits(code) {
      var j := NumbersCheck(code, length).error.index;
      assert forall k | 0 <= k < j :: code[..j][k] == code[k];
    }
  }

  /** allNumbersWithLength (ean/validate.go:9-19): the loop with its early returns. */
  method AllNumbersWithLength(code: string, length: int) returns (err: Outcome<CodeError>)
    ensures err == NumbersCheck(code, length)
  {
    if |code| != length {
      return Fail(WrongLength);
    }
    var i := 0;
    while i < |code|
      invariant 0 <= i <= |code|
      invariant DigitScan(code, i) == DigitScan(code, 0)
    {
      if !('0' <= code[i] <= '9') {
        return Fail(InvalidChar(i));
      }
      i := i + 1;
    }
    return Pass;
  }

  /** checksumWeights (ean/validate.go:7), indexed by the 1-based position from the right, mod 2. */
  const ChecksumWeights: seq<nat> := [1, 3]

  /** `c2i`, which ean/validate.go uses but does not define: the character's offset from '0'. */
  function C2I(c: char): int {
    c as int - '0' as int
  }

  /** The weighted digit sum of `s`, whose last character sits at position i from the right. */
  function WeightedFromRight(s: string, i: nat): int {
    if s == [] then 0
    else C2I(s[|s| - 1]) * ChecksumWeights[i % 2] + WeightedFromRight(s[..|s| - 1], i + 1)
  }

  /** On digits the sum is a sum of digit values, so it is never negative. */
  lemma {:induction false} WeightedFromRightNonNegative(s: string, i: nat)
    requires AllDigits(s)
    ensures WeightedFromRight(s, i) >= 0
  {
    if s != [] {
      assert AllDigits(s[..|s| - 1]);
      WeightedFromRightNonNegative(s[..|s| - 1], i + 1);
    }
  }

  /** One step of the sum over a prefix: its last character, then the prefix one shorter. */
  lemma WeightedPrefix(s: string, k: nat, i: nat)
    requires 0 < k <= |s|
    ensures WeightedFromRight(s[..k], i) == C2I(s[k - 1]) * ChecksumWeights[i % 2] + WeightedFromRight(s[..k - 1], i + 1)
  {
    assert s[..k][..k - 1] == s[..k - 1];
  }

  /** The running checksum of computeChecksum before position i from the right is added. */
  function RunningChecksum(code: string, i: nat): (checksum: nat)
    requires 1 <= i <= |code| + 1
    ensures checksum < 10
  {
    if i == 1 then 0
    else (RunningChecksum(code, i - 1) + C2I(code[|code| - (i - 1)]) * ChecksumWeights[(i - 1) % 2]) % 10
  }

  /** The running checksum and the sum of the positions still to come agree, mod 10, with the
      whole weighted sum. */
  lemma {:induction false} RunningChecksumMeaning(code: string, i: nat)
    requires AllDigits(code) && 1 <= i <= |code| + 1
    ensures (RunningChecksum(code, i) + WeightedFromRight(code[..|code| - i + 1], i)) % 10 == WeightedFromRight(code, 1) % 10
  {
    var l := |code|;
    if i == 1 {
      assert code[..l] == code;
    } else {
      RunningChecksumMeaning(code, i - 1);
      ChecksumStep(code, i - 1, RunningChecksum(code, i - 1));
    }
  }

  /** One iteration of computeChecksum keeps the last digit of the running total. */
  lemma ChecksumStep(code: string, i: nat, checksum: nat)
    requires AllDigits(code) && 1 <= i <= |code|
    ensures var l := |code|;
      ((checksum + C2I(code[l - i]) * ChecksumWeights[i % 2]) % 10 + WeightedFromRight(code[..l - i], i + 1)) % 10
      == (checksum + WeightedFromRight(code[..l - i + 1], i)) % 10
  {
    var l := |code|;
    WeightedPrefix(code, l - i + 1, i);
    assert AllDigits(code[..l - i]);
    WeightedFromRightNonNegative(code[..l - i], i + 1);
    AddMod10(checksum + C2I(code[l - i]) * ChecksumWeights[i % 2], WeightedFromRight(code[..l - i], i + 1));
  }

  /** The check character of a digit string: the digit completing the weighted sum to a multiple of ten. */
  function ChecksumChar(code: string): (c: char)
    requires AllDigits(code)
    ensures IsDigit(c)
    ensures (WeightedFromRight(code, 1) + DigitValue(c)) % 10 == 0
  {
    WeightedFromRightNonNegative(code, 1);
    DigitChar((10 - WeightedFromRight(code, 1) % 10) % 10)
  }

  /** computeChecksum (ean/validate.go:21-29): the running sum is reduced mod 10 at every step.
      `c2i` is the digit value, so the code must consist of digits, as at both call sites. */
  method ComputeChecksum(code: string) returns (c: char)
    requires AllDigits(code)
    ensures c == ChecksumChar(code)
  {
    var l := |code|;
    var checksum: nat := 0;
    var i := 1;
    while i <= l
      invariant 1 <= i <= l + 1
      invariant checksum == RunningChecksum(code, i)
    {
      checksum := (checksum + C2I(code[l - i]) * ChecksumWeights[i % 2]) % 10;
      i := i + 1;
    }
    RunningChecksumMeaning(code, i);
    assert code[..l - i + 1] == [];
    c := DigitChar((10 - checksum) % 10);
  }

  /** validateEan13 (ean/validate.go:31-42): thirteen digits, the last one the check character
      of the first twelve. */
  function ValidateEan13(code: string): (r: Outcome<CodeError>)
    ensures r == Pass <==> |code| == 13 && AllDigits(code) && code[12] == ChecksumChar(code[..12])
    ensures NumbersCheck(code, 13).Fail? ==> r == NumbersCheck(code, 13)
    ensures r.Fail? && |code| == 13 && AllDigits(code) ==>
      r.error == ChecksumMismatch(ChecksumChar(code[..12]), code[12])
  {
    NumbersCheckMeaning(code, 13);
    match NumbersCheck(code, 13)
    case Fail(e) => Fail(e)
    case Pass =>
      var checksum := ChecksumChar(code[..12]);
      if checksum != code[12] then Fail(ChecksumMismatch(checksum, code[12])) else Pass
  }

  /** addChecksumEan13 (ean/validate.go:44-50): a malformed code comes back unchanged with the error. */
  function AddChecksumEan13(code: string): (r: (string, Outcome<CodeError>))
    ensures NumbersCheck(code, 12).Fail? ==> r == (code, NumbersCheck(code, 12))
    ensures NumbersCheck(code, 12) == Pass ==> r.1 == Pass && |r.0| == 13 && r.0[..12] == code
  {
    NumbersCheckMeaning(code, 12);
    match NumbersCheck(code, 12)
    case Fail(e) => (code, Fail(e))
    case Pass => (code + [ChecksumChar(code)], Pass)
  }

  /** Appending the check character to twelve digits yields a code validateEan13 accepts. */
  lemma AddChecksumValidates(code: string)
    requires |code| == 12 && AllDigits(code)
    ensures AddChecksumEan13(code).1 == Pass
    ensures ValidateEan13(AddChecksumEan13(code).0) == Pass
  {
    NumbersCheckMeaning(code, 12);
    var full := AddChecksumEan13(code).0;
    assert full == code + [ChecksumChar(code)];
    assert full[..12] == code;
  }

  /** Every valid code is its payload followed by the payload's check character, so
      addChecksumEan13 rebuilds it from its first twelve characters. */
  lemma ValidCodeRebuilt(code: string)
    requires ValidateEan13(code) == Pass
    ensures AddChecksumEan13(code[..12]) == (code, Pass)
  {
    NumbersCheckMeaning(code[..12], 12);
    assert code == code[..12] + [code[12]];
  }

  /** The weighted sum over the first six characters of the test payload. */
  lemma VectorFirstSix()
    ensures WeightedFromRight("012345678901"[..6], 7) == 33
  {
    var s := "012345678901";
    assert WeightedFromRight(s[..0], 13) == 0;
    WeightedPrefix(s, 1, 12);
    assert WeightedFromRight(s[..1], 12) == 0;
    WeightedPrefix(s, 2, 11);
    assert WeightedFromRight(s[..2], 11) == 3;
    WeightedPrefix(s, 3, 10);
    assert WeightedFromRight(s[..3], 10) == 5;
    WeightedPrefix(s, 4, 9);
    assert WeightedFromRight(s[..4], 9) == 14;
    WeightedPrefix(s, 5, 8);
    assert WeightedFromRight(s[..5], 8) == 18;
    WeightedPrefix(s, 6, 7);
    assert WeightedFromRight(s[..6], 7) == 33;
  }

  /** The weighted sum over the whole test payload. */
  lemma VectorSum()
    ensures WeightedFromRight("012345678901", 1) == 98
  {
    var s := "012345678901";
    VectorFirstSix();
    WeightedPrefix(s, 7, 6);
    assert WeightedFromRight(s[..7], 6) == 39;
    WeightedPrefix(s, 8, 5);
    assert WeightedFromRight(s[..8], 5) == 60;
    WeightedPrefix(s, 9, 4);
    assert WeightedFromRight(s[..9], 4) == 68;
    WeightedPrefix(s, 10, 3);
    assert WeightedFromRight(s[..10], 3) == 95;
    WeightedPrefix(s, 11, 2);
    assert WeightedFromRight(s[..11], 2) == 95;
    WeightedPrefix(s, 12, 1);
    assert WeightedFromRight(s[..12], 1) == 98;
    assert s[..12] == s;
  }

  /** "0123456789012" (ean/validate_test.go:8-15): its first twelve digits have check character '2'. */
  lemma ValidateVector()
    ensures AllDigits("012345678901") && ChecksumChar("012345678901") == '2'
    ensures ValidateEan13("0123456789012") == Pass
  {
    VectorSum();
    assert "0123456789012"[..12] == "012345678901";
  }
}
