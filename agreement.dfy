/** The two implementations in the repository compute the same check digit: ean.go weights the
    digits of a number {3, 1} from position 0 on the right, ean/validate.go weights the characters
    of a string {1, 3} from position 1 on the right. */
module Agreement {
  import opened Wrappers
  import opened Decimal
  import Barcode
  import EanValidate

  /** The string sum over a zero-padded decimal is the number sum, one position further right. */
  lemma {:induction false} FormatWeighted(n: nat, w: nat, i: nat)
    requires n < Pow10(w)
    ensures EanValidate.WeightedFromRight(Format(n, w), i + 1) == Barcode.WeightedSum(n, i)
    decreases w
  {
    if w == 0 {
      assert n == 0;
    } else {
      assert n / 10 < Pow10(w - 1);
      FormatWeighted(n / 10, w - 1, i + 1);
      var s := Format(n, w);
      assert s == Format(n / 10, w - 1) + [DigitChar(n % 10)];
      assert s[..|s| - 1] == Format(n / 10, w - 1);
      assert EanValidate.ChecksumWeights[(i + 1) % 2] == Barcode.ChecksumWeights[i % 2];
    }
  }

  /** computeChecksum of the twelve-digit zero-padded payload is the digit of computeEANChecksum. */
  lemma ChecksumsAgree(n: nat)
    requires n <= Barcode.MaxCode12
    ensures EanValidate.ChecksumChar(Format(n, 12)) == DigitChar(Barcode.CheckDigit(n))
  {
    Pow10Values();
    FormatWeighted(n, 12, 0);
  }

  /** For thirteen-character strings both packages accept the same codes: validateEan13 passes
      exactly when EAN13FromString13 succeeds, and then the value prints back as the string. */
  lemma ValidationAgrees(s: string)
    requires |s| == 13
    ensures EanValidate.ValidateEan13(s) == Pass <==> Barcode.EAN13FromString13(s).Success?
    ensures Barcode.EAN13FromString13(s).Success? ==> Barcode.EAN13FromString13(s).value.String() == s
  {
    if AllDigits(s) {
      var v := DecimalValue(s);
      var payload := s[..12];
      assert s == payload + [s[12]];
      assert AllDigits(payload);
      assert v == DecimalValue(payload) * 10 + DigitValue(s[12]);
      assert v / 10 == DecimalValue(payload) && v % 10 == DigitValue(s[12]);
      Pow10Values();
      FormatOfValue(payload);
      FormatOfValue(s);
      ChecksumsAgree(DecimalValue(payload));
      assert EanValidate.ChecksumChar(payload) == DigitChar(Barcode.CheckDigit(v / 10));
    }
  }
}
