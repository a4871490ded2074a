/** The code type of the ean sub-package (ean/ean.go): a validated thirteen-character string. */
module EanCode {
  import opened Wrappers
  import opened Decimal
  import opened EanValidate
  import opened EanEncode

  /** Ean13 (ean/ean.go:22-30): the code string itself. */
  datatype Ean13 = Ean13(code: string) {

    /** String (ean/ean.go:28-30). */
    function String(): string {
      code
    }

    /** Encode (ean/ean.go:24-26): the writes of encodeEan13 as it is written. */
    method Encode() returns (writes: seq<Write>)
      requires |code| == 13 && AllDigits(code)
      ensures writes == Placed(EncodedPieces(code))
    {
      writes := EncodeEan13(code);
    }
  }

  /** The final validateEan13 step of NewEan13. */
  function Validated(code: string): (r: Result<Ean13, CodeError>)
    ensures r.Success? <==> ValidateEan13(code) == Pass
    ensures r.Failure? ==> r.error == ValidateEan13(code).error
    ensures r.Success? ==> r.value.String() == code
  {
    match ValidateEan13(code)
    case Fail(e) => Failure(e)
    case Pass => Success(Ean13(code))
  }

  /** NewEan13 (ean/ean.go:7-20): a twelve-character code gets its check character appended;
      whatever results must then pass validateEan13. */
  function NewEan13(code: string): (r: Result<Ean13, CodeError>)
    ensures |code| == 12 ==> (r.Success? <==> AllDigits(code))
    ensures |code| == 12 && r.Success? ==> r.value.String() == code + [ChecksumChar(code)]
    ensures |code| != 12 ==> r == Validated(code)
    ensures |code| != 12 && |code| != 13 ==> r == Failure(WrongLength)
    ensures r.Success? ==> |r.value.String()| == 13 && ValidateEan13(r.value.String()) == Pass
  {
    NumbersCheckMeaning(code, 12);
    NumbersCheckMeaning(code, 13);
    if |code| == 12 then
      var (newCode, err) := AddChecksumEan13(code);
      if err.Fail? then Failure(err.error)
      else
        AddChecksumValidates(code);
        Validated(newCode)
    else Validated(code)
  }

  /** Building from the printed form of a built code gives the same code back. */
  lemma NewEan13Idempotent(code: string)
    requires NewEan13(code).Success?
    ensures NewEan13(NewEan13(code).value.String()) == NewEan13(code)
  {
  }

  /** A built code is its first twelve characters followed by their check character, so the
      twelve- and thirteen-character routes agree. */
  lemma NewEan13Routes(code: string)
    requires NewEan13(code).Success?
    ensures var s := NewEan13(code).value.String();
      NewEan13(s[..12]) == NewEan13(code)
  {
    var s := NewEan13(code).value.String();
    ValidCodeRebuilt(s);
    NumbersCheckMeaning(s[..12], 12);
  }

  /** ean/ean_test.go:8-19: "012345678901" completes to "0123456789012", which is accepted as is. */
  lemma NewEan13Vectors()
    ensures NewEan13("012345678901") == Success(Ean13("0123456789012"))
    ensures NewEan13("0123456789012") == Success(Ean13("0123456789012"))
  {
    ValidateVector();
    assert "012345678901" + ['2'] == "0123456789012";
  }
}
