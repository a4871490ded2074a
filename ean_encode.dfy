/** The image encoder of the ean sub-package (ean/encode.go): the symbol is tiled left to right
    out of column ranges of five glyph images, through a writer whose x offset advances in place.
    The pixels are not modelled: a write records which image it copies from, the source column,
    and the destination columns. */
module EanEncode {
  import opened Decimal
  import opened Symbology

  /** kEan13WeigthPx and kEan13HeightPx (ean/encode.go:10-13): 102 by 70 pixels. */
  const Ean13WidthPx: int := 13 * 7 + 5 + 3 * 2
  const Ean13HeightPx: int := 70

  /** lg (ean/encode.go:15-20): the L/G parity pattern of the left half, by leading digit. */
  const LG: seq<string> := [
    "LLLLLL", "LLGLGG", "LLGGLG", "LLGGGL", "LGLLGG",
    "LGGLLG", "LGGGLL", "LGLGLG", "LGLGGL", "LGGLGL"
  ]

  /** The images l, g, r, blank and special (ean/encode.go:22-24); their pixels are not modelled. */
  datatype Source = LImage | GImage | RImage | Blank | Special

  /** numBarType and specBarType (ean/encode.go:60-74). */
  datatype NumBarType = SpaceBar | LBar | GBar | RBar
  datatype SpecBarType = BoundBar | MidBar

  /** One draw.Draw of writeImage: destination columns [dstX, dstX + width), all rows, copied
      from `source` starting at column srcX. */
  datatype Write = Write(source: Source, srcX: int, dstX: int, width: int)

  /** What one writer call copies, before the writer decides where it lands. */
  datatype Piece = Piece(source: Source, srcX: int, width: int)

  /** WriteNumber's pattern switch (ean/encode.go:84-98). */
  function NumberSource(t: NumBarType): Source {
    match t
    case SpaceBar => Blank
    case LBar => LImage
    case GBar => GImage
    case RBar => RImage
  }

  /** WriteNumber reads the digit's seven columns; WriteSpecial a fixed span of the special image. */
  function NumberPiece(t: NumBarType, num: int): (p: Piece)
    ensures p.source == NumberSource(t) && p.srcX == num * 7 && p.width == 7
  {
    Piece(NumberSource(t), num * 7, 7)
  }

  function SpecialPiece(t: SpecBarType): (p: Piece)
    ensures p.source == Special
    ensures t == BoundBar ==> p.srcX == 0 && p.width == 3
    ensures t == MidBar ==> p.srcX == 4 && p.width == 5
  {
    match t
    case BoundBar => Piece(Special, 0, 3)
    case MidBar => Piece(Special, 4, 5)
  }

  /** The total width of a run of pieces. */
  function TotalWidth(ps: seq<Piece>): int {
    if ps == [] then 0 else TotalWidth(ps[..|ps| - 1]) + ps[|ps| - 1].width
  }

  /** A run of pieces written one after the other from column 0. */
  function Placed(ps: seq<Piece>): seq<Write> {
    if ps == [] then []
    else
      var last := ps[|ps| - 1];
      Placed(ps[..|ps| - 1]) + [Write(last.source, last.srcX, TotalWidth(ps[..|ps| - 1]), last.width)]
  }

  /** Placing pieces writes each one, in order, immediately to the right of the one before. */
  lemma {:induction false} PlacedTiles(ps: seq<Piece>)
    ensures |Placed(ps)| == |ps|
    ensures forall k | 0 <= k < |ps| ::
      Placed(ps)[k].source == ps[k].source && Placed(ps)[k].srcX == ps[k].srcX &&
      Placed(ps)[k].width == ps[k].width
    ensures |ps| > 0 ==> Placed(ps)[0].dstX == 0
    ensures forall k | 0 <= k < |ps| - 1 :: Placed(ps)[k + 1].dstX == Placed(ps)[k].dstX + Placed(ps)[k].width
    ensures |ps| > 0 ==> Placed(ps)[|ps| - 1].dstX + Placed(ps)[|ps| - 1].width == TotalWidth(ps)
  {
    if ps != [] {
      var init := ps[..|ps| - 1];
      PlacedTiles(init);
      assert forall k | 0 <= k < |init| :: init[k] == ps[k];
      if init != [] {
        assert Placed(ps)[|init| - 1] == Placed(init)[|init| - 1];
      }
    }
  }

  lemma PlacedAppend(ps: seq<Piece>, p: Piece)
    ensures TotalWidth(ps + [p]) == TotalWidth(ps) + p.width
    ensures Placed(ps + [p]) == Placed(ps) + [Write(p.source, p.srcX, TotalWidth(ps), p.width)]
  {
    assert (ps + [p])[..|ps|] == ps;
  }

  /** imageWriter (ean/encode.go:47-82) without the destination pixels. */
  class ImageWriter {
    var xOffset: int
    var writes: seq<Write>

    /** newImageWriter (ean/encode.go:52-58). */
    constructor()
      ensures xOffset == 0 && writes == []
    {
      xOffset := 0;
      writes := [];
    }

    /** writeImage (ean/encode.go:76-82): copy at the current offset, then advance it by the width. */
    method WriteImage(img: Source, x: int, width: int)
      modifies this
      ensures writes == old(writes) + [Write(img, x, old(xOffset), width)]
      ensures xOffset == old(xOffset) + width
    {
      writes := writes + [Write(img, x, xOffset, width)];
      xOffset := xOffset + width;
    }

    /** WriteNumber (ean/encode.go:84-99). */
    method WriteNumber(t: NumBarType, num: int)
      modifies this
      ensures writes == old(writes) + [Write(NumberSource(t), num * 7, old(xOffset), 7)]
      ensures xOffset == old(xOffset) + 7
    {
      var pattern;
      match t {
        case SpaceBar => pattern := Blank;
        case LBar => pattern := LImage;
        case GBar => pattern := GImage;
        case RBar => pattern := RImage;
      }
      WriteImage(pattern, num * 7, 7);
    }

    /** WriteSpecial (ean/encode.go:101-110). */
    method WriteSpecial(t: SpecBarType)
      modifies this
      ensures writes == old(writes) + [Write(Special, SpecialPiece(t).srcX, old(xOffset), SpecialPiece(t).width)]
      ensures xOffset == old(xOffset) + SpecialPiece(t).width
    {
      var x, width;
      match t {
        case BoundBar => x, width := 0, 3;
        case MidBar => x, width := 4, 5;
      }
      WriteImage(Special, x, width);
    }
  }

  /** The first k digits of the left half: lg says L or G; a G digit is written with gType. */
  function LeftPieces(code: string, pattern: string, gType: NumBarType, k: nat): (ps: seq<Piece>)
    requires |code| == 13 && AllDigits(code) && |pattern| == 6 && k <= 6
    ensures |ps| == k
  {
    if k == 0 then []
    else
      var t := if pattern[k - 1] == 'L' then LBar else gType;
      LeftPieces(code, pattern, gType, k - 1) + [NumberPiece(t, DigitValue(code[k]))]
  }

  /** The first k digits of the right half, all written with rBar. */
  function RightPieces(code: string, k: nat): (ps: seq<Piece>)
    requires |code| == 13 && AllDigits(code) && k <= 6
    ensures |ps| == k
  {
    if k == 0 then [] else RightPieces(code, k - 1) + [NumberPiece(RBar, DigitValue(code[6 + k]))]
  }

  /** The sixteen pieces of a thirteen-digit code, when G digits are written with gType. */
  function CodePieces(code: string, gType: NumBarType): seq<Piece>
    requires |code| == 13 && AllDigits(code)
  {
    var n := DigitValue(code[0]);
    [NumberPiece(SpaceBar, n), SpecialPiece(BoundBar)]
      + LeftPieces(code, LG[n], gType, 6)
      + [SpecialPiece(MidBar)]
      + RightPieces(code, 6)
      + [SpecialPiece(BoundBar)]
  }

  /** What encodeEan13 (ean/encode.go:116-137) writes as written: rBar for G digits. */
  function EncodedPieces(code: string): seq<Piece>
    requires |code| == 13 && AllDigits(code)
  {
    CodePieces(code, RBar)
  }

  /** What encodeEan13 evidently means to write: gBar (number set B) for G digits. */
  function StandardPieces(code: string): seq<Piece>
    requires |code| == 13 && AllDigits(code)
  {
    CodePieces(code, GBar)
  }

  lemma LGShape()
    ensures |LG| == 10
    ensures forall n | 0 <= n < 10 :: |LG[n]| == 6
  {
  }

  /** One more left digit: its seven columns are written right after the pieces so far. */
  lemma LeftPiecesStep(code: string, pattern: string, gType: NumBarType, done: seq<Piece>, i: nat, t: NumBarType, n: int)
    requires |code| == 13 && AllDigits(code) && |pattern| == 6 && i < 6
    requires t == (if pattern[i] == 'L' then LBar else gType) && n == code[1 + i] as int - '0' as int
    ensures var before := done + LeftPieces(code, pattern, gType, i);
      && Placed(done + LeftPieces(code, pattern, gType, i + 1)) == Placed(before) + [Write(NumberSource(t), n * 7, TotalWidth(before), 7)]
      && TotalWidth(done + LeftPieces(code, pattern, gType, i + 1)) == TotalWidth(before) + 7
  {
    var before := done + LeftPieces(code, pattern, gType, i);
    assert done + LeftPieces(code, pattern, gType, i + 1) == before + [NumberPiece(t, n)];
    PlacedAppend(before, NumberPiece(t, n));
  }

  /** One more right digit: its seven columns are written right after the pieces so far. */
  lemma RightPiecesStep(code: string, done: seq<Piece>, i: nat, n: int)
    requires |code| == 13 && AllDigits(code) && i < 6
    requires n == code[7 + i] as int - '0' as int
    ensures var before := done + RightPieces(code, i);
      && Placed(done + RightPieces(code, i + 1)) == Placed(before) + [Write(NumberSource(RBar), n * 7, TotalWidth(before), 7)]
      && TotalWidth(done + RightPieces(code, i + 1)) == TotalWidth(before) + 7
  {
    var before := done + RightPieces(code, i);
    assert done + RightPieces(code, i + 1) == before + [NumberPiece(RBar, n)];
    PlacedAppend(before, NumberPiece(RBar, n));
  }

  /** The left-half loop (ean/encode.go:122-129), from the first digit on. */
  method WriteLeftHalf(code: string, pattern: string, gType: NumBarType, w: ImageWriter, ghost done: seq<Piece>)
    requires |code| == 13 && AllDigits(code) && |pattern| == 6
    requires w.writes == Placed(done) && w.xOffset == TotalWidth(done)
    modifies w
    ensures w.writes == Placed(done + LeftPieces(code, pattern, gType, 6))
    ensures w.xOffset == TotalWidth(done + LeftPieces(code, pattern, gType, 6))
  {
    assert done + LeftPieces(code, pattern, gType, 0) == done;
    for i := 0 to 6
      invariant w.writes == Placed(done + LeftPieces(code, pattern, gType, i))
      invariant w.xOffset == TotalWidth(done + LeftPieces(code, pattern, gType, i))
    {
      var n := code[1 + i] as int - '0' as int;
      // the source's two WriteNumber calls, one per branch on the pattern letter, as one call
      var t := if pattern[i] == 'L' then LBar else gType;
      LeftPiecesStep(code, pattern, gType, done, i, t, n);
      w.WriteNumber(t, n);
    }
  }

  /** The right-half loop (ean/encode.go:131-134). */
  method WriteRightHalf(code: string, w: ImageWriter, ghost done: seq<Piece>)
    requires |code| == 13 && AllDigits(code)
    requires w.writes == Placed(done) && w.xOffset == TotalWidth(done)
    modifies w
    ensures w.writes == Placed(done + RightPieces(code, 6))
    ensures w.xOffset == TotalWidth(done + RightPieces(code, 6))
  {
    assert done + RightPieces(code, 0) == done;
    for i := 0 to 6
      invariant w.writes == Placed(done + RightPieces(code, i))
      invariant w.xOffset == TotalWidth(done + RightPieces(code, i))
    {
      var n := code[7 + i] as int - '0' as int;
      RightPiecesStep(code, done, i, n);
      w.WriteNumber(RBar, n);
    }
  }

  /** encodeEan13 (ean/encode.go:116-137), with G digits written with gType. */
  method EncodeWith(code: string, gType: NumBarType) returns (writes: seq<Write>)
    requires |code| == 13 && AllDigits(code)
    ensures writes == Placed(CodePieces(code, gType))
  {
    var w := new ImageWriter();
    var n := code[0] as int - '0' as int;
    LGShape();
    var pattern := LG[n];
    ghost var e: seq<Piece> := [];
    w.WriteNumber(SpaceBar, n);
    PlacedAppend(e, NumberPiece(SpaceBar, n));
    w.WriteSpecial(BoundBar);
    PlacedAppend([NumberPiece(SpaceBar, n)], SpecialPiece(BoundBar));
    ghost var head := [NumberPiece(SpaceBar, n), SpecialPiece(BoundBar)];
    assert [] + [NumberPiece(SpaceBar, n)] + [SpecialPiece(BoundBar)] == head;
    WriteLeftHalf(code, pattern, gType, w, head);
    ghost var left := head + LeftPieces(code, pattern, gType, 6);
    w.WriteSpecial(MidBar);
    PlacedAppend(left, SpecialPiece(MidBar));
    ghost var mid := left + [SpecialPiece(MidBar)];
    WriteRightHalf(code, w, mid);
    ghost var right := mid + RightPieces(code, 6);
    w.WriteSpecial(BoundBar);
    PlacedAppend(right, SpecialPiece(BoundBar));
    writes := w.writes;
  }

  /** encodeEan13 as written. */
  method EncodeEan13(code: string) returns (writes: seq<Write>)
    requires |code| == 13 && AllDigits(code)
    ensures writes == Placed(EncodedPieces(code))
  {
    writes := EncodeWith(code, RBar);
  }

  /** encodeEan13 with gBar for the G digits, as the lg table intends. */
  method EncodeEan13Standard(code: string) returns (writes: seq<Write>)
    requires |code| == 13 && AllDigits(code)
    ensures writes == Placed(StandardPieces(code))
  {
    writes := EncodeWith(code, GBar);
  }

  /** The sixteen writes of encodeEan13 in order: blank first digit, boundBar, six left digits
      (lBar for L, gType for G), midBar, six rBar digits, boundBar. */
  lemma {:induction false} CodePiecesShape(code: string, gType: NumBarType)
    requires |code| == 13 && AllDigits(code)
    ensures var ps := CodePieces(code, gType);
      var n := DigitValue(code[0]);
      && |ps| == 16
      && ps[0] == NumberPiece(SpaceBar, n)
      && ps[1] == SpecialPiece(BoundBar)
      && (forall k | 2 <= k < 8 ::
            ps[k] == NumberPiece(if LG[n][k - 2] == 'L' then LBar else gType, DigitValue(code[k - 1])))
      && ps[8] == SpecialPiece(MidBar)
      && (forall k | 9 <= k < 15 :: ps[k] == NumberPiece(RBar, DigitValue(code[k - 2])))
      && ps[15] == SpecialPiece(BoundBar)
  {
    var n := DigitValue(code[0]);
    LGShape();
    var left, right := LeftPieces(code, LG[n], gType, 6), RightPieces(code, 6);
    LeftPiecesAt(code, LG[n], gType, 6);
    RightPiecesAt(code, 6);
    var ps := CodePieces(code, gType);
    assert ps == [ps[0], ps[1]] + left + [ps[8]] + right + [ps[15]];
    forall k | 2 <= k < 8
      ensures ps[k] == left[k - 2]
    {
    }
    forall k | 9 <= k < 15
      ensures ps[k] == right[k - 9]
    {
    }
  }

  lemma {:induction false} LeftPiecesAt(code: string, pattern: string, gType: NumBarType, k: nat)
    requires |code| == 13 && AllDigits(code) && |pattern| == 6 && k <= 6
    ensures forall j | 0 <= j < k :: (LeftPieces(code, pattern, gType, k)[j] ==
      NumberPiece(if pattern[j] == 'L' then LBar else gType, DigitValue(code[1 + j])))
  {
    if k > 0 {
      LeftPiecesAt(code, pattern, gType, k - 1);
    }
  }

  lemma {:induction false} RightPiecesAt(code: string, k: nat)
    requires |code| == 13 && AllDigits(code) && k <= 6
    ensures forall j | 0 <= j < k :: RightPieces(code, k)[j] == NumberPiece(RBar, DigitValue(code[7 + j]))
  {
    if k > 0 {
      RightPiecesAt(code, k - 1);
    }
  }

  /** Sixteen pieces of total width 7 + 3 + 6 * 7 + 5 + 6 * 7 + 3 = 102. */
  lemma CodePiecesWidth(code: string, gType: NumBarType)
    requires |code| == 13 && AllDigits(code)
    ensures TotalWidth(CodePieces(code, gType)) == Ean13WidthPx == 102
  {
    var n := DigitValue(code[0]);
    LGShape();
    var head := [NumberPiece(SpaceBar, n), SpecialPiece(BoundBar)];
    var left, right := LeftPieces(code, LG[n], gType, 6), RightPieces(code, 6);
    assert [head[0]][..0] == [];
    assert TotalWidth([head[0]]) == 7;
    assert head[..1] == [head[0]];
    assert TotalWidth(head) == 10;
    LeftPiecesWidth(code, LG[n], gType, 6);
    RightPiecesWidth(code, 6);
    TotalWidthConcat(head, left);
    PlacedAppend(head + left, SpecialPiece(MidBar));
    TotalWidthConcat(head + left + [SpecialPiece(MidBar)], right);
    PlacedAppend(head + left + [SpecialPiece(MidBar)] + right, SpecialPiece(BoundBar));
    assert CodePieces(code, gType) == head + left + [SpecialPiece(MidBar)] + right + [SpecialPiece(BoundBar)];
  }

  /** The width of a concatenation is the sum of the widths. */
  lemma {:induction false} TotalWidthConcat(ps: seq<Piece>, qs: seq<Piece>)
    ensures TotalWidth(ps + qs) == TotalWidth(ps) + TotalWidth(qs)
    decreases |qs|
  {
    if qs == [] {
      assert ps + qs == ps;
    } else {
      var init := qs[..|qs| - 1];
      TotalWidthConcat(ps, init);
      assert (ps + qs)[..|ps + qs| - 1] == ps + init;
      assert (ps + qs)[|ps + qs| - 1] == qs[|qs| - 1];
    }
  }

  /** Every digit of a half is seven pixels wide. */
  lemma {:induction false} LeftPiecesWidth(code: string, pattern: string, gType: NumBarType, k: nat)
    requires |code| == 13 && AllDigits(code) && |pattern| == 6 && k <= 6
    ensures TotalWidth(LeftPieces(code, pattern, gType, k)) == 7 * k
  {
    if k > 0 {
      LeftPiecesWidth(code, pattern, gType, k - 1);
      var ps := LeftPieces(code, pattern, gType, k);
      assert ps[..k - 1] == LeftPieces(code, pattern, gType, k - 1);
    }
  }

  lemma {:induction false} RightPiecesWidth(code: string, k: nat)
    requires |code| == 13 && AllDigits(code) && k <= 6
    ensures TotalWidth(RightPieces(code, k)) == 7 * k
  {
    if k > 0 {
      RightPiecesWidth(code, k - 1);
      var ps := RightPieces(code, k);
      assert ps[..k - 1] == RightPieces(code, k - 1);
    }
  }

  /** encodeEan13 tiles the whole 102-pixel row: sixteen writes, the first at column 0, each one
      starting where the previous ends, the last ending at kEan13WeigthPx. */
  lemma EncodedWritesTile(code: string)
    requires |code| == 13 && AllDigits(code)
    ensures var ws := Placed(EncodedPieces(code));
      && |ws| == 16
      && ws[0].dstX == 0
      && (forall k | 0 <= k < 15 :: ws[k + 1].dstX == ws[k].dstX + ws[k].width)
      && ws[15].dstX + ws[15].width == Ean13WidthPx
  {
    CodePiecesShape(code, RBar);
    CodePiecesWidth(code, RBar);
    PlacedTiles(EncodedPieces(code));
  }

  /** As written, the g image is never read. */
  lemma EncodedNeverReadsG(code: string)
    requires |code| == 13 && AllDigits(code)
    ensures forall k | 0 <= k < |EncodedPieces(code)| :: EncodedPieces(code)[k].source != GImage
  {
    CodePiecesShape(code, RBar);
  }

  /** lg agrees with dispatchTable (ean_render.go:44-55) entry for entry: L is 0 and G is 1. */
  lemma LGMatchesDispatchTable()
    ensures forall n, k | 0 <= n < 10 && 0 <= k < 6 ::
      (LG[n][k] == 'L' || LG[n][k] == 'G') && (LG[n][k] == 'G' <==> DispatchTable[n][k] == 1)
    ensures forall n | 0 <= n < 10 :: LG[n][0] == 'L'
  {
    forall n, k | 0 <= n < 10 && 0 <= k < 6
      ensures (LG[n][k] == 'L' || LG[n][k] == 'G') && (LG[n][k] == 'G' <==> DispatchTable[n][k] == 1)
    {
      if n < 5 {
        assert LG[n] == ["LLLLLL", "LLGLGG", "LLGGLG", "LLGGGL", "LGLLGG"][n];
      } else {
        assert LG[n] == ["LGGLLG", "LGGGLL", "LGLGLG", "LGLGGL", "LGGLGL"][n - 5];
      }
    }
  }

  /** The corrected encoder reads each left digit from the image its parity in dispatchTable
      names: the l image for L (0) and the g image for G (1), like renderCode13. */
  lemma StandardFollowsDispatchTable(code: string)
    requires |code| == 13 && AllDigits(code)
    ensures var ps := StandardPieces(code);
      var n := DigitValue(code[0]);
      forall k | 2 <= k < 8 ::
        && ps[k].source == (if DispatchTable[n][k - 2] == 0 then LImage else GImage)
        && ps[k].srcX == 7 * DigitValue(code[k - 1])
  {
    CodePiecesShape(code, GBar);
    LGMatchesDispatchTable();
    DispatchTableShape();
    var n := DigitValue(code[0]);
    forall k | 2 <= k < 8
      ensures StandardPieces(code)[k].source == (if DispatchTable[n][k - 2] == 0 then LImage else GImage)
    {
      assert DispatchTable[n][k - 2] in {0, 1};
    }
  }

  /** "1000000000009" has leading digit 1, whose third left digit has parity G, so the encoder as
      written copies that digit from the r image where the g image is meant. */
  lemma GParityCounterexample()
    ensures AllDigits("1000000000009") && |"1000000000009"| == 13
    ensures EncodedPieces("1000000000009")[4].source == RImage
    ensures StandardPieces("1000000000009")[4].source == GImage
    ensures DispatchTable[1][2] == 1
  {
    var code := "1000000000009";
    assert AllDigits(code);
    assert DigitValue(code[0]) == 1 && LG[1] == "LLGLGG";
    CodePiecesShape(code, RBar);
    CodePiecesShape(code, GBar);
  }
}
