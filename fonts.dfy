/** The two font measurers behind the converter (ean_render_pdf.go:14-32,
    ean_render_image.go:35-40) and the glyph-cell loop of the bitmap renderer's DrawDigit
    (ean_render_image.go:78-89). */
module Fonts {
  import opened GoInt
  import opened Geometry

  /** Helvetica metrics in font units (ean_render_pdf.go:14-25). */
  const PdfFontAscender: int := 718 + 100
  const PdfFontDescender: int := -207
  const PdfFontHeight: int := PdfFontAscender - PdfFontDescender
  const PdfDigitWidth: int := 556
  const PdfFontUnitScale: int := 1000
  const PdfCoordinateScale: int := 5

  /** measurePdfFont: truncating integer arithmetic, evaluated left to right. */
  function MeasurePdfFont(width: int): (int, int, int) {
    var fontSize := GoDiv(GoDiv(width * PdfFontUnitScale, PdfDigitWidth), PdfCoordinateScale);
    var fontWidth := GoDiv(PdfDigitWidth * fontSize * PdfCoordinateScale, PdfFontUnitScale);
    var fontHeight := GoDiv(PdfFontHeight * fontSize * PdfCoordinateScale, PdfFontUnitScale);
    (fontSize, fontWidth, fontHeight)
  }

  lemma PdfFontConstants()
    ensures PdfFontHeight == 1025
    ensures PdfFontHeight > PdfDigitWidth
  {
  }

  /** For a non-negative cell width the PDF glyph is never wider than the cell, so a PDF
      converter never reports that the font is too big; all three outputs are non-negative and
      the font is taller than it is wide. */
  lemma PdfFontFits(width: int)
    requires width >= 0
    ensures var (fontSize, fontWidth, fontHeight) := MeasurePdfFont(width);
      0 <= fontSize && 0 <= fontWidth <= width && fontWidth <= fontHeight
  {
    var (fontSize, fontWidth, fontHeight) := MeasurePdfFont(width);
    DivDiv(width * 1000, 556, 5);
    assert fontSize == (width * 1000) / 2780;
    assert fontSize * 2780 <= width * 1000;
    assert 556 * fontSize * 5 == fontSize * 2780;
    assert fontWidth == (fontSize * 2780) / 1000;
    assert fontWidth * 1000 <= fontSize * 2780;
    DivMonotoneNat(fontSize * 2780, 1025 * fontSize * 5, 1000);
  }

  /** Each output of measurePdfFont is monotone non-decreasing in the width. */
  lemma PdfFontMonotone(width: int, width': int)
    requires width <= width'
    ensures MeasurePdfFont(width).0 <= MeasurePdfFont(width').0
    ensures MeasurePdfFont(width).1 <= MeasurePdfFont(width').1
    ensures MeasurePdfFont(width).2 <= MeasurePdfFont(width').2
  {
    GoDivMonotone(width * 1000, width' * 1000, 556);
    var q, q' := GoDiv(width * 1000, 556), GoDiv(width' * 1000, 556);
    GoDivMonotone(q, q', 5);
    var s, s' := GoDiv(q, 5), GoDiv(q', 5);
    GoDivMonotone(556 * s * 5, 556 * s' * 5, 1000);
    GoDivMonotone(1025 * s * 5, 1025 * s' * 5, 1000);
  }

  /** measureBitmapFont with the glyph sheet's per-digit width `w` and height `h`. */
  function MeasureBitmapFont(w: int, h: int, width: int): (int, int, int)
    requires w != 0
  {
    var fontSize := GoDiv(width, w);
    (fontSize, w * fontSize, h * fontSize)
  }

  /** The bitmap font size is the largest whole magnification of the glyph that fits the cell,
      and the glyph box is the sheet glyph scaled by it. */
  lemma BitmapFontLargest(w: int, h: int, width: int)
    requires w > 0 && width >= 0
    ensures var (fontSize, fontWidth, fontHeight) := MeasureBitmapFont(w, h, width);
      && fontSize >= 0
      && fontSize * w <= width < (fontSize + 1) * w
      && fontWidth == w * fontSize <= width
      && fontHeight == h * fontSize
  {
    var fontSize := width / w;
    assert width == fontSize * w + width % w;
    assert (fontSize + 1) * w == fontSize * w + w;
  }

  /** One fill of the glyph-cell loop: a square and the sheet coordinates it takes its colour from. */
  datatype Fill = Fill(square: Rectangle, source: Point)

  /** The square of glyph pixel (i, j) magnified by `fontSize`, its top left at `origin`. */
  function Dot(origin: Point, i: int, j: int, fontSize: int): Rectangle {
    var topLeft := origin.Add(Pt(i * fontSize, j * fontSize));
    Rectangle(topLeft, topLeft.Add(Pt(fontSize, fontSize)))
  }

  /** The fill for glyph pixel (i, j). */
  function DotFill(w: int, digit: int, origin: Point, fontSize: int, i: int, j: int): Fill {
    Fill(Dot(origin, i, j, fontSize), Point(w * digit + i, j))
  }

  /** The fills of glyph column i, top to bottom. */
  function ColumnFills(w: int, h: nat, digit: int, origin: Point, fontSize: int, i: int): (col: seq<Fill>)
    ensures |col| == h
    ensures forall j | 0 <= j < h :: col[j] == DotFill(w, digit, origin, fontSize, i, j)
  {
    seq(h, j requires 0 <= j < h => DotFill(w, digit, origin, fontSize, i, j))
  }

  /** The fills of the first n glyph columns, column by column. */
  function GlyphFills(w: int, h: nat, digit: int, origin: Point, fontSize: int, n: nat): seq<Fill> {
    if n == 0 then [] else GlyphFills(w, h, digit, origin, fontSize, n - 1) + ColumnFills(w, h, digit, origin, fontSize, n - 1)
  }

  lemma {:induction false} GlyphFillsLength(w: int, h: nat, digit: int, origin: Point, fontSize: int, n: nat)
    ensures |GlyphFills(w, h, digit, origin, fontSize, n)| == n * h
  {
    if n > 0 {
      GlyphFillsLength(w, h, digit, origin, fontSize, n - 1);
      MulDistributes(n - 1, 1, h);
    }
  }

  /** Fill (i, j) is the (i*h + j)-th of the fills of the first n columns. */
  lemma {:induction false} GlyphFillAt(w: int, h: nat, digit: int, origin: Point, fontSize: int, n: nat, i: int, j: int)
    requires 0 <= i < n && 0 <= j < h
    ensures i * h + j < |GlyphFills(w, h, digit, origin, fontSize, n)|
    ensures GlyphFills(w, h, digit, origin, fontSize, n)[i * h + j] == DotFill(w, digit, origin, fontSize, i, j)
  {
    var prev := GlyphFills(w, h, digit, origin, fontSize, n - 1);
    GlyphFillsLength(w, h, digit, origin, fontSize, n - 1);
    GlyphFillsLength(w, h, digit, origin, fontSize, n);
    MulDistributes(i, 1, h);
    MulMonotone(i + 1, n, h);
    if i < n - 1 {
      MulMonotone(i + 1, n - 1, h);
      GlyphFillAt(w, h, digit, origin, fontSize, n - 1, i, j);
    } else {
      assert |prev| == i * h;
    }
  }

  /** One more fill of the column loop extends the fills so far by that fill. */
  lemma ColumnStep(w: int, h: nat, digit: int, origin: Point, fontSize: int, i: int, j: int, done: seq<Fill>)
    requires 0 <= j < h
    ensures done + ColumnFills(w, h, digit, origin, fontSize, i)[..j + 1] ==
      (done + ColumnFills(w, h, digit, origin, fontSize, i)[..j]) + [DotFill(w, digit, origin, fontSize, i, j)]
  {
    var col := ColumnFills(w, h, digit, origin, fontSize, i);
    assert col[..j + 1] == col[..j] + [col[j]];
  }

  /** All w*h fills of a glyph, indexed column by column. */
  lemma GlyphFillsIndexed(w: int, h: int, digit: int, origin: Point, fontSize: int)
    requires w > 0 && h > 0
    ensures |GlyphFills(w, h, digit, origin, fontSize, w)| == w * h
    ensures forall i, j | 0 <= i < w && 0 <= j < h ::
      i * h + j < w * h && GlyphFills(w, h, digit, origin, fontSize, w)[i * h + j] == DotFill(w, digit, origin, fontSize, i, j)
  {
    GlyphFillsLength(w, h, digit, origin, fontSize, w);
    forall i, j | 0 <= i < w && 0 <= j < h
      ensures i * h + j < w * h && GlyphFills(w, h, digit, origin, fontSize, w)[i * h + j] == DotFill(w, digit, origin, fontSize, i, j)
    {
      GlyphFillAt(w, h, digit, origin, fontSize, w, i, j);
    }
  }

  /** bitmapRenderer.DrawDigit: for every glyph column i, top to bottom, fill the magnified
      pixel with the colour of sheet pixel (w * digit + i, j). The sheet lookup is represented
      by the source point each fill is coloured from. */
  method BitmapDrawDigit(w: int, h: int, digit: int, rect: Rectangle, fontSize: int) returns (fills: seq<Fill>)
    ensures |fills| == if w > 0 && h > 0 then w * h else 0
    ensures forall i, j | 0 <= i < w && 0 <= j < h ::
      i * h + j < |fills| && fills[i * h + j] == DotFill(w, digit, rect.min, fontSize, i, j)
  {
    fills := [];
    if h <= 0 || w <= 0 {
      return;
    }
    var i := 0;
    while i < w
      invariant 0 <= i <= w
      invariant fills == GlyphFills(w, h, digit, rect.min, fontSize, i)
    {
      var j := 0;
      while j < h
        invariant 0 <= j <= h
        invariant fills == GlyphFills(w, h, digit, rect.min, fontSize, i) + ColumnFills(w, h, digit, rect.min, fontSize, i)[..j]
      {
        var dotTopLeft := rect.min.Add(Pt(i * fontSize, j * fontSize));
        var dotBottomRight := dotTopLeft.Add(Pt(fontSize, fontSize));
        ColumnStep(w, h, digit, rect.min, fontSize, i, j, GlyphFills(w, h, digit, rect.min, fontSize, i));
        fills := fills + [Fill(Rectangle(dotTopLeft, dotBottomRight), Point(w * digit + i, j))];
        j := j + 1;
      }
      assert ColumnFills(w, h, digit, rect.min, fontSize, i)[..h] == ColumnFills(w, h, digit, rect.min, fontSize, i);
      i := i + 1;
    }
    GlyphFillsIndexed(w, h, digit, rect.min, fontSize);
  }

  /** Every magnified pixel lies in the w*fontSize by h*fontSize glyph box at rect.min, the box
      translateFont returns for a bitmap font, and its colour comes from the digit's own band of
      columns [w * digit, w * (digit + 1)) of the sheet. */
  lemma DotsWithinGlyphBox(w: int, h: int, digit: int, origin: Point, fontSize: int, i: int, j: int)
    requires 0 <= i < w && 0 <= j < h && fontSize >= 0
    ensures var box := Rectangle(origin, origin.Add(Pt(w * fontSize, h * fontSize)));
      Within(Dot(origin, i, j, fontSize), box)
    ensures w * digit <= w * digit + i < w * (digit + 1)
  {
    assert (i + 1) * fontSize <= w * fontSize;
    assert (j + 1) * fontSize <= h * fontSize;
    assert i * fontSize >= 0 && j * fontSize >= 0;
  }
}
