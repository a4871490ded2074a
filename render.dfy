/** EAN13.RenderImage and EAN13.RenderPdf (ean.go:32-48): build a renderer, whose construction
    may fail, and only then run renderCode13 on it. Both renderers are the recording
    Layout.Recorder; what differs is the rectangle and the font measurer handed to the converter. */
module Rendering {
  import opened Wrappers
  import opened Geometry
  import opened Errors
  import opened Decimal
  import opened Converter
  import opened Fonts
  import opened Symbology
  import opened Layout
  import opened Barcode

  /** Build the converter and, if that succeeds, record renderCode13 on a fresh renderer.
      On failure the error is returned and nothing is drawn. */
  method RenderWith(e: EAN13, inner: Rectangle, fm: FontMeasurer) returns (err: Outcome<BarcodeError>, log: seq<Event>)
    ensures NewConverter(inner, fm).Failure? ==> err == Fail(NewConverter(inner, fm).error) && log == []
    ensures NewConverter(inner, fm).Success? ==>
      err == Pass && log == RenderEvents(NewConverter(inner, fm).value, e.code13)
  {
    var conv := NewConverter(inner, fm);
    if conv.Failure? {
      return Fail(conv.error), [];
    }
    var r := new Recorder(conv.value);
    RenderCode13(e.code13, r);
    return Pass, r.log;
  }

  /** measureBitmapFont over a glyph sheet whose digit glyphs are w by h pixels. */
  function BitmapMeasurer(w: int, h: int): (fm: FontMeasurer)
    requires w != 0
    ensures forall width :: fm(width) == MeasureBitmapFont(w, h, width)
  {
    width => MeasureBitmapFont(w, h, width)
  }

  /** newBitmapRenderer (ean_render_image.go:48-53): the bound shrunk by the padding on all four
      sides and put in canonical form. `bound` is the caller's rectangle already clipped to the image. */
  function BitmapInner(bound: Rectangle, padding: int): (inner: Rectangle)
    ensures inner.Dx() >= 0 && inner.Dy() >= 0
    ensures bound.Dx() >= 2 * padding && bound.Dy() >= 2 * padding ==>
      inner.min == Point(bound.min.x + padding, bound.min.y + padding) &&
      inner.max == Point(bound.max.x - padding, bound.max.y - padding)
  {
    Rect(bound.min.x + padding, bound.min.y + padding, bound.max.x - padding, bound.max.y - padding)
  }

  /** RenderImage (ean.go:32-39) with a glyph sheet of w by h pixels per digit. */
  method RenderImage(e: EAN13, bound: Rectangle, padding: int, w: int, h: int)
    returns (err: Outcome<BarcodeError>, log: seq<Event>)
    requires w != 0
    ensures var conv := NewConverter(BitmapInner(bound, padding), BitmapMeasurer(w, h));
      && (conv.Failure? ==> err == Fail(conv.error) && log == [])
      && (conv.Success? ==> err == Pass && log == RenderEvents(conv.value, e.code13))
  {
    err, log := RenderWith(e, BitmapInner(bound, padding), BitmapMeasurer(w, h));
  }

  /** newPdfRenderer (ean_render_pdf.go:34-40): the page rectangle of dx by dy units, less the
      padding, in the fivefold coordinate scale. */
  function PdfInner(dx: int, dy: int, padding: int): (inner: Rectangle)
    ensures inner.Dx() >= 0 && inner.Dy() >= 0
    ensures dx >= 2 * padding ==> inner.Dx() == (dx - 2 * padding) * PdfCoordinateScale
    ensures dy >= 2 * padding ==> inner.Dy() == (dy - 2 * padding) * PdfCoordinateScale
  {
    Rect(padding * PdfCoordinateScale, padding * PdfCoordinateScale,
         (dx - padding) * PdfCoordinateScale, (dy - padding) * PdfCoordinateScale)
  }

  /** RenderPdf (ean.go:41-48) on a page rectangle of dx by dy units. */
  method RenderPdf(e: EAN13, dx: int, dy: int, padding: int) returns (err: Outcome<BarcodeError>, log: seq<Event>)
    ensures var conv := NewConverter(PdfInner(dx, dy, padding), MeasurePdfFont);
      && (conv.Failure? ==> err == Fail(conv.error) && log == [])
      && (conv.Success? ==> err == Pass && log == RenderEvents(conv.value, e.code13))
  {
    err, log := RenderWith(e, PdfInner(dx, dy, padding), MeasurePdfFont);
  }

  /** The Helvetica measurer never reports a glyph wider than the digit cell it is asked about,
      so a PDF converter fails only for lack of area. */
  lemma PdfNeverFontTooBig(inner: Rectangle)
    ensures NewConverter(inner, MeasurePdfFont) != Failure(FontTooBig)
    ensures NewConverter(inner, MeasurePdfFont).Failure? ==> NewConverter(inner, MeasurePdfFont) == Failure(AreaTooSmall)
  {
    var scale := ScaleOf(inner);
    if scale > 0 {
      PdfFontFits(DigitBarSize * scale);
    }
  }

  /** A PDF converter built from a non-negative measurement is valid, so everything drawn lies
      within its bound (Layout.RenderGeometry). */
  lemma PdfConverterValid(inner: Rectangle)
    requires NewConverter(inner, MeasurePdfFont).Success?
    ensures Valid(NewConverter(inner, MeasurePdfFont).value)
  {
    PdfFontFits(DigitBarSize * ScaleOf(inner));
    NewConverterValid(inner, MeasurePdfFont);
  }

  /** With a glyph sheet of positive size every successful bitmap converter is valid. */
  lemma BitmapConverterValid(inner: Rectangle, w: int, h: int)
    requires w > 0 && h >= 0
    requires NewConverter(inner, BitmapMeasurer(w, h)).Success?
    ensures Valid(NewConverter(inner, BitmapMeasurer(w, h)).value)
  {
    BitmapFontLargest(w, h, DigitBarSize * ScaleOf(inner));
    NewConverterValid(inner, BitmapMeasurer(w, h));
  }

  /** The thirteen DrawDigit calls of a rendering spell the value's String(), left to right. */
  lemma DrawnDigitsSpellString(c: Converter, e: EAN13)
    requires e.Valid()
    ensures var evs := RenderEvents(c, e.code13);
      |evs| == 45 &&
      var drawn := DigitEvents(evs[1..44]);
      && |drawn| == 13 && |e.String()| == 13
      && forall i | 0 <= i < 13 :: 0 <= drawn[i] < 10 && DigitChar(drawn[i]) == e.String()[i]
  {
    RenderShape(c, e.code13);
    Pow10Values();
    FormatFixedWidth(e.code13, 13);
  }
}
