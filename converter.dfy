/** eanCoordinateConverter (ean_render.go:70-128): maps the 109-module logical layout onto a
    target rectangle with an integer scale, a horizontal margin and a font box. */
module Converter {
  import opened Wrappers
  import opened GoInt
  import opened Geometry
  import opened Errors
  import opened Symbology

  /** fontMeasurer: given the width of one digit cell, the font size and the glyph box. */
  type FontMeasurer = int -> (int, int, int)

  datatype Converter = Converter(bound: Rectangle, fontDim: Rectangle, scale: int, fontSize: int)

  const RightMargin: int := DigitBarSize

  /** 13 digit cells, three guards and the right margin: 13*7 + 3 + 3 + 5 + 7 = 109 modules. */
  const LogicalWidth: int := 13 * DigitBarSize + StartMarkerSize + EndMarkerSize + CenterMarkerSize + RightMargin

  /** The x extent of the drawn symbol: the last bar ends at module 102. */
  const SymbolWidth: int := LogicalWidth - RightMargin

  /** The scale candidate: Go's truncating outerBound.Dx() / logicalWidth. */
  function ScaleOf(outer: Rectangle): int {
    GoDiv(outer.Dx(), LogicalWidth)
  }

  /** newEanCoordinateConverter (ean_render.go:83-107). The checks run in this order:
      area too narrow for one pixel per module, font wider than a digit cell, area lower than
      two font heights. */
  function NewConverter(outer: Rectangle, fm: FontMeasurer): (r: Result<Converter, BarcodeError>)
    ensures ScaleOf(outer) <= 0 ==> r == Failure(AreaTooSmall)
    ensures ScaleOf(outer) > 0 && DigitBarSize * ScaleOf(outer) < fm(DigitBarSize * ScaleOf(outer)).1 ==>
      r == Failure(FontTooBig)
    ensures (ScaleOf(outer) > 0 && fm(DigitBarSize * ScaleOf(outer)).1 <= DigitBarSize * ScaleOf(outer) &&
             outer.Dy() < 2 * fm(DigitBarSize * ScaleOf(outer)).2) ==> r == Failure(AreaTooSmall)
    ensures r.Success? <==>
      ScaleOf(outer) > 0 && fm(DigitBarSize * ScaleOf(outer)).1 <= DigitBarSize * ScaleOf(outer) &&
      outer.Dy() >= 2 * fm(DigitBarSize * ScaleOf(outer)).2
    ensures r.Success? ==>
      var (fSize, fWidth, fHeight) := fm(DigitBarSize * ScaleOf(outer));
      var margin := (outer.Dx() % LogicalWidth) / 2;
      && r.value.scale == ScaleOf(outer) == outer.Dx() / LogicalWidth
      && r.value.bound == Rectangle(Point(outer.min.x + margin, outer.min.y), Point(outer.max.x - margin, outer.max.y))
      && r.value.fontDim == Rect(0, 0, fWidth, fHeight)
      && r.value.fontSize == fSize
  {
    var scale := GoDiv(outer.Dx(), LogicalWidth);
    if scale <= 0 then Failure(AreaTooSmall)
    else
      // Dx() >= 109 here, so Go's truncating % and / agree with Dafny's.
      var xMargin := (outer.Dx() % LogicalWidth) / 2;
      var (fSize, fWidth, fHeight) := fm(DigitBarSize * scale);
      if DigitBarSize * scale < fWidth then Failure(FontTooBig)
      else if outer.Dy() < fHeight * 2 then Failure(AreaTooSmall)
      else Success(Converter(
        Rectangle(outer.min.Add(Pt(xMargin, 0)), outer.max.Sub(Pt(xMargin, 0))),
        Rect(0, 0, fWidth, fHeight),
        scale,
        fSize))
  }

  /** What a usable converter satisfies: the logical width fits the bound at the chosen scale,
      the font box is anchored at the origin, fits a digit cell and fits twice in the height. */
  predicate Valid(c: Converter) {
    && c.scale > 0
    && LogicalWidth * c.scale <= c.bound.Dx() <= LogicalWidth * c.scale + 1
    && c.fontDim.min == Point(0, 0)
    && 0 <= c.fontDim.Dx() <= DigitBarSize * c.scale
    && 0 <= c.fontDim.Dy()
    && 2 * c.fontDim.Dy() <= c.bound.Dy()
  }

  /** A successful construction keeps the outer vertical extent, centres the 109*scale columns
      horizontally (the leftover Dx mod 109 split evenly, at most one extra column on the right)
      and, when the measurer reports a non-negative glyph box, yields a valid converter. */
  lemma NewConverterValid(outer: Rectangle, fm: FontMeasurer)
    requires NewConverter(outer, fm).Success?
    ensures var c := NewConverter(outer, fm).value;
      && c.bound.Dy() == outer.Dy()
      && LogicalWidth * c.scale <= c.bound.Dx() <= LogicalWidth * c.scale + 1
      && c.bound.min.x - outer.min.x == outer.max.x - c.bound.max.x
    ensures fm(DigitBarSize * ScaleOf(outer)).1 >= 0 && fm(DigitBarSize * ScaleOf(outer)).2 >= 0 ==>
      Valid(NewConverter(outer, fm).value) && Within(NewConverter(outer, fm).value.bound, outer)
  {
    var c := NewConverter(outer, fm).value;
    var dx := outer.Dx();
    var q, m := dx / LogicalWidth, dx % LogicalWidth;
    assert dx == LogicalWidth * q + m && 0 <= m < LogicalWidth;
    assert c.bound.Dx() == dx - 2 * (m / 2);
  }

  /** translateBar (ean_render.go:110-119): the rectangle of a bar over logical columns
      [x0, x1); a long (guard) bar reaches half a font height further down. */
  function TranslateBar(c: Converter, x0: int, x1: int, long: bool): (r: Rectangle)
    ensures r.min == Point(c.bound.min.x + x0 * c.scale, c.bound.min.y)
    ensures r.Dx() == (x1 - x0) * c.scale
    ensures r.Dy() == c.bound.Dy() - c.fontDim.Dy() + (if long then GoDiv(c.fontDim.Dy(), 2) else 0)
  {
    var h := c.bound.Dy() - c.fontDim.Dy();
    var h := if long then h + GoDiv(c.fontDim.Dy(), 2) else h;
    Rectangle(c.bound.min.Add(Pt(x0 * c.scale, 0)), c.bound.min.Add(Pt(x1 * c.scale, h)))
  }

  /** Every bar of the symbol (columns within [0, 102]) lies inside the bound, and a short bar
      ends exactly where the font box begins. */
  lemma BarWithinBound(c: Converter, x0: int, x1: int, long: bool)
    requires Valid(c) && 0 <= x0 <= x1 <= SymbolWidth
    ensures Within(TranslateBar(c, x0, x1, long), c.bound)
    ensures !long ==> TranslateBar(c, x0, x1, long).max.y == c.bound.max.y - c.fontDim.Dy()
    ensures long ==> TranslateBar(c, x0, x1, long).max.y >= TranslateBar(c, x0, x1, false).max.y
  {
    MulMonotone(0, x0, c.scale);
    MulMonotone(x0, x1, c.scale);
    MulMonotone(x1, LogicalWidth, c.scale);
    HalfBetween(c.fontDim.Dy());
  }

  /** Go's truncating half of a non-negative number lies between zero and the number, and
      twice it does not exceed the number. */
  lemma HalfBetween(n: int)
    requires n >= 0
    ensures 0 <= GoDiv(n, 2) <= n && 2 * GoDiv(n, 2) <= n
  {
  }

  /** translateFont (ean_render.go:121-128): the glyph box of the digit whose cell starts at
      logical column x, centred in the 7-module cell and resting on the bottom of the bound,
      together with the stored font size. */
  function TranslateFont(c: Converter, x: int): (r: (Rectangle, int))
    ensures r.0.Dx() == c.fontDim.Dx() && r.0.Dy() == c.fontDim.Dy()
    ensures r.0.max.y == c.bound.max.y
    ensures r.0.min.x == c.bound.min.x + x * c.scale + GoDiv(c.scale * DigitBarSize - c.fontDim.Dx(), 2)
    ensures r.1 == c.fontSize
  {
    var fontCellWidth := c.scale * DigitBarSize;
    var fontXOffset := GoDiv(fontCellWidth - c.fontDim.Dx(), 2);
    var fontYOffset := c.bound.Dy() - c.fontDim.Dy();
    var topLeft := c.bound.min.Add(Pt(x * c.scale + fontXOffset, fontYOffset));
    var bottomRight := topLeft.Add(Pt(c.fontDim.Dx(), c.fontDim.Dy()));
    (Rectangle(topLeft, bottomRight), c.fontSize)
  }

  /** For a valid converter the glyph is horizontally centred in its digit cell: the gap on the
      right is the gap on the left or one column more. */
  lemma FontCentred(c: Converter, x: int)
    requires Valid(c)
    ensures var r := TranslateFont(c, x).0;
      var left := r.min.x - (c.bound.min.x + x * c.scale);
      var right := c.bound.min.x + (x + DigitBarSize) * c.scale - r.max.x;
      && 0 <= left && 0 <= right
      && left <= right <= left + 1
  {
    var w := c.scale * DigitBarSize - c.fontDim.Dx();
    HalfBetween(w);
    MulDistributes(x, DigitBarSize, c.scale);
  }

  /** For a valid converter the glyph box lies inside its digit cell [x*scale, (x+7)*scale),
      starts where a short bar ends, and lies inside the bound for every cell of the symbol. */
  lemma FontWithinCell(c: Converter, x: int)
    requires Valid(c)
    ensures var r := TranslateFont(c, x).0;
      && c.bound.min.x + x * c.scale <= r.min.x
      && r.max.x <= c.bound.min.x + (x + DigitBarSize) * c.scale
      && r.min.y == TranslateBar(c, 0, 0, false).max.y
    ensures 0 <= x <= LogicalWidth - DigitBarSize ==> Within(TranslateFont(c, x).0, c.bound)
  {
    var w := c.scale * DigitBarSize - c.fontDim.Dx();
    HalfBetween(w);
    MulDistributes(x, DigitBarSize, c.scale);
    if 0 <= x <= LogicalWidth - DigitBarSize {
      MulMonotone(0, x, c.scale);
      MulMonotone(x + DigitBarSize, LogicalWidth, c.scale);
    }
  }
}
