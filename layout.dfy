/** The layout engine of ean_render.go: renderCode13 walks a logical x-cursor over the symbol,
    asks the converter for pixel rectangles and drives an eanRenderer. The logical layout is the
    pure function Code13Ops; the renderer is the recording class Recorder. */
module Layout {
  import opened Geometry
  import opened Decimal
  import opened Symbology
  import opened Converter
  import opened GoInt

  /** One logical drawing step: a bar over logical columns [x0, x1), or the digit whose cell
      starts at column x. */
  datatype Op = BarOp(x0: int, x1: int, long: bool) | DigitOp(x: int, digit: int)

  /** One call into the renderer. */
  datatype Event =
    | StartEvent
    | DrawBarEvent(rect: Rectangle)
    | DrawDigitEvent(digit: int, rect: Rectangle, fontSize: int)
    | EndEvent

  /** The bars drawStripe draws for a stripe list at cursor cx: (s[0], s[1]), (s[2], s[3]), ... */
  function StripeOps(cx: int, s: seq<int>, long: bool): seq<Op>
    decreases |s|
  {
    if |s| < 2 then [] else [BarOp(cx + s[0], cx + s[1], long)] + StripeOps(cx, s[2..], long)
  }

  /** The logical cell of a digit: its two bars, then the digit below them. */
  function DigitCellOps(cx: int, stripe: seq<int>, digit: int): seq<Op> {
    StripeOps(cx, stripe, false) + [DigitOp(cx, digit)]
  }

  /** The 13 digits of a code, most significant first. */
  predicate IsDigits(ds: seq<int>) {
    |ds| == 13 && forall i | 0 <= i < 13 :: 0 <= ds[i] < 10
  }

  /** Cursor positions: the first digit at 0, the start guard at 7, left digit i (1..6) at
      10 + 7(i-1), the centre guard at 52, right digit i (7..12) at 57 + 7(i-7), the end guard
      at 99, and the cursor finishes at 102. */
  const StartX: int := DigitBarSize
  function LeftX(i: int): int {
    StartX + StartMarkerSize + DigitBarSize * (i - 1)
  }
  const CenterX: int := LeftX(7)
  function RightX(i: int): int {
    CenterX + CenterMarkerSize + DigitBarSize * (i - 7)
  }
  const EndX: int := RightX(13)
  const FinalX: int := EndX + EndMarkerSize

  /** Left digit i uses number set A or B as the first digit selects (ean_render.go:171). */
  function LeftStripe(ds: seq<int>, i: int): seq<int>
    requires IsDigits(ds) && 1 <= i <= 6
  {
    DispatchTableShape();
    BarTable[ds[i]][DispatchTable[ds[0]][i - 1]]
  }

  /** Left digits use an A or B code: two bars, starting after a white module. */
  lemma LeftStripeShape(ds: seq<int>, i: int)
    requires IsDigits(ds) && 1 <= i <= 6
    ensures TwoBars(LeftStripe(ds, i)) && LeftStripe(ds, i)[0] >= 1
  {
    DispatchTableShape();
    BarTableShape();
    BarTableEdges();
    var p := DispatchTable[ds[0]][i - 1];
    assert p == 0 || p == 1;
  }

  /** Right digits use a C code: two bars, ending before a white module. */
  lemma RightStripeShape(ds: seq<int>, i: int)
    requires IsDigits(ds) && 7 <= i <= 12
    ensures TwoBars(RightStripe(ds, i)) && RightStripe(ds, i)[0] == 0 && RightStripe(ds, i)[3] <= 6
  {
    BarTableShape();
    BarTableEdges();
  }

  /** Right digit i always uses number set C (ean_render.go:181). */
  function RightStripe(ds: seq<int>, i: int): seq<int>
    requires IsDigits(ds) && 7 <= i <= 12
  {
    BarTable[ds[i]][2]
  }

  /** The cells of the first n of a run of digits drawn side by side from column x0, digit k
      with stripe list stripes[k]. */
  function CellRun(x0: int, stripes: seq<seq<int>>, digits: seq<int>, n: int): seq<Op>
    requires 0 <= n <= |stripes| && n <= |digits|
  {
    if n == 0 then []
    else CellRun(x0, stripes, digits, n - 1) + DigitCellOps(x0 + DigitBarSize * (n - 1), stripes[n - 1], digits[n - 1])
  }

  /** The stripe lists of left digits 1..6. */
  function LeftStripes(ds: seq<int>): (st: seq<seq<int>>)
    requires IsDigits(ds)
    ensures |st| == 6 && forall k | 0 <= k < 6 :: st[k] == LeftStripe(ds, k + 1)
  {
    seq(6, k requires 0 <= k < 6 => LeftStripe(ds, k + 1))
  }

  /** The stripe lists of right digits 7..12. */
  function RightStripes(ds: seq<int>): (st: seq<seq<int>>)
    requires IsDigits(ds)
    ensures |st| == 6 && forall k | 0 <= k < 6 :: st[k] == RightStripe(ds, k + 7)
  {
    seq(6, k requires 0 <= k < 6 => RightStripe(ds, k + 7))
  }

  /** The cells of left digits 1..n. */
  function LeftOps(ds: seq<int>, n: int): seq<Op>
    requires IsDigits(ds) && 0 <= n <= 6
  {
    CellRun(LeftX(1), LeftStripes(ds), ds[1..7], n)
  }

  /** The cells of right digits 7..6+n. */
  function RightOps(ds: seq<int>, n: int): seq<Op>
    requires IsDigits(ds) && 0 <= n <= 6
  {
    CellRun(RightX(7), RightStripes(ds), ds[7..13], n)
  }

  /** Left digit n's cell follows those of digits 1..n-1. */
  lemma LeftOpsStep(ds: seq<int>, n: int)
    requires IsDigits(ds) && 1 <= n <= 6
    ensures LeftOps(ds, n) == LeftOps(ds, n - 1) + DigitCellOps(LeftX(n), LeftStripe(ds, n), ds[n])
  {
    assert ds[1..7][n - 1] == ds[n];
  }

  /** Right digit 6+n's cell follows those of digits 7..5+n. */
  lemma RightOpsStep(ds: seq<int>, n: int)
    requires IsDigits(ds) && 1 <= n <= 6
    ensures RightOps(ds, n) == RightOps(ds, n - 1) + DigitCellOps(RightX(6 + n), RightStripe(ds, 6 + n), ds[6 + n])
  {
    assert ds[7..13][n - 1] == ds[6 + n];
  }

  /** The left stripe lists all draw two bars, each starting after a white module. */
  lemma LeftStripesShape(ds: seq<int>)
    requires IsDigits(ds)
    ensures forall k | 0 <= k < 6 :: TwoBars(LeftStripes(ds)[k]) && 1 <= LeftStripes(ds)[k][0]
  {
    forall k | 0 <= k < 6 ensures TwoBars(LeftStripes(ds)[k]) && 1 <= LeftStripes(ds)[k][0] {
      LeftStripeShape(ds, k + 1);
    }
  }

  /** The right stripe lists all draw two bars, each ending before a white module. */
  lemma RightStripesShape(ds: seq<int>)
    requires IsDigits(ds)
    ensures forall k | 0 <= k < 6 :: TwoBars(RightStripes(ds)[k]) && 0 <= RightStripes(ds)[k][0] && RightStripes(ds)[k][3] <= 6
  {
    forall k | 0 <= k < 6 ensures TwoBars(RightStripes(ds)[k]) && 0 <= RightStripes(ds)[k][0] && RightStripes(ds)[k][3] <= 6 {
      RightStripeShape(ds, k + 7);
    }
  }

  /** The first digit, the start guard and the left half. */
  function HeadOps(ds: seq<int>): seq<Op>
    requires IsDigits(ds)
  {
    [DigitOp(0, ds[0])] + StripeOps(StartX, StartMarker, true) + LeftOps(ds, 6)
  }

  /** The centre guard, the right half and the end guard. */
  function TailOps(ds: seq<int>): seq<Op>
    requires IsDigits(ds)
  {
    StripeOps(CenterX, CenterMarker, true) + RightOps(ds, 6) + StripeOps(EndX, EndMarker, true)
  }

  /** The whole logical symbol, in the order renderCode13 issues it. */
  function Code13Ops(ds: seq<int>): seq<Op>
    requires IsDigits(ds)
  {
    HeadOps(ds) + TailOps(ds)
  }

  /** Through the converter: a bar becomes translateBar's rectangle, a digit translateFont's. */
  function TranslateOp(c: Converter, op: Op): Event {
    match op
    case BarOp(x0, x1, long) => DrawBarEvent(TranslateBar(c, x0, x1, long))
    case DigitOp(x, d) => DrawDigitEvent(d, TranslateFont(c, x).0, TranslateFont(c, x).1)
  }

  function TranslateOps(c: Converter, ops: seq<Op>): (evs: seq<Event>)
    ensures |evs| == |ops|
    ensures forall k | 0 <= k < |ops| :: evs[k] == TranslateOp(c, ops[k])
  {
    seq(|ops|, k requires 0 <= k < |ops| => TranslateOp(c, ops[k]))
  }

  /** The calls renderCode13 makes for code13. Like the source's digit loop, only the low 13
      decimal digits are drawn. */
  function RenderEvents(c: Converter, code13: nat): seq<Event> {
    [StartEvent] + TranslateOps(c, Code13Ops(DigitsOf(code13, 13))) + [EndEvent]
  }

  lemma TranslateOpsAppend(c: Converter, a: seq<Op>, b: seq<Op>)
    ensures TranslateOps(c, a + b) == TranslateOps(c, a) + TranslateOps(c, b)
  {
  }

  // ---- Counting ----

  /** The digits drawn, in drawing order. */
  function DigitsDrawn(ops: seq<Op>): seq<int> {
    if ops == [] then []
    else (if ops[0].DigitOp? then [ops[0].digit] else []) + DigitsDrawn(ops[1..])
  }

  /** The number of bars with the given length flag. */
  function BarCount(ops: seq<Op>, long: bool): nat {
    if ops == [] then 0
    else (if ops[0].BarOp? && ops[0].long == long then 1 else 0) + BarCount(ops[1..], long)
  }

  lemma {:induction false} CountsAppend(a: seq<Op>, b: seq<Op>)
    ensures DigitsDrawn(a + b) == DigitsDrawn(a) + DigitsDrawn(b)
    ensures BarCount(a + b, true) == BarCount(a, true) + BarCount(b, true)
    ensures BarCount(a + b, false) == BarCount(a, false) + BarCount(b, false)
    decreases |a|
  {
    if a != [] {
      assert (a + b)[1..] == a[1..] + b;
      CountsAppend(a[1..], b);
    } else {
      assert a + b == b;
    }
  }

  /** A four-boundary stripe list draws exactly two bars. */
  lemma StripeOpsOfFour(cx: int, s: seq<int>, long: bool)
    requires |s| == 4
    ensures StripeOps(cx, s, long) == [BarOp(cx + s[0], cx + s[1], long), BarOp(cx + s[2], cx + s[3], long)]
  {
    assert s[2..][0] == s[2] && s[2..][1] == s[3];
    assert StripeOps(cx, s[2..][2..], long) == [];
  }

  lemma StripeOpsCounts(cx: int, s: seq<int>, long: bool)
    requires |s| == 4
    ensures DigitsDrawn(StripeOps(cx, s, long)) == []
    ensures BarCount(StripeOps(cx, s, long), long) == 2 && BarCount(StripeOps(cx, s, long), !long) == 0
  {
    var b0, b1 := BarOp(cx + s[0], cx + s[1], long), BarOp(cx + s[2], cx + s[3], long);
    StripeOpsOfFour(cx, s, long);
    assert [b0, b1][1..] == [b1] && [b1][1..] == [];
    assert [b1][0] == b1 && [b0, b1][0] == b0;
    var none: seq<Op> := [];
    assert BarCount(none, long) == 0 && BarCount(none, !long) == 0 && DigitsDrawn(none) == [];
    assert DigitsDrawn([b1]) == [] && BarCount([b1], long) == 1 && BarCount([b1], !long) == 0;
  }

  lemma CellCounts(cx: int, stripe: seq<int>, digit: int)
    requires |stripe| == 4
    ensures DigitsDrawn(DigitCellOps(cx, stripe, digit)) == [digit]
    ensures BarCount(DigitCellOps(cx, stripe, digit), false) == 2 && BarCount(DigitCellOps(cx, stripe, digit), true) == 0
  {
    StripeOpsCounts(cx, stripe, false);
    CountsAppend(StripeOps(cx, stripe, false), [DigitOp(cx, digit)]);
    assert [DigitOp(cx, digit)][1..] == [];
    assert BarCount([DigitOp(cx, digit)], false) == 0 && BarCount([DigitOp(cx, digit)], true) == 0;
  }

  /** Appending one digit cell draws one more digit and two more short bars. */
  lemma CellAppendCounts(prefix: seq<Op>, drawn: seq<int>, bars: nat, cx: int, stripe: seq<int>, digit: int)
    requires |stripe| == 4
    requires DigitsDrawn(prefix) == drawn && BarCount(prefix, false) == bars && BarCount(prefix, true) == 0
    ensures DigitsDrawn(prefix + DigitCellOps(cx, stripe, digit)) == drawn + [digit]
    ensures BarCount(prefix + DigitCellOps(cx, stripe, digit), false) == bars + 2
    ensures BarCount(prefix + DigitCellOps(cx, stripe, digit), true) == 0
  {
    CellCounts(cx, stripe, digit);
    CountsAppend(prefix, DigitCellOps(cx, stripe, digit));
  }

  /** A run of n digit cells draws its n digits in order and two short bars per digit. */
  lemma {:induction false} CellRunCounts(x0: int, stripes: seq<seq<int>>, digits: seq<int>, n: int)
    requires 0 <= n <= |stripes| && n <= |digits|
    requires forall k | 0 <= k < n :: |stripes[k]| == 4
    ensures DigitsDrawn(CellRun(x0, stripes, digits, n)) == digits[..n]
    ensures BarCount(CellRun(x0, stripes, digits, n), false) == 2 * n
    ensures BarCount(CellRun(x0, stripes, digits, n), true) == 0
  {
    if n > 0 {
      CellRunCounts(x0, stripes, digits, n - 1);
      CellAppendCounts(CellRun(x0, stripes, digits, n - 1), digits[..n - 1], 2 * (n - 1),
        x0 + DigitBarSize * (n - 1), stripes[n - 1], digits[n - 1]);
      assert digits[..n] == digits[..n - 1] + [digits[n - 1]];
    }
  }

  lemma LeftCounts(ds: seq<int>)
    requires IsDigits(ds)
    ensures DigitsDrawn(LeftOps(ds, 6)) == ds[1..7]
    ensures BarCount(LeftOps(ds, 6), false) == 12 && BarCount(LeftOps(ds, 6), true) == 0
  {
    LeftStripesShape(ds);
    CellRunCounts(LeftX(1), LeftStripes(ds), ds[1..7], 6);
    assert ds[1..7][..6] == ds[1..7];
  }

  lemma RightCounts(ds: seq<int>)
    requires IsDigits(ds)
    ensures DigitsDrawn(RightOps(ds, 6)) == ds[7..13]
    ensures BarCount(RightOps(ds, 6), false) == 12 && BarCount(RightOps(ds, 6), true) == 0
  {
    RightStripesShape(ds);
    CellRunCounts(RightX(7), RightStripes(ds), ds[7..13], 6);
    assert ds[7..13][..6] == ds[7..13];
  }

  lemma HeadCounts(ds: seq<int>)
    requires IsDigits(ds)
    ensures DigitsDrawn(HeadOps(ds)) == ds[..7]
    ensures BarCount(HeadOps(ds), true) == 2 && BarCount(HeadOps(ds), false) == 12
  {
    var d0 := [DigitOp(0, ds[0])];
    var st := StripeOps(StartX, StartMarker, true);
    assert d0[1..] == [];
    StripeOpsCounts(StartX, StartMarker, true);
    LeftCounts(ds);
    CountsAppend(d0, st);
    CountsAppend(d0 + st, LeftOps(ds, 6));
    assert ds[..7] == [ds[0]] + ds[1..7];
  }

  lemma TailCounts(ds: seq<int>)
    requires IsDigits(ds)
    ensures DigitsDrawn(TailOps(ds)) == ds[7..]
    ensures BarCount(TailOps(ds), true) == 4 && BarCount(TailOps(ds), false) == 12
  {
    var ce := StripeOps(CenterX, CenterMarker, true);
    var r := RightOps(ds, 6);
    StripeOpsCounts(CenterX, CenterMarker, true);
    StripeOpsCounts(EndX, EndMarker, true);
    RightCounts(ds);
    CountsAppend(ce, r);
    CountsAppend(ce + r, StripeOps(EndX, EndMarker, true));
    assert ds[7..] == ds[7..13];
  }

  /** The symbol draws its 13 digits most significant first, and 30 bars: the six long guard
      bars and 24 short digit bars. */
  lemma Code13Counts(ds: seq<int>)
    requires IsDigits(ds)
    ensures DigitsDrawn(Code13Ops(ds)) == ds
    ensures BarCount(Code13Ops(ds), true) == 6 && BarCount(Code13Ops(ds), false) == 24
  {
    HeadCounts(ds);
    TailCounts(ds);
    CountsAppend(HeadOps(ds), TailOps(ds));
    assert ds == ds[..7] + ds[7..];
  }

  // ---- Geometry of the logical layout ----

  /** Every bar of `ops` covers a non-empty column range inside [lo, hi], of any two bars the
      earlier ends strictly before the later begins, and every digit cell starts in [0, hi]. */
  predicate LaidOut(ops: seq<Op>, lo: int, hi: int) {
    && (forall j | 0 <= j < |ops| && ops[j].BarOp? :: lo <= ops[j].x0 < ops[j].x1 <= hi)
    && (forall j, k | 0 <= j < k < |ops| && ops[j].BarOp? && ops[k].BarOp? :: ops[j].x1 < ops[k].x0)
    && (forall j | 0 <= j < |ops| && ops[j].DigitOp? :: 0 <= ops[j].x <= hi)
  }

  /** Two laid-out pieces, the first ending before the second begins, lay out together. */
  lemma LaidOutAppend(a: seq<Op>, b: seq<Op>, lo: int, m: int, m': int, hi: int)
    requires LaidOut(a, lo, m) && LaidOut(b, m', hi) && m < m' && lo <= m' && m <= hi
    ensures LaidOut(a + b, lo, hi)
  {
    var ab := a + b;
    forall j, k | 0 <= j < k < |ab| && ab[j].BarOp? && ab[k].BarOp? ensures ab[j].x1 < ab[k].x0 {
      if k < |a| {
        assert ab[j] == a[j] && ab[k] == a[k];
      } else if j < |a| {
        assert ab[j] == a[j] && ab[k] == b[k - |a|];
      } else {
        assert ab[j] == b[j - |a|] && ab[k] == b[k - |a|];
      }
    }
    forall j | 0 <= j < |ab| ensures ab[j].BarOp? ==> lo <= ab[j].x0 < ab[j].x1 <= hi {
      if j < |a| { assert ab[j] == a[j]; } else { assert ab[j] == b[j - |a|]; }
    }
    forall j | 0 <= j < |ab| ensures ab[j].DigitOp? ==> 0 <= ab[j].x <= hi {
      if j < |a| { assert ab[j] == a[j]; } else { assert ab[j] == b[j - |a|]; }
    }
  }

  /** The bars of a four-boundary stripe list at cx lie in [cx + s[0], cx + s[3]]. */
  lemma StripeLaidOut(cx: int, s: seq<int>, long: bool)
    requires |s| == 4 && s[0] < s[1] < s[2] < s[3] && 0 <= cx + s[3]
    ensures LaidOut(StripeOps(cx, s, long), cx + s[0], cx + s[3])
  {
    StripeOpsOfFour(cx, s, long);
  }

  lemma CellLaidOut(cx: int, s: seq<int>, digit: int)
    requires TwoBars(s) && 0 <= cx
    ensures LaidOut(DigitCellOps(cx, s, digit), cx + s[0], cx + s[3])
  {
    StripeOpsOfFour(cx, s, false);
    var ops := DigitCellOps(cx, s, digit);
    assert ops == [BarOp(cx + s[0], cx + s[1], false), BarOp(cx + s[2], cx + s[3], false), DigitOp(cx, digit)];
    assert s[0] < s[1] < s[2] < s[3] && s[0] >= 0;
  }

  /** A laid-out step list is laid out in every wider range. */
  lemma LaidOutWiden(ops: seq<Op>, lo: int, hi: int, lo': int, hi': int)
    requires LaidOut(ops, lo, hi) && lo' <= lo && hi <= hi'
    ensures LaidOut(ops, lo', hi')
  {
  }

  /** A run of cells whose bars keep at least a modules clear on the left of their cell and
      DigitBarSize - b on the right lies in [x0 + a, x0 + DigitBarSize * (n - 1) + b]. */
  lemma {:induction false} CellRunLaidOut(x0: int, stripes: seq<seq<int>>, digits: seq<int>, n: int, a: int, b: int)
    requires 0 <= n <= |stripes| && n <= |digits| && 0 <= x0
    requires b < DigitBarSize + a
    requires forall k | 0 <= k < n :: TwoBars(stripes[k]) && a <= stripes[k][0] && stripes[k][3] <= b
    ensures LaidOut(CellRun(x0, stripes, digits, n), x0 + a, x0 + DigitBarSize * (n - 1) + b)
  {
    if n > 0 {
      CellRunLaidOut(x0, stripes, digits, n - 1, a, b);
      var cx, s := x0 + DigitBarSize * (n - 1), stripes[n - 1];
      CellLaidOut(cx, s, digits[n - 1]);
      LaidOutWiden(DigitCellOps(cx, s, digits[n - 1]), cx + s[0], cx + s[3], cx + s[0], cx + b);
      LaidOutAppend(CellRun(x0, stripes, digits, n - 1), DigitCellOps(cx, s, digits[n - 1]),
        x0 + a, x0 + DigitBarSize * (n - 2) + b, cx + s[0], cx + b);
    }
  }

  /** The left half lies in [11, 52]: each left cell starts with a white module. */
  lemma LeftLaidOut(ds: seq<int>)
    requires IsDigits(ds)
    ensures LaidOut(LeftOps(ds, 6), LeftX(1) + 1, LeftX(7))
  {
    LeftStripesShape(ds);
    CellRunLaidOut(LeftX(1), LeftStripes(ds), ds[1..7], 6, 1, DigitBarSize);
  }

  /** The right half lies in [57, 98]: each right cell ends with a white module. */
  lemma RightLaidOut(ds: seq<int>)
    requires IsDigits(ds)
    ensures LaidOut(RightOps(ds, 6), RightX(7), RightX(13) - 1)
  {
    RightStripesShape(ds);
    CellRunLaidOut(RightX(7), RightStripes(ds), ds[7..13], 6, 0, 6);
  }

  lemma HeadLaidOut(ds: seq<int>)
    requires IsDigits(ds)
    ensures LaidOut(HeadOps(ds), StartX, LeftX(7))
  {
    var d0 := [DigitOp(0, ds[0])];
    var st := StripeOps(StartX, StartMarker, true);
    assert LaidOut(d0, StartX, 0);
    StripeLaidOut(StartX, StartMarker, true);
    LeftLaidOut(ds);
    LaidOutAppend(d0, st, 7, 0, 7, 10);
    LaidOutAppend(d0 + st, LeftOps(ds, 6), 7, 10, 11, 52);
  }

  lemma TailLaidOut(ds: seq<int>)
    requires IsDigits(ds)
    ensures LaidOut(TailOps(ds), CenterX + 1, FinalX)
  {
    var ce := StripeOps(CenterX, CenterMarker, true);
    var r := RightOps(ds, 6);
    StripeLaidOut(CenterX, CenterMarker, true);
    StripeLaidOut(EndX, EndMarker, true);
    RightLaidOut(ds);
    LaidOutAppend(ce, r, 53, 56, 57, 98);
    LaidOutAppend(ce + r, StripeOps(EndX, EndMarker, true), 53, 98, 99, 102);
  }

  /** All bars of the symbol lie in columns [7, 102], in strictly increasing order with a gap of
      at least one white module between consecutive bars, and every digit cell starts inside
      the symbol. */
  lemma Code13LaidOut(ds: seq<int>)
    requires IsDigits(ds)
    ensures LaidOut(Code13Ops(ds), StartX, FinalX)
  {
    HeadLaidOut(ds);
    TailLaidOut(ds);
    LaidOutAppend(HeadOps(ds), TailOps(ds), StartX, LeftX(7), CenterX + 1, FinalX);
  }

  // ---- The calls made to the renderer ----

  /** The digits of the DrawDigit calls, in call order. */
  function DigitEvents(evs: seq<Event>): seq<int> {
    if evs == [] then []
    else (if evs[0].DrawDigitEvent? then [evs[0].digit] else []) + DigitEvents(evs[1..])
  }

  /** The number of DrawBar calls. */
  function BarEvents(evs: seq<Event>): nat {
    if evs == [] then 0 else (if evs[0].DrawBarEvent? then 1 else 0) + BarEvents(evs[1..])
  }

  /** Translation keeps every step's kind: the digits drawn and the number of bars carry over. */
  lemma {:induction false} TranslateCounts(c: Converter, ops: seq<Op>)
    ensures DigitEvents(TranslateOps(c, ops)) == DigitsDrawn(ops)
    ensures BarEvents(TranslateOps(c, ops)) == BarCount(ops, true) + BarCount(ops, false)
    ensures forall k | 0 <= k < |ops| :: TranslateOps(c, ops)[k].DrawBarEvent? || TranslateOps(c, ops)[k].DrawDigitEvent?
    decreases |ops|
  {
    if ops != [] {
      assert TranslateOps(c, ops)[1..] == TranslateOps(c, ops[1..]);
      TranslateCounts(c, ops[1..]);
    }
  }

  /** Every logical step is a bar or a digit. */
  lemma {:induction false} OpsPartition(ops: seq<Op>)
    ensures |ops| == |DigitsDrawn(ops)| + BarCount(ops, true) + BarCount(ops, false)
    decreases |ops|
  {
    if ops != [] {
      OpsPartition(ops[1..]);
    }
  }

  /** renderCode13's call shape: Start once and first, End once and last, and in between exactly
      13 DrawDigit calls, for the digits of code13 most significant first, and 30 DrawBar calls. */
  lemma RenderShape(c: Converter, code13: nat)
    ensures var evs := RenderEvents(c, code13);
      && |evs| == 45
      && evs[0] == StartEvent && evs[44] == EndEvent
      && (forall k | 0 < k < 44 :: evs[k].DrawBarEvent? || evs[k].DrawDigitEvent?)
      && DigitEvents(evs[1..44]) == DigitsOf(code13, 13)
      && BarEvents(evs[1..44]) == 30
  {
    var ds := DigitsOf(code13, 13);
    var ops := Code13Ops(ds);
    var evs := RenderEvents(c, code13);
    Code13Counts(ds);
    OpsPartition(ops);
    TranslateCounts(c, ops);
    assert evs[1..44] == TranslateOps(c, ops);
  }

  lemma MulStrict(a: int, b: int, c: int)
    requires a < b && c > 0
    ensures a * c < b * c
  {
    MulMonotone(a + 1, b, c);
    MulDistributes(a, 1, c);
  }

  /** Through a valid converter, the steps of a layout within [0, 102] become bars and glyph
      boxes inside the bound, the bars in strictly increasing x order without touching. */
  lemma TranslateGeometry(c: Converter, ops: seq<Op>)
    requires Valid(c) && LaidOut(ops, 0, SymbolWidth)
    ensures var evs := TranslateOps(c, ops);
      && (forall k | 0 <= k < |evs| && evs[k].DrawBarEvent? :: Within(evs[k].rect, c.bound))
      && (forall k | 0 <= k < |evs| && evs[k].DrawDigitEvent? :: Within(evs[k].rect, c.bound))
      && (forall j, k | 0 <= j < k < |evs| && evs[j].DrawBarEvent? && evs[k].DrawBarEvent? ::
            evs[j].rect.max.x < evs[k].rect.min.x)
  {
    var evs := TranslateOps(c, ops);
    forall k | 0 <= k < |evs| && evs[k].DrawBarEvent? ensures Within(evs[k].rect, c.bound) {
      BarWithinBound(c, ops[k].x0, ops[k].x1, ops[k].long);
    }
    forall k | 0 <= k < |evs| && evs[k].DrawDigitEvent? ensures Within(evs[k].rect, c.bound) {
      FontWithinCell(c, ops[k].x);
    }
    forall j, k | 0 <= j < k < |evs| && evs[j].DrawBarEvent? && evs[k].DrawBarEvent?
      ensures evs[j].rect.max.x < evs[k].rect.min.x
    {
      MulStrict(ops[j].x1, ops[k].x0, c.scale);
    }
  }

  /** The same for the steps framed by the Start and End calls. */
  lemma FramedGeometry(c: Converter, ops: seq<Op>)
    requires Valid(c) && LaidOut(ops, 0, SymbolWidth)
    ensures var evs := [StartEvent] + TranslateOps(c, ops) + [EndEvent];
      && (forall k | 0 <= k < |evs| && evs[k].DrawBarEvent? :: Within(evs[k].rect, c.bound))
      && (forall k | 0 <= k < |evs| && evs[k].DrawDigitEvent? :: Within(evs[k].rect, c.bound))
      && (forall j, k | 0 <= j < k < |evs| && evs[j].DrawBarEvent? && evs[k].DrawBarEvent? ::
            evs[j].rect.max.x < evs[k].rect.min.x)
  {
    var mid := TranslateOps(c, ops);
    var evs := [StartEvent] + mid + [EndEvent];
    TranslateGeometry(c, ops);
    assert forall k | 0 < k < |evs| - 1 :: evs[k] == mid[k - 1];
  }

  /** Through a valid converter every bar and every glyph box of the symbol lands inside the
      bound, and the bars come in strictly increasing x order without touching. */
  lemma RenderGeometry(c: Converter, code13: nat)
    requires Valid(c)
    ensures var evs := RenderEvents(c, code13);
      && (forall k | 0 <= k < |evs| && evs[k].DrawBarEvent? :: Within(evs[k].rect, c.bound))
      && (forall k | 0 <= k < |evs| && evs[k].DrawDigitEvent? :: Within(evs[k].rect, c.bound))
      && (forall j, k | 0 <= j < k < |evs| && evs[j].DrawBarEvent? && evs[k].DrawBarEvent? ::
            evs[j].rect.max.x < evs[k].rect.min.x)
  {
    Code13LaidOut(DigitsOf(code13, 13));
    FramedGeometry(c, Code13Ops(DigitsOf(code13, 13)));
  }

  // ---- The renderer and the drawing loops ----

  /** A recording eanRenderer (ean_render.go:130-139): Start hands out the renderer's converter,
      and every call is appended to `log`. */
  class Recorder {
    const converter: Converter
    var log: seq<Event>

    constructor(c: Converter)
      ensures converter == c && log == []
    {
      converter := c;
      log := [];
    }

    method Start() returns (c: Converter)
      modifies this
      ensures c == converter && log == old(log) + [StartEvent]
    {
      log := log + [StartEvent];
      c := converter;
    }

    method DrawBar(rect: Rectangle)
      modifies this
      ensures log == old(log) + [DrawBarEvent(rect)]
    {
      log := log + [DrawBarEvent(rect)];
    }

    method DrawDigit(digit: int, rect: Rectangle, fontSize: int)
      modifies this
      ensures log == old(log) + [DrawDigitEvent(digit, rect, fontSize)]
    {
      log := log + [DrawDigitEvent(digit, rect, fontSize)];
    }

    method End()
      modifies this
      ensures log == old(log) + [EndEvent]
    {
      log := log + [EndEvent];
    }
  }

  /** The calls still to come in drawStripe once i boundaries are consumed: one bar, then the rest. */
  lemma StripeStep(c: Converter, cx: int, s: seq<int>, i: int, long: bool, log: seq<Event>)
    requires 0 <= i && i + 1 < |s|
    ensures log + TranslateOps(c, StripeOps(cx, s[i..], long)) ==
      (log + [DrawBarEvent(TranslateBar(c, cx + s[i], cx + s[i + 1], long))]) + TranslateOps(c, StripeOps(cx, s[i + 2..], long))
  {
    assert s[i..][2..] == s[i + 2..];
    assert s[i..][0] == s[i] && s[i..][1] == s[i + 1];
    TranslateOpsAppend(c, [BarOp(cx + s[i], cx + s[i + 1], long)], StripeOps(cx, s[i + 2..], long));
  }

  /** drawStripe (ean_render.go:141-145): one DrawBar per boundary pair, left to right. */
  method DrawStripe(cx: int, s: seq<int>, long: bool, r: Recorder, c: Converter)
    modifies r
    ensures r.log == old(r.log) + TranslateOps(c, StripeOps(cx, s, long))
  {
    var i := 0;
    while i + 1 < |s|
      invariant 0 <= i <= |s|
      invariant old(r.log) + TranslateOps(c, StripeOps(cx, s, long)) == r.log + TranslateOps(c, StripeOps(cx, s[i..], long))
      decreases |s| - i
    {
      StripeStep(c, cx, s, i, long, r.log);
      r.DrawBar(TranslateBar(c, cx + s[i], cx + s[i + 1], long));
      i := i + 2;
    }
    assert StripeOps(cx, s[i..], long) == [];
  }

  /** drawDigit (ean_render.go:147-150). */
  method DrawDigit(cx: int, digit: int, r: Recorder, c: Converter)
    modifies r
    ensures r.log == old(r.log) + TranslateOps(c, [DigitOp(cx, digit)])
  {
    var (rect, fontSize) := TranslateFont(c, cx);
    r.DrawDigit(digit, rect, fontSize);
  }

  /** One iteration of the left-half loop draws left digit n's cell after digits 1..n-1. */
  lemma LeftHalfStep(log: seq<Event>, c: Converter, ds: seq<int>, n: int)
    requires IsDigits(ds) && 1 <= n <= 6
    ensures log + TranslateOps(c, LeftOps(ds, n - 1)) + TranslateOps(c, StripeOps(LeftX(n), LeftStripe(ds, n), false))
        + TranslateOps(c, [DigitOp(LeftX(n), ds[n])])
      == log + TranslateOps(c, LeftOps(ds, n))
  {
    LeftOpsStep(ds, n);
    LogExtends3(log, c, LeftOps(ds, n - 1), StripeOps(LeftX(n), LeftStripe(ds, n), false), [DigitOp(LeftX(n), ds[n])]);
  }

  /** One iteration of the right-half loop draws right digit 6+n's cell after digits 7..5+n. */
  lemma RightHalfStep(log: seq<Event>, c: Converter, ds: seq<int>, n: int)
    requires IsDigits(ds) && 1 <= n <= 6
    ensures log + TranslateOps(c, RightOps(ds, n - 1)) + TranslateOps(c, StripeOps(RightX(6 + n), RightStripe(ds, 6 + n), false))
        + TranslateOps(c, [DigitOp(RightX(6 + n), ds[6 + n])])
      == log + TranslateOps(c, RightOps(ds, n))
  {
    RightOpsStep(ds, n);
    LogExtends3(log, c, RightOps(ds, n - 1), StripeOps(RightX(6 + n), RightStripe(ds, 6 + n), false), [DigitOp(RightX(6 + n), ds[6 + n])]);
  }

  /** The digit loop of renderCode13 (ean_render.go:155-159): fills the array in place from the
      last slot down, taking the low decimal digit of the shrinking code each step. */
  method SplitDigits(code13: uint64) returns (digits: array<int>)
    ensures fresh(digits) && digits.Length == 13
    ensures digits[..] == DigitsOf(code13, 13)
  {
    digits := new int[13];
    var i, cc := 12, code13 as int;
    while i >= 0
      invariant -1 <= i <= 12 && cc >= 0
      invariant DigitsOf(code13, 13) == DigitsOf(cc, i + 1) + digits[i + 1..]
    {
      ghost var tail := digits[i + 1..];
      digits[i] := cc % 10;
      assert digits[i..] == [cc % 10] + tail;
      cc := cc / 10;
      i := i - 1;
    }
    assert digits[0..] == digits[..];
  }

  /** The first-six-digits loop of renderCode13 (ean_render.go:169-175): each left digit's bars,
      from number set A or B as the first digit selects, then the digit itself. */
  method DrawLeftHalf(digits: array<int>, r: Recorder, c: Converter) returns (cx: int)
    requires digits.Length == 13 && IsDigits(digits[..])
    modifies r
    ensures cx == LeftX(7)
    ensures r.log == old(r.log) + TranslateOps(c, LeftOps(digits[..], 6))
  {
    ghost var ds := digits[..];
    DispatchTableShape();
    cx := LeftX(1);
    var first := digits[0];
    for i := 1 to 7
      invariant cx == LeftX(i)
      invariant r.log == old(r.log) + TranslateOps(c, LeftOps(ds, i - 1))
    {
      var stripe := BarTable[digits[i]][DispatchTable[first][i - 1]];
      DrawStripe(cx, stripe, false, r, c);
      DrawDigit(cx, digits[i], r, c);
      LeftHalfStep(old(r.log), c, ds, i);
      cx := cx + DigitBarSize;
    }
  }

  /** The last-six-digits loop of renderCode13 (ean_render.go:179-184): number set C throughout. */
  method DrawRightHalf(digits: array<int>, r: Recorder, c: Converter) returns (cx: int)
    requires digits.Length == 13 && IsDigits(digits[..])
    modifies r
    ensures cx == RightX(13)
    ensures r.log == old(r.log) + TranslateOps(c, RightOps(digits[..], 6))
  {
    ghost var ds := digits[..];
    cx := RightX(7);
    for i := 7 to 13
      invariant cx == RightX(i)
      invariant r.log == old(r.log) + TranslateOps(c, RightOps(ds, i - 7))
    {
      var stripe := BarTable[digits[i]][2];
      DrawStripe(cx, stripe, false, r, c);
      DrawDigit(cx, digits[i], r, c);
      RightHalfStep(old(r.log), c, ds, i - 6);
      cx := cx + DigitBarSize;
    }
  }

  lemma LogExtends3(log: seq<Event>, c: Converter, a: seq<Op>, b: seq<Op>, d: seq<Op>)
    ensures log + TranslateOps(c, a) + TranslateOps(c, b) + TranslateOps(c, d) == log + TranslateOps(c, a + b + d)
  {
    TranslateOpsAppend(c, a, b);
    TranslateOpsAppend(c, a + b, d);
  }

  /** The calls of the first digit, the start guard and the left half make up HeadOps. */
  lemma HeadLog(log: seq<Event>, c: Converter, ds: seq<int>)
    requires IsDigits(ds)
    ensures log + TranslateOps(c, [DigitOp(0, ds[0])]) + TranslateOps(c, StripeOps(StartX, StartMarker, true))
        + TranslateOps(c, LeftOps(ds, 6))
      == log + TranslateOps(c, HeadOps(ds))
  {
    LogExtends3(log, c, [DigitOp(0, ds[0])], StripeOps(StartX, StartMarker, true), LeftOps(ds, 6));
  }

  /** The calls of the centre guard, the right half and the end guard make up TailOps. */
  lemma TailLog(log: seq<Event>, c: Converter, ds: seq<int>)
    requires IsDigits(ds)
    ensures log + TranslateOps(c, StripeOps(CenterX, CenterMarker, true)) + TranslateOps(c, RightOps(ds, 6))
        + TranslateOps(c, StripeOps(EndX, EndMarker, true))
      == log + TranslateOps(c, TailOps(ds))
  {
    LogExtends3(log, c, StripeOps(CenterX, CenterMarker, true), RightOps(ds, 6), StripeOps(EndX, EndMarker, true));
  }

  /** renderCode13 up to the centre guard (ean_render.go:161-175): the first digit, the start
      guard and the left half; the cursor ends at the centre guard. */
  method DrawHead(digits: array<int>, r: Recorder, c: Converter) returns (cx: int)
    requires digits.Length == 13 && IsDigits(digits[..])
    modifies r
    ensures cx == CenterX
    ensures r.log == old(r.log) + TranslateOps(c, HeadOps(digits[..]))
  {
    cx := 0;
    DrawDigit(cx, digits[0], r, c);
    cx := cx + DigitBarSize;
    DrawStripe(cx, StartMarker, true, r, c);
    cx := cx + StartMarkerSize;
    cx := DrawLeftHalf(digits, r, c);
    HeadLog(old(r.log), c, digits[..]);
  }

  /** renderCode13 from the centre guard on (ean_render.go:176-187): the centre guard, the right
      half and the end guard; the cursor finishes at column 102. */
  method DrawTail(digits: array<int>, cx0: int, r: Recorder, c: Converter) returns (cx: int)
    requires digits.Length == 13 && IsDigits(digits[..]) && cx0 == CenterX
    modifies r
    ensures cx == FinalX
    ensures r.log == old(r.log) + TranslateOps(c, TailOps(digits[..]))
  {
    cx := cx0;
    DrawStripe(cx, CenterMarker, true, r, c);
    cx := cx + CenterMarkerSize;
    cx := DrawRightHalf(digits, r, c);
    DrawStripe(cx, EndMarker, true, r, c);
    cx := cx + EndMarkerSize;
    TailLog(old(r.log), c, digits[..]);
  }

  /** renderCode13 (ean_render.go:152-189): Start, split the code into 13 digits, most
      significant first, walk the cursor across the symbol to column 102, End. */
  method RenderCode13(code13: uint64, r: Recorder)
    modifies r
    ensures r.log == old(r.log) + RenderEvents(r.converter, code13)
  {
    ghost var log0 := r.log;
    var c := r.Start();
    var digits := SplitDigits(code13);
    var cx := DrawHead(digits, r, c);
    cx := DrawTail(digits, cx, r, c);
    r.End();
    ghost var h, t := TranslateOps(c, HeadOps(digits[..])), TranslateOps(c, TailOps(digits[..]));
    TranslateOpsAppend(c, HeadOps(digits[..]), TailOps(digits[..]));
    assert RenderEvents(c, code13) == [StartEvent] + (h + t) + [EndEvent];
    Regroup(log0, [StartEvent], h, t, [EndEvent]);
  }

  lemma Regroup(a: seq<Event>, b: seq<Event>, c: seq<Event>, d: seq<Event>, e: seq<Event>)
    ensures (((a + b) + c) + d) + e == a + ((b + (c + d)) + e)
  {
  }
}
