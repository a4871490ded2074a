/** The EAN-13 symbology of ean_render.go: module strings, their stripe decoding, the parity table. */
module Symbology {

  /** Module widths of ean_render.go:63-68. */
  const DigitBarSize: int := 7
  const StartMarkerSize: int := 3
  const EndMarkerSize: int := 3
  const CenterMarkerSize: int := 5

  predicate IsBinary(b: string) {
    forall i | 0 <= i < |b| :: b[i] == '0' || b[i] == '1'
  }

  /** What b2s appends while reading `b` from index `i` on, in state `lastZero`
      (a '1' read in white opens a stripe, a '0' read in black closes it, anything else is skipped). */
  function StripesFrom(b: string, i: nat, lastZero: bool): seq<int>
    requires i <= |b|
    decreases |b| - i
  {
    if i == |b| then (if lastZero then [] else [i])
    else if lastZero && b[i] == '1' then [i] + StripesFrom(b, i + 1, false)
    else if !lastZero && b[i] == '0' then [i] + StripesFrom(b, i + 1, true)
    else StripesFrom(b, i + 1, lastZero)
  }

  /** b2s (ean_render.go:9-29): the stripe boundaries of a module string. */
  function Stripes(b: string): seq<int> {
    StripesFrom(b, 0, true)
  }

  /** Consecutive pairs of a boundary list, as drawStripe reads them: (s[0], s[1]), (s[2], s[3]), ... */
  function Bars(s: seq<int>): (bars: seq<(int, int)>)
    ensures |bars| == |s| / 2
    ensures forall j | 0 <= j < |bars| :: bars[j] == (s[2 * j], s[2 * j + 1])
  {
    seq(|s| / 2, j requires 0 <= j < |s| / 2 => (s[2 * j], s[2 * j + 1]))
  }

  /** Module `k` is black: some bar [x0, x1) contains it. */
  predicate Covers(bars: seq<(int, int)>, k: int) {
    exists j | 0 <= j < |bars| :: bars[j].0 <= k < bars[j].1
  }

  predicate Increasing(s: seq<int>) {
    forall i, j | 0 <= i < j < |s| :: s[i] < s[j]
  }

  /** A boundary list for a string of `n` modules: pairs of strictly increasing offsets in [lo, n]. */
  predicate IsStripeList(s: seq<int>, lo: int, n: int) {
    Increasing(s) && forall i | 0 <= i < |s| :: lo <= s[i] <= n
  }

  lemma BarsCons(x: int, r: seq<int>)
    requires |r| >= 1
    ensures Bars([x] + r) == [(x, r[0])] + Bars(r[1..])
  {
    var lhs, rhs := Bars([x] + r), [(x, r[0])] + Bars(r[1..]);
    assert |lhs| == |rhs|;
    forall j | 0 <= j < |lhs| ensures lhs[j] == rhs[j] {
      if j > 0 {
        assert ([x] + r)[2 * j] == r[1..][2 * (j - 1)];
      }
    }
  }

  lemma CoversCons(p: (int, int), bars: seq<(int, int)>, k: int)
    ensures Covers([p] + bars, k) <==> (p.0 <= k < p.1 || Covers(bars, k))
  {
    var all := [p] + bars;
    assert all[0] == p;
    if Covers(bars, k) {
      var j :| 0 <= j < |bars| && bars[j].0 <= k < bars[j].1;
      assert all[j + 1] == bars[j];
    }
    if Covers(all, k) {
      var j :| 0 <= j < |all| && all[j].0 <= k < all[j].1;
      if j > 0 {
        assert bars[j - 1] == all[j];
      }
    }
  }

  lemma NotCovered(bars: seq<(int, int)>, k: int)
    requires forall j | 0 <= j < |bars| :: bars[j].0 > k
    ensures !Covers(bars, k)
  {
  }

  lemma IncreasingCons(x: int, r: seq<int>, hi: int)
    requires x <= hi && IsStripeList(r, x + 1, hi)
    ensures IsStripeList([x] + r, x, hi)
  {
    var s := [x] + r;
    forall i, j | 0 <= i < j < |s| ensures s[i] < s[j] {
      if i > 0 {
        assert s[i] == r[i - 1] && s[j] == r[j - 1];
      } else {
        assert s[j] == r[j - 1];
      }
    }
  }

  /** What b2s produces from index `i` on is an increasing list in [i, |b|], odd exactly when it
      starts inside a black run. */
  lemma {:induction false} StripesFromShape(b: string, i: nat, lastZero: bool)
    requires i <= |b|
    ensures IsStripeList(StripesFrom(b, i, lastZero), i, |b|)
    ensures |StripesFrom(b, i, lastZero)| % 2 == if lastZero then 0 else 1
    decreases |b| - i
  {
    if i < |b| {
      var r' := StripesFrom(b, i + 1, !lastZero);
      StripesFromShape(b, i + 1, lastZero);
      StripesFromShape(b, i + 1, !lastZero);
      if (lastZero && b[i] == '1') || (!lastZero && b[i] == '0') {
        IncreasingCons(i, r', |b|);
      }
    }
  }

  /** The boundaries still relevant at index `i`: inside a black run, the run (re)opens at i - 1. */
  function Pending(b: string, i: nat, lastZero: bool): seq<int>
    requires i <= |b|
  {
    (if lastZero then [] else [i - 1]) + StripesFrom(b, i, lastZero)
  }

  /** The module-to-colour reading of a boundary list, restricted to [i, |b|). */
  ghost predicate CoverMatches(b: string, i: nat, s: seq<int>) {
    forall k | i <= k < |b| :: b[k] == '1' <==> Covers(Bars(s), k)
  }

  lemma CoverEnterBlack(b: string, i: nat)
    requires i < |b| && b[i] == '1'
    requires CoverMatches(b, i + 1, Pending(b, i + 1, false))
    ensures CoverMatches(b, i, Pending(b, i, true))
  {
    var r' := StripesFrom(b, i + 1, false);
    StripesFromShape(b, i + 1, false);
    assert Pending(b, i, true) == [i] + r' == Pending(b, i + 1, false);
    BarsCons(i, r');
    CoversCons((i, r'[0]), Bars(r'[1..]), i);
  }

  /** A boundary list with every entry above k covers nothing at k. */
  lemma NotCoveredBelow(s: seq<int>, k: int)
    requires forall j | 0 <= j < |s| :: s[j] > k
    ensures !Covers(Bars(s), k)
  {
    var bars := Bars(s);
    forall j | 0 <= j < |bars| ensures bars[j].0 > k {
      assert bars[j].0 == s[2 * j];
    }
    NotCovered(bars, k);
  }

  lemma CoverLeaveBlack(b: string, i: nat)
    requires i < |b| && b[i] == '0'
    requires CoverMatches(b, i + 1, Pending(b, i + 1, true))
    ensures CoverMatches(b, i, Pending(b, i, false))
  {
    var r' := StripesFrom(b, i + 1, true);
    StripesFromShape(b, i + 1, true);
    var p := Pending(b, i, false);
    assert p == [i - 1] + ([i] + r');
    BarsCons(i - 1, [i] + r');
    assert ([i] + r')[1..] == r';
    assert Bars(p) == [(i - 1, i)] + Bars(r');
    assert Pending(b, i + 1, true) == r';
    forall k | i <= k < |b| ensures b[k] == '1' <==> Covers(Bars(p), k) {
      CoversCons((i - 1, i), Bars(r'), k);
      if k == i {
        NotCoveredBelow(r', i);
      }
    }
  }

  lemma CoverStayWhite(b: string, i: nat)
    requires i < |b| && b[i] == '0'
    requires CoverMatches(b, i + 1, Pending(b, i + 1, true))
    ensures CoverMatches(b, i, Pending(b, i, true))
  {
    var r' := StripesFrom(b, i + 1, true);
    StripesFromShape(b, i + 1, true);
    assert Pending(b, i, true) == r' == Pending(b, i + 1, true);
    NotCoveredBelow(r', i);
  }

  /** Moving the start of the first bar from x to y changes nothing from y on. */
  lemma CoversHeadMoved(x: int, y: int, r: seq<int>, k: int)
    requires |r| >= 1 && x <= y <= k
    ensures Covers(Bars([x] + r), k) <==> Covers(Bars([y] + r), k)
  {
    BarsCons(x, r);
    BarsCons(y, r);
    CoversCons((x, r[0]), Bars(r[1..]), k);
    CoversCons((y, r[0]), Bars(r[1..]), k);
  }

  /** The first bar of [x] + r covers every module in [x, r[0]). */
  lemma CoversFirst(x: int, r: seq<int>, k: int)
    requires |r| >= 1 && x <= k < r[0]
    ensures Covers(Bars([x] + r), k)
  {
    BarsCons(x, r);
    CoversCons((x, r[0]), Bars(r[1..]), k);
  }

  lemma CoverStayBlack(b: string, i: nat)
    requires i < |b| && b[i] == '1'
    requires CoverMatches(b, i + 1, Pending(b, i + 1, false))
    ensures CoverMatches(b, i, Pending(b, i, false))
  {
    var r' := StripesFrom(b, i + 1, false);
    StripesFromShape(b, i + 1, false);
    assert Pending(b, i, false) == [i - 1] + r';
    assert Pending(b, i + 1, false) == [i] + r';
    forall k | i <= k < |b| ensures b[k] == '1' <==> Covers(Bars([i - 1] + r'), k) {
      if k == i {
        CoversFirst(i - 1, r', k);
      } else {
        CoversHeadMoved(i - 1, i, r', k);
      }
    }
  }

  /** In a binary string, the modules from `i` on that b2s marks black are exactly the '1's. */
  lemma {:induction false} StripesFromCover(b: string, i: nat, lastZero: bool)
    requires IsBinary(b) && i <= |b|
    ensures CoverMatches(b, i, Pending(b, i, lastZero))
    decreases |b| - i
  {
    if i < |b| {
      StripesFromCover(b, i + 1, true);
      StripesFromCover(b, i + 1, false);
      if b[i] == '1' {
        if lastZero { CoverEnterBlack(b, i); } else { CoverStayBlack(b, i); }
      } else {
        if lastZero { CoverStayWhite(b, i); } else { CoverLeaveBlack(b, i); }
      }
    }
  }

  /** b2s gives an even, strictly increasing list in [0, |b|] whose pairs are exactly the runs of
      '1' in a binary string; the pairs are disjoint and separated, so the runs are maximal. */
  lemma StripesAreRuns(b: string)
    requires IsBinary(b)
    ensures IsStripeList(Stripes(b), 0, |b|) && |Stripes(b)| % 2 == 0
    ensures forall k | 0 <= k < |b| :: b[k] == '1' <==> Covers(Bars(Stripes(b)), k)
  {
    StripesFromShape(b, 0, true);
    StripesFromCover(b, 0, true);
    assert Pending(b, 0, true) == Stripes(b);
  }

  /** b2s (ean_render.go:9-29), the loop that appends a boundary at every change of colour. */
  method B2S(b: string) returns (r: seq<int>)
    ensures r == Stripes(b)
    ensures IsBinary(b) ==> IsStripeList(r, 0, |b|) && |r| % 2 == 0
    ensures IsBinary(b) ==> forall k | 0 <= k < |b| :: b[k] == '1' <==> Covers(Bars(r), k)
  {
    var lastZero := true;
    r := [];
    for i := 0 to |b|
      invariant r + StripesFrom(b, i, lastZero) == Stripes(b)
    {
      if lastZero {
        if b[i] == '1' {
          r := r + [i];
          lastZero := false;
        }
      } else {
        if b[i] == '0' {
          r := r + [i];
          lastZero := true;
        }
      }
    }
    if !lastZero {
      r := r + [|b|];
    }
    if IsBinary(b) {
      StripesAreRuns(b);
    }
  }

  /** barTable's module strings (ean_render.go:31-42): per digit the L, G and R codes. */
  const BarPatterns: seq<seq<string>> := [
    ["0001101", "0100111", "1110010"],
    ["0011001", "0110011", "1100110"],
    ["0010011", "0011011", "1101100"],
    ["0111101", "0100001", "1000010"],
    ["0100011", "0011101", "1011100"],
    ["0110001", "0111001", "1001110"],
    ["0101111", "0000101", "1010000"],
    ["0111011", "0010001", "1000100"],
    ["0110111", "0001001", "1001000"],
    ["0001011", "0010111", "1110100"]
  ]

  /** barTable (ean_render.go:31-42), written out decoded; BarTableIsB2S proves that every entry
      is b2s of the corresponding module string in BarPatterns. */
  const BarTable: seq<seq<seq<int>>> := [
    [[3, 5, 6, 7], [1, 2, 4, 7], [0, 3, 5, 6]],
    [[2, 4, 6, 7], [1, 3, 5, 7], [0, 2, 4, 6]],
    [[2, 3, 5, 7], [2, 4, 5, 7], [0, 2, 3, 5]],
    [[1, 5, 6, 7], [1, 2, 6, 7], [0, 1, 5, 6]],
    [[1, 2, 5, 7], [2, 5, 6, 7], [0, 1, 2, 5]],
    [[1, 3, 6, 7], [1, 4, 6, 7], [0, 1, 3, 6]],
    [[1, 2, 3, 7], [4, 5, 6, 7], [0, 1, 2, 3]],
    [[1, 4, 5, 7], [2, 3, 6, 7], [0, 1, 4, 5]],
    [[1, 3, 4, 7], [3, 4, 6, 7], [0, 1, 3, 4]],
    [[3, 4, 5, 7], [2, 3, 4, 7], [0, 3, 4, 5]]
  ]

  /** The L, G and R codes of digit 0 in barTable are b2s of their module strings. */
  lemma Row0IsB2S()
    ensures BarTable[0][0] == Stripes(BarPatterns[0][0])
    ensures BarTable[0][1] == Stripes(BarPatterns[0][1])
    ensures BarTable[0][2] == Stripes(BarPatterns[0][2])
  {
    assert BarPatterns[0][0] == "0001101";
    assert Stripes("0001101") == [3, 5, 6, 7];
    assert BarPatterns[0][1] == "0100111";
    assert Stripes("0100111") == [1, 2, 4, 7];
    assert BarPatterns[0][2] == "1110010";
    assert Stripes("1110010") == [0, 3, 5, 6];
  }

  /** The L, G and R codes of digit 1 in barTable are b2s of their module strings. */
  lemma Row1IsB2S()
    ensures BarTable[1][0] == Stripes(BarPatterns[1][0])
    ensures BarTable[1][1] == Stripes(BarPatterns[1][1])
    ensures BarTable[1][2] == Stripes(BarPatterns[1][2])
  {
    assert BarPatterns[1][0] == "0011001";
    assert Stripes("0011001") == [2, 4, 6, 7];
    assert BarPatterns[1][1] == "0110011";
    assert Stripes("0110011") == [1, 3, 5, 7];
    assert BarPatterns[1][2] == "1100110";
    assert Stripes("1100110") == [0, 2, 4, 6];
  }

  /** The L, G and R codes of digit 2 in barTable are b2s of their module strings. */
  lemma Row2IsB2S()
    ensures BarTable[2][0] == Stripes(BarPatterns[2][0])
    ensures BarTable[2][1] == Stripes(BarPatterns[2][1])
    ensures BarTable[2][2] == Stripes(BarPatterns[2][2])
  {
    assert BarPatterns[2][0] == "0010011";
    assert Stripes("0010011") == [2, 3, 5, 7];
    assert BarPatterns[2][1] == "0011011";
    assert Stripes("0011011") == [2, 4, 5, 7];
    assert BarPatterns[2][2] == "1101100";
    assert Stripes("1101100") == [0, 2, 3, 5];
  }

  /** The L, G and R codes of digit 3 in barTable are b2s of their module strings. */
  lemma Row3IsB2S()
    ensures BarTable[3][0] == Stripes(BarPatterns[3][0])
    ensures BarTable[3][1] == Stripes(BarPatterns[3][1])
    ensures BarTable[3][2] == Stripes(BarPatterns[3][2])
  {
    assert BarPatterns[3][0] == "0111101";
    assert Stripes("0111101") == [1, 5, 6, 7];
    assert BarPatterns[3][1] == "0100001";
    assert Stripes("0100001") == [1, 2, 6, 7];
    assert BarPatterns[3][2] == "1000010";
    assert Stripes("1000010") == [0, 1, 5, 6];
  }

  /** The L, G and R codes of digit 4 in barTable are b2s of their module strings. */
  lemma Row4IsB2S()
    ensures BarTable[4][0] == Stripes(BarPatterns[4][0])
    ensures BarTable[4][1] == Stripes(BarPatterns[4][1])
    ensures BarTable[4][2] == Stripes(BarPatterns[4][2])
  {
    assert BarPatterns[4][0] == "0100011";
    assert Stripes("0100011") == [1, 2, 5, 7];
    assert BarPatterns[4][1] == "0011101";
    assert Stripes("0011101") == [2, 5, 6, 7];
    assert BarPatterns[4][2] == "1011100";
    assert Stripes("1011100") == [0, 1, 2, 5];
  }

  /** The L, G and R codes of digit 5 in barTable are b2s of their module strings. */
  lemma Row5IsB2S()
    ensures BarTable[5][0] == Stripes(BarPatterns[5][0])
    ensures BarTable[5][1] == Stripes(BarPatterns[5][1])
    ensures BarTable[5][2] == Stripes(BarPatterns[5][2])
  {
    assert BarPatterns[5][0] == "0110001";
    assert Stripes("0110001") == [1, 3, 6, 7];
    assert BarPatterns[5][1] == "0111001";
    assert Stripes("0111001") == [1, 4, 6, 7];
    assert BarPatterns[5][2] == "1001110";
    assert Stripes("1001110") == [0, 1, 3, 6];
  }

  /** The L, G and R codes of digit 6 in barTable are b2s of their module strings. */
  lemma Row6IsB2S()
    ensures BarTable[6][0] == Stripes(BarPatterns[6][0])
    ensures BarTable[6][1] == Stripes(BarPatterns[6][1])
    ensures BarTable[6][2] == Stripes(BarPatterns[6][2])
  {
    assert BarPatterns[6][0] == "0101111";
    assert Stripes("0101111") == [1, 2, 3, 7];
    assert BarPatterns[6][1] == "0000101";
    assert Stripes("0000101") == [4, 5, 6, 7];
    assert BarPatterns[6][2] == "1010000";
    assert Stripes("1010000") == [0, 1, 2, 3];
  }

  /** The L, G and R codes of digit 7 in barTable are b2s of their module strings. */
  lemma Row7IsB2S()
    ensures BarTable[7][0] == Stripes(BarPatterns[7][0])
    ensures BarTable[7][1] == Stripes(BarPatterns[7][1])
    ensures BarTable[7][2] == Stripes(BarPatterns[7][2])
  {
    assert BarPatterns[7][0] == "0111011";
    assert Stripes("0111011") == [1, 4, 5, 7];
    assert BarPatterns[7][1] == "0010001";
    assert Stripes("0010001") == [2, 3, 6, 7];
    assert BarPatterns[7][2] == "1000100";
    assert Stripes("1000100") == [0, 1, 4, 5];
  }

  /** The L, G and R codes of digit 8 in barTable are b2s of their module strings. */
  lemma Row8IsB2S()
    ensures BarTable[8][0] == Stripes(BarPatterns[8][0])
    ensures BarTable[8][1] == Stripes(BarPatterns[8][1])
    ensures BarTable[8][2] == Stripes(BarPatterns[8][2])
  {
    assert BarPatterns[8][0] == "0110111";
    assert Stripes("0110111") == [1, 3, 4, 7];
    assert BarPatterns[8][1] == "0001001";
    assert Stripes("0001001") == [3, 4, 6, 7];
    assert BarPatterns[8][2] == "1001000";
    assert Stripes("1001000") == [0, 1, 3, 4];
  }

  /** The L, G and R codes of digit 9 in barTable are b2s of their module strings. */
  lemma Row9IsB2S()
    ensures BarTable[9][0] == Stripes(BarPatterns[9][0])
    ensures BarTable[9][1] == Stripes(BarPatterns[9][1])
    ensures BarTable[9][2] == Stripes(BarPatterns[9][2])
  {
    assert BarPatterns[9][0] == "0001011";
    assert Stripes("0001011") == [3, 4, 5, 7];
    assert BarPatterns[9][1] == "0010111";
    assert Stripes("0010111") == [2, 3, 4, 7];
    assert BarPatterns[9][2] == "1110100";
    assert Stripes("1110100") == [0, 3, 4, 5];
  }

  lemma BarTableIsB2S()
    ensures |BarTable| == 10 && forall d | 0 <= d < 10 :: |BarTable[d]| == 3
    ensures forall d, k | 0 <= d < 10 && 0 <= k < 3 :: BarTable[d][k] == Stripes(BarPatterns[d][k])
  {
    forall d, k | 0 <= d < 10 && 0 <= k < 3 ensures BarTable[d][k] == Stripes(BarPatterns[d][k]) {
      if d == 0 { Row0IsB2S(); }
      else if d == 1 { Row1IsB2S(); }
      else if d == 2 { Row2IsB2S(); }
      else if d == 3 { Row3IsB2S(); }
      else if d == 4 { Row4IsB2S(); }
      else if d == 5 { Row5IsB2S(); }
      else if d == 6 { Row6IsB2S(); }
      else if d == 7 { Row7IsB2S(); }
      else if d == 8 { Row8IsB2S(); }
      else { Row9IsB2S(); }
    }
  }

  /** Two bars in a 7-module digit cell: four increasing boundaries within [0, 7]. */
  predicate TwoBars(s: seq<int>) {
    |s| == 4 && IsStripeList(s, 0, DigitBarSize)
  }

  /** Every barTable entry draws exactly two bars inside its digit cell. */
  lemma BarTableShape()
    ensures forall d, k | 0 <= d < 10 && 0 <= k < 3 :: TwoBars(BarTable[d][k])
  {
    forall d, k | 0 <= d < 10 && 0 <= k < 3 ensures TwoBars(BarTable[d][k]) {
      var s := BarTable[d][k];
      assert |s| == 4 && 0 <= s[0] < s[1] < s[2] < s[3] <= 7;
    }
  }

  /** L and G codes start with a white module and R codes start black and end white, which
      keeps the bars of neighbouring digits apart. */
  lemma BarTableEdges()
    ensures forall d, k | 0 <= d < 10 && 0 <= k < 2 :: BarTable[d][k][0] >= 1
    ensures forall d | 0 <= d < 10 :: BarTable[d][2][0] == 0 && BarTable[d][2][3] <= 6
  {
  }

  /** The module-wise complement of a binary string. */
  function Complement(b: string): (c: string)
    ensures |c| == |b|
    ensures forall i | 0 <= i < |b| :: (c[i] == '1') <==> (b[i] != '1')
  {
    seq(|b|, i requires 0 <= i < |b| => if b[i] == '1' then '0' else '1')
  }

  function Reverse(b: string): (r: string)
    ensures |r| == |b|
    ensures forall i | 0 <= i < |b| :: r[i] == b[|b| - 1 - i]
  {
    seq(|b|, i requires 0 <= i < |b| => b[|b| - 1 - i])
  }

  /** Number set C (R) is the module-wise complement of number set A (L). */
  lemma BarPatternComplement()
    ensures forall d | 0 <= d < 10 :: BarPatterns[d][2] == Complement(BarPatterns[d][0])
  {
    assert BarPatterns[0][0] == "0001101" && BarPatterns[0][2] == "1110010";
    assert Complement("0001101") == "1110010";
    assert BarPatterns[1][0] == "0011001" && BarPatterns[1][2] == "1100110";
    assert Complement("0011001") == "1100110";
    assert BarPatterns[2][0] == "0010011" && BarPatterns[2][2] == "1101100";
    assert Complement("0010011") == "1101100";
    assert BarPatterns[3][0] == "0111101" && BarPatterns[3][2] == "1000010";
    assert Complement("0111101") == "1000010";
    assert BarPatterns[4][0] == "0100011" && BarPatterns[4][2] == "1011100";
    assert Complement("0100011") == "1011100";
    assert BarPatterns[5][0] == "0110001" && BarPatterns[5][2] == "1001110";
    assert Complement("0110001") == "1001110";
    assert BarPatterns[6][0] == "0101111" && BarPatterns[6][2] == "1010000";
    assert Complement("0101111") == "1010000";
    assert BarPatterns[7][0] == "0111011" && BarPatterns[7][2] == "1000100";
    assert Complement("0111011") == "1000100";
    assert BarPatterns[8][0] == "0110111" && BarPatterns[8][2] == "1001000";
    assert Complement("0110111") == "1001000";
    assert BarPatterns[9][0] == "0001011" && BarPatterns[9][2] == "1110100";
    assert Complement("0001011") == "1110100";
  }

  /** Number set B (G) is number set C (R) read backwards. */
  lemma BarPatternReverse()
    ensures forall d | 0 <= d < 10 :: BarPatterns[d][1] == Reverse(BarPatterns[d][2])
  {
    assert BarPatterns[0][1] == "0100111" && BarPatterns[0][2] == "1110010";
    assert Reverse("1110010") == "0100111";
    assert BarPatterns[1][1] == "0110011" && BarPatterns[1][2] == "1100110";
    assert Reverse("1100110") == "0110011";
    assert BarPatterns[2][1] == "0011011" && BarPatterns[2][2] == "1101100";
    assert Reverse("1101100") == "0011011";
    assert BarPatterns[3][1] == "0100001" && BarPatterns[3][2] == "1000010";
    assert Reverse("1000010") == "0100001";
    assert BarPatterns[4][1] == "0011101" && BarPatterns[4][2] == "1011100";
    assert Reverse("1011100") == "0011101";
    assert BarPatterns[5][1] == "0111001" && BarPatterns[5][2] == "1001110";
    assert Reverse("1001110") == "0111001";
    assert BarPatterns[6][1] == "0000101" && BarPatterns[6][2] == "1010000";
    assert Reverse("1010000") == "0000101";
    assert BarPatterns[7][1] == "0010001" && BarPatterns[7][2] == "1000100";
    assert Reverse("1000100") == "0010001";
    assert BarPatterns[8][1] == "0001001" && BarPatterns[8][2] == "1001000";
    assert Reverse("1001000") == "0001001";
    assert BarPatterns[9][1] == "0010111" && BarPatterns[9][2] == "1110100";
    assert Reverse("1110100") == "0010111";
  }

  /** dispatchTable (ean_render.go:44-55): the L (0) / G (1) parity of the six left digits,
      selected by the leading digit. */
  const DispatchTable: seq<seq<int>> := [
    [0, 0, 0, 0, 0, 0],
    [0, 0, 1, 0, 1, 1],
    [0, 0, 1, 1, 0, 1],
    [0, 0, 1, 1, 1, 0],
    [0, 1, 0, 0, 1, 1],
    [0, 1, 1, 0, 0, 1],
    [0, 1, 1, 1, 0, 0],
    [0, 1, 0, 1, 0, 1],
    [0, 1, 0, 1, 1, 0],
    [0, 1, 1, 0, 1, 0]
  ]

  /** Leading digit 0 is all L, position 1 is always L, and every entry is L or G. */
  lemma DispatchTableShape()
    ensures |DispatchTable| == 10
    ensures forall f | 0 <= f < 10 :: |DispatchTable[f]| == 6
    ensures forall f, p | 0 <= f < 10 && 0 <= p < 6 :: DispatchTable[f][p] in {0, 1}
    ensures forall p | 0 <= p < 6 :: DispatchTable[0][p] == 0
    ensures forall f | 0 <= f < 10 :: DispatchTable[f][0] == 0
  {
  }

  /** Every leading digit other than 0 selects exactly three G digits. */
  lemma DispatchTableThreeG()
    ensures forall f | 1 <= f < 10 :: multiset(DispatchTable[f])[1] == 3
  {
    forall f | 1 <= f < 10 ensures multiset(DispatchTable[f])[1] == 3 {
      ThreeGRow(f);
      OnesCounted(DispatchTable[f]);
    }
  }

  lemma ThreeGRow(f: int)
    requires 1 <= f < 10
    ensures Ones(DispatchTable[f]) == 3
  {
    var row := DispatchTable[f];
    OnesOfSix(row);
  }

  function IsG(p: int): nat {
    if p == 1 then 1 else 0
  }

  /** The number of G (1) entries of a parity row. */
  function Ones(row: seq<int>): nat {
    if row == [] then 0 else IsG(row[0]) + Ones(row[1..])
  }

  lemma {:induction false} OnesCounted(row: seq<int>)
    ensures multiset(row)[1] == Ones(row)
  {
    if row != [] {
      OnesCounted(row[1..]);
      assert row == [row[0]] + row[1..];
    }
  }

  lemma OnesSlice(row: seq<int>, k: int)
    requires 0 <= k < |row|
    ensures Ones(row[k..]) == IsG(row[k]) + Ones(row[k + 1..])
  {
    assert row[k..][1..] == row[k + 1..];
  }

  lemma OnesOfSix(row: seq<int>)
    requires |row| == 6
    ensures Ones(row) == IsG(row[0]) + IsG(row[1]) + IsG(row[2]) + IsG(row[3]) + IsG(row[4]) + IsG(row[5])
  {
    assert row[0..] == row;
    OnesSlice(row, 0);
    OnesSlice(row, 1);
    OnesSlice(row, 2);
    OnesSlice(row, 3);
    OnesSlice(row, 4);
    OnesSlice(row, 5);
    assert row[6..] == [];
  }

  /** Distinct leading digits select distinct parity patterns, so the leading digit can be
      read back from the parities of the left half. */
  lemma DispatchTableDistinct()
    ensures forall f, f' | 0 <= f < f' < 10 :: DispatchTable[f] != DispatchTable[f']
  {
  }

  /** startMarker, endMarker and centerMarker (ean_render.go:57-61), written out decoded;
      MarkersDecoded proves that they are b2s of "101", "101" and "01010". */
  const StartMarker: seq<int> := [0, 1, 2, 3]
  const EndMarker: seq<int> := StartMarker
  const CenterMarker: seq<int> := [1, 2, 3, 4]

  /** The guard patterns as stripe lists: 101 is [0,1) and [2,3); 01010 is [1,2) and [3,4). */
  lemma MarkersDecoded()
    ensures StartMarker == Stripes("101") && EndMarker == Stripes("101")
    ensures CenterMarker == Stripes("01010")
    ensures IsStripeList(StartMarker, 0, StartMarkerSize) && IsStripeList(CenterMarker, 0, CenterMarkerSize)
  {
    assert Stripes("101") == [0, 1, 2, 3];
    assert Stripes("01010") == [1, 2, 3, 4];
  }
}
