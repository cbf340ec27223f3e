/** Autoscale: the visible candles, the scale that fits them, and the three systems that apply it. */
module ChartAutoscale {
  import opened Wrappers
  import opened RealArithmetic
  import opened ChartView

  /** Prices are finite single-precision numbers. */
  const F32_MAX: real := 340282346638528859811704183484516925440.0

  type Price = p: real | -F32_MAX <= p <= F32_MAX witness 0.0

  datatype Candle = Candle(openTime: int, high: Price, low: Price)

  predicate Ascending(ohlc: seq<Candle>) {
    forall i, j :: 0 <= i < j < |ohlc| ==> ohlc[i].openTime <= ohlc[j].openTime
  }

  // ── The visible candles ──

  function Margin(v: View): real {
    v.cellWidth * v.scaling
  }

  predicate NotLeft(v: View, c: Candle)
    requires v.timeframe > 0
  {
    IntervalToX(v, c.openTime) >= -v.width / 2.0 - Margin(v)
  }

  predicate NotRight(v: View, c: Candle)
    requires v.timeframe > 0
  {
    IntervalToX(v, c.openTime) <= v.width / 2.0 + Margin(v)
  }

  /** Within one candle of the drawing area. */
  predicate Visible(v: View, c: Candle)
    requires v.timeframe > 0
  {
    NotLeft(v, c) && NotRight(v, c)
  }

  /** Index of the first candle not left of the area, or the length. */
  function First(v: View, ohlc: seq<Candle>): (n: nat)
    requires v.timeframe > 0
    ensures n <= |ohlc|
  {
    if ohlc == [] || NotLeft(v, ohlc[0]) then 0 else 1 + First(v, ohlc[1..])
  }

  /** One past the last candle not right of the area, if there is one. */
  function Last(v: View, ohlc: seq<Candle>): (n: Option<nat>)
    requires v.timeframe > 0
    ensures n.Some? ==> 0 < n.value <= |ohlc|
  {
    if ohlc == [] then None
    else if NotRight(v, ohlc[|ohlc| - 1]) then Some(|ohlc|)
    else Last(v, ohlc[..|ohlc| - 1])
  }

  function VisibleSlice(v: View, ohlc: seq<Candle>): seq<Candle>
    requires v.timeframe > 0
  {
    var start := First(v, ohlc);
    var last := Last(v, ohlc);
    ohlc[start..if last.None? || last.value < start then start else last.value]
  }

  function Filter(v: View, ohlc: seq<Candle>): seq<Candle>
    requires v.timeframe > 0
  {
    if ohlc == [] then []
    else Filter(v, ohlc[..|ohlc| - 1]) + if Visible(v, ohlc[|ohlc| - 1]) then [ohlc[|ohlc| - 1]] else []
  }

  lemma {:induction false} FirstIs(v: View, ohlc: seq<Candle>, i: nat)
    requires v.timeframe > 0
    ensures i < First(v, ohlc) ==> !NotLeft(v, ohlc[i])
    ensures i == First(v, ohlc) < |ohlc| ==> NotLeft(v, ohlc[i])
  {
    if ohlc != [] && !NotLeft(v, ohlc[0]) && i > 0 {
      FirstIs(v, ohlc[1..], i - 1);
    }
  }

  lemma {:induction false} LastIs(v: View, ohlc: seq<Candle>, i: nat)
    requires v.timeframe > 0 && i < |ohlc|
    ensures Last(v, ohlc).None? || i >= Last(v, ohlc).value ==> !NotRight(v, ohlc[i])
    ensures Last(v, ohlc).Some? && i == Last(v, ohlc).value - 1 ==> NotRight(v, ohlc[i])
  {
    if !NotRight(v, ohlc[|ohlc| - 1]) && i < |ohlc| - 1 {
      LastIs(v, ohlc[..|ohlc| - 1], i);
    }
  }

  lemma OrderedSides(v: View, a: Candle, b: Candle)
    requires Normal(v) && a.openTime <= b.openTime
    ensures NotLeft(v, a) ==> NotLeft(v, b)
    ensures NotRight(v, b) ==> NotRight(v, a)
  {
    IntervalToXIncreases(v, a.openTime, b.openTime);
    hide IntervalToX;
  }

  lemma {:induction false} FilterRange(v: View, ohlc: seq<Candle>, start: nat, end: nat)
    requires v.timeframe > 0 && start <= end <= |ohlc|
    requires forall i :: 0 <= i < |ohlc| ==> (Visible(v, ohlc[i]) <==> start <= i < end)
    ensures Filter(v, ohlc) == ohlc[start..end]
  {
    hide Visible;
    if ohlc != [] {
      var n := |ohlc| - 1;
      var rest := ohlc[..n];
      assert forall i :: 0 <= i < n ==> rest[i] == ohlc[i];
      if end == |ohlc| && start < end {
        FilterRange(v, rest, start, n);
        assert ohlc[start..end] == rest[start..n] + [ohlc[n]];
      } else if end == |ohlc| {
        FilterRange(v, rest, n, n);
      } else {
        FilterRange(v, rest, start, end);
        assert ohlc[start..end] == rest[start..end];
      }
    }
  }

  /** For candles in time order, the slice between the two searches holds exactly the visible ones. */
  lemma VisibleSliceExact(v: View, ohlc: seq<Candle>)
    requires Normal(v) && Ascending(ohlc)
    ensures VisibleSlice(v, ohlc) == Filter(v, ohlc)
  {
    var start, last := First(v, ohlc), Last(v, ohlc);
    var end := if last.None? || last.value < start then start else last.value;
    hide First, Last, NotLeft, NotRight;
    forall i | 0 <= i < |ohlc| ensures Visible(v, ohlc[i]) <==> start <= i < end {
      FirstIs(v, ohlc, i);
      LastIs(v, ohlc, i);
      if start <= i {
        FirstIs(v, ohlc, start);
        OrderedSides(v, ohlc[start], ohlc[i]);
      }
      if last.Some? && i < last.value {
        LastIs(v, ohlc, last.value - 1);
        OrderedSides(v, ohlc[i], ohlc[last.value - 1]);
      }
    }
    FilterRange(v, ohlc, start, end);
  }

  lemma {:induction false} FilterMembers(v: View, ohlc: seq<Candle>, c: Candle)
    requires v.timeframe > 0
    ensures c in Filter(v, ohlc) <==> c in ohlc && Visible(v, c)
  {
    hide Visible;
    if ohlc != [] {
      var n := |ohlc| - 1;
      FilterMembers(v, ohlc[..n], c);
      assert ohlc == ohlc[..n] + [ohlc[n]];
    }
  }

  /** Of candles in time order the slice is one stretch: those whose column is within one candle of the area. */
  lemma VisibleIff(v: View, ohlc: seq<Candle>, c: Candle)
    requires Normal(v) && Ascending(ohlc)
    ensures exists i, j :: 0 <= i <= j <= |ohlc| && VisibleSlice(v, ohlc) == ohlc[i..j]
    ensures c in VisibleSlice(v, ohlc) <==>
            && c in ohlc
            && -v.width / 2.0 - v.cellWidth * v.scaling <= IntervalToX(v, c.openTime)
            && IntervalToX(v, c.openTime) <= v.width / 2.0 + v.cellWidth * v.scaling
  {
    hide VisibleSlice, IntervalToX, Filter, Visible, Ascending, Normal;
    BasisPositive(v);
    SliceIsStretch(v, ohlc);
    VisibleSliceExact(v, ohlc);
    FilterMembers(v, ohlc, c);
    VisibleColumns(v, c);
  }

  lemma BasisPositive(v: View)
    requires Normal(v)
    ensures v.timeframe > 0
  {
  }

  lemma VisibleColumns(v: View, c: Candle)
    requires v.timeframe > 0
    ensures Visible(v, c) <==>
            && -v.width / 2.0 - v.cellWidth * v.scaling <= IntervalToX(v, c.openTime)
            && IntervalToX(v, c.openTime) <= v.width / 2.0 + v.cellWidth * v.scaling
  {
    hide IntervalToX;
  }

  lemma SliceIsStretch(v: View, ohlc: seq<Candle>)
    requires v.timeframe > 0
    ensures exists i, j :: 0 <= i <= j <= |ohlc| && VisibleSlice(v, ohlc) == ohlc[i..j]
  {
    var start, last := First(v, ohlc), Last(v, ohlc);
    var end := if last.None? || last.value < start then start else last.value;
    assert VisibleSlice(v, ohlc) == ohlc[start..end];
    hide *;
  }

  method Position(v: View, ohlc: seq<Candle>) returns (start: nat)
    requires v.timeframe > 0
    ensures start == First(v, ohlc)
  {
    hide NotLeft;
    start := 0;
    assert ohlc[0..] == ohlc;
    while start < |ohlc| && !NotLeft(v, ohlc[start])
      invariant 0 <= start <= |ohlc|
      invariant First(v, ohlc) == start + First(v, ohlc[start..])
    {
      assert ohlc[start..][1..] == ohlc[start + 1..];
      start := start + 1;
    }
  }

  method RPosition(v: View, ohlc: seq<Candle>) returns (end: Option<nat>)
    requires v.timeframe > 0
    ensures end == Last(v, ohlc)
  {
    hide NotRight;
    var n := |ohlc|;
    assert ohlc[..n] == ohlc;
    while n > 0 && !NotRight(v, ohlc[n - 1])
      invariant 0 <= n <= |ohlc|
      invariant Last(v, ohlc) == Last(v, ohlc[..n])
    {
      assert ohlc[..n][..n - 1] == ohlc[..n - 1];
      n := n - 1;
    }
    end := if n == 0 then None else Some(n);
  }

  method VisibleCandleSlice(v: View, ohlc: seq<Candle>) returns (visible: seq<Candle>)
    requires v.timeframe > 0
    ensures visible == VisibleSlice(v, ohlc)
  {
    if ohlc == [] {
      return ohlc;
    }
    var start := Position(v, ohlc);
    var last := RPosition(v, ohlc);
    var end := if last.None? then start else last.value;
    visible := ohlc[start..if end < start then start else end];
  }

  // ── The scale that fits ──

  function Highest(cs: seq<Candle>): Price {
    if cs == [] then -F32_MAX
    else
      var m := Highest(cs[..|cs| - 1]);
      if cs[|cs| - 1].high > m then cs[|cs| - 1].high else m
  }

  function Lowest(cs: seq<Candle>): Price {
    if cs == [] then F32_MAX
    else
      var m := Lowest(cs[..|cs| - 1]);
      if cs[|cs| - 1].low < m then cs[|cs| - 1].low else m
  }

  /** Height of the padded price range: a tenth of it on either side, or one unit when flat. */
  function PaddedRange(min: real, max: real): (r: real)
    ensures r >= F32_EPSILON
  {
    Max(if max - min > 0.0 then (max + (max - min) * 0.1) - (min - (max - min) * 0.1) else (max + 1.0) - (min - 1.0),
        F32_EPSILON)
  }

  /** The cell height at which a price range fills the main area. */
  function CellFor(v: View, range: real): real
    requires range > 0.0
  {
    MainAreaHeight(v) * v.tickSize / range
  }

  /** Base price and cell height: the middle of the range, and the range over the whole main area. */
  function Autoscale(v: View, ohlc: seq<Candle>): (real, real)
    requires v.timeframe > 0
  {
    var visible := VisibleSlice(v, ohlc);
    if visible == [] then (v.basePriceY, v.cellHeight)
    else
      var min, max := Lowest(visible), Highest(visible);
      ((min + max) / 2.0, CellFor(v, PaddedRange(min, max)))
  }

  method ComputeAutoscale(v: View, ohlc: seq<Candle>) returns (base: real, cell: real)
    requires v.timeframe > 0
    ensures (base, cell) == Autoscale(v, ohlc)
  {
    var visible := VisibleCandleSlice(v, ohlc);
    if visible == [] {
      return v.basePriceY, v.cellHeight;
    }
    var min: Price, max: Price := F32_MAX, -F32_MAX;
    for i := 0 to |visible|
      invariant min == Lowest(visible[..i]) && max == Highest(visible[..i])
    {
      assert visible[..i + 1][..i] == visible[..i];
      if visible[i].high > max {
        max := visible[i].high;
      }
      if visible[i].low < min {
        min := visible[i].low;
      }
    }
    assert visible[..|visible|] == visible;
    var raw := max - min;
    var lo, hi := min - 1.0, max + 1.0;
    if raw > 0.0 {
      var pad := raw * 0.1;
      lo, hi := min - pad, max + pad;
    }
    var range := Max(hi - lo, F32_EPSILON);
    assert range == PaddedRange(min, max);
    hide PaddedRange, VisibleSlice, Highest, Lowest, Max, CellFor;
    base := (lo + hi) / 2.0;
    cell := CellFor(v, range);
  }

  // ── The scale does not depend on the scale ──

  predicate SameColumns(v: View, w: View) {
    && v.width == w.width && v.panX == w.panX && v.scaling == w.scaling && v.cellWidth == w.cellWidth
    && v.timeframe == w.timeframe && v.latestX == w.latestX
  }

  lemma {:induction false} SameFirst(v: View, w: View, ohlc: seq<Candle>)
    requires SameColumns(v, w) && v.timeframe > 0
    ensures First(v, ohlc) == First(w, ohlc)
  {
    if ohlc != [] {
      SameFirst(v, w, ohlc[1..]);
    }
  }

  lemma {:induction false} SameLast(v: View, w: View, ohlc: seq<Candle>)
    requires SameColumns(v, w) && v.timeframe > 0
    ensures Last(v, ohlc) == Last(w, ohlc)
  {
    if ohlc != [] {
      SameLast(v, w, ohlc[..|ohlc| - 1]);
    }
  }

  /** The target scale is the same before and after the scale is set; with nothing visible it is the current one. */
  lemma AutoscaleIgnoresScale(v: View, base: real, cell: real, ohlc: seq<Candle>)
    requires v.timeframe > 0
    ensures var w := v.(basePriceY := base, cellHeight := cell);
            Autoscale(w, ohlc) == if VisibleSlice(v, ohlc) == [] then (base, cell) else Autoscale(v, ohlc)
  {
    var w := v.(basePriceY := base, cellHeight := cell);
    SameFirst(v, w, ohlc);
    SameLast(v, w, ohlc);
    hide First, Last, Highest, Lowest, PaddedRange, CellFor;
    assert VisibleSlice(w, ohlc) == VisibleSlice(v, ohlc);
    SameCellFor(v, w, PaddedRange(Lowest(VisibleSlice(v, ohlc)), Highest(VisibleSlice(v, ohlc))));
  }

  lemma SameCellFor(v: View, w: View, range: real)
    requires v.height == w.height && v.tickSize == w.tickSize && range > 0.0
    ensures CellFor(v, range) == CellFor(w, range)
  {
    assert MainAreaHeight(v) == MainAreaHeight(w);
    hide MainAreaHeight;
  }

  lemma CellForPositive(v: View, range: real)
    requires Normal(v) && range > 0.0
    ensures CellFor(v, range) > 0.0
  {
    MulPositive(MainAreaHeight(v), v.tickSize);
    var a := MainAreaHeight(v) * v.tickSize;
    MulDiv(a, range);
    Quotient(a, range, CellFor(v, range));
  }

  lemma Quotient(a: real, range: real, q: real)
    requires a > 0.0 && range > 0.0 && q * range == a
    ensures q > 0.0
  {
  }

  // ── It fits ──

  predicate WellFormed(cs: seq<Candle>) {
    forall c :: c in cs ==> c.low <= c.high
  }

  /** Every visible candle lies inside the main area, above the volume area. */
  predicate Fits(v: View, ohlc: seq<Candle>)
    requires v.timeframe > 0 && v.tickSize != 0.0
  {
    forall c :: c in VisibleSlice(v, ohlc) ==>
                  MainAreaBottom(v) <= PriceToY(v, c.low) && PriceToY(v, c.high) <= v.height / 2.0
  }

  lemma {:induction false} Extremes(cs: seq<Candle>, c: Candle)
    requires c in cs
    ensures c.high <= Highest(cs) && Lowest(cs) <= c.low
  {
    var last := |cs| - 1;
    if c != cs[last] {
      assert cs == cs[..last] + [cs[last]];
      Extremes(cs[..last], c);
    }
  }

  lemma {:induction false} HighestReached(cs: seq<Candle>)
    requires cs != []
    ensures exists c :: c in cs && c.high == Highest(cs)
  {
    var last := |cs| - 1;
    if last > 0 {
      HighestReached(cs[..last]);
      var c :| c in cs[..last] && c.high == Highest(cs[..last]);
      assert c in cs;
    } else {
      assert cs[..0] == [] && Highest([]) == -F32_MAX;
    }
    assert cs[last] in cs;
  }

  /** The spread of the visible prices. */
  function Spread(v: View, ohlc: seq<Candle>): real
    requires v.timeframe > 0
  {
    Highest(VisibleSlice(v, ohlc)) - Lowest(VisibleSlice(v, ohlc))
  }

  /** The scale is within the guard's tolerance of the one autoscale asks for. */
  predicate Close(v: View, ohlc: seq<Candle>)
    requires v.timeframe > 0
  {
    var (base, cell) := Autoscale(v, ohlc);
    && -F32_EPSILON <= v.basePriceY - base <= F32_EPSILON
    && -F32_EPSILON <= v.cellHeight - cell <= F32_EPSILON
  }

  /** With scaling 1 and no vertical pan, a price sits this far from the middle of the main area. */
  lemma Offset(v: View, p: real)
    requires Normal(v) && v.scaling == 1.0 && v.panY == 0.0
    ensures (PriceToY(v, p) - MainAreaCenter(v)) * v.tickSize == (p - v.basePriceY) * v.cellHeight
  {
    var d := p - v.basePriceY;
    assert PriceToY(v, p) - MainAreaCenter(v) == d / v.tickSize * v.cellHeight;
    MulDiv(d, v.tickSize);
    assert d / v.tickSize * v.cellHeight * v.tickSize == d / v.tickSize * v.tickSize * v.cellHeight;
  }

  lemma ProductBelow(d: real, a: real, c: real, k: real)
    requires d <= a && 0.0 <= c <= k && a >= 0.0
    ensures d * c <= a * k
  {
    MulMono(d, a, c);
    MulMono(c, k, a);
    assert c * a == a * c && k * a == a * k;
  }

  lemma ProductBound(d: real, a: real, c: real, k: real)
    requires -a <= d <= a && 0.0 < c <= k && a >= 0.0
    ensures -(a * k) <= d * c <= a * k
  {
    ProductBelow(d, a, c, k);
    ProductBelow(-d, a, c, k);
    assert -d * c == -(d * c);
  }

  lemma CancelPositive(x: real, y: real, t: real)
    requires t > 0.0 && x * t <= y * t
    ensures x <= y
  {
  }

  /** Prices no further than `a` from the base price fit if `a` cells do. */
  lemma FitsWithin(v: View, p: real, a: real, k: real)
    requires Normal(v) && v.scaling == 1.0 && v.panY == 0.0
    requires -a <= p - v.basePriceY <= a && v.cellHeight <= k && a >= 0.0
    requires a * k <= MainAreaHeight(v) / 2.0 * v.tickSize
    ensures MainAreaBottom(v) <= PriceToY(v, p) <= v.height / 2.0
  {
    Offset(v, p);
    ProductBound(p - v.basePriceY, a, v.cellHeight, k);
    var y, half := PriceToY(v, p) - MainAreaCenter(v), MainAreaHeight(v) / 2.0;
    assert y * v.tickSize <= half * v.tickSize;
    CancelPositive(y, half, v.tickSize);
    assert -half * v.tickSize <= y * v.tickSize;
    CancelPositive(-half, y, v.tickSize);
  }

  /** What an autoscaled view keeps: no pan, no scaling, the default time zoom. */
  predicate Unmoved(v: View) {
    v.panX == 0.0 && v.panY == 0.0 && v.scaling == 1.0 && v.cellWidth == DEFAULT_CELL_WIDTH
  }

  lemma PriceFits(v: View, p: real, min: real, max: real)
    requires Normal(v) && Unmoved(v) && min <= p <= max
    requires v.basePriceY == (min + max) / 2.0 && v.cellHeight == CellFor(v, PaddedRange(min, max))
    ensures MainAreaBottom(v) <= PriceToY(v, p) <= v.height / 2.0
  {
    HalfSpreadFits(v, min, max);
    hide PriceToY, CellFor, PaddedRange, MainAreaHeight, MainAreaBottom;
    FitsWithin(v, p, (max - min) / 2.0, CellFor(v, PaddedRange(min, max)));
  }

  /** Autoscale with the scale it asks for shows every visible candle inside the main area. */
  lemma AutoscaleFits(v: View, ohlc: seq<Candle>)
    requires Normal(v) && Unmoved(v) && WellFormed(ohlc)
    requires (v.basePriceY, v.cellHeight) == Autoscale(v, ohlc)
    ensures Fits(v, ohlc)
  {
    var cs := VisibleSlice(v, ohlc);
    hide PriceToY, Highest, Lowest, CellFor, PaddedRange, MainAreaHeight, MainAreaBottom, Normal, Unmoved;
    forall c | c in cs
      ensures MainAreaBottom(v) <= PriceToY(v, c.low) && PriceToY(v, c.high) <= v.height / 2.0
    {
      Extremes(cs, c);
      assert c in ohlc;
      PriceFits(v, c.low, Lowest(cs), Highest(cs));
      PriceFits(v, c.high, Lowest(cs), Highest(cs));
    }
  }

  lemma HalfSpreadFits(v: View, min: real, max: real)
    requires Normal(v) && min <= max
    ensures (max - min) / 2.0 * CellFor(v, PaddedRange(min, max)) <= MainAreaHeight(v) / 2.0 * v.tickSize
  {
    var range := PaddedRange(min, max);
    assert max - min <= range;
    hide PaddedRange;
    CellForPositive(v, range);
    var c, area := CellFor(v, range), MainAreaHeight(v);
    CellTimesRange(v, range);
    hide CellFor, MainAreaHeight;
    MulMono(max - min, range, c);
    Halves(max - min, c, area, v.tickSize);
  }

  lemma CellTimesRange(v: View, range: real)
    requires range > 0.0
    ensures range * CellFor(v, range) == MainAreaHeight(v) * v.tickSize
  {
    MulDiv(MainAreaHeight(v) * v.tickSize, range);
  }

  lemma Halves(x: real, c: real, area: real, t: real)
    requires x * c <= area * t
    ensures x / 2.0 * c <= area / 2.0 * t
  {
    assert x / 2.0 * c == x * c / 2.0;
    assert area / 2.0 * t == area * t / 2.0;
  }

  lemma {:induction false} LowestReached(cs: seq<Candle>)
    requires cs != []
    ensures exists c :: c in cs && c.low == Lowest(cs)
  {
    var last := |cs| - 1;
    if last > 0 {
      LowestReached(cs[..last]);
      var c :| c in cs[..last] && c.low == Lowest(cs[..last]);
      assert c in cs;
    } else {
      assert cs[..0] == [] && Lowest([]) == F32_MAX;
    }
    assert cs[last] in cs;
  }

  /** `hi` is the greatest high and `lo` the least low. */
  predicate Spans(cs: seq<Candle>, lo: real, hi: real) {
    && (forall c :: c in cs ==> lo <= c.low && c.high <= hi)
    && (exists c :: c in cs && c.low == lo) && (exists c :: c in cs && c.high == hi)
  }

  lemma SpansIs(cs: seq<Candle>, lo: real, hi: real)
    requires Spans(cs, lo, hi)
    ensures lo == Lowest(cs) && hi == Highest(cs)
  {
    HighestReached(cs);
    LowestReached(cs);
    var a, b :| a in cs && a.low == lo && b in cs && b.high == hi;
    Extremes(cs, a);
    Extremes(cs, b);
  }

  /** The height of the prices a rescaled chart shows: a fifth more than the spread, or two units more when flat. */
  predicate Shown(lo: real, hi: real, range: real) {
    range == var r := if hi > lo then 1.2 * (hi - lo) else hi - lo + 2.0;
             if r < 1.0 / 8_388_608.0 then 1.0 / 8_388_608.0 else r
  }

  lemma ShownIs(lo: real, hi: real, range: real)
    requires Shown(lo, hi, range)
    ensures range == PaddedRange(lo, hi) && range > 0.0
  {
  }

  /**
   * The scale asked for: the middle of the visible prices as base price, and the shown range over the
   * whole main area, from three tenths of the height below the centre line to its upper edge.
   */
  lemma TargetScale(v: View, ohlc: seq<Candle>, lo: real, hi: real, range: real)
    requires Normal(v) && Unmoved(v) && Spans(VisibleSlice(v, ohlc), lo, hi) && Shown(lo, hi, range)
    ensures var (base, cell) := Autoscale(v, ohlc);
            var w := v.(basePriceY := base, cellHeight := cell);
            && base == (lo + hi) / 2.0
            && PriceToY(w, base + range / 2.0) == v.height / 2.0
            && PriceToY(w, base - range / 2.0) == -0.3 * v.height
  {
    SpansIs(VisibleSlice(v, ohlc), lo, hi);
    ShownIs(lo, hi, range);
    var (base, cell) := Autoscale(v, ohlc);
    assert base == (lo + hi) / 2.0 && cell == CellFor(v, range);
    hide VisibleSlice, Spans, Shown, PaddedRange, Highest, Lowest;
    FillsMainArea(v, base, range, cell);
  }

  /** At the cell height for a range, that range around the base price fills the main area. */
  lemma FillsMainArea(v: View, base: real, range: real, cell: real)
    requires Normal(v) && Unmoved(v) && range > 0.0 && cell == CellFor(v, range)
    ensures var w := v.(basePriceY := base, cellHeight := cell);
            && PriceToY(w, base + range / 2.0) == v.height / 2.0
            && PriceToY(w, base - range / 2.0) == -0.3 * v.height
  {
    var w := v.(basePriceY := base, cellHeight := cell);
    CellForPositive(v, range);
    CellTimesRange(v, range);
    hide CellFor;
    Offset(w, base + range / 2.0);
    Offset(w, base - range / 2.0);
    var (up, down) := (PriceToY(w, base + range / 2.0), PriceToY(w, base - range / 2.0));
    hide PriceToY;
    assert MainAreaHeight(v) == 0.8 * v.height && MainAreaCenter(w) == 0.1 * v.height;
    hide MainAreaHeight, MainAreaCenter;
    assert (up - 0.1 * v.height) * v.tickSize == range / 2.0 * cell;
    assert (down - 0.1 * v.height) * v.tickSize == -(range / 2.0) * cell;
    HalfOf(up - 0.1 * v.height, range, cell, 0.8 * v.height, v.tickSize);
    HalfOf(-(down - 0.1 * v.height), range, cell, 0.8 * v.height, v.tickSize);
  }

  lemma HalfOf(y: real, range: real, cell: real, area: real, t: real)
    requires t > 0.0 && y * t == range / 2.0 * cell && range * cell == area * t
    ensures y == area / 2.0
  {
    assert range / 2.0 * cell == range * cell / 2.0;
    assert area / 2.0 * t == area * t / 2.0;
    CancelPositive(y, area / 2.0, t);
    CancelPositive(area / 2.0, y, t);
  }

  // ── What the change guard costs ──

  predicate OnlyRescaled(v: View, w: View) {
    w == v.(basePriceY := w.basePriceY, cellHeight := w.cellHeight) && w.cellHeight > 0.0
  }

  /** Half the spread, off by the tolerance, in cells off by the tolerance, still fits half the main area. */
  predicate Slack(v: View, spread: real, cell: real) {
    (spread / 2.0 + F32_EPSILON) * (cell + F32_EPSILON) <= MainAreaHeight(v) / 2.0 * v.tickSize
  }

  predicate SlackSuffices(v: View, ohlc: seq<Candle>)
    requires v.timeframe > 0
  {
    Slack(v, Spread(v, ohlc), Autoscale(v, ohlc).1)
  }

  lemma TolerableFits(v: View, p: real, min: real, max: real, cell: real)
    requires Normal(v) && Unmoved(v) && min <= p <= max
    requires -F32_EPSILON <= v.basePriceY - (min + max) / 2.0 <= F32_EPSILON && v.cellHeight <= cell + F32_EPSILON
    requires Slack(v, max - min, cell)
    ensures MainAreaBottom(v) <= PriceToY(v, p) <= v.height / 2.0
  {
    hide PriceToY, MainAreaHeight, MainAreaBottom;
    FitsWithin(v, p, (max - min) / 2.0 + F32_EPSILON, cell + F32_EPSILON);
  }

  /** A scale the guard left alone fits where the slack suffices. */
  lemma CloseFits(v: View, ohlc: seq<Candle>)
    requires Normal(v) && Unmoved(v) && WellFormed(ohlc) && Close(v, ohlc) && SlackSuffices(v, ohlc)
    ensures Fits(v, ohlc)
  {
    var cs := VisibleSlice(v, ohlc);
    hide PriceToY, Highest, Lowest, CellFor, PaddedRange, MainAreaHeight, MainAreaBottom, Normal, Unmoved, Slack;
    forall c | c in cs
      ensures MainAreaBottom(v) <= PriceToY(v, c.low) && PriceToY(v, c.high) <= v.height / 2.0
    {
      Extremes(cs, c);
      assert c in ohlc;
      TolerableFits(v, c.low, Lowest(cs), Highest(cs), Autoscale(v, ohlc).1);
      TolerableFits(v, c.high, Lowest(cs), Highest(cs), Autoscale(v, ohlc).1);
    }
  }

  /** A price above the base price by half the spread and the tolerance shows what the slack has to be. */
  lemma TopNeedsSlack(w: View, p: real, a: real)
    requires Normal(w) && Unmoved(w) && p - w.basePriceY == a && PriceToY(w, p) <= w.height / 2.0
    ensures a * w.cellHeight <= MainAreaHeight(w) / 2.0 * w.tickSize
    ensures forall spread, cell :: a == spread / 2.0 + F32_EPSILON && w.cellHeight == cell + F32_EPSILON ==>
                                     Slack(w, spread, cell)
  {
    Offset(w, p);
    var y := PriceToY(w, p) - MainAreaCenter(w);
    hide PriceToY;
    assert y <= MainAreaHeight(w) / 2.0;
    hide MainAreaHeight, MainAreaCenter;
    MulMono(y, MainAreaHeight(w) / 2.0, w.tickSize);
  }

  /**
   * The scales the guard may leave in place all fit exactly when the slack
   * suffices: a condition on the spread of the visible prices alone.
   */
  lemma CloseFitsIff(v: View, ohlc: seq<Candle>)
    requires Normal(v) && Unmoved(v) && WellFormed(ohlc) && VisibleSlice(v, ohlc) != []
    ensures (forall w :: OnlyRescaled(v, w) && Close(w, ohlc) ==> Fits(w, ohlc)) <==> SlackSuffices(v, ohlc)
  {
    if SlackSuffices(v, ohlc) {
      forall w | OnlyRescaled(v, w) && Close(w, ohlc) ensures Fits(w, ohlc) {
        SameSlack(v, w, ohlc);
        hide Fits, SlackSuffices, Close, VisibleSlice, Normal;
        CloseFits(w, ohlc);
      }
    } else {
      var (base, cell) := Autoscale(v, ohlc);
      var w := v.(basePriceY := base - F32_EPSILON, cellHeight := cell + F32_EPSILON);
      CellForPositive(v, PaddedRange(Lowest(VisibleSlice(v, ohlc)), Highest(VisibleSlice(v, ohlc))));
      AutoscaleIgnoresScale(v, w.basePriceY, w.cellHeight, ohlc);
      SameSlack(v, w, ohlc);
      HighestReached(VisibleSlice(w, ohlc));
      hide PriceToY, Highest, Lowest, CellFor, PaddedRange, MainAreaHeight, VisibleSlice, Slack, Normal;
      assert OnlyRescaled(v, w) && Close(w, ohlc);
      if Fits(w, ohlc) {
        var c :| c in VisibleSlice(w, ohlc) && c.high == Highest(VisibleSlice(w, ohlc));
        TopNeedsSlack(w, c.high, Spread(w, ohlc) / 2.0 + F32_EPSILON);
      }
    }
  }

  lemma SameSlack(v: View, w: View, ohlc: seq<Candle>)
    requires Normal(v) && OnlyRescaled(v, w) && VisibleSlice(v, ohlc) != []
    ensures VisibleSlice(w, ohlc) == VisibleSlice(v, ohlc) && Normal(w) && (Unmoved(v) ==> Unmoved(w))
    ensures Autoscale(w, ohlc) == Autoscale(v, ohlc) && MainAreaHeight(w) == MainAreaHeight(v)
    ensures SlackSuffices(w, ohlc) <==> SlackSuffices(v, ohlc)
  {
    SameFirst(v, w, ohlc);
    SameLast(v, w, ohlc);
    AutoscaleIgnoresScale(v, w.basePriceY, w.cellHeight, ohlc);
    hide First, Last, Highest, Lowest, Autoscale;
    SameHeight(v, w, Spread(v, ohlc), Autoscale(v, ohlc).1);
    hide Slack;
  }

  lemma SameHeight(v: View, w: View, spread: real, cell: real)
    requires OnlyRescaled(v, w)
    ensures Slack(w, spread, cell) <==> Slack(v, spread, cell)
  {
    assert MainAreaHeight(w) == MainAreaHeight(v);
    hide MainAreaHeight;
  }

  /** On a default-sized chart the slack suffices from a hundredth of a cent to a million, and when flat. */
  lemma OrdinarySpreads(v: View, ohlc: seq<Candle>)
    requires v.height == 180.0 && v.tickSize == 0.01 && v.timeframe > 0 && VisibleSlice(v, ohlc) != []
    requires Spread(v, ohlc) == 0.0 || 0.0001 <= Spread(v, ohlc) <= 1_000_000.0
    ensures SlackSuffices(v, ohlc)
  {
    var min: real, max: real := Lowest(VisibleSlice(v, ohlc)), Highest(VisibleSlice(v, ohlc));
    assert MainAreaHeight(v) == 144.0;
    hide Highest, Lowest, VisibleSlice;
    OrdinarySlack(max - min, PaddedRange(min, max), CellFor(v, PaddedRange(min, max)));
  }

  lemma OrdinarySlack(spread: real, range: real, cell: real)
    requires range > 0.0 && cell == 1.44 / range
    requires if spread == 0.0 then range == 2.0 else 0.0001 <= spread <= 1_000_000.0 && range == 1.2 * spread
    ensures (spread / 2.0 + F32_EPSILON) * (cell + F32_EPSILON) <= 0.72
  {
    if spread > 0.0 {
      MulDiv(1.44, range);
      assert cell * (1.2 * spread) == 1.2 * (spread * cell);
      MulMono(0.0001, spread, cell);
      OrdinaryProduct(spread, cell);
    }
  }

  lemma OrdinaryProduct(spread: real, cell: real)
    requires spread * cell == 1.2 && 0.0 < spread <= 1_000_000.0 && cell <= 12_000.0
    ensures (spread / 2.0 + F32_EPSILON) * (cell + F32_EPSILON) <= 0.72
  {
    assert (spread / 2.0 + F32_EPSILON) * (cell + F32_EPSILON)
        == spread * cell / 2.0 + spread / 2.0 * F32_EPSILON + F32_EPSILON * cell + F32_EPSILON * F32_EPSILON;
  }
}
