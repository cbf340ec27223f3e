/**
 * A chart's view state: the coordinate maps, panning, cursor-anchored zoom and
 * reset. Screen and price coordinates are reals, times are milliseconds.
 */
module ChartView {
  import opened RealArithmetic

  // ── The view as a value ──

  /** `width` and `height` are the drawing area; `(panX, panY)` the translation in pixels. */
  datatype View = View(
    width: real, height: real, panX: real, panY: real, scaling: real, cellWidth: real, cellHeight: real,
    timeframe: nat, latestX: int, basePriceY: real, tickSize: real, autoScale: bool, signature: nat)

  const VOLUME_AREA_RATIO := 0.2
  const RIGHT_EDGE_MARGIN := 8.0
  const DEFAULT_CELL_WIDTH := 6.0
  const NO_SIGNATURE := 0xffff_ffff_ffff_ffff

  const DEFAULT :=
    View(310.0, 180.0, 0.0, 0.0, 1.0, DEFAULT_CELL_WIDTH, 1.0, 60_000, 0, 0.0, 0.01, true, NO_SIGNATURE)

  /** Every size the coordinate maps divide by is positive. */
  predicate Normal(v: View) {
    && v.width > 0.0 && v.height > 0.0 && v.scaling > 0.0 && v.cellWidth > 0.0 && v.cellHeight > 0.0
    && v.timeframe > 0 && v.tickSize > 0.0
  }

  function VolumeAreaHeight(v: View): real {
    v.height * VOLUME_AREA_RATIO
  }

  function MainAreaHeight(v: View): real {
    v.height - VolumeAreaHeight(v)
  }

  function MainAreaBottom(v: View): real {
    -v.height / 2.0 + VolumeAreaHeight(v)
  }

  function MainAreaCenter(v: View): real {
    MainAreaBottom(v) + MainAreaHeight(v) / 2.0
  }

  function RightAnchor(v: View): real {
    v.width / 2.0 - RIGHT_EDGE_MARGIN
  }

  /** Pixels for a price difference, and the price difference for some pixels. */
  function PriceToPixels(v: View, dp: real): real
    requires v.tickSize != 0.0
  {
    dp / v.tickSize * v.cellHeight * v.scaling
  }

  function PixelsToPrice(v: View, px: real): real
    requires v.cellHeight * v.scaling != 0.0
  {
    px / (v.cellHeight * v.scaling) * v.tickSize
  }

  /** Pixels for a stretch of time, and the time for some pixels. */
  function TimeToPixels(v: View, dt: real): real
    requires v.timeframe > 0
  {
    dt / v.timeframe as real * v.cellWidth * v.scaling
  }

  function PixelsToTime(v: View, px: real): real
    requires v.cellWidth * v.scaling != 0.0
  {
    px / (v.cellWidth * v.scaling) * v.timeframe as real
  }

  function PriceToY(v: View, price: real): real
    requires v.tickSize != 0.0
  {
    MainAreaCenter(v) + PriceToPixels(v, price - v.basePriceY) + v.panY
  }

  function YToPrice(v: View, y: real): real
    requires v.cellHeight * v.scaling != 0.0
  {
    v.basePriceY + PixelsToPrice(v, y - MainAreaCenter(v) - v.panY)
  }

  /** To the nearest integer, halves away from zero. */
  function Round(r: real): int {
    if r >= 0.0 then (r + 0.5).Floor else -(0.5 - r).Floor
  }

  function IntervalToX(v: View, t: int): real
    requires v.timeframe > 0
  {
    RightAnchor(v) + TimeToPixels(v, (t - v.latestX) as real) + v.panX
  }

  function XToTime(v: View, x: real): int
    requires v.cellWidth * v.scaling != 0.0
  {
    v.latestX + Round(PixelsToTime(v, x - RightAnchor(v) - v.panX))
  }

  // ── The maps are inverse and monotone ──

  lemma Sizes(v: View)
    requires Normal(v)
    ensures v.cellHeight * v.scaling > 0.0 && v.cellWidth * v.scaling > 0.0
  {
    MulPositive(v.cellHeight, v.scaling);
    MulPositive(v.cellWidth, v.scaling);
  }

  /** `a` units of size `u`, each drawn `w * s` pixels wide. */
  lemma ScaleAndBack(a: real, u: real, w: real, s: real)
    requires u > 0.0 && w * s > 0.0
    ensures a / u * w * s / (w * s) * u == a
    ensures a / (w * s) * u / u * w * s == a
    ensures a / u * w * s == a * (1.0 / u * (w * s))
  {
    assert a / u * w * s == a / u * (w * s);
    MulDiv(a / u, w * s);
    MulDiv(a, u);
    MulDiv(a / (w * s), u);
    MulDiv(a, w * s);
    assert a / (w * s) * w * s == a / (w * s) * (w * s);
    DivIsMul(a, u);
  }

  lemma Proportional(a: real, b: real, k: real)
    requires k > 0.0
    ensures a * k - b * k == (a - b) * k && (a > 0.0 ==> a * k > 0.0)
  {
  }

  /** The two price maps undo each other, and pixels are proportional to price. */
  lemma PriceScale(v: View, a: real, b: real)
    requires Normal(v)
    ensures v.cellHeight * v.scaling > 0.0
    ensures PixelsToPrice(v, PriceToPixels(v, a)) == a && PriceToPixels(v, PixelsToPrice(v, a)) == a
    ensures PriceToPixels(v, a) - PriceToPixels(v, b) == PriceToPixels(v, a - b)
    ensures a > 0.0 ==> PriceToPixels(v, a) > 0.0
  {
    PriceScaleInverse(v, a);
    var k := PriceScaleFactor(v, a);
    var _ := PriceScaleFactor(v, b);
    var _ := PriceScaleFactor(v, a - b);
    hide PriceToPixels, PixelsToPrice;
    Proportional(a, b, k);
  }

  lemma PriceScaleFactor(v: View, a: real) returns (k: real)
    requires Normal(v)
    ensures k == 1.0 / v.tickSize * (v.cellHeight * v.scaling) && k > 0.0
    ensures PriceToPixels(v, a) == a * k
  {
    Sizes(v);
    k := 1.0 / v.tickSize * (v.cellHeight * v.scaling);
    MulPositive(1.0 / v.tickSize, v.cellHeight * v.scaling);
    ScaleAndBack(a, v.tickSize, v.cellHeight, v.scaling);
  }

  lemma PriceScaleInverse(v: View, a: real)
    requires Normal(v)
    ensures v.cellHeight * v.scaling > 0.0
    ensures PixelsToPrice(v, PriceToPixels(v, a)) == a && PriceToPixels(v, PixelsToPrice(v, a)) == a
  {
    Sizes(v);
    ScaleAndBack(a, v.tickSize, v.cellHeight, v.scaling);
  }

  /** The two time maps undo each other, and pixels are proportional to time. */
  lemma TimeScale(v: View, a: real, b: real)
    requires Normal(v)
    ensures v.cellWidth * v.scaling > 0.0
    ensures PixelsToTime(v, TimeToPixels(v, a)) == a && TimeToPixels(v, PixelsToTime(v, a)) == a
    ensures TimeToPixels(v, a) - TimeToPixels(v, b) == TimeToPixels(v, a - b)
    ensures a > 0.0 ==> TimeToPixels(v, a) > 0.0
  {
    TimeScaleInverse(v, a);
    var k := TimeScaleFactor(v, a);
    var _ := TimeScaleFactor(v, b);
    var _ := TimeScaleFactor(v, a - b);
    hide TimeToPixels, PixelsToTime;
    Proportional(a, b, k);
  }

  lemma TimeScaleFactor(v: View, a: real) returns (k: real)
    requires Normal(v)
    ensures k == 1.0 / v.timeframe as real * (v.cellWidth * v.scaling) && k > 0.0
    ensures TimeToPixels(v, a) == a * k
  {
    Sizes(v);
    k := 1.0 / v.timeframe as real * (v.cellWidth * v.scaling);
    MulPositive(1.0 / v.timeframe as real, v.cellWidth * v.scaling);
    ScaleAndBack(a, v.timeframe as real, v.cellWidth, v.scaling);
  }

  lemma TimeScaleInverse(v: View, a: real)
    requires Normal(v)
    ensures v.cellWidth * v.scaling > 0.0
    ensures PixelsToTime(v, TimeToPixels(v, a)) == a && TimeToPixels(v, PixelsToTime(v, a)) == a
  {
    Sizes(v);
    ScaleAndBack(a, v.timeframe as real, v.cellWidth, v.scaling);
  }

  lemma RoundIsNearest(r: real)
    ensures -0.5 <= Round(r) as real - r <= 0.5
    ensures r >= 0.0 ==> Round(r) as real - r > -0.5
    ensures r < 0.0 ==> Round(r) as real - r < 0.5
    ensures r == r.Floor as real ==> Round(r) == r.Floor
  {
  }

  /** Prices survive the trip to the screen and back, and screen rows the trip to prices and back. */
  lemma PriceRoundTrip(v: View, price: real, y: real)
    requires Normal(v)
    ensures v.cellHeight * v.scaling > 0.0
    ensures YToPrice(v, PriceToY(v, price)) == price
    ensures PriceToY(v, YToPrice(v, y)) == y
  {
    Sizes(v);
    hide PriceToPixels, PixelsToPrice;
    var dp, px := price - v.basePriceY, y - MainAreaCenter(v) - v.panY;
    PriceScale(v, dp, dp);
    PriceScale(v, px, px);
    assert PriceToY(v, price) - MainAreaCenter(v) - v.panY == PriceToPixels(v, dp);
    assert YToPrice(v, y) - v.basePriceY == PixelsToPrice(v, px);
  }

  /** Times survive the trip to the screen and back exactly. */
  lemma TimeRoundTrip(v: View, t: int)
    requires Normal(v)
    ensures v.cellWidth * v.scaling > 0.0
    ensures XToTime(v, IntervalToX(v, t)) == t
  {
    Sizes(v);
    hide TimeToPixels, PixelsToTime;
    var dt := (t - v.latestX) as real;
    TimeScale(v, dt, dt);
    assert IntervalToX(v, t) - RightAnchor(v) - v.panX == TimeToPixels(v, dt);
    RoundIsNearest(dt);
    assert dt.Floor == t - v.latestX;
  }

  /** A column comes back from its nearest millisecond: off by half a millisecond's width at most. */
  lemma ColumnRoundTrip(v: View, x: real)
    requires Normal(v)
    ensures v.cellWidth * v.scaling > 0.0
    ensures -TimeToPixels(v, 0.5) <= IntervalToX(v, XToTime(v, x)) - x <= TimeToPixels(v, 0.5)
  {
    Sizes(v);
    hide TimeToPixels, PixelsToTime, Round;
    var px := x - RightAnchor(v) - v.panX;
    var dt := PixelsToTime(v, px);
    var r := Round(dt);
    RoundIsNearest(dt);
    assert XToTime(v, x) - v.latestX == r;
    TimeScale(v, px, px);
    TimeScale(v, r as real, dt);
    TimeWithin(v, r as real - dt, 0.5);
  }

  lemma TimeWithin(v: View, a: real, h: real)
    requires Normal(v) && -h <= a <= h
    ensures -TimeToPixels(v, h) <= TimeToPixels(v, a) <= TimeToPixels(v, h)
  {
    TimeScale(v, h, a);
    TimeScale(v, h - a, -h);
    TimeScale(v, a, -h);
    TimeScale(v, a + h, 0.0);
    TimeScale(v, 0.0, h);
    assert TimeToPixels(v, 0.0) == 0.0;
    hide TimeToPixels;
    assert a - (-h) == a + h && 0.0 - h == -h;
  }

  /** Later candles lie further right, and equal stretches of time are equally wide. */
  lemma IntervalToXIncreases(v: View, t: int, u: int)
    requires Normal(v)
    ensures IntervalToX(v, u) - IntervalToX(v, t) == TimeToPixels(v, (u - t) as real)
    ensures t < u ==> IntervalToX(v, t) < IntervalToX(v, u)
  {
    hide TimeToPixels;
    TimeScale(v, (u - v.latestX) as real, (t - v.latestX) as real);
    TimeScale(v, (u - t) as real, 0.0);
    assert (u - v.latestX) as real - (t - v.latestX) as real == (u - t) as real;
  }

  lemma PriceToYIncreases(v: View, p: real, q: real)
    requires Normal(v)
    ensures PriceToY(v, q) - PriceToY(v, p) == PriceToPixels(v, q - p)
    ensures p < q ==> PriceToY(v, p) < PriceToY(v, q)
  {
    hide PriceToPixels;
    PriceScale(v, q - v.basePriceY, p - v.basePriceY);
    PriceScale(v, q - p, 0.0);
    assert (q - v.basePriceY) - (p - v.basePriceY) == q - p;
  }

  lemma UnitQuotients(u: real, w: real, s: real)
    requires u > 0.0
    ensures u / u * w * s == w * s
  {
    MulDiv(1.0, u);
    assert u / u == 1.0;
  }

  /**
   * Where prices and times lie: the base price in the middle of the upper four fifths of the area and
   * one tick one cell higher, the latest candle 8 pixels from the right and one candle one cell on.
   */
  lemma Placement(v: View, price: real, t: int)
    requires Normal(v)
    ensures MainAreaHeight(v) == 0.8 * v.height && MainAreaBottom(v) == -0.3 * v.height
    ensures PriceToY(v, v.basePriceY) == 0.1 * v.height + v.panY
    ensures IntervalToX(v, v.latestX) == v.width / 2.0 - 8.0 + v.panX
    ensures PriceToY(v, price + v.tickSize) == PriceToY(v, price) + v.cellHeight * v.scaling
    ensures IntervalToX(v, t + v.timeframe) == IntervalToX(v, t) + v.cellWidth * v.scaling
  {
    PriceToYIncreases(v, price, price + v.tickSize);
    IntervalToXIncreases(v, t, t + v.timeframe);
    assert (t + v.timeframe - t) as real == v.timeframe as real && price + v.tickSize - price == v.tickSize;
    UnitQuotients(v.tickSize, v.cellHeight, v.scaling);
    UnitQuotients(v.timeframe as real, v.cellWidth, v.scaling);
    PriceScale(v, 0.0, 0.0);
    TimeScale(v, 0.0, 0.0);
  }

  // ── Pan, reset and zoom ──

  const ZOOM_SENSITIVITY := 30.0
  const MIN_CELL_WIDTH := 1.0
  const MAX_CELL_WIDTH := 50.0
  const MIN_PX_PER_PRICE_UNIT := 0.001
  const MAX_PX_PER_PRICE_UNIT := 2000.0

  function Clamp(x: real, lo: real, hi: real): real {
    if x < lo then lo else if x > hi then hi else x
  }

  function Pan(v: View, dx: real, dy: real, cameraScale: real): View {
    v.(panX := v.panX + dx * cameraScale, panY := v.panY - dy * cameraScale, autoScale := false)
  }

  function Reset(v: View): View {
    v.(panX := 0.0, panY := 0.0, scaling := 1.0, cellWidth := DEFAULT_CELL_WIDTH, autoScale := true)
  }

  function Factor(wheel: real): real {
    1.0 + wheel / ZOOM_SENSITIVITY
  }

  function ResizedWidth(width: real, factor: real): real {
    Clamp(width * factor, MIN_CELL_WIDTH, MAX_CELL_WIDTH)
  }

  /** The height's range is per unit of price, so it is proportional to the tick. */
  function ResizedHeight(height: real, tickSize: real, factor: real): real {
    Clamp(height * factor, MIN_PX_PER_PRICE_UNIT * tickSize, MAX_PX_PER_PRICE_UNIT * tickSize)
  }

  /** The cell sizes after a wheel movement, each clamped to its own range. */
  function Resize(v: View, wheel: real): View {
    var factor := Factor(wheel);
    v.(cellWidth := ResizedWidth(v.cellWidth, factor),
       cellHeight := ResizedHeight(v.cellHeight, v.tickSize, factor),
       autoScale := false)
  }

  predicate CellsInRange(v: View) {
    && MIN_CELL_WIDTH <= v.cellWidth <= MAX_CELL_WIDTH
    && MIN_PX_PER_PRICE_UNIT * v.tickSize <= v.cellHeight <= MAX_PX_PER_PRICE_UNIT * v.tickSize
  }

  lemma ResizeNormal(v: View, wheel: real)
    requires Normal(v)
    ensures var r := Resize(v, wheel);
            && Normal(r) && CellsInRange(r) && !r.autoScale
            && r == v.(cellWidth := r.cellWidth, cellHeight := r.cellHeight, autoScale := false)
  {
  }

  /** Resizes, then pans so that what was under the cursor is under it again. */
  function Zoom(v: View, x: real, y: real, wheel: real): View
    requires Normal(v)
  {
    Sizes(v);
    ResizeNormal(v, wheel);
    var price, time := YToPrice(v, y), XToTime(v, x);
    var r := Resize(v, wheel);
    r.(panY := r.panY - (PriceToY(r, price) - y), panX := r.panX - (IntervalToX(r, time) - x))
  }

  lemma PanShifts(v: View, w: View, price: real, t: int)
    requires v.tickSize != 0.0 && v.timeframe > 0 && w == v.(panX := w.panX, panY := w.panY)
    ensures PriceToY(w, price) == PriceToY(v, price) + (w.panY - v.panY)
    ensures IntervalToX(w, t) == IntervalToX(v, t) + (w.panX - v.panX)
  {
  }

  /** A zoom puts the price and the time that were under the cursor under it again. */
  lemma ZoomPlaces(v: View, x: real, y: real, wheel: real)
    requires Normal(v)
    ensures v.cellHeight * v.scaling > 0.0 && v.cellWidth * v.scaling > 0.0
    ensures var z := Zoom(v, x, y, wheel);
            PriceToY(z, YToPrice(v, y)) == y && IntervalToX(z, XToTime(v, x)) == x
  {
    Sizes(v);
    hide Resize, YToPrice, XToTime, PriceToY, IntervalToX;
    ResizeNormal(v, wheel);
    PanShifts(Resize(v, wheel), Zoom(v, x, y, wheel), YToPrice(v, y), XToTime(v, x));
  }

  lemma ZoomInRange(v: View, x: real, y: real, wheel: real)
    requires Normal(v)
    ensures var z := Zoom(v, x, y, wheel); Normal(z) && CellsInRange(z) && !z.autoScale
  {
    ResizeNormal(v, wheel);
    hide Resize, YToPrice, XToTime, PriceToY, IntervalToX;
  }

  /** A zoom keeps the price and the time under the cursor, whatever the clamps did. */
  lemma ZoomAnchors(v: View, x: real, y: real, wheel: real)
    requires Normal(v)
    ensures var z := Zoom(v, x, y, wheel);
            && Normal(z)
            && v.cellHeight * v.scaling > 0.0 && v.cellWidth * v.scaling > 0.0
            && z.cellHeight * z.scaling > 0.0 && z.cellWidth * z.scaling > 0.0
            && YToPrice(z, y) == YToPrice(v, y)
            && XToTime(z, x) == XToTime(v, x)
            && IntervalToX(z, XToTime(z, x)) == x
  {
    hide Zoom, YToPrice, XToTime, PriceToY, IntervalToX, Resize;
    ZoomPlaces(v, x, y, wheel);
    ZoomInRange(v, x, y, wheel);
    PriceRoundTrip(Zoom(v, x, y, wheel), YToPrice(v, y), y);
    TimeRoundTrip(Zoom(v, x, y, wheel), XToTime(v, x));
  }

  function ZoomAll(v: View, x: real, y: real, wheels: seq<real>): (z: View)
    requires Normal(v)
    ensures Normal(z)
    decreases wheels
  {
    if wheels == [] then v
    else
      ZoomInRange(v, x, y, wheels[0]);
      ZoomAll(Zoom(v, x, y, wheels[0]), x, y, wheels[1..])
  }

  /**
   * Over any wheel movements at a fixed cursor the price and the time under it
   * never change, and from the first movement on both cell sizes are in range.
   */
  lemma {:induction false} ZoomNeverDrifts(v: View, x: real, y: real, wheels: seq<real>)
    requires Normal(v)
    ensures var z := ZoomAll(v, x, y, wheels);
            && v.cellHeight * v.scaling > 0.0 && v.cellWidth * v.scaling > 0.0
            && z.cellHeight * z.scaling > 0.0 && z.cellWidth * z.scaling > 0.0
            && YToPrice(z, y) == YToPrice(v, y) && XToTime(z, x) == XToTime(v, x)
            && (wheels != [] ==> CellsInRange(z))
    decreases wheels
  {
    hide Zoom, YToPrice, XToTime, IntervalToX, CellsInRange;
    Sizes(v);
    if wheels != [] {
      ZoomAnchors(v, x, y, wheels[0]);
      ZoomInRange(v, x, y, wheels[0]);
      ZoomNeverDrifts(Zoom(v, x, y, wheels[0]), x, y, wheels[1..]);
    }
  }

  /** A wheel movement by 30 units doubles; scrolling up grows and down shrinks. */
  predicate GrowsBy(wheel: real, factor: real) {
    factor == 1.0 + wheel / 30.0
  }

  /** `r` is `size` times `factor`, cut to the range from `lo` to `hi`. */
  predicate IsScaled(r: real, size: real, factor: real, lo: real, hi: real) {
    var x := size * factor;
    r == if x < lo then lo else if x > hi then hi else x
  }

  lemma FactorGrows(wheel: real, factor: real)
    requires GrowsBy(wheel, factor)
    ensures Factor(wheel) == factor
  {
  }

  lemma ResizedSizes(v: View, wheel: real, factor: real)
    requires Normal(v) && GrowsBy(wheel, factor)
    ensures IsScaled(Resize(v, wheel).cellWidth, v.cellWidth, factor, 1.0, 50.0)
    ensures IsScaled(Resize(v, wheel).cellHeight, v.cellHeight, factor, 0.001 * v.tickSize, 2000.0 * v.tickSize)
  {
    hide Factor, GrowsBy, ResizedWidth, ResizedHeight, IsScaled;
    FactorGrows(wheel, factor);
    WidthOf(v.cellWidth, factor);
    HeightOf(v.cellHeight, v.tickSize, factor);
  }

  lemma WidthOf(width: real, factor: real)
    ensures IsScaled(ResizedWidth(width, factor), width, factor, 1.0, 50.0)
  {
  }

  lemma HeightOf(height: real, tickSize: real, factor: real)
    ensures IsScaled(ResizedHeight(height, tickSize, factor), height, factor, 0.001 * tickSize, 2000.0 * tickSize)
  {
    assert MIN_PX_PER_PRICE_UNIT * tickSize == 0.001 * tickSize;
    assert MAX_PX_PER_PRICE_UNIT * tickSize == 2000.0 * tickSize;
  }

  /** The cell sizes a wheel movement leaves, and that nothing but them, the pan and autoscale changes. */
  lemma ZoomSizes(v: View, x: real, y: real, wheel: real, factor: real)
    requires Normal(v) && GrowsBy(wheel, factor)
    ensures var z := Zoom(v, x, y, wheel);
            z == v.(panX := z.panX, panY := z.panY, cellWidth := z.cellWidth, cellHeight := z.cellHeight,
                    autoScale := false)
    ensures IsScaled(Zoom(v, x, y, wheel).cellWidth, v.cellWidth, factor, 1.0, 50.0)
    ensures IsScaled(Zoom(v, x, y, wheel).cellHeight, v.cellHeight, factor, 0.001 * v.tickSize, 2000.0 * v.tickSize)
  {
    hide PriceToY, IntervalToX, YToPrice, XToTime, Resize, GrowsBy, IsScaled;
    ResizeNormal(v, wheel);
    ResizedSizes(v, wheel, factor);
  }

  /**
   * Scrolling up never shrinks a cell that was in range, scrolling down never
   * grows one, and a width off its bound really changes.
   */
  lemma ZoomDirection(v: View, x: real, y: real, wheel: real)
    requires Normal(v) && CellsInRange(v)
    ensures var z := Zoom(v, x, y, wheel);
            && (wheel >= 0.0 ==> z.cellWidth >= v.cellWidth && z.cellHeight >= v.cellHeight)
            && (wheel <= 0.0 ==> z.cellWidth <= v.cellWidth && z.cellHeight <= v.cellHeight)
            && (wheel > 0.0 && v.cellWidth < 50.0 ==> z.cellWidth > v.cellWidth)
            && (wheel < 0.0 && v.cellWidth > 1.0 ==> z.cellWidth < v.cellWidth)
  {
    hide *;
    var factor := FactorOf(wheel);
    ZoomSizes(v, x, y, wheel, factor);
    HeightInRange(v);
    ScaledBy(v.cellWidth, factor, 1.0, 50.0, Zoom(v, x, y, wheel).cellWidth);
    ScaledBy(v.cellHeight, factor, 0.001 * v.tickSize, 2000.0 * v.tickSize, Zoom(v, x, y, wheel).cellHeight);
  }

  lemma FactorOf(wheel: real) returns (factor: real)
    ensures GrowsBy(wheel, factor)
    ensures (factor > 1.0 <==> wheel > 0.0) && (factor < 1.0 <==> wheel < 0.0)
  {
    factor := 1.0 + wheel / 30.0;
  }

  lemma HeightInRange(v: View)
    requires Normal(v) && CellsInRange(v)
    ensures v.cellWidth > 0.0 && v.cellHeight > 0.0 && 1.0 <= v.cellWidth <= 50.0
    ensures 0.001 * v.tickSize <= v.cellHeight <= 2000.0 * v.tickSize
  {
  }

  /** Of a size inside its range, scaled and cut to the range again. */
  lemma ScaledBy(size: real, factor: real, lo: real, hi: real, out: real)
    requires size > 0.0 && lo <= size <= hi && IsScaled(out, size, factor, lo, hi)
    ensures factor >= 1.0 ==> out >= size && (size < hi && factor > 1.0 ==> out > size)
    ensures factor <= 1.0 ==> out <= size && (size > lo && factor < 1.0 ==> out < size)
  {
    var d := factor - 1.0;
    assert size * factor == size + size * d;
    if d > 0.0 {
      MulPositive(size, d);
    } else if d < 0.0 {
      MulPositive(size, -d);
    }
  }

  /** A reset shows the latest candle and the base price at their places again, at the price scale it found. */
  lemma ResetPlaces(v: View)
    requires Normal(v)
    ensures var w := Reset(v);
            && w == v.(panX := 0.0, panY := 0.0, scaling := 1.0, cellWidth := 6.0, autoScale := true)
            && IntervalToX(w, w.latestX) == v.width / 2.0 - 8.0
            && PriceToY(w, w.basePriceY) == 0.1 * v.height
  {
    Placement(Reset(v), 0.0, 0);
  }

  lemma RowsScale(v: View, z: View, here: real, y: real, price: real, factor: real)
    requires Normal(v) && Normal(z) && z.tickSize == v.tickSize && z.scaling == v.scaling
    requires z.cellHeight == v.cellHeight * factor
    requires PriceToY(v, here) == y && PriceToY(z, here) == y
    ensures PriceToY(z, price) - y == factor * (PriceToY(v, price) - y)
  {
    hide PriceToY;
    PriceToYIncreases(v, here, price);
    PriceToYIncreases(z, here, price);
    Rescaled(price - here, v.tickSize, v.cellHeight, v.scaling, factor);
  }

  lemma ColumnsScale(v: View, z: View, now: int, x: real, t: int, factor: real)
    requires Normal(v) && Normal(z) && z.timeframe == v.timeframe && z.scaling == v.scaling
    requires z.cellWidth == v.cellWidth * factor
    requires IntervalToX(z, now) == x
    ensures IntervalToX(z, t) - x == factor * (IntervalToX(v, t) - IntervalToX(v, now))
  {
    hide IntervalToX;
    IntervalToXIncreases(v, now, t);
    IntervalToXIncreases(z, now, t);
    Rescaled((t - now) as real, v.timeframe as real, v.cellWidth, v.scaling, factor);
  }

  lemma SameUnits(v: View, x: real, y: real, wheel: real)
    requires Normal(v)
    ensures var z := Zoom(v, x, y, wheel);
            z.tickSize == v.tickSize && z.timeframe == v.timeframe && z.scaling == v.scaling
  {
    hide PriceToY, IntervalToX, YToPrice, XToTime;
  }

  /** What the two scaling laws need of a zoom. */
  lemma ZoomsBy(v: View, x: real, y: real, wheel: real)
    requires Normal(v)
    ensures v.cellHeight * v.scaling > 0.0 && v.cellWidth * v.scaling > 0.0
    ensures var z := Zoom(v, x, y, wheel);
            && Normal(z) && z.tickSize == v.tickSize && z.timeframe == v.timeframe && z.scaling == v.scaling
            && PriceToY(z, YToPrice(v, y)) == y && IntervalToX(z, XToTime(v, x)) == x
  {
    SameUnits(v, x, y, wheel);
    ZoomPlaces(v, x, y, wheel);
    ZoomInRange(v, x, y, wheel);
    hide *;
  }

  /** Where the height clamp does not fire, a zoom multiplies vertical distances from the cursor by its factor. */
  lemma ZoomScalesRows(v: View, x: real, y: real, wheel: real, factor: real, price: real)
    requires Normal(v) && GrowsBy(wheel, factor)
    requires Zoom(v, x, y, wheel).cellHeight == v.cellHeight * factor
    ensures PriceToY(Zoom(v, x, y, wheel), price) - y == factor * (PriceToY(v, price) - y)
  {
    ZoomsBy(v, x, y, wheel);
    PriceRoundTrip(v, price, y);
    hide Zoom, PriceToY, YToPrice, Normal, GrowsBy;
    RowsScale(v, Zoom(v, x, y, wheel), YToPrice(v, y), y, price, factor);
  }

  /** The same for columns; the cursor's column is that of the millisecond under it. */
  lemma ZoomScalesColumns(v: View, x: real, y: real, wheel: real, factor: real, t: int)
    requires Normal(v) && GrowsBy(wheel, factor)
    requires Zoom(v, x, y, wheel).cellWidth == v.cellWidth * factor
    ensures v.cellWidth * v.scaling > 0.0
    ensures IntervalToX(Zoom(v, x, y, wheel), t) - x
            == factor * (IntervalToX(v, t) - IntervalToX(v, XToTime(v, x)))
  {
    ZoomsBy(v, x, y, wheel);
    hide Zoom, IntervalToX, XToTime, Normal, GrowsBy;
    ColumnsScale(v, Zoom(v, x, y, wheel), XToTime(v, x), x, t, factor);
  }

  lemma Rescaled(a: real, u: real, w: real, s: real, factor: real)
    requires u > 0.0
    ensures a / u * (w * factor) * s == factor * (a / u * w * s)
  {
    RescaledProduct(a / u, w, s, factor);
  }

  lemma RescaledProduct(q: real, w: real, s: real, factor: real)
    ensures q * (w * factor) * s == factor * (q * w * s)
  {
  }

  /** Panning moves every price and time by the drag, and dragging back undoes it. */
  lemma PanMoves(v: View, dx: real, dy: real, cameraScale: real, price: real, t: int)
    requires Normal(v)
    ensures var w := Pan(v, dx, dy, cameraScale);
            && PriceToY(w, price) == PriceToY(v, price) - dy * cameraScale
            && IntervalToX(w, t) == IntervalToX(v, t) + dx * cameraScale
            && Pan(w, -dx, -dy, cameraScale) == v.(autoScale := false)
  {
    var w := Pan(v, dx, dy, cameraScale);
    PanShifts(v.(autoScale := false), w, price, t);
    assert -dx * cameraScale == -(dx * cameraScale) && -dy * cameraScale == -(dy * cameraScale);
  }

  // ── The component the systems update ──

  class ChartViewState {
    var width: real
    var height: real
    var panX: real
    var panY: real
    var scaling: real
    var cellWidth: real
    var cellHeight: real
    var timeframe: nat
    var latestX: int
    var basePriceY: real
    var tickSize: real
    var autoScale: bool
    var signature: nat

    function Value(): View reads this {
      View(width, height, panX, panY, scaling, cellWidth, cellHeight,
           timeframe, latestX, basePriceY, tickSize, autoScale, signature)
    }

    constructor ()
      ensures Value() == DEFAULT && Normal(Value())
    {
      width, height := 310.0, 180.0;
      panX, panY := 0.0, 0.0;
      scaling, cellWidth, cellHeight := 1.0, DEFAULT_CELL_WIDTH, 1.0;
      timeframe, latestX, basePriceY, tickSize := 60_000, 0, 0.0, 0.01;
      autoScale, signature := true, NO_SIGNATURE;
    }

    /** A drag with the primary button; the screen's y axis points down. */
    method OnDrag(dx: real, dy: real, cameraScale: real)
      modifies this
      ensures Value() == Pan(old(Value()), dx, dy, cameraScale)
    {
      panX := panX + dx * cameraScale;
      panY := panY - dy * cameraScale;
      autoScale := false;
    }

    method ResetView()
      modifies this
      ensures Value() == Reset(old(Value()))
    {
      panX, panY := 0.0, 0.0;
      scaling := 1.0;
      cellWidth := DEFAULT_CELL_WIDTH;
      autoScale := true;
    }

    method ResizeCells(wheel: real)
      modifies this
      ensures Value() == Resize(old(Value()), wheel)
    {
      hide ResizedWidth, ResizedHeight, Factor;
      var factor := Factor(wheel);
      cellWidth := ResizedWidth(cellWidth, factor);
      cellHeight := ResizedHeight(cellHeight, tickSize, factor);
      autoScale := false;
    }

    /** Keeps the cursor's price and time, resizes, and pans them back under the cursor. */
    method ApplyCursorZoom(x: real, y: real, wheel: real)
      requires Normal(Value())
      modifies this
      ensures Value() == Zoom(old(Value()), x, y, wheel)
    {
      hide PriceToY, IntervalToX, YToPrice, XToTime, Resize;
      Sizes(Value());
      ResizeNormal(Value(), wheel);
      var cursorPrice := YToPrice(Value(), y);
      var cursorTime := XToTime(Value(), x);
      ResizeCells(wheel);
      var newY := PriceToY(Value(), cursorPrice);
      var newX := IntervalToX(Value(), cursorTime);
      panY := panY - (newY - y);
      panX := panX - (newX - x);
    }
  }
}
