/** The chart systems frame by frame: data tick, interaction tick and autoscale, with change detection. */
module ChartFrames {
  import opened Wrappers
  import opened RealArithmetic
  import opened ChartView
  import opened ChartAutoscale

  // ── One chart and what the frame loop knows about it ──

  /** An instrument's bars and the signature computed from them. */
  datatype Data = Data(ohlc: seq<Candle>, signature: nat)

  /**
   * `dirty`: the view was written since the interaction tick last looked.
   * `mapChanged`: the data map was written since the data tick last looked.
   * `pending`: an autoscale request is waiting. The counters tell writes and
   * requests apart from their absence.
   */
  datatype Chart = Chart(
    view: View, dirty: bool, mapChanged: bool, pending: bool, writes: nat, requests: nat)

  function Write(c: Chart, view: View): Chart {
    c.(view := view, dirty := true, writes := c.writes + 1)
  }

  function Request(c: Chart): Chart {
    c.(pending := true, requests := c.requests + 1)
  }

  function DataTick(c: Chart, data: Option<Data>): (t: Chart)
    ensures t.view == c.view.(latestX := t.view.latestX, signature := t.view.signature)
  {
    if !c.mapChanged then c
    else
      var d := c.(mapChanged := false);
      if data.None? || data.value.signature == d.view.signature then d
      else
        var ohlc := data.value.ohlc;
        var s := Write(d, d.view.(signature := data.value.signature));
        var t := if ohlc == [] then s else Write(s, s.view.(latestX := ohlc[|ohlc| - 1].openTime));
        if t.view.autoScale then Request(t) else t
  }

  function InteractionTick(c: Chart): (t: Chart)
    ensures t.view == c.view
  {
    if !c.dirty then c
    else
      var d := c.(dirty := false);
      if d.view.autoScale then Request(d) else d
  }

  predicate Near(a: real, b: real) {
    -F32_EPSILON <= a - b <= F32_EPSILON
  }

  /** Each field is written only when it moves by more than the tolerance. */
  function Rescale(c: Chart, base: real, cell: real): (t: Chart)
    ensures t.view == c.view.(basePriceY := t.view.basePriceY, cellHeight := t.view.cellHeight)
  {
    var s := if Near(c.view.basePriceY, base) then c else Write(c, c.view.(basePriceY := base));
    if Near(s.view.cellHeight, cell) then s else Write(s, s.view.(cellHeight := cell))
  }

  function AutoscaleApply(c: Chart, data: Option<Data>): (t: Chart)
    requires c.view.timeframe > 0
    ensures t.view == c.view.(basePriceY := t.view.basePriceY, cellHeight := t.view.cellHeight)
  {
    if !c.pending then c
    else
      var d := c.(pending := false);
      if data.None? then d
      else
        var (base, cell) := Autoscale(d.view, data.value.ohlc);
        Rescale(d, base, cell)
  }

  /** The two ticks may run in either order; autoscale runs after both. */
  function Ticks(c: Chart, data: Option<Data>, dataFirst: bool): (t: Chart)
    ensures t.view == c.view.(latestX := t.view.latestX, signature := t.view.signature)
  {
    if dataFirst then InteractionTick(DataTick(c, data)) else DataTick(InteractionTick(c), data)
  }

  function Frame(c: Chart, data: Option<Data>, dataFirst: bool): (t: Chart)
    requires c.view.timeframe > 0
    ensures t.view.timeframe == c.view.timeframe
  {
    AutoscaleApply(Ticks(c, data, dataFirst), data)
  }

  // ── What one frame does ──

  /** The map was written and holds data with a signature the view has not seen. */
  predicate News(c: Chart, data: Option<Data>) {
    c.mapChanged && data.Some? && data.value.signature != c.view.signature
  }

  /** The ticks take in news: its signature, the time of its last bar as right edge, and the notice of a write. */
  lemma TicksTakeNews(c: Chart, data: Option<Data>, dataFirst: bool)
    ensures var (t, news) := (Ticks(c, data, dataFirst), News(c, data));
            && t.view == c.view.(latestX := t.view.latestX, signature := t.view.signature)
            && t.view.signature == (if news then data.value.signature else c.view.signature)
            && t.view.latestX == (if news && data.value.ohlc != []
                                  then data.value.ohlc[|data.value.ohlc| - 1].openTime else c.view.latestX)
            && !t.mapChanged && (t.dirty <==> news && !dataFirst)
            && t.writes == c.writes + if !news then 0 else if data.value.ohlc == [] then 1 else 2
  {
  }

  /** They ask for autoscale exactly when it is on and the view was written or there is news. */
  lemma TicksAsk(c: Chart, data: Option<Data>, dataFirst: bool)
    ensures var (t, asks) := (Ticks(c, data, dataFirst), c.view.autoScale && (c.dirty || News(c, data)));
            && (t.pending <==> c.pending || asks)
            && (asks <==> t.requests > c.requests) && t.requests >= c.requests
  {
  }

  /** Within the epsilon of single precision of each other. */
  predicate Alike(a: real, b: real) {
    -1.0 / 8_388_608.0 <= a - b <= 1.0 / 8_388_608.0
  }

  /** An answered request gives each field its target unless it is there already, and counts a write for each. */
  lemma AnswerIs(c: Chart, data: Option<Data>)
    requires c.view.timeframe > 0
    ensures var d := AutoscaleApply(c, data);
            var (base, cell) := if data.Some? then Autoscale(c.view, data.value.ohlc) else (0.0, 0.0);
            var answered := c.pending && data.Some?;
            var (b, h) := (answered && !Alike(c.view.basePriceY, base), answered && !Alike(c.view.cellHeight, cell));
            && d.view == c.view.(basePriceY := if b then base else c.view.basePriceY,
                                 cellHeight := if h then cell else c.view.cellHeight)
            && !d.pending && d.mapChanged == c.mapChanged && d.requests == c.requests
            && (d.dirty <==> c.dirty || b || h)
            && d.writes == c.writes + (if b then 1 else 0) + if h then 1 else 0
  {
    hide Autoscale;
  }

  // ── The systems ──

  class ChartWorld {
    const state: ChartViewState
    var dirty: bool
    var mapChanged: bool
    var pending: bool
    ghost var writes: nat
    ghost var requests: nat

    ghost function Value(): Chart reads this, state {
      Chart(state.Value(), dirty, mapChanged, pending, writes, requests)
    }

    /** A spawned view counts as changed. */
    constructor ()
      ensures Value() == Chart(DEFAULT, true, true, false, 0, 0) && fresh(state)
    {
      state := new ChartViewState();
      dirty, mapChanged, pending := true, true, false;
      writes, requests := 0, 0;
    }

    method RequestAutoscale()
      modifies this
      ensures Value() == Request(old(Value()))
    {
      pending := true;
      requests := requests + 1;
    }

    method MarkWritten()
      modifies this
      ensures Value() == old(Value()).(dirty := true, writes := old(writes) + 1)
    {
      dirty := true;
      writes := writes + 1;
    }

    method ChartDataTick(data: Option<Data>)
      modifies this, state
      ensures Value() == DataTick(old(Value()), data)
    {
      if !mapChanged {
        return;
      }
      mapChanged := false;
      if data.None? || data.value.signature == state.signature {
        return;
      }
      state.signature := data.value.signature;
      MarkWritten();
      if data.value.ohlc != [] {
        state.latestX := data.value.ohlc[|data.value.ohlc| - 1].openTime;
        MarkWritten();
      }
      if state.autoScale {
        RequestAutoscale();
      }
    }

    method ChartInteractionTick()
      modifies this
      ensures Value() == InteractionTick(old(Value()))
    {
      if dirty {
        dirty := false;
        if state.autoScale {
          RequestAutoscale();
        }
      }
    }

    method ChartAutoscaleApply(data: Option<Data>)
      requires state.timeframe > 0
      modifies this, state
      ensures Value() == AutoscaleApply(old(Value()), data)
    {
      if !pending {
        return;
      }
      pending := false;
      if data.None? {
        return;
      }
      var base, cell := ComputeAutoscale(state.Value(), data.value.ohlc);
      hide Autoscale;
      if !Near(state.basePriceY, base) {
        state.basePriceY := base;
        MarkWritten();
      }
      if !Near(state.cellHeight, cell) {
        state.cellHeight := cell;
        MarkWritten();
      }
    }
  }

  // ── Quiescence ──

  /** One frame: the order of the ticks, and whether the map was written again beforehand. */
  datatype Input = Input(dataFirst: bool, touched: bool)

  function FrameFor(c: Chart, data: Option<Data>, input: Input): (t: Chart)
    requires c.view.timeframe > 0
    ensures t.view.timeframe == c.view.timeframe
  {
    Frame(c.(mapChanged := c.mapChanged || input.touched), data, input.dataFirst)
  }

  function Frames(c: Chart, data: Option<Data>, ins: seq<Input>): (d: Chart)
    requires c.view.timeframe > 0
    ensures d.view.timeframe > 0
  {
    if ins == [] then c
    else
      FrameFor(Frames(c, data, ins[..|ins| - 1]), data, ins[|ins| - 1])
  }

  /** The data tick would find nothing new. */
  predicate Seen(c: Chart, data: Option<Data>) {
    data.None? || data.value.signature == c.view.signature
  }

  /** Autoscale would write nothing. */
  predicate Scaled(c: Chart, data: Option<Data>)
    requires c.view.timeframe > 0
  {
    data.Some? ==> Close(c.view, data.value.ohlc)
  }

  /** Between frames: no request is waiting, and a change not yet looked at would only find the scale in place. */
  predicate Settled(c: Chart, data: Option<Data>)
    requires c.view.timeframe > 0
  {
    !c.pending && (c.dirty && c.view.autoScale ==> Scaled(c, data))
  }

  lemma RescaleCloses(c: Chart, data: Data)
    requires c.view.timeframe > 0
    ensures var (base, cell) := Autoscale(c.view, data.ohlc);
            var d := Rescale(c, base, cell);
            d.view.timeframe == c.view.timeframe && Close(d.view, data.ohlc) && d.pending == c.pending
            && OnlyScale(c.view, d.view)
  {
    var (base, cell) := Autoscale(c.view, data.ohlc);
    var d := Rescale(c, base, cell);
    AutoscaleIgnoresScale(c.view, d.view.basePriceY, d.view.cellHeight, data.ohlc);
    assert d.view == c.view.(basePriceY := d.view.basePriceY, cellHeight := d.view.cellHeight);
    hide Autoscale;
    NothingVisible(c.view, data.ohlc);
  }

  lemma NothingVisible(v: View, ohlc: seq<Candle>)
    requires v.timeframe > 0
    ensures VisibleSlice(v, ohlc) == [] ==> Autoscale(v, ohlc) == (v.basePriceY, v.cellHeight)
  {
  }

  predicate OnlyScale(v: View, w: View) {
    w == v.(basePriceY := w.basePriceY, cellHeight := w.cellHeight)
  }

  /** After the ticks, an unseen change of an autoscaled chart has a request waiting. */
  lemma TicksRequest(c: Chart, data: Option<Data>, dataFirst: bool)
    ensures var t := Ticks(c, data, dataFirst);
            && (t.dirty && t.view.autoScale ==> t.pending) && !t.mapChanged
            && (c.mapChanged || Seen(c, data) ==> Seen(t, data))
  {
  }

  /** One frame settles any state, whichever tick ran first. */
  lemma FrameSettles(c: Chart, data: Option<Data>, dataFirst: bool)
    requires c.view.timeframe > 0
    ensures var d := Frame(c, data, dataFirst);
            && d.view.timeframe > 0 && Settled(d, data) && !d.mapChanged
            && (c.mapChanged || Seen(c, data) ==> Seen(d, data))
  {
    var t := Ticks(c, data, dataFirst);
    TicksRequest(c, data, dataFirst);
    hide Ticks, Autoscale, Close;
    if t.pending && data.Some? {
      RescaleCloses(t.(pending := false), data.value);
    }
  }

  /** A settled chart that has seen its data is not written, and is asked for autoscale only if a change was unseen. */
  lemma SettledFrame(c: Chart, data: Option<Data>, dataFirst: bool)
    requires c.view.timeframe > 0 && Settled(c, data) && (c.mapChanged ==> Seen(c, data))
    ensures var d := Frame(c, data, dataFirst);
            && d.view == c.view && d.writes == c.writes && !d.dirty
            && (!c.dirty ==> d.requests == c.requests)
  {
    hide Autoscale;
  }

  /** Settled, and no map change is waiting unless its data has been seen. */
  predicate Quiet(c: Chart, data: Option<Data>)
    requires c.view.timeframe > 0
  {
    Settled(c, data) && !c.mapChanged
  }

  /** From a quiet state a frame writes nothing, whether the map is touched after its data was seen or not at all. */
  lemma QuietFrame(c: Chart, data: Option<Data>, input: Input)
    requires c.view.timeframe > 0 && Quiet(c, data) && (input.touched ==> Seen(c, data))
    ensures var d := FrameFor(c, data, input);
            && Quiet(d, data) && (Seen(c, data) ==> Seen(d, data))
            && d.view == c.view && d.writes == c.writes && !d.dirty
            && (!c.dirty ==> d.requests == c.requests)
  {
    hide Frame, Seen;
    var b := c.(mapChanged := input.touched);
    TouchChangesNothing(c, b, data);
    SettledFrame(b, data, input.dataFirst);
    FrameSettles(b, data, input.dataFirst);
  }

  lemma TouchChangesNothing(c: Chart, b: Chart, data: Option<Data>)
    requires c.view.timeframe > 0 && b == c.(mapChanged := b.mapChanged)
    ensures (Seen(b, data) <==> Seen(c, data)) && (Settled(b, data) <==> Settled(c, data))
  {
  }

  lemma FirstFrame(c: Chart, data: Option<Data>, input: Input)
    requires c.view.timeframe > 0
    ensures var d := FrameFor(c, data, input);
            Quiet(d, data) && (c.mapChanged || input.touched || Seen(c, data) ==> Seen(d, data))
  {
    hide Frame, Seen, Settled;
    var b := c.(mapChanged := c.mapChanged || input.touched);
    TouchChangesNothing(c, b, data);
    FrameSettles(b, data, input.dataFirst);
  }

  /** The data is looked at in the first frame, was known before, or the map is not touched again. */
  predicate DataFixed(c: Chart, data: Option<Data>, ins: seq<Input>)
    requires ins != []
  {
    c.mapChanged || ins[0].touched || Seen(c, data) || forall i :: 0 < i < |ins| ==> !ins[i].touched
  }

  lemma {:induction false} QuietAfterOne(c: Chart, data: Option<Data>, ins: seq<Input>)
    requires c.view.timeframe > 0 && ins != [] && DataFixed(c, data, ins)
    ensures var d, first := Frames(c, data, ins), Frames(c, data, ins[..1]);
            && d.view == first.view && d.writes == first.writes
            && (|ins| > 1 ==> !d.dirty && d.requests == Frames(c, data, ins[..2]).requests)
            && Quiet(d, data)
            && (c.mapChanged || ins[0].touched || Seen(c, data) ==> Seen(d, data))
  {
    var n := |ins| - 1;
    if n == 0 {
      assert ins[..0] == [] && ins[..1] == ins;
      hide FrameFor, Quiet, Seen;
      FirstFrame(c, data, ins[0]);
    } else {
      assert ins[..n][..1] == ins[..1] && (n > 1 ==> ins[..n][..2] == ins[..2]) && (n == 1 ==> ins[..2] == ins);
      hide FrameFor, Quiet, Seen;
      QuietAfterOne(c, data, ins[..n]);
      QuietFrame(Frames(c, data, ins[..n]), data, ins[n]);
    }
  }

  /**
   * With data fixed and no input, from any state and in any order of the ticks:
   * after the first frame nothing writes the view, and after the second
   * nothing asks for autoscale.
   */
  lemma Quiescence(c: Chart, data: Option<Data>, ins: seq<Input>)
    requires c.view.timeframe > 0 && ins != [] && DataFixed(c, data, ins)
    ensures var d, first := Frames(c, data, ins), Frames(c, data, ins[..1]);
            && d.view == first.view && d.writes == first.writes
            && (|ins| > 1 ==> d.requests == Frames(c, data, ins[..2]).requests)
  {
    QuietAfterOne(c, data, ins);
  }

  // ── Reachable states ──

  datatype Step =
    | Drag(dx: real, dy: real, cameraScale: real)
    | Wheel(x: real, y: real, notches: real)
    | DoubleClick
    | MapWritten
    | NextFrame(data: Option<Data>, dataFirst: bool)

  /** Autoscale is only ever on over an unpanned, unzoomed view. */
  predicate AutoScaleMeansUnmoved(v: View) {
    Normal(v) && v.scaling == 1.0 && (v.autoScale ==> Unmoved(v))
  }

  function Apply(c: Chart, step: Step): Chart
    requires AutoScaleMeansUnmoved(c.view)
  {
    match step
    case Drag(dx, dy, s) => Write(c, Pan(c.view, dx, dy, s))
    case Wheel(x, y, n) => Write(c, Zoom(c.view, x, y, n))
    case DoubleClick => Write(c, Reset(c.view))
    case MapWritten => c.(mapChanged := true)
    case NextFrame(data, dataFirst) => Frame(c, data, dataFirst)
  }

  /** A drag, a zoom and a double click each count as a write, even if the view stays as it was. */
  lemma InputsWrite(c: Chart, step: Step)
    requires AutoScaleMeansUnmoved(c.view)
    ensures var d := Apply(c, step);
            match step {
              case Drag(dx, dy, s) =>
                && d == Chart(d.view, true, c.mapChanged, c.pending, c.writes + 1, c.requests)
                && d.view == c.view.(panX := c.view.panX + dx * s, panY := c.view.panY - dy * s, autoScale := false)
              case Wheel(x, y, n) =>
                && d == Chart(Zoom(c.view, x, y, n), true, c.mapChanged, c.pending, c.writes + 1, c.requests)
              case DoubleClick =>
                && d == Chart(d.view, true, c.mapChanged, c.pending, c.writes + 1, c.requests)
                && d.view == c.view.(panX := 0.0, panY := 0.0, scaling := 1.0, cellWidth := 6.0, autoScale := true)
              case MapWritten => d == c.(mapChanged := true)
              case NextFrame(data, dataFirst) =>
                d == AutoscaleApply(Ticks(c, data, dataFirst), data)
            }
  {
    hide Zoom, Ticks, AutoscaleApply;
  }

  lemma RescaleNormal(c: Chart, data: Data)
    requires Normal(c.view)
    ensures var (base, cell) := Autoscale(c.view, data.ohlc); Normal(Rescale(c, base, cell).view)
  {
    if VisibleSlice(c.view, data.ohlc) != [] {
      var slice := VisibleSlice(c.view, data.ohlc);
      CellForPositive(c.view, PaddedRange(Lowest(slice), Highest(slice)));
      hide CellFor, PaddedRange;
    }
    hide VisibleSlice;
  }

  lemma FrameKeeps(c: Chart, data: Option<Data>, dataFirst: bool)
    requires AutoScaleMeansUnmoved(c.view)
    ensures AutoScaleMeansUnmoved(Frame(c, data, dataFirst).view)
  {
    var t := Ticks(c, data, dataFirst);
    if t.pending && data.Some? {
      RescaleNormal(t.(pending := false), data.value);
      hide Autoscale, Ticks;
    }
  }

  lemma StepKeeps(c: Chart, step: Step)
    requires AutoScaleMeansUnmoved(c.view)
    ensures AutoScaleMeansUnmoved(Apply(c, step).view)
  {
    match step {
      case Drag(_, _, _) =>
      case Wheel(x, y, n) =>
        ZoomInRange(c.view, x, y, n);
        SameUnits(c.view, x, y, n);
        hide Zoom;
      case DoubleClick =>
      case MapWritten =>
      case NextFrame(data, dataFirst) =>
        FrameKeeps(c, data, dataFirst);
        hide Frame;
    }
  }

  const SPAWNED := Chart(DEFAULT, true, true, false, 0, 0)

  ghost predicate Reaches(c: Chart, steps: seq<Step>, d: Chart)
    requires AutoScaleMeansUnmoved(c.view)
    decreases |steps|
  {
    if steps == [] then d == c
    else
      StepKeeps(c, steps[0]);
      Reaches(Apply(c, steps[0]), steps[1..], d)
  }

  /** Whatever is dragged, zoomed, reset and received, an autoscaled chart is unpanned at the default zoom. */
  lemma {:induction false} ReachableUnmoved(c: Chart, steps: seq<Step>, d: Chart)
    requires AutoScaleMeansUnmoved(c.view) && Reaches(c, steps, d)
    ensures AutoScaleMeansUnmoved(d.view)
    decreases |steps|
  {
    hide AutoScaleMeansUnmoved, Apply;
    if steps != [] {
      StepKeeps(c, steps[0]);
      ReachableUnmoved(Apply(c, steps[0]), steps[1..], d);
    }
  }

  /** What a chart keeps from its spawning: the area, the basis, the tick, and a cell width within the clamps. */
  predicate SpawnedShape(v: View) {
    && v.width == 310.0 && v.height == 180.0 && v.timeframe == 60_000 && v.tickSize == 0.01
    && v.scaling == 1.0 && MIN_CELL_WIDTH <= v.cellWidth <= MAX_CELL_WIDTH
  }

  lemma StepKeepsShape(c: Chart, step: Step)
    requires AutoScaleMeansUnmoved(c.view) && SpawnedShape(c.view)
    ensures SpawnedShape(Apply(c, step).view)
  {
    match step {
      case Drag(_, _, _) =>
      case Wheel(x, y, n) =>
        ResizeNormal(c.view, n);
        hide PriceToY, IntervalToX, YToPrice, XToTime, Resize;
      case DoubleClick =>
      case MapWritten =>
      case NextFrame(data, dataFirst) =>
        hide DataTick, InteractionTick, Autoscale, Rescale;
    }
  }

  /** Every reachable chart keeps the shape it was spawned with. */
  lemma {:induction false} ReachableShape(c: Chart, steps: seq<Step>, d: Chart)
    requires AutoScaleMeansUnmoved(c.view) && SpawnedShape(c.view) && Reaches(c, steps, d)
    ensures SpawnedShape(d.view)
    decreases |steps|
  {
    hide AutoScaleMeansUnmoved, SpawnedShape, Apply;
    if steps != [] {
      StepKeeps(c, steps[0]);
      StepKeepsShape(c, steps[0]);
      ReachableShape(Apply(c, steps[0]), steps[1..], d);
    }
  }

  /**
   * In every reachable state, the frame that answers an autoscale request
   * leaves all visible candles inside the main area, provided the guard's
   * slack suffices for their spread.
   */
  lemma AnsweredRequestFits(steps: seq<Step>, c: Chart, data: Data, dataFirst: bool)
    requires Reaches(SPAWNED, steps, c)
    requires c.view.timeframe > 0 && Ticks(c, Some(data), dataFirst).pending && c.view.autoScale
    requires WellFormed(data.ohlc)
    ensures var d := Frame(c, Some(data), dataFirst);
            Normal(d.view) && (SlackSuffices(d.view, data.ohlc) ==> Fits(d.view, data.ohlc))
  {
    ReachableUnmoved(SPAWNED, steps, c);
    FrameKeeps(c, Some(data), dataFirst);
    var t := Ticks(c, Some(data), dataFirst);
    RescaleCloses(t.(pending := false), data);
    hide Ticks, Autoscale, Close, SlackSuffices, Fits, Reaches;
    var d := Frame(c, Some(data), dataFirst);
    if SlackSuffices(d.view, data.ohlc) {
      CloseFits(d.view, data.ohlc);
    }
  }

  // ── A frame that leaves a scale that does not fit ──

  const TALL := Data([Candle(0, 7_525_000.0, 2_475_000.0)], 1)
  const TALLER := Data([Candle(0, 9_999_999.0, 1.0)], 2)

  /** A single bar at the right edge is visible and alone sets the scale. */
  lemma OneBarScale(v: View, bar: Candle)
    requires v == DEFAULT.(latestX := bar.openTime, basePriceY := v.basePriceY, cellHeight := v.cellHeight,
                           signature := v.signature)
    requires bar.low < bar.high && bar.high - bar.low >= 1.0
    ensures VisibleSlice(v, [bar]) == [bar]
    ensures Autoscale(v, [bar]) == ((bar.low + bar.high) / 2.0, 1.44 / ((bar.high - bar.low) * 1.2))
  {
    assert IntervalToX(v, bar.openTime) == 147.0;
    assert [bar][..0] == [] && Highest([bar]) == bar.high && Lowest([bar]) == bar.low;
    assert MainAreaHeight(v) == 144.0;
    assert PaddedRange(bar.low, bar.high) == (bar.high - bar.low) * 1.2;
  }

  lemma OneBarTarget(v: View, ohlc: seq<Candle>, bar: Candle, base: real, range: real)
    requires v == DEFAULT.(latestX := bar.openTime, basePriceY := v.basePriceY, cellHeight := v.cellHeight,
                           signature := v.signature)
    requires ohlc == [bar] && bar.low < bar.high && bar.high - bar.low >= 1.0
    requires base == (bar.low + bar.high) / 2.0 && range == (bar.high - bar.low) * 1.2
    ensures VisibleSlice(v, ohlc) == ohlc && Autoscale(v, ohlc) == (base, 1.44 / range)
  {
    hide VisibleSlice, Autoscale;
    OneBarScale(v, bar);
  }

  lemma TallScale(v: View)
    requires v == DEFAULT.(basePriceY := v.basePriceY, cellHeight := v.cellHeight, signature := v.signature)
    ensures Autoscale(v, TALL.ohlc) == (5_000_000.0, 1.44 / 6_060_000.0)
    ensures Autoscale(v, TALLER.ohlc) == (5_000_000.0, 1.44 / 11_999_997.6)
    ensures VisibleSlice(v, TALLER.ohlc) == TALLER.ohlc
  {
    hide VisibleSlice, Autoscale;
    OneBarTarget(v, TALL.ohlc, Candle(0, 7_525_000.0, 2_475_000.0), 5_000_000.0, 6_060_000.0);
    OneBarTarget(v, TALLER.ohlc, Candle(0, 9_999_999.0, 1.0), 5_000_000.0, 11_999_997.6);
  }

  lemma StaleIsNear()
    ensures Near(5_000_000.0, 5_000_000.0) && Near(1.44 / 6_060_000.0, 1.44 / 11_999_997.6)
  {
  }

  /** The view once the frame with the tall bar is over. */
  const TALL_VIEW := DEFAULT.(basePriceY := 5_000_000.0, cellHeight := 1.44 / 6_060_000.0, signature := 1)

  lemma TallFrame(dataFirst: bool)
    ensures var c := Frame(SPAWNED, Some(TALL), dataFirst); c.view == TALL_VIEW && !c.pending
  {
    TallScale(DEFAULT.(signature := 1));
    hide Autoscale;
    var t := Ticks(SPAWNED, Some(TALL), dataFirst);
    assert t.pending && t.view == DEFAULT.(signature := 1);
    hide Ticks;
  }

  /** Its scale is within tolerance of the one the taller bar asks for. */
  lemma TallerFrame(c: Chart, dataFirst: bool)
    requires c.view == TALL_VIEW && !c.pending && c.mapChanged
    ensures var d := Frame(c, Some(TALLER), dataFirst);
            d.view == TALL_VIEW.(signature := 2) && d.requests > c.requests
  {
    TallScale(TALL_VIEW.(signature := 2));
    StaleIsNear();
    hide Autoscale, Near;
    var t := Ticks(c, Some(TALLER), dataFirst);
    assert t.pending && t.view == TALL_VIEW.(signature := 2) && t.requests > c.requests;
    hide Ticks;
  }

  lemma TallerMisfits(v: View)
    requires v == TALL_VIEW.(signature := 2)
    ensures !Fits(v, TALLER.ohlc)
  {
    TallScale(v);
    hide VisibleSlice;
    assert TALLER.ohlc[0] in TALLER.ohlc;
    assert PriceToY(v, 9_999_999.0) > 90.0;
  }

  /**
   * Two frames of one chart, in any order of the ticks: the second asks for autoscale, the guard
   * leaves the scale of the first in place, and the bar does not fit.
   */
  lemma StaleScaleMisfits(firstOrder: bool, secondOrder: bool)
    ensures var first := Frame(SPAWNED, Some(TALL), firstOrder);
            var second := Frame(first.(mapChanged := true), Some(TALLER), secondOrder);
            && Reaches(SPAWNED,
                       [NextFrame(Some(TALL), firstOrder), MapWritten, NextFrame(Some(TALLER), secondOrder)], second)
            && second.requests > first.requests && second.view.autoScale
            && second.view == first.view.(signature := TALLER.signature)
            && WellFormed(TALLER.ohlc) && !Fits(second.view, TALLER.ohlc)
  {
    TallFrame(firstOrder);
    var first := Frame(SPAWNED, Some(TALL), firstOrder);
    TallerFrame(first.(mapChanged := true), secondOrder);
    var second := Frame(first.(mapChanged := true), Some(TALLER), secondOrder);
    TallerMisfits(second.view);
    ThreeStepsReach(firstOrder, secondOrder);
    hide Frame, Fits, Reaches;
  }

  lemma ThreeStepsReach(firstOrder: bool, secondOrder: bool)
    ensures var first := Frame(SPAWNED, Some(TALL), firstOrder);
            var second := Frame(first.(mapChanged := true), Some(TALLER), secondOrder);
            Reaches(SPAWNED,
                    [NextFrame(Some(TALL), firstOrder), MapWritten, NextFrame(Some(TALLER), secondOrder)], second)
  {
    TallFrame(firstOrder);
    hide Frame;
    var first := Frame(SPAWNED, Some(TALL), firstOrder);
    var second := Frame(first.(mapChanged := true), Some(TALLER), secondOrder);
    FrameKeeps(SPAWNED, Some(TALL), firstOrder);
    FrameKeeps(first.(mapChanged := true), Some(TALLER), secondOrder);
    var (a, b, c) := (NextFrame(Some(TALL), firstOrder), MapWritten, NextFrame(Some(TALLER), secondOrder));
    OneMoreStep(first.(mapChanged := true), c, [], second);
    OneMoreStep(first, b, [c], second);
    OneMoreStep(SPAWNED, a, [b, c], second);
    assert [c] + [] == [c] && [b] + [c] == [b, c] && [a] + [b, c] == [a, b, c];
  }

  lemma OneMoreStep(c: Chart, step: Step, steps: seq<Step>, d: Chart)
    requires AutoScaleMeansUnmoved(c.view) && AutoScaleMeansUnmoved(Apply(c, step).view)
    requires Reaches(Apply(c, step), steps, d)
    ensures Reaches(c, [step] + steps, d)
  {
    hide Apply, AutoScaleMeansUnmoved;
    assert ([step] + steps)[1..] == steps;
  }
}
