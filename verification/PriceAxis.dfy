/** Price labels: a round step for a price range, and the labels the axis draws with it. */
module PriceAxis {
  import opened RealArithmetic
  import Chart = ChartView

  const MAX_LABELS := 64

  // ── Powers of ten ──

  function Pow10(e: int): (p: real)
    ensures p > 0.0
    decreases if e >= 0 then e else -e
  {
    if e == 0 then 1.0 else if e > 0 then 10.0 * Pow10(e - 1) else Pow10(e + 1) / 10.0
  }

  lemma Pow10Step(e: int)
    ensures Pow10(e + 1) == 10.0 * Pow10(e)
  {
  }

  lemma {:induction false} Pow10Increases(d: int, e: int)
    requires d < e
    ensures 10.0 * Pow10(d) <= Pow10(e)
    decreases e - d
  {
    Pow10Step(e - 1);
    if d < e - 1 {
      Pow10Increases(d, e - 1);
    }
  }

  /** The exponent of the power of ten at or below a positive number. */
  predicate IsMagnitude(e: int, x: real) {
    Pow10(e) <= x < 10.0 * Pow10(e)
  }

  function MagnitudeUp(x: real): (e: int)
    requires x >= 1.0
    ensures IsMagnitude(e, x)
    decreases x.Floor
  {
    if x < 10.0 then 0
    else
      var e := MagnitudeUp(x / 10.0);
      Pow10Step(e);
      e + 1
  }

  lemma InverseShrinks(x: real)
    requires 0.0 < x && 10.0 * x < 1.0
    ensures (1.0 / (10.0 * x)).Floor < (1.0 / x).Floor
  {
    var i, j := 1.0 / x, 1.0 / (10.0 * x);
    assert i * x == 1.0 && j * (10.0 * x) == 1.0;
    TenTimes(i, j, x);
  }

  lemma TenthsProduct(i: real, x: real)
    requires x > 0.0 && 10.0 * x < i * x
    ensures i > 10.0
  {
  }

  lemma TenTimes(i: real, j: real, x: real)
    requires x > 0.0 && 10.0 * x < 1.0 && i * x == 1.0 && j * (10.0 * x) == 1.0
    ensures i == 10.0 * j && i > 10.0
  {
    assert (i - 10.0 * j) * x == 0.0;
    TenthsProduct(i, x);
  }

  function MagnitudeDown(x: real): (e: int)
    requires 0.0 < x < 1.0
    ensures IsMagnitude(e, x)
    decreases (1.0 / x).Floor
  {
    if 10.0 * x >= 1.0 then
      Pow10Step(-1);
      -1
    else
      InverseShrinks(x);
      var e := MagnitudeDown(10.0 * x);
      Pow10Step(e - 1);
      e - 1
  }

  function Magnitude(x: real): (e: int)
    requires x > 0.0
    ensures IsMagnitude(e, x)
  {
    if x >= 1.0 then MagnitudeUp(x) else MagnitudeDown(x)
  }

  /** There is only one: the base of the step is the range's power of ten. */
  lemma MagnitudeUnique(d: int, e: int, x: real)
    requires IsMagnitude(d, x) && IsMagnitude(e, x)
    ensures d == e
  {
    if d < e {
      Pow10Increases(d, e);
    } else if e < d {
      Pow10Increases(e, d);
    }
  }

  // ── The step ──

  function Abs(x: real): real {
    if x < 0.0 then -x else x
  }

  function Min(a: real, b: real): real {
    if b < a then b else a
  }

  function Ceil(x: real): int {
    -(-x).Floor
  }

  /** The range the step is chosen for. */
  function Range(high: real, low: real): (r: real)
    ensures r > 0.0
  {
    Max(Abs(high - low), F32_EPSILON)
  }

  function Slots(labelsCanFit: int): (n: nat)
    ensures n >= 1
  {
    if labelsCanFit < 1 then 1 else labelsCanFit
  }

  /** A tenth, a fifth, a half, one or two of the range's power of ten; else the range over the labels, up to five. */
  function StepOver(range: real, base: real, n: real): real
    requires base > 0.0 && n > 0.0
  {
    var r := range / base;
    if r <= n * 0.1 then 0.1 * base
    else if r <= n * 0.2 then 0.2 * base
    else if r <= n * 0.5 then 0.5 * base
    else if r <= n then base
    else if r <= n * 2.0 then 2.0 * base
    else Min(range / n, 5.0 * base)
  }

  function Step(high: real, low: real, labelsCanFit: int): real {
    var range := Range(high, low);
    StepOver(range, Pow10(Magnitude(range)), Slots(labelsCanFit) as real)
  }

  /** A multiple of the base big enough for the range over the labels. */
  lemma BaseSteps(range: real, r: real, base: real, n: nat, k: real)
    requires base > 0.0 && k > 0.0 && r <= n as real * k && r * base == range && n >= 1
    ensures k * base > 0.0 && Roomy(range, k * base, n)
  {
    var m := n as real;
    MulMono(r, m * k, base);
    assert m * k * base == m * (k * base);
    EnoughSteps(range, k * base, n);
  }

  lemma EnoughSteps(range: real, step: real, n: nat)
    requires step > 0.0 && n >= 1 && range <= n as real * step
    ensures Roomy(range, step, n)
  {
    if n == 1 {
      assert n as real * step == step;
    }
  }

  /** The range holds at most `n` steps; with one slot, less than two. */
  predicate Roomy(range: real, step: real, n: nat) {
    (n >= 2 ==> range <= n as real * step) && (n == 1 ==> range < 2.0 * step)
  }

  lemma PositiveQuotient(a: real, m: real)
    requires a > 0.0 && m > 0.0
    ensures a / m > 0.0 && m * (a / m) == a
  {
    MulDiv(a, m);
    if a / m <= 0.0 {
      MulMono(a / m, 0.0, m);
    }
  }

  lemma LastResort(range: real, base: real, n: nat)
    requires base > 0.0 && 0.0 < range < 10.0 * base && n >= 1
    ensures var step := Min(range / n as real, 5.0 * base); step > 0.0 && Roomy(range, step, n)
  {
    var m := n as real;
    PositiveQuotient(range, m);
    if 5.0 * base < range / m {
      if n >= 2 {
        MulMono(5.0 * base, range / m, m);
        MulMono(2.0, m, 5.0 * base);
      }
    } else {
      EnoughSteps(range, range / m, n);
    }
  }

  lemma StepBound(range: real, base: real, n: nat)
    requires base > 0.0 && base <= range < 10.0 * base && n >= 1
    ensures StepOver(range, base, n as real) > 0.0 && Roomy(range, StepOver(range, base, n as real), n)
  {
    var m, r := n as real, range / base;
    MulDiv(range, base);
    hide Roomy;
    if r <= m * 0.1 {
      BaseSteps(range, r, base, n, 0.1);
    } else if r <= m * 0.2 {
      BaseSteps(range, r, base, n, 0.2);
    } else if r <= m * 0.5 {
      BaseSteps(range, r, base, n, 0.5);
    } else if r <= m {
      BaseSteps(range, r, base, n, 1.0);
    } else if r <= m * 2.0 {
      BaseSteps(range, r, base, n, 2.0);
    } else {
      LastResort(range, base, n);
    }
  }

  /** For every range and every number of label slots, the step is positive and does not crowd them. */
  lemma StepFitsLabels(high: real, low: real, labelsCanFit: int)
    ensures Step(high, low, labelsCanFit) > 0.0
    ensures Roomy(Range(high, low), Step(high, low, labelsCanFit), Slots(labelsCanFit))
  {
    var range := Range(high, low);
    var e := Magnitude(range);
    hide StepOver, Range, Magnitude, Pow10, Slots, Roomy;
    StepBound(range, Pow10(e), Slots(labelsCanFit));
  }

  /** The slots cover the range with steps of this size. */
  predicate Covers(range: real, step: real, n: nat) {
    range <= n as real * step
  }

  /** A multiple of the base covers the range exactly when the slots reach the range in bases. */
  lemma CoversIff(range: real, base: real, n: nat, k: real)
    requires base > 0.0
    ensures Covers(range, k * base, n) <==> range / base <= n as real * k
  {
    var r, m := range / base, n as real;
    MulDiv(range, base);
    assert m * k * base == m * (k * base);
    if r <= m * k {
      MulMono(r, m * k, base);
    } else {
      StrictMul(m * k, r, base);
    }
  }

  /** The powers of ten, counted from one. */
  lemma PowersOfTen(e: int)
    ensures Pow10(0) == 1.0 && Pow10(e + 1) == 10.0 * Pow10(e)
  {
  }

  /**
   * `step` is the smallest of a tenth, a fifth, a half, one and two of `p` with which the slots cover
   * the range; when none does, the range over the slots, but at most five of `p`.
   */
  predicate RoundStep(range: real, p: real, n: nat, step: real)
    requires n >= 1
  {
    if Covers(range, 2.0 * p, n) then
      && (step == 0.1 * p || step == 0.2 * p || step == 0.5 * p || step == p || step == 2.0 * p)
      && Covers(range, step, n)
      && (Covers(range, 0.1 * p, n) ==> step <= 0.1 * p)
      && (Covers(range, 0.2 * p, n) ==> step <= 0.2 * p)
      && (Covers(range, 0.5 * p, n) ==> step <= 0.5 * p)
      && (Covers(range, p, n) ==> step <= p)
    else
      && step <= range / n as real && step <= 5.0 * p
      && (step == range / n as real || step == 5.0 * p)
  }

  lemma StepOverIsRound(range: real, p: real, n: nat)
    requires p > 0.0 && n >= 1
    ensures RoundStep(range, p, n, StepOver(range, p, n as real))
  {
    CoversIff(range, p, n, 0.1);
    CoversIff(range, p, n, 0.2);
    CoversIff(range, p, n, 0.5);
    CoversIff(range, p, n, 1.0);
    CoversIff(range, p, n, 2.0);
    var r, m := range / p, n as real;
    CoversGrow(m);
    hide Covers;
    assert 1.0 * p == p;
  }

  lemma CoversGrow(m: real)
    requires m >= 1.0
    ensures m * 0.1 < m * 0.2 < m * 0.5 < m * 1.0 < m * 2.0 && m * 1.0 == m
  {
  }

  /** The step is the round one for the range, its power of ten and the slots. */
  lemma StepIsRound(high: real, low: real, labelsCanFit: int, e: int)
    requires IsMagnitude(e, Range(high, low))
    ensures Range(high, low) == if high - low > F32_EPSILON then high - low
                                else if low - high > F32_EPSILON then low - high else F32_EPSILON
    ensures Slots(labelsCanFit) == if labelsCanFit < 1 then 1 else labelsCanFit
    ensures RoundStep(Range(high, low), Pow10(e), Slots(labelsCanFit), Step(high, low, labelsCanFit))
  {
    MagnitudeUnique(e, Magnitude(Range(high, low)), Range(high, low));
    hide Pow10, Magnitude, StepOver, RoundStep;
    StepOverIsRound(Range(high, low), Pow10(e), Slots(labelsCanFit));
  }

  // ── The rounded top ──

  function Multiple(k: int, step: real): real {
    k as real * step
  }

  function RoundedHighest(high: real, step: real): real
    requires step > 0.0
  {
    Multiple(Ceil(high / step), step)
  }

  lemma MultiplesOrdered(j: int, k: int, step: real)
    requires step > 0.0
    ensures j <= k <==> Multiple(j, step) <= Multiple(k, step)
  {
    if j <= k {
      MulMono(j as real, k as real, step);
    } else {
      StrictMul(k as real, j as real, step);
    }
  }

  lemma NextMultiple(k: int, step: real)
    ensures Multiple(k - 1, step) == Multiple(k, step) - step
  {
    OneDown(k as real, (k - 1) as real, step);
  }

  lemma OneDown(x: real, y: real, step: real)
    requires y == x - 1.0
    ensures y * step == x * step - step
  {
  }

  lemma Rounding(k: int, q: real)
    ensures k as real >= q <==> k >= Ceil(q)
    ensures k as real <= q <==> k <= q.Floor
  {
    FloorLeast(k, q);
    FloorLeast(-k, -q);
  }

  lemma FloorLeast(k: int, q: real)
    ensures k as real <= q <==> k <= q.Floor
  {
    assert q.Floor as real <= q < q.Floor as real + 1.0;
    if k <= q.Floor {
      assert k as real <= q.Floor as real;
    } else {
      assert k as real >= (q.Floor + 1) as real;
    }
  }

  lemma QuotientOrder(k: real, x: real, step: real)
    requires step > 0.0
    ensures k * step >= x <==> k >= x / step
    ensures k * step <= x <==> k <= x / step
  {
    var q := x / step;
    MulDiv(x, step);
    if k < q {
      StrictMul(k, q, step);
    } else if k > q {
      StrictMul(q, k, step);
    }
  }

  /** A multiple of the step reaches `x` exactly when its factor reaches the quotient rounded up, or down. */
  lemma MultipleAtLeast(k: int, x: real, step: real)
    requires step > 0.0
    ensures Multiple(k, step) >= x <==> k >= Ceil(x / step)
    ensures Multiple(k, step) <= x <==> k <= (x / step).Floor
  {
    QuotientOrder(k as real, x, step);
    Rounding(k, x / step);
    hide Ceil;
  }

  /** The rounded top is the least multiple of the step at or above the highest price. */
  lemma RoundedHighestIsLeast(high: real, step: real, k: int)
    requires step > 0.0
    ensures RoundedHighest(high, step) >= high
    ensures Multiple(k, step) >= high ==> Multiple(k, step) >= RoundedHighest(high, step)
  {
    hide Multiple, Ceil;
    MultipleAtLeast(Ceil(high / step), high, step);
    MultipleAtLeast(k, high, step);
    MultiplesOrdered(Ceil(high / step), k, step);
  }

  // ── The labels ──

  /** The multiples `top`, `top - 1`, ... of the step, `n` of them. */
  function Descending(top: int, n: nat, step: real): (r: seq<real>)
    ensures |r| == n
  {
    if n == 0 then [] else Descending(top, n - 1, step) + [Multiple(top - n + 1, step)]
  }

  /** The least and the greatest factor whose multiple lies in the range. */
  function Lowest(low: real, step: real): int
    requires step > 0.0
  {
    Ceil(low / step)
  }

  function Topmost(high: real, step: real): int
    requires step > 0.0
  {
    (high / step).Floor
  }

  /** How many multiples of the step lie in the range. */
  function Multiples(low: real, high: real, step: real): nat
    requires step > 0.0
  {
    if Lowest(low, step) <= Topmost(high, step) then Topmost(high, step) - Lowest(low, step) + 1 else 0
  }

  lemma InRange(k: int, low: real, high: real, step: real)
    requires step > 0.0
    ensures low <= Multiple(k, step) <==> Lowest(low, step) <= k
    ensures Multiple(k, step) <= high <==> k <= Topmost(high, step)
  {
    hide Multiple, Ceil;
    MultipleAtLeast(k, low, step);
    MultipleAtLeast(k, high, step);
  }

  function Cap(n: nat): nat {
    if n < MAX_LABELS then n else MAX_LABELS
  }

  /** Walks down from the rounded top: past the highest price, then label by label to the lowest. */
  method PriceLabels(high: real, low: real, step: real, roundedMax: real) returns (labels: seq<real>)
    requires step > 0.0 && roundedMax == RoundedHighest(high, step)
    ensures labels == Descending(Topmost(high, step), Cap(Multiples(low, high, step)), step)
  {
    ghost var top := Topmost(high, step);
    ghost var k := Ceil(high / step);
    hide Multiple, Ceil, Topmost, Lowest;
    var value := roundedMax;
    StartsAtOrAbove(k, high, step);
    while value > high
      invariant value == Multiple(k, step) && k >= top
      decreases k - top
    {
      InRange(k, low, high, step);
      NextMultiple(k, step);
      value := value - step;
      k := k - 1;
    }
    InRange(k, low, high, step);
    var count := 0;
    labels := [];
    while value >= low && count < MAX_LABELS
      invariant k == top - count && value == Multiple(k, step) && 0 <= count <= MAX_LABELS
      invariant labels == Descending(top, count, step)
      invariant count == 0 || k + 1 >= Lowest(low, step)
      decreases MAX_LABELS - count
    {
      InRange(k, low, high, step);
      NextMultiple(k, step);
      labels := labels + [value];
      value := value - step;
      count := count + 1;
      k := k - 1;
    }
    InRange(k, low, high, step);
  }

  lemma StartsAtOrAbove(k: int, high: real, step: real)
    requires step > 0.0 && k == Ceil(high / step)
    ensures k >= Topmost(high, step)
  {
  }

  lemma {:induction false} DescendingAt(top: int, n: nat, step: real, i: nat)
    requires i < n
    ensures Descending(top, n, step)[i] == Multiple(top - i, step)
  {
    hide Multiple;
    if i < n - 1 {
      DescendingAt(top, n - 1, step, i);
    }
  }

  /** The labels drawn for a price range with a number of label slots. */
  function Labels(high: real, low: real, labelsCanFit: int): seq<real> {
    StepFitsLabels(high, low, labelsCanFit);
    var step := Step(high, low, labelsCanFit);
    Descending(Topmost(high, step), Cap(Multiples(low, high, step)), step)
  }

  /** At most one label more than the slots, and two for a single slot. */
  lemma LabelCount(high: real, low: real, labelsCanFit: int)
    requires high - low >= F32_EPSILON
    ensures |Labels(high, low, labelsCanFit)| <= Slots(labelsCanFit) + 1
    ensures |Labels(high, low, labelsCanFit)| <= 64
    ensures var step := Step(high, low, labelsCanFit);
            step > 0.0 && Multiples(low, high, step) <= Slots(labelsCanFit) + 1
  {
    StepFitsLabels(high, low, labelsCanFit);
    var step, n := Step(high, low, labelsCanFit), Slots(labelsCanFit);
    assert Range(high, low) == high - low;
    hide Step, Range, Multiples, Roomy, Slots;
    FewMultiples(high, low, step, n);
  }

  lemma QuotientGap(high: real, low: real, step: real, n: nat)
    requires step > 0.0 && n >= 1 && Roomy(high - low, step, n)
    ensures high / step - low / step <= n as real || (n == 1 && high / step - low / step < 2.0)
  {
    var gap := high / step - low / step;
    MulDiv(high, step);
    MulDiv(low, step);
    assert gap * step == high - low;
    if n >= 2 && gap > n as real {
      StrictMul(n as real, gap, step);
    }
    if n == 1 && gap >= 2.0 {
      MulMono(2.0, gap, step);
    }
  }

  lemma FloorCeilGap(a: real, b: real)
    ensures (a.Floor - Ceil(b)) as real <= a - b
  {
  }

  lemma FewMultiples(high: real, low: real, step: real, n: nat)
    requires step > 0.0 && n >= 1 && Roomy(high - low, step, n)
    ensures Multiples(low, high, step) <= n + 1
  {
    QuotientGap(high, low, step, n);
    FloorCeilGap(high / step, low / step);
    hide Ceil, Roomy;
  }

  /** Every label is a multiple of the step in the range, one step below the one before. */
  lemma LabelsAreMultiples(high: real, low: real, labelsCanFit: int, i: nat)
    requires i < |Labels(high, low, labelsCanFit)|
    ensures var (labels, step) := (Labels(high, low, labelsCanFit), Step(high, low, labelsCanFit));
            && low <= labels[i] <= high
            && (exists k :: labels[i] == Multiple(k, step))
            && (i > 0 ==> labels[i] == labels[i - 1] - step)
  {
    StepFitsLabels(high, low, labelsCanFit);
    hide Step, Multiple, Topmost, Lowest, Range, Roomy;
    var labels, step := Labels(high, low, labelsCanFit), Step(high, low, labelsCanFit);
    var k := Topmost(high, step) - i;
    DescendingAt(Topmost(high, step), |labels|, step, i);
    InRange(k, low, high, step);
    if i > 0 {
      DescendingAt(Topmost(high, step), |labels|, step, i - 1);
      NextMultiple(k + 1, step);
    }
    assert labels[i] == Multiple(k, step);
  }

  /** With up to 63 slots no multiple of the step in the range is missing from the labels. */
  lemma LabelsComplete(high: real, low: real, labelsCanFit: int, k: int)
    requires high - low >= F32_EPSILON && Slots(labelsCanFit) < 64
    requires low <= Multiple(k, Step(high, low, labelsCanFit)) <= high
    ensures Multiple(k, Step(high, low, labelsCanFit)) in Labels(high, low, labelsCanFit)
  {
    StepFitsLabels(high, low, labelsCanFit);
    LabelCount(high, low, labelsCanFit);
    hide Step, Multiple, Topmost, Lowest, Range, Slots, Roomy;
    var step := Step(high, low, labelsCanFit);
    InRange(k, low, high, step);
    var top := Topmost(high, step);
    var n := Multiples(low, high, step);
    DescendingAt(top, n, step, top - k);
    assert Labels(high, low, labelsCanFit)[top - k] == Multiple(k, step);
  }

  // ── On the screen ──

  const LABEL_HEIGHT := 33.0

  /** Prices at the top and the bottom of the main area. */
  function MainAreaTop(v: Chart.View): real
    requires Chart.Normal(v)
  {
    Chart.Sizes(v);
    Chart.YToPrice(v, v.height / 2.0)
  }

  function MainAreaFloor(v: Chart.View): real
    requires Chart.Normal(v)
  {
    Chart.Sizes(v);
    Chart.YToPrice(v, Chart.MainAreaBottom(v))
  }

  function LabelsCanFit(v: Chart.View): (n: int)
    ensures n >= 1
  {
    Max(Chart.MainAreaHeight(v) / LABEL_HEIGHT, 1.0).Floor
  }

  /** The main area's prices span its height. */
  lemma MainAreaSpan(v: Chart.View)
    requires Chart.Normal(v)
    ensures Chart.PriceToPixels(v, MainAreaTop(v) - MainAreaFloor(v)) == Chart.MainAreaHeight(v)
    ensures Chart.MainAreaHeight(v) > 0.0
  {
    Chart.PriceRoundTrip(v, 0.0, v.height / 2.0);
    Chart.PriceRoundTrip(v, 0.0, Chart.MainAreaBottom(v));
    Chart.PriceToYIncreases(v, MainAreaFloor(v), MainAreaTop(v));
    hide Chart.PriceToY, Chart.YToPrice, Chart.PriceToPixels;
  }

  lemma ScaledSteps(v: Chart.View, range: real, step: real, n: nat)
    requires Chart.Normal(v) && range <= n as real * step
    ensures Chart.PriceToPixels(v, range) <= n as real * Chart.PriceToPixels(v, step)
  {
    var k := Chart.PriceScaleFactor(v, range);
    var _ := Chart.PriceScaleFactor(v, step);
    hide Chart.PriceToPixels;
    MulMono(range, n as real * step, k);
    assert n as real * step * k == n as real * (step * k);
  }

  /**
   * Neighbouring labels are a label's height apart or, when the area has room
   * for one label only, more than half the area.
   */
  lemma LabelsDoNotCrowd(v: Chart.View)
    requires Chart.Normal(v)
    requires MainAreaTop(v) - MainAreaFloor(v) >= F32_EPSILON
    ensures var px := Chart.PriceToPixels(v, Step(MainAreaTop(v), MainAreaFloor(v), LabelsCanFit(v)));
            if LabelsCanFit(v) >= 2 then px >= 33.0 else 2.0 * px > Chart.MainAreaHeight(v)
  {
    var n, high, low := LabelsCanFit(v), MainAreaTop(v), MainAreaFloor(v);
    var step := Step(high, low, n);
    StepFitsLabels(high, low, n);
    assert Range(high, low) == high - low;
    MainAreaSpan(v);
    hide Step, Range, MainAreaTop, MainAreaFloor, Roomy, Chart.PriceToPixels, Chart.MainAreaHeight, Chart.Normal;
    PitchOf(v, high - low, step, n);
  }

  lemma PitchOf(v: Chart.View, range: real, step: real, n: nat)
    requires Chart.Normal(v) && n >= 1 && Roomy(range, step, n)
    requires Chart.PriceToPixels(v, range) == Chart.MainAreaHeight(v)
    requires n >= 2 ==> n as real <= Chart.MainAreaHeight(v) / LABEL_HEIGHT
    ensures var px := Chart.PriceToPixels(v, step);
            if n >= 2 then px >= LABEL_HEIGHT else 2.0 * px > Chart.MainAreaHeight(v)
  {
    hide Chart.PriceToPixels, Chart.MainAreaHeight;
    if n >= 2 {
      ScaledSteps(v, range, step, n);
      PitchFromCount(Chart.MainAreaHeight(v), n, Chart.PriceToPixels(v, step));
    } else {
      Chart.PriceScale(v, 2.0 * step, range);
      Chart.PriceScale(v, 2.0 * step - range, 0.0);
      TwoSteps(v, step);
    }
  }

  lemma TwoSteps(v: Chart.View, step: real)
    requires Chart.Normal(v)
    ensures Chart.PriceToPixels(v, 2.0 * step) == 2.0 * Chart.PriceToPixels(v, step)
  {
    Chart.PriceScale(v, 2.0 * step, step);
    assert 2.0 * step - step == step;
    hide Chart.PriceToPixels;
  }

  lemma PitchFromCount(height: real, n: int, px: real)
    requires n >= 2 && n as real <= height / LABEL_HEIGHT && height <= n as real * px
    ensures px >= LABEL_HEIGHT
  {
    if px < LABEL_HEIGHT {
      StrictMul(px, LABEL_HEIGHT, n as real);
    }
  }

  // ── The axis system ──

  datatype Label = Label(price: real, y: real)

  /** The axis system: nothing when the area spans no price to speak of, else a label at each multiple. */
  method DrawPriceAxis(v: Chart.View) returns (labels: seq<Label>)
    requires Chart.Normal(v)
    ensures var high, low := MainAreaTop(v), MainAreaFloor(v);
            if high - low < F32_EPSILON then labels == []
            else
              && |labels| == |Labels(high, low, LabelsCanFit(v))|
              && forall i :: 0 <= i < |labels| ==>
                   var price := Labels(high, low, LabelsCanFit(v))[i];
                   labels[i] == Label(price, Chart.PriceToY(v, price))
  {
    MainAreaOrder(v);
    hide Step, MainAreaTop, MainAreaFloor, LabelsCanFit, Descending, Multiples, Topmost, Range, Chart.PriceToY;
    var a, b := MainAreaTop(v), MainAreaFloor(v);
    var high, low := Max(a, b), -Max(-a, -b);
    labels := [];
    if Abs(high - low) < F32_EPSILON {
      return;
    }
    StepFitsLabels(high, low, LabelsCanFit(v));
    var step := Step(high, low, LabelsCanFit(v));
    var prices := PriceLabels(high, low, step, RoundedHighest(high, step));
    for i := 0 to |prices|
      invariant |labels| == i
      invariant forall k :: 0 <= k < i ==> labels[k] == Label(prices[k], Chart.PriceToY(v, prices[k]))
    {
      labels := labels + [Label(prices[i], Chart.PriceToY(v, prices[i]))];
    }
  }

  lemma MainAreaOrder(v: Chart.View)
    requires Chart.Normal(v)
    ensures MainAreaFloor(v) < MainAreaTop(v)
  {
    Chart.Sizes(v);
    Chart.PriceRoundTrip(v, 0.0, v.height / 2.0);
    Chart.PriceRoundTrip(v, 0.0, Chart.MainAreaBottom(v));
    if MainAreaTop(v) < MainAreaFloor(v) {
      Chart.PriceToYIncreases(v, MainAreaTop(v), MainAreaFloor(v));
    }
    hide Chart.PriceToY, Chart.YToPrice;
  }

  /** Every label is drawn inside the main area. */
  lemma LabelsOnScreen(v: Chart.View, i: nat)
    requires Chart.Normal(v)
    requires i < |Labels(MainAreaTop(v), MainAreaFloor(v), LabelsCanFit(v))|
    ensures var price := Labels(MainAreaTop(v), MainAreaFloor(v), LabelsCanFit(v))[i];
            -0.3 * v.height <= Chart.PriceToY(v, price) <= 0.5 * v.height
  {
    var high, low := MainAreaTop(v), MainAreaFloor(v);
    var price := Labels(high, low, LabelsCanFit(v))[i];
    LabelsAreMultiples(high, low, LabelsCanFit(v), i);
    Chart.Sizes(v);
    Chart.PriceRoundTrip(v, 0.0, v.height / 2.0);
    Chart.PriceRoundTrip(v, 0.0, Chart.MainAreaBottom(v));
    Chart.PriceToYIncreases(v, low, price);
    Chart.PriceToYIncreases(v, price, high);
    hide Chart.PriceToY, Chart.YToPrice, Labels, Step;
  }
}
