/** Time labels: a step from a table, and the labels the axis draws with it. */
module TimeAxis {
  import opened Wrappers
  import opened RealArithmetic
  import opened ChartView
  import Frames = ChartFrames

  const MINUTE := 60_000
  const MAX_LABELS := 64
  const MIN_TIME_LABEL_SPACING := 44.0

  // ── The step tables, in milliseconds ──

  const M1_TIME_STEPS := [43_200_000, 10_800_000, 3_600_000, 1_800_000, 900_000, 600_000, 300_000, 120_000, 60_000]
  const M3_TIME_STEPS :=
    [86_400_000, 43_200_000, 21_600_000, 7_200_000, 3_600_000, 1_800_000, 900_000, 540_000, 180_000]
  const M5_TIME_STEPS :=
    [86_400_000, 43_200_000, 28_800_000, 14_400_000, 7_200_000, 3_600_000, 1_800_000, 900_000, 300_000]
  const HOURLY_TIME_STEPS :=
    [345_600_000, 172_800_000, 86_400_000, 43_200_000, 28_800_000, 14_400_000, 7_200_000, 3_600_000]
  const MS_TIME_STEPS := [120_000, 60_000, 30_000, 10_000, 5_000, 2_000, 1_000, 500, 200, 100]

  function TimeStepsFor(timeframe: nat): seq<int> {
    match timeframe / MINUTE
    case 0 => MS_TIME_STEPS
    case 1 => M1_TIME_STEPS
    case 3 => M3_TIME_STEPS
    case 5 => M5_TIME_STEPS
    case 15 => M5_TIME_STEPS[..7]
    case 30 => M5_TIME_STEPS[..6]
    case _ => HOURLY_TIME_STEPS
  }

  predicate Coarsening(steps: seq<int>) {
    |steps| > 0 && (forall i :: 0 <= i < |steps| ==> steps[i] > 0)
    && forall i, j :: 0 <= i < j < |steps| ==> steps[i] > steps[j]
  }

  lemma M1Coarsening()
    ensures Coarsening(M1_TIME_STEPS)
  {
  }

  lemma M3Coarsening()
    ensures Coarsening(M3_TIME_STEPS)
  {
  }

  lemma M5Coarsening()
    ensures Coarsening(M5_TIME_STEPS)
  {
  }

  lemma HourlyCoarsening()
    ensures Coarsening(HOURLY_TIME_STEPS)
  {
  }

  lemma MsCoarsening()
    ensures Coarsening(MS_TIME_STEPS)
  {
  }

  lemma PrefixCoarsening(steps: seq<int>, n: nat)
    requires Coarsening(steps) && 0 < n <= |steps|
    ensures Coarsening(steps[..n])
  {
  }

  lemma TablesCoarsening(timeframe: nat)
    ensures Coarsening(TimeStepsFor(timeframe))
  {
    hide Coarsening;
    M1Coarsening();
    M3Coarsening();
    M5Coarsening();
    HourlyCoarsening();
    MsCoarsening();
    PrefixCoarsening(M5_TIME_STEPS, 7);
    PrefixCoarsening(M5_TIME_STEPS, 6);
  }

  /** `table` lists these many minutes, in milliseconds. */
  predicate InMinutes(table: seq<int>, minutes: seq<int>) {
    |table| == |minutes| && forall i :: 0 <= i < |table| ==> table[i] == minutes[i] * 60_000
  }

  /** The table for each basis, in minutes: the coarser bases share the five-minute one without its finest steps. */
  lemma TableFor(timeframe: nat)
    ensures var (m, table) := (timeframe / 60_000, TimeStepsFor(timeframe));
            && (m == 0 ==> table == [120_000, 60_000, 30_000, 10_000, 5_000, 2_000, 1_000, 500, 200, 100])
            && (m == 1 ==> InMinutes(table, [720, 180, 60, 30, 15, 10, 5, 2, 1]))
            && (m == 3 ==> InMinutes(table, [1440, 720, 360, 120, 60, 30, 15, 9, 3]))
            && (m == 5 ==> InMinutes(table, [1440, 720, 480, 240, 120, 60, 30, 15, 5]))
            && (m == 15 ==> InMinutes(table, [1440, 720, 480, 240, 120, 60, 30]))
            && (m == 30 ==> InMinutes(table, [1440, 720, 480, 240, 120, 60]))
            && (m !in [0, 1, 3, 5, 15, 30] ==> InMinutes(table, [5760, 2880, 1440, 720, 480, 240, 120, 60]))
  {
  }

  // ── The step ──

  /** The step gives at least the wanted number of whole steps. */
  predicate Enough(duration: nat, want: nat, step: int) {
    step > 0 && duration / step >= want
  }

  /**
   * The coarsest step giving enough labels; failing that the finest step not
   * above the duration; failing that the coarsest of all.
   */
  ghost predicate IsTimeStep(steps: seq<int>, duration: nat, want: nat, step: int) {
    if exists s :: s in steps && Enough(duration, want, s) then
      step in steps && Enough(duration, want, step)
      && forall s :: s in steps && Enough(duration, want, s) ==> s <= step
    else if exists s :: s in steps && s <= duration then
      step in steps && step <= duration && forall s :: s in steps && s <= duration ==> step <= s
    else
      step in steps && forall s :: s in steps ==> s <= step
  }

  lemma TimeStepUnique(steps: seq<int>, duration: nat, want: nat, a: int, b: int)
    requires IsTimeStep(steps, duration, want, a) && IsTimeStep(steps, duration, want, b)
    ensures a == b
  {
    if exists s :: s in steps && Enough(duration, want, s) {
      assert a <= b && b <= a;
    } else if exists s :: s in steps && s <= duration {
      assert a <= b && b <= a;
    } else {
      assert a <= b && b <= a;
    }
  }

  /** The three cases with products in place of quotients. */
  lemma StepChosen(steps: seq<int>, duration: nat, want: nat, step: int)
    requires Coarsening(steps) && IsTimeStep(steps, duration, want, step)
    ensures step in steps
    ensures if exists s :: s in steps && s * want <= duration then
              step * want <= duration && forall s :: s in steps && s * want <= duration ==> s <= step
            else if exists s :: s in steps && s <= duration then
              step <= duration && forall s :: s in steps && s <= duration ==> step <= s
            else
              forall s :: s in steps ==> s <= step
  {
    forall s | s in steps ensures Enough(duration, want, s) <==> s * want <= duration {
      RoundedEarliestIsGreatest(duration, s, want);
      if want <= duration / s {
        MulOrder(want, duration / s, s);
      } else {
        MulOrder(duration / s + 1, want, s);
        assert (duration / s + 1) * s == duration / s * s + s;
      }
    }
    hide Enough;
    if s :| s in steps && s * want <= duration {
      assert Enough(duration, want, s);
    }
    if s :| s in steps && Enough(duration, want, s) {
      assert s * want <= duration;
    }
  }

  /** The greatest multiple of the step at or below a time; times may be negative. */
  function RoundedEarliest(earliest: int, step: int): int
    requires step > 0
  {
    earliest / step * step
  }

  lemma RoundedEarliestIsGreatest(earliest: int, step: int, k: int)
    requires step > 0
    ensures RoundedEarliest(earliest, step) <= earliest < RoundedEarliest(earliest, step) + step
    ensures k * step <= earliest ==> k * step <= RoundedEarliest(earliest, step)
  {
    var q := earliest / step;
    assert earliest == q * step + earliest % step;
    if k <= q {
      MulOrder(k, q, step);
    } else {
      MulOrder(q + 1, k, step);
      assert (q + 1) * step == q * step + step;
    }
  }

  lemma MulOrder(j: int, k: int, step: int)
    requires j <= k && step > 0
    ensures j * step <= k * step
  {
    assert (k - j) * step >= 0;
  }

  lemma MulOrderStrict(j: int, k: int, step: int)
    requires j < k && step > 0
    ensures j * step + step <= k * step
  {
    MulOrder(j + 1, k, step);
    assert (j + 1) * step == j * step + step;
  }

  method CalcOptimalTimeStep(earliest: int, latest: int, labelsCanFit: int, timeframe: nat)
    returns (step: int, roundedEarliest: int)
    ensures step > 0 && roundedEarliest == RoundedEarliest(earliest, step)
    ensures IsTimeStep(TimeStepsFor(timeframe), if latest < earliest then 0 else latest - earliest,
                       if labelsCanFit < 1 then 1 else labelsCanFit, step)
  {
    TablesCoarsening(timeframe);
    var steps := TimeStepsFor(timeframe);
    hide TimeStepsFor;
    var duration := if latest < earliest then 0 else latest - earliest;
    var want := if labelsCanFit < 1 then 1 else labelsCanFit;
    step := steps[0];
    var i := 0;
    while i < |steps|
      invariant 0 <= i <= |steps| && step in steps
      invariant forall j :: 0 <= j < i ==> !Enough(duration, want, steps[j])
      invariant if exists j :: 0 <= j < i && steps[j] <= duration
                then step <= duration && forall j :: 0 <= j < i && steps[j] <= duration ==> step <= steps[j]
                else step == steps[0]
    {
      if steps[i] > 0 && duration / steps[i] >= want {
        step := steps[i];
        CoarsestEnough(steps, duration, want, i);
        break;
      }
      if steps[i] <= duration {
        step := steps[i];
      }
      i := i + 1;
    }
    roundedEarliest := earliest / step * step;
  }

  lemma CoarsestEnough(steps: seq<int>, duration: nat, want: nat, i: nat)
    requires Coarsening(steps) && i < |steps| && Enough(duration, want, steps[i])
    requires forall j :: 0 <= j < i ==> !Enough(duration, want, steps[j])
    ensures IsTimeStep(steps, duration, want, steps[i])
  {
    assert steps[i] in steps;
  }

  // ── The labels ──

  /** The first multiple of the step at or after `earliest`. */
  function FirstAt(earliest: int, step: int): int
    requires step > 0
  {
    var r := RoundedEarliest(earliest, step);
    if r < earliest then r + step else r
  }

  datatype Label = Label(time: int, x: real)

  predicate InDraw(v: View, x: real) {
    -v.width / 2.0 <= x <= v.width / 2.0
  }

  predicate FarEnough(labels: seq<Label>, x: real) {
    labels == [] || x - labels[|labels| - 1].x >= MIN_TIME_LABEL_SPACING
  }

  /** The multiple with index `k`, counted from the first. */
  function Nth(first: int, step: int, k: int): int {
    first + k * step
  }

  lemma NthNext(first: int, step: int, k: int)
    ensures Nth(first, step, 0) == first && Nth(first, step, k + 1) == Nth(first, step, k) + step
  {
    assert (k + 1) * step == k * step + step;
  }

  /** The labels after looking at the first `n` multiples of the step. */
  function Walk(v: View, first: int, step: int, formats: int -> bool, n: nat): seq<Label>
    requires v.timeframe > 0
  {
    if n == 0 then []
    else
      var labels := Walk(v, first, step, formats, n - 1);
      var t := Nth(first, step, n - 1);
      var x := IntervalToX(v, t);
      if InDraw(v, x) && FarEnough(labels, x) && formats(t) then labels + [Label(t, x)] else labels
  }

  /** How many multiples of the step the window holds. */
  function InWindow(first: int, latest: int, step: int): nat
    requires step > 0
  {
    if first <= latest then (latest - first) / step + 1 else 0
  }

  function Walked(first: int, latest: int, step: int): nat
    requires step > 0
  {
    if InWindow(first, latest, step) < MAX_LABELS then InWindow(first, latest, step) else MAX_LABELS
  }

  /** Walks the multiples of the step through the window, or as far as the cap lets it. */
  method TimeLabels(v: View, earliest: int, latest: int, step: int, formats: int -> bool) returns (labels: seq<Label>)
    requires v.timeframe > 0 && step > 0
    ensures var first := FirstAt(earliest, step);
            labels == Walk(v, first, step, formats, Walked(first, latest, step))
  {
    hide IntervalToX, InDraw, Nth, InWindow;
    var t := RoundedEarliest(earliest, step);
    RoundedEarliestIsGreatest(earliest, step, 0);
    while t < earliest
      invariant t == RoundedEarliest(earliest, step) || t == FirstAt(earliest, step)
      decreases earliest - t
    {
      t := t + step;
    }
    ghost var first := t;
    NthNext(first, step, 0);
    WalkedIs(first, latest, step);
    labels := [];
    var count := 0;
    var lastX: Option<real> := None;
    while t <= latest && count < MAX_LABELS
      invariant t == Nth(first, step, count) && 0 <= count <= Walked(first, latest, step)
      invariant lastX == if labels == [] then None else Some(labels[|labels| - 1].x)
      invariant labels == Walk(v, first, step, formats, count)
      decreases MAX_LABELS - count
    {
      WindowCount(first, latest, step, count);
      NthNext(first, step, count);
      var x := IntervalToX(v, t);
      var farEnough := lastX.None? || x - lastX.value >= MIN_TIME_LABEL_SPACING;
      if InDraw(v, x) && farEnough && formats(t) {
        labels := labels + [Label(t, x)];
        lastX := Some(x);
      }
      t := t + step;
      count := count + 1;
    }
    WindowCount(first, latest, step, count);
  }

  /** The multiple with index `k` is in the window exactly when the window holds more than `k`. */
  lemma WindowCount(first: int, latest: int, step: int, k: nat)
    requires step > 0
    ensures Nth(first, step, k) <= latest <==> k < InWindow(first, latest, step)
  {
    MulOrder(0, k, step);
    if first <= latest {
      RoundedEarliestIsGreatest(latest - first, step, k);
      var q := (latest - first) / step;
      if k <= q {
        MulOrder(k, q, step);
      } else {
        MulOrder(q + 1, k, step);
        assert (q + 1) * step == q * step + step;
      }
    }
  }

  // ── What is drawn ──

  /** A label stands for one of the multiples looked at, at its own column, inside the area. */
  predicate Drawn(v: View, first: int, step: int, formats: int -> bool, n: nat, l: Label)
    requires v.timeframe > 0
  {
    && l.x == IntervalToX(v, l.time) && InDraw(v, l.x) && formats(l.time)
    && exists k :: 0 <= k < n && l.time == Nth(first, step, k)
  }

  lemma {:induction false} WalkDraws(v: View, first: int, step: int, formats: int -> bool, n: nat, i: nat)
    requires v.timeframe > 0 && i < |Walk(v, first, step, formats, n)|
    ensures Drawn(v, first, step, formats, n, Walk(v, first, step, formats, n)[i])
  {
    hide IntervalToX, InDraw, FarEnough;
    if i < |Walk(v, first, step, formats, n - 1)| {
      WalkDraws(v, first, step, formats, n - 1, i);
    }
  }

  /** Labels are at least the spacing apart, pairwise. */
  lemma {:induction false} WalkSpaces(v: View, first: int, step: int, formats: int -> bool, n: nat, i: nat, j: nat)
    requires v.timeframe > 0 && i < j < |Walk(v, first, step, formats, n)|
    ensures var labels := Walk(v, first, step, formats, n);
            labels[j].x - labels[i].x >= 44.0
    decreases n
  {
    hide IntervalToX, InDraw;
    var before := Walk(v, first, step, formats, n - 1);
    if j < |before| {
      WalkSpaces(v, first, step, formats, n - 1, i, j);
    } else if i < |before| - 1 {
      WalkSpaces(v, first, step, formats, n - 1, i, |before| - 1);
    }
  }

  /** A multiple is off the area, unprintable, drawn, or too close after a drawn label. */
  predicate Accounted(v: View, labels: seq<Label>, formats: int -> bool, t: int)
    requires v.timeframe > 0
  {
    var x := IntervalToX(v, t);
    || !(-v.width / 2.0 <= x <= v.width / 2.0) || !formats(t)
    || exists l :: l in labels && l.time <= t && x - l.x < 44.0
  }

  lemma AccountedGrows(v: View, labels: seq<Label>, more: seq<Label>, formats: int -> bool, t: int)
    requires v.timeframe > 0 && Accounted(v, labels, formats, t) && labels <= more
    ensures Accounted(v, more, formats, t)
  {
    hide IntervalToX;
    var x := IntervalToX(v, t);
    if -v.width / 2.0 <= x <= v.width / 2.0 && formats(t) {
      var l :| l in labels && l.time <= t && x - l.x < 44.0;
      assert l in more;
    }
  }

  /** No multiple looked at is left out without a reason. */
  lemma {:induction false} WalkAccounts(v: View, first: int, step: int, formats: int -> bool, n: nat, k: nat)
    requires v.timeframe > 0 && step > 0 && k < n
    ensures Accounted(v, Walk(v, first, step, formats, n), formats, Nth(first, step, k))
  {
    var before, labels := Walk(v, first, step, formats, n - 1), Walk(v, first, step, formats, n);
    hide IntervalToX;
    if k < n - 1 {
      WalkAccounts(v, first, step, formats, n - 1, k);
      assert before <= labels;
      hide Accounted, Walk;
      AccountedGrows(v, before, labels, formats, Nth(first, step, k));
    } else if labels != before {
      assert labels[|labels| - 1] in labels;
    } else if before != [] {
      LastBefore(v, first, step, formats, n - 1);
      assert before[|before| - 1] in before;
    }
  }

  lemma LastBefore(v: View, first: int, step: int, formats: int -> bool, n: nat)
    requires v.timeframe > 0 && step > 0 && Walk(v, first, step, formats, n) != []
    ensures var labels := Walk(v, first, step, formats, n); labels[|labels| - 1].time <= Nth(first, step, n)
  {
    var labels := Walk(v, first, step, formats, n);
    hide Walk, IntervalToX, InDraw;
    WalkDraws(v, first, step, formats, n, |labels| - 1);
    var j :| 0 <= j < n && labels[|labels| - 1].time == Nth(first, step, j);
    MulOrder(j, n, step);
  }

  // ── The axis as drawn ──

  function Labels(v: View, earliest: int, latest: int, step: int, formats: int -> bool): seq<Label>
    requires v.timeframe > 0 && step > 0
  {
    var first := FirstAt(earliest, step);
    Walk(v, first, step, formats, Walked(first, latest, step))
  }

  lemma FirstAtIs(earliest: int, step: int, t: int)
    requires step > 0
    ensures FirstAt(earliest, step) >= earliest && FirstAt(earliest, step) % step == 0
    ensures t % step == 0 && t >= earliest ==>
              t >= FirstAt(earliest, step) && (t - FirstAt(earliest, step)) % step == 0
  {
    RoundedEarliestIsGreatest(earliest, step, t / step);
    var q := earliest / step;
    Multiple(q, step);
    Multiple(q + 1, step);
    assert (q + 1) * step == q * step + step;
    if t % step == 0 && t >= earliest {
      var f := if FirstAt(earliest, step) == q * step then q else q + 1;
      assert t == t / step * step;
      if t / step < f {
        MulOrderStrict(t / step, f, step);
      }
      Multiple(t / step - f, step);
      assert t - f * step == (t / step - f) * step;
    }
  }

  lemma Multiple(k: int, step: int)
    requires step > 0
    ensures k * step % step == 0 && k * step / step == k
  {
    assert 0 <= k * step - k * step / step * step < step;
    var d := k - k * step / step;
    assert d * step == k * step - k * step / step * step;
    if d >= 1 {
      MulOrder(1, d, step);
    } else if d <= -1 {
      MulOrder(d, -1, step);
    }
  }

  lemma NthInWindow(earliest: int, latest: int, step: int, k: nat)
    requires step > 0 && k < InWindow(FirstAt(earliest, step), latest, step)
    ensures var t := Nth(FirstAt(earliest, step), step, k); earliest <= t <= latest && t % step == 0
  {
    var first := FirstAt(earliest, step);
    FirstAtIs(earliest, step, first);
    hide FirstAt, InWindow;
    WindowCount(first, latest, step, k);
    MulOrder(0, k, step);
    StepsOn(first, step, k);
  }

  lemma StepsOn(first: int, step: int, k: int)
    requires step > 0 && first % step == 0
    ensures Nth(first, step, k) % step == 0
  {
    var q := first / step;
    assert first == q * step + first % step;
    Distributed(q, k, step);
    Multiple(q + k, step);
  }

  lemma Distributed(q: int, k: int, step: int)
    ensures (q + k) * step == q * step + k * step
  {
  }

  /** Every label is a multiple of the step inside the window and the area, and labels never crowd. */
  lemma LabelsAreRight(v: View, earliest: int, latest: int, step: int, formats: int -> bool, i: nat, j: nat)
    requires v.timeframe > 0 && step > 0 && i < |Labels(v, earliest, latest, step, formats)|
    ensures var labels := Labels(v, earliest, latest, step, formats);
            && earliest <= labels[i].time <= latest && labels[i].time % step == 0
            && labels[i].x == IntervalToX(v, labels[i].time) && -v.width / 2.0 <= labels[i].x <= v.width / 2.0
            && formats(labels[i].time)
            && (i < j < |labels| ==> labels[j].x - labels[i].x >= 44.0)
  {
    hide IntervalToX, Walk, FirstAt, Walked, Nth;
    var labels := Labels(v, earliest, latest, step, formats);
    var first := FirstAt(earliest, step);
    var n := Walked(first, latest, step);
    WalkDraws(v, first, step, formats, n, i);
    var k :| 0 <= k < n && labels[i].time == Nth(first, step, k);
    WalkedIs(first, latest, step);
    NthInWindow(earliest, latest, step, k);
    if i < j < |labels| {
      WalkSpaces(v, first, step, formats, n, i, j);
    }
  }

  /** A multiple the axis draws no label for, although nothing stands in its way. */
  predicate Overlooked(v: View, labels: seq<Label>, formats: int -> bool, t: int)
    requires v.timeframe > 0
  {
    var x := IntervalToX(v, t);
    && -v.width / 2.0 <= x <= v.width / 2.0 && formats(t)
    && (labels == [] || x - labels[|labels| - 1].x >= 44.0)
  }

  /** After the walk, a multiple it did not look at has its reason exactly when it is not overlooked. */
  lemma UnseenAccountedIff(v: View, first: int, step: int, formats: int -> bool, n: nat, k: nat)
    requires v.timeframe > 0 && step > 0 && n <= k
    ensures var labels, t := Walk(v, first, step, formats, n), Nth(first, step, k);
            Accounted(v, labels, formats, t) <==> !Overlooked(v, labels, formats, t)
  {
    var labels, t := Walk(v, first, step, formats, n), Nth(first, step, k);
    MulOrder(n, k, step);
    hide IntervalToX, InDraw, Walk;
    if labels != [] {
      var last := |labels| - 1;
      LastBefore(v, first, step, formats, n);
      assert labels[last] in labels;
      forall l | l in labels ensures l.x <= labels[last].x {
        var i :| 0 <= i < |labels| && labels[i] == l;
        if i < last {
          WalkSpaces(v, first, step, formats, n, i, last);
        }
      }
    }
  }

  /**
   * The axis leaves no multiple in the window without a label or a reason exactly when none of
   * those 64 steps and more from its start could still be drawn after its last label.
   */
  lemma LabelsCoverWindowIff(v: View, earliest: int, latest: int, step: int, formats: int -> bool)
    requires v.timeframe > 0 && step > 0
    ensures var labels := Labels(v, earliest, latest, step, formats);
            (forall t :: earliest <= t <= latest && t % step == 0 ==> Accounted(v, labels, formats, t))
            <==> (forall t :: earliest + 64 * step <= t <= latest && t % step == 0 ==>
                    !Overlooked(v, labels, formats, t))
  {
    hide Accounted, Overlooked, Labels, FirstAt, InWindow;
    var labels := Labels(v, earliest, latest, step, formats);
    CoverByIndex(v, earliest, latest, step, formats);
    forall t | earliest + 64 * step <= t <= latest && t % step == 0
      ensures exists k: nat :: MAX_LABELS <= k < InWindow(FirstAt(earliest, step), latest, step)
                               && Nth(FirstAt(earliest, step), step, k) == t
    {
      IndexIs(earliest, latest, step, t);
      BeyondCap(earliest, step, t);
    }
    forall k: nat | MAX_LABELS <= k < InWindow(FirstAt(earliest, step), latest, step)
      ensures var t := Nth(FirstAt(earliest, step), step, k);
              earliest + 64 * step <= t <= latest && t % step == 0
    {
      NthInWindow(earliest, latest, step, k);
      FirstAtIs(earliest, step, 0);
      MulOrder(64, k, step);
    }
    hide Nth;
  }

  lemma BeyondCap(earliest: int, step: int, t: int)
    requires step > 0 && earliest + 64 * step <= t && t % step == 0
    ensures IndexOf(FirstAt(earliest, step), step, t) >= MAX_LABELS
  {
    RoundedEarliestIsGreatest(earliest, step, 0);
    var first := FirstAt(earliest, step);
    assert first < earliest + step;
    FirstAtIs(earliest, step, t);
    hide FirstAt;
    var k := (t - first) / step;
    assert t - first == k * step;
    if k <= 63 {
      MulOrder(k, 63, step);
    }
  }

  lemma CoverByIndex(v: View, earliest: int, latest: int, step: int, formats: int -> bool)
    requires v.timeframe > 0 && step > 0
    ensures var labels, first := Labels(v, earliest, latest, step, formats), FirstAt(earliest, step);
            (forall t :: earliest <= t <= latest && t % step == 0 ==> Accounted(v, labels, formats, t))
            <==> (forall k: nat :: MAX_LABELS <= k < InWindow(first, latest, step) ==>
                    !Overlooked(v, labels, formats, Nth(first, step, k)))
  {
    hide Accounted, Overlooked, Walk, FirstAt, Walked, InWindow;
    var labels, first := Labels(v, earliest, latest, step, formats), FirstAt(earliest, step);
    WalkedIs(first, latest, step);
    forall k: nat | MAX_LABELS <= k < InWindow(first, latest, step)
      ensures Accounted(v, labels, formats, Nth(first, step, k))
              <==> !Overlooked(v, labels, formats, Nth(first, step, k))
      ensures earliest <= Nth(first, step, k) <= latest && Nth(first, step, k) % step == 0
    {
      UnseenAccountedIff(v, first, step, formats, Walked(first, latest, step), k);
      NthInWindow(earliest, latest, step, k);
    }
    forall t | earliest <= t <= latest && t % step == 0
      ensures IndexOf(first, step, t) < InWindow(first, latest, step) && Nth(first, step, IndexOf(first, step, t)) == t
      ensures IndexOf(first, step, t) < MAX_LABELS ==> Accounted(v, labels, formats, t)
    {
      IndexIs(earliest, latest, step, t);
      if IndexOf(first, step, t) < MAX_LABELS {
        WalkAccounts(v, first, step, formats, Walked(first, latest, step), IndexOf(first, step, t));
      }
    }
  }

  lemma WalkedIs(first: int, latest: int, step: int)
    requires step > 0
    ensures Walked(first, latest, step) <= MAX_LABELS && Walked(first, latest, step) <= InWindow(first, latest, step)
    ensures Walked(first, latest, step) == MAX_LABELS || Walked(first, latest, step) == InWindow(first, latest, step)
  {
  }

  /** Which multiple, counted from the first, a time is. */
  function IndexOf(first: int, step: int, t: int): nat
    requires step > 0
  {
    if t < first then 0 else (t - first) / step
  }

  lemma IndexIs(earliest: int, latest: int, step: int, t: int)
    requires step > 0 && earliest <= t <= latest && t % step == 0
    ensures var (first, k) := (FirstAt(earliest, step), IndexOf(FirstAt(earliest, step), step, t));
            k < InWindow(first, latest, step) && Nth(first, step, k) == t
  {
    FirstAtIs(earliest, step, t);
    var first := FirstAt(earliest, step);
    hide FirstAt;
    var k := (t - first) / step;
    assert t == first + k * step;
    WindowCount(first, latest, step, k);
  }

  // ── On every chart of the program ──

  const LABEL_WIDTH := 49.5

  /** The times at the edges of the drawing area, in order. */
  function VisibleTimes(v: View): (int, int)
    requires Normal(v)
  {
    Sizes(v);
    var a, b := XToTime(v, -v.width / 2.0), XToTime(v, v.width / 2.0);
    if a <= b then (a, b) else (b, a)
  }

  function LabelsCanFit(v: View): (n: int)
    ensures n >= 1
  {
    var n := v.width / LABEL_WIDTH;
    if n < 1.0 then 1 else n.Floor
  }

  /** The window's edges are at the area's, to half a millisecond's width, and in order. */
  lemma WindowEdges(v: View)
    requires Normal(v)
    ensures var (earliest, latest) := VisibleTimes(v);
            && earliest <= latest
            && -TimeToPixels(v, 0.5) <= IntervalToX(v, earliest) + v.width / 2.0 <= TimeToPixels(v, 0.5)
            && -TimeToPixels(v, 0.5) <= IntervalToX(v, latest) - v.width / 2.0 <= TimeToPixels(v, 0.5)
  {
    EdgesInOrder(v);
    ColumnRoundTrip(v, -v.width / 2.0);
    ColumnRoundTrip(v, v.width / 2.0);
    hide XToTime, IntervalToX, TimeToPixels;
  }

  lemma EdgesInOrder(v: View)
    requires Normal(v)
    ensures v.cellWidth * v.scaling != 0.0 && XToTime(v, -v.width / 2.0) <= XToTime(v, v.width / 2.0)
  {
    Sizes(v);
    var (a, b) := (-v.width / 2.0 - RightAnchor(v) - v.panX, v.width / 2.0 - RightAnchor(v) - v.panX);
    PixelsInOrder(a, b, v.cellWidth * v.scaling, v.timeframe as real);
    RoundOrder(PixelsToTime(v, a), PixelsToTime(v, b));
    hide Round;
  }

  lemma PixelsInOrder(a: real, b: real, cell: real, unit: real)
    requires a <= b && cell > 0.0 && unit > 0.0
    ensures a / cell * unit <= b / cell * unit
  {
    MulDiv(a, cell);
    MulDiv(b, cell);
    if a / cell > b / cell {
      StrictMul(b / cell, a / cell, cell);
    }
    MulMono(a / cell, b / cell, unit);
  }

  /** One slot for every 49.5 pixels of width, and always one. */
  lemma CanFitIs(v: View)
    ensures var n := LabelsCanFit(v);
            && n >= 1 && v.width < 49.5 * (n + 1) as real && (n > 1 ==> 49.5 * n as real <= v.width)
  {
    MulDiv(v.width, LABEL_WIDTH);
  }

  /** The axis system: nothing on an empty window, else the labels of a well-chosen step. */
  method DrawTimeAxis(v: View, formats: int -> bool) returns (step: int, labels: seq<Label>)
    requires Normal(v)
    ensures var (earliest, latest) := VisibleTimes(v);
            if latest <= earliest then labels == []
            else
              && step > 0 && IsTimeStep(TimeStepsFor(v.timeframe), latest - earliest, LabelsCanFit(v), step)
              && labels == Labels(v, earliest, latest, step, formats)
  {
    hide TimeStepsFor, VisibleTimes, IsTimeStep, Walk;
    var (earliest, latest) := VisibleTimes(v);
    if latest <= earliest {
      return 0, [];
    }
    var rounded;
    step, rounded := CalcOptimalTimeStep(earliest, latest, LabelsCanFit(v), v.timeframe);
    labels := TimeLabels(v, earliest, latest, step, formats);
  }

  lemma RoundOrder(a: real, b: real)
    requires a <= b
    ensures Round(a) <= Round(b)
    ensures (Round(b) - Round(a)) as real <= b - a + 1.0
  {
  }

  /** A chart as this program spawns it never shows more than 310 minutes. */
  lemma WindowLength(v: View)
    requires Normal(v) && Frames.SpawnedShape(v)
    ensures var (earliest, latest) := VisibleTimes(v); 0 <= latest - earliest <= 18_600_001
  {
    Sizes(v);
    var left, right := -155.0 - RightAnchor(v) - v.panX, 155.0 - RightAnchor(v) - v.panX;
    WindowPixels(left, right, v.cellWidth);
    assert v.cellWidth * v.scaling == v.cellWidth;
    RoundOrder(PixelsToTime(v, left), PixelsToTime(v, right));
    hide Round;
  }

  lemma WindowPixels(left: real, right: real, cell: real)
    requires right - left == 310.0 && cell >= 1.0
    ensures 0.0 <= right / cell * 60_000.0 - left / cell * 60_000.0 <= 18_600_000.0
  {
    var d := right / cell - left / cell;
    MulDiv(right, cell);
    MulDiv(left, cell);
    assert d * cell == 310.0;
    UnitQuotient(d, cell);
  }

  lemma UnitQuotient(d: real, cell: real)
    requires d * cell == 310.0 && cell >= 1.0
    ensures 0.0 <= d <= 310.0
  {
    if d > 0.0 {
      Grows(d, cell);
    } else if d < 0.0 {
      MulPositive(-d, cell);
    }
  }

  lemma Grows(d: real, cell: real)
    requires d > 0.0 && cell >= 1.0
    ensures d * cell >= d
  {
    assert d * (cell - 1.0) >= 0.0;
  }

  /** In a window that long the chosen step leaves far fewer multiples than the cap. */
  lemma FewSteps(duration: nat, step: int)
    requires duration <= 18_600_001 && IsTimeStep(TimeStepsFor(60_000), duration, 6, step) && step > 0
    ensures duration / step + 1 <= 31
  {
    var steps := M1_TIME_STEPS;
    assert TimeStepsFor(60_000) == steps;
    hide TimeStepsFor;
    var i :| 0 <= i < |steps| && steps[i] == step;
    if i > 0 {
      assert steps[i - 1] <= 4 * step && steps[i - 1] > step;
      FewBelowCoarser(duration, step, steps[i - 1]);
      assert steps[i - 1] in steps;
    }
  }

  lemma FewBelowCoarser(duration: nat, step: int, coarser: int)
    requires 0 < step < coarser <= 4 * step
    ensures duration / step > 30 ==> Enough(duration, 6, coarser)
  {
    if duration / step > 30 {
      RoundedEarliestIsGreatest(duration, step, 31);
      MulOrder(31, duration / step, step);
      if duration / coarser < 6 {
        MulOrder(duration / coarser, 5, coarser);
      }
    }
  }

  lemma ShortWindow(v: View, earliest: int, latest: int, step: int, formats: int -> bool, t: int)
    requires v.timeframe > 0 && step > 0 && (latest - earliest) / step + 1 <= 31
    requires earliest <= t <= latest && t % step == 0
    ensures Accounted(v, Labels(v, earliest, latest, step, formats), formats, t)
  {
    hide Accounted, Labels, Overlooked;
    RoundedEarliestIsGreatest(latest - earliest, step, 64);
    MulOrder((latest - earliest) / step, 30, step);
    LabelsCoverWindowIff(v, earliest, latest, step, formats);
  }

  lemma SpawnedCovers(v: View, formats: int -> bool, step: int, t: int)
    requires Normal(v) && Frames.SpawnedShape(v) && v.timeframe == 60_000
    ensures var (earliest, latest) := VisibleTimes(v);
            && earliest <= t <= latest && step > 0 && t % step == 0
            && IsTimeStep(TimeStepsFor(60_000), latest - earliest, LabelsCanFit(v), step)
            ==> Accounted(v, Labels(v, earliest, latest, step, formats), formats, t)
  {
    assert LabelsCanFit(v) == 6;
    hide VisibleTimes, TimeStepsFor, IsTimeStep, Accounted, Labels, LabelsCanFit;
    WindowLength(v);
    var (earliest, latest) := VisibleTimes(v);
    if && earliest <= t <= latest && step > 0 && t % step == 0
       && IsTimeStep(TimeStepsFor(60_000), latest - earliest, LabelsCanFit(v), step) {
      FewSteps(latest - earliest, step);
      ShortWindow(v, earliest, latest, step, formats, t);
    }
  }

  lemma ReachableBasis(steps: seq<Frames.Step>, c: Frames.Chart)
    requires Frames.Reaches(Frames.SPAWNED, steps, c)
    ensures Normal(c.view) && Frames.SpawnedShape(c.view) && c.view.timeframe == 60_000
  {
    Frames.ReachableUnmoved(Frames.SPAWNED, steps, c);
    Frames.ReachableShape(Frames.SPAWNED, steps, c);
  }

  /**
   * On every reachable chart each multiple of the chosen step in the window has a label or a
   * reason not to: the cap never cuts the walk short.
   */
  lemma ReachableLabelsCover(
      steps: seq<Frames.Step>, c: Frames.Chart, formats: int -> bool, step: int, t: int)
    requires Frames.Reaches(Frames.SPAWNED, steps, c)
    ensures Normal(c.view)
    ensures var (earliest, latest) := VisibleTimes(c.view);
            && earliest <= t <= latest && step > 0 && t % step == 0
            && IsTimeStep(TimeStepsFor(c.view.timeframe), latest - earliest, LabelsCanFit(c.view), step)
            ==> Accounted(c.view, Labels(c.view, earliest, latest, step, formats), formats, t)
  {
    hide *;
    ReachableBasis(steps, c);
    SpawnedCovers(c.view, formats, step, t);
  }
}
