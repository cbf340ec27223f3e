/** Snapshot and restore in the single-provider replay path. */
module ReplayRewind {
  import opened Wrappers
  import opened ReplayReducer
  import opened ReplayMerge
  import opened ReplayWindows

  datatype Mode = Static | Replay

  // ── The single-provider path ──

  datatype Single = Single(data: seq<Bar>, index: nat, rs: View, log: seq<Event>, exhausted: bool)

  function BarEvents(b: Bar): seq<Event> {
    [ReplayTimeUpdated(Ms(b.ts)), Kline("", b)]
  }

  function AdvanceSingle(s: Single): Single {
    if s.index < |s.data| then
      var events := BarEvents(s.data[s.index]);
      Single(s.data, s.index + 1, Fold(s.rs, events), s.log + events, s.index + 1 >= |s.data|)
    else s.(exhausted := true)
  }

  function AdvanceSingleN(s: Single, n: nat): Single {
    if n == 0 then s else AdvanceSingle(AdvanceSingleN(s, n - 1))
  }

  // ── Snapshots ──

  datatype Snapshot = Snapshot(
    price: real, tsMs: int, history: seq<real>, points: seq<HistoryPoint>, ohlc: seq<OhlcPoint>,
    open: Option<real>, high: Option<real>, low: Option<real>, openTimeMs: Option<int>,
    replayIndex: nat, sourcePath: Option<string>, mode: Mode)

  /** `x or None` */
  function OrNone(x: real): Option<real> {
    if x == 0.0 then None else Some(x)
  }

  /** `x or None` for a time */
  function TimeOrNone(t: int): Option<int> {
    if t == 0 then None else Some(t)
  }

  /** `x or default`, where `x` may be absent or zero */
  function OrElse(x: Option<real>, default: real): real {
    if x.Some? && x.value != 0.0 then x.value else default
  }

  function SnapshotOf(v: View, index: nat, path: Option<string>, mode: Mode): Snapshot {
    Snapshot(v.price, v.tsMs, v.history, v.points, v.ohlc,
             OrNone(v.open), OrNone(v.high), OrNone(v.low), TimeOrNone(v.openTimeMs), index, path, mode)
  }

  /** Points for a snapshot that carries none: one second apart, ending at its time. */
  function Reconstructed(history: seq<real>, tsMs: int): (r: seq<HistoryPoint>)
    ensures |r| == |history|
  {
    seq(|history|, i requires 0 <= i < |history| => HistoryPoint(tsMs - (|history| - 1 - i) * 1000, history[i]))
  }

  function Restored(v: View, s: Snapshot): View {
    v.(price := s.price, tsMs := s.tsMs, history := s.history,
       points := if s.points != [] then s.points else Reconstructed(s.history, s.tsMs),
       ohlc := s.ohlc,
       open := OrElse(s.open, s.price), high := OrElse(s.high, s.price), low := OrElse(s.low, s.price),
       openTimeMs := if s.openTimeMs.Some? && s.openTimeMs.value != 0 then s.openTimeMs.value else s.tsMs)
  }

  /** What a client sees of a reducer state. */
  datatype Shown = Shown(
    price: real, tsMs: int, history: seq<real>, points: seq<HistoryPoint>, ohlc: seq<OhlcPoint>,
    open: Option<real>, high: Option<real>, low: Option<real>, openTimeMs: Option<int>,
    instruments: map<string, (Option<real>, seq<OhlcPoint>)>)

  function Visible(v: View): Shown {
    Shown(v.price, v.tsMs, v.history, v.points, v.ohlc,
          OrNone(v.open), OrNone(v.high), OrNone(v.low), TimeOrNone(v.openTimeMs),
          map id | id in v.perIdClose ::
            (if v.perIdClose[id] > 0.0 then Some(v.perIdClose[id]) else None, Per(v, id)))
  }

  /** Restoring an engine that has since read on. */
  function Rewound(later: Single, snap: Snapshot): Single {
    var index := if snap.replayIndex <= |later.data| then snap.replayIndex else later.index;
    later.(rs := Restored(later.rs, snap), index := index, exhausted := index >= |later.data|)
  }

  // ── When a snapshot carries everything ──

  /** Nothing a snapshot drops, or a restore would fill in, is in use. */
  predicate RoundTrips(v: View) {
    && v.open != 0.0 && v.high != 0.0 && v.low != 0.0 && v.openTimeMs != 0
    && (v.points != [] || v.history == [])
  }

  ghost predicate SamePerId(a: View, b: View) {
    a.maxLen == b.maxLen && a.perIdClose == b.perIdClose && a.perIdOhlc == b.perIdOhlc
  }

  lemma RestoredIff(v: View, later: View, s: Snapshot)
    requires SamePerId(v, later) && v.price > 0.0 && v.tsMs > 0
    requires exists i, p, m :: s == SnapshotOf(v, i, p, m)
    ensures Restored(later, s) == v <==> RoundTrips(v)
    ensures Visible(Restored(later, s)) == Visible(v) <==> RoundTrips(v)
  {
    var r := Restored(later, s);
    if v.points == [] && v.history != [] {
      assert |r.points| == |v.history|;
      assert Visible(r).points != Visible(v).points;
    }
  }

  // ── Rewind determinism ──

  lemma UntaggedKeepsPerId(v: View, b: Bar)
    ensures SamePerId(v, Fold(v, BarEvents(b)))
  {
    var clock, kline := BarEvents(b)[0], BarEvents(b)[1];
    assert BarEvents(b) == [clock] + [kline];
    FoldConcat(v, [clock], [kline]);
    FoldOne(v, clock);
    FoldOne(Reduce(v, clock), kline);
  }

  lemma {:induction false} SingleKeeps(s: Single, n: nat)
    requires s.index <= |s.data|
    ensures var r := AdvanceSingleN(s, n);
            && r.data == s.data && SamePerId(s.rs, r.rs)
            && r.index == if s.index + n <= |s.data| then s.index + n else |s.data|
    ensures n > 0 ==> AdvanceSingleN(s, n).exhausted == (AdvanceSingleN(s, n).index == |s.data|)
  {
    if n > 0 {
      SingleKeeps(s, n - 1);
      var before := AdvanceSingleN(s, n - 1);
      if before.index < |s.data| {
        UntaggedKeepsPerId(before.rs, before.data[before.index]);
      }
    }
  }

  /** The log is only written, never read. */
  lemma {:induction false} LogIsWriteOnly(s: Single, log: seq<Event>, n: nat)
    ensures var a, b := AdvanceSingleN(s, n), AdvanceSingleN(s.(log := log), n);
            a.data == b.data && a.index == b.index && a.rs == b.rs && a.exhausted == b.exhausted
  {
    if n > 0 {
      LogIsWriteOnly(s, log, n - 1);
    }
  }

  ghost predicate SameFuture(a: Single, b: Single) {
    Visible(a.rs) == Visible(b.rs) && a.index == b.index && a.exhausted == b.exhausted
  }

  /** Advance `k` times, restore, and advance `k` times again. */
  function Replayed(s: Single, snap: Snapshot, k: nat): Single {
    AdvanceSingleN(Rewound(AdvanceSingleN(s, k), snap), k)
  }

  lemma RewindReplays(s: Single, snap: Snapshot, k: nat, path: Option<string>, mode: Mode)
    requires s.index <= |s.data| && s.exhausted == (s.index == |s.data|)
    requires s.rs.price > 0.0 && s.rs.tsMs > 0 && RoundTrips(s.rs)
    requires snap == SnapshotOf(s.rs, s.index, path, mode)
    ensures SameFuture(Replayed(s, snap, k), AdvanceSingleN(s, k))
  {
    hide AdvanceSingleN, Visible;
    var later := AdvanceSingleN(s, k);
    SingleKeeps(s, k);
    RestoredIff(s.rs, later.rs, snap);
    assert Rewound(later, snap) == s.(log := later.log);
    LogIsWriteOnly(s, later.log, k);
  }

  /**
   * Rewind determinism: replaying from a snapshot repeats the visible future, for every number of
   * advances, exactly when the snapshot drops nothing.
   */
  lemma RewindIff(s: Single, snap: Snapshot, path: Option<string>, mode: Mode)
    requires s.index <= |s.data| && s.exhausted == (s.index == |s.data|)
    requires s.rs.price > 0.0 && s.rs.tsMs > 0
    requires snap == SnapshotOf(s.rs, s.index, path, mode)
    ensures (forall k: nat :: SameFuture(Replayed(s, snap, k), AdvanceSingleN(s, k))) <==> RoundTrips(s.rs)
  {
    if RoundTrips(s.rs) {
      forall k: nat ensures SameFuture(Replayed(s, snap, k), AdvanceSingleN(s, k)) {
        RewindReplays(s, snap, k, path, mode);
      }
    } else {
      RestoredIff(s.rs, s.rs, snap);
      assert Replayed(s, snap, 0) == Rewound(s, snap);
      assert !SameFuture(Replayed(s, snap, 0), AdvanceSingleN(s, 0));
    }
  }

  // ── Which reachable states round-trip ──

  /** The engine right after priming a single provider. */
  function PrimedSingle(data: seq<Bar>, cap: nat, log: seq<Event>): Single
    requires data != []
  {
    var b := data[0];
    Single(data, 1,
           View(Ms(b.ts), b.close, b.open, b.high, b.low, 0, [b.close], [HistoryPoint(Ms(b.ts), b.close)],
                [PrimedPoint(b)], cap, map[], map[]),
           log, 1 >= |data|)
  }

  ghost predicate PositiveBars(data: seq<Bar>) {
    forall b :: b in data ==> Accepted(b)
  }

  /** At a bar that is not stale, everything a snapshot needs is in use. */
  lemma ReadBarRoundTrips(v: View, b: Bar)
    requires v.tsMs <= Ms(b.ts) && |v.points| == |v.history| >= 1
    requires b.open > 0.0 && b.high > 0.0 && b.low > 0.0 && Ms(b.ts) > 0
    ensures var r := Fold(v, BarEvents(b));
            RoundTrips(r) && r.tsMs == Ms(b.ts) && r.price == b.close && |r.points| == |r.history| >= 1
  {
    var clock, kline := ReplayTimeUpdated(Ms(b.ts)), Kline("", b);
    assert BarEvents(b) == [clock] + [kline];
    FoldConcat(v, [clock], [kline]);
    FoldOne(v, clock);
    FoldOne(Reduce(v, clock), kline);
  }

  /** The state shows the last bar read; a snapshot of it is complete once that is not the first. */
  ghost predicate AtLastBar(data: seq<Bar>, s: Single) {
    && s.data == data && 1 <= s.index <= |data| && s.exhausted == (s.index == |data|)
    && s.rs.tsMs == Ms(data[s.index - 1].ts) && s.rs.price == data[s.index - 1].close
    && |s.rs.points| == |s.rs.history| >= 1
    && (RoundTrips(s.rs) <==> s.index >= 2)
  }

  lemma AtLastBarStep(data: seq<Bar>, s: Single)
    requires TimeOrdered(data) && PositiveBars(data) && AtLastBar(data, s)
    ensures AtLastBar(data, AdvanceSingle(s))
    ensures AdvanceSingle(s).index == if s.index < |data| then s.index + 1 else |data|
  {
    hide Fold, RoundTrips, BarEvents;
    if s.index < |data| {
      var b := data[s.index];
      assert b in data;
      MsMonotone(data[s.index - 1].ts, b.ts);
      ReadBarRoundTrips(s.rs, b);
    }
  }

  lemma {:induction false} PrimedReads(data: seq<Bar>, cap: nat, log: seq<Event>, j: nat)
    requires data != [] && TimeOrdered(data) && PositiveBars(data)
    ensures AtLastBar(data, AdvanceSingleN(PrimedSingle(data, cap, log), j))
    ensures AdvanceSingleN(PrimedSingle(data, cap, log), j).index == if 1 + j <= |data| then 1 + j else |data|
  {
    hide AdvanceSingle;
    assert data[0] in data;
    if j > 0 {
      PrimedReads(data, cap, log, j - 1);
      AtLastBarStep(data, AdvanceSingleN(PrimedSingle(data, cap, log), j - 1));
    }
  }

  /**
   * A snapshot taken `j` advances after priming an ordered provider of positive bars replays
   * faithfully for every number of advances exactly when at least one further bar was read.
   */
  lemma RewindAfterPriming(data: seq<Bar>, cap: nat, log: seq<Event>, j: nat, s: Single, snap: Snapshot)
    requires data != [] && TimeOrdered(data) && PositiveBars(data)
    requires s == AdvanceSingleN(PrimedSingle(data, cap, log), j)
    requires snap == SnapshotOf(s.rs, s.index, None, Replay)
    ensures (forall k: nat :: SameFuture(Replayed(s, snap, k), AdvanceSingleN(s, k))) <==> (j >= 1 && |data| >= 2)
  {
    hide AdvanceSingleN, RoundTrips;
    PrimedReads(data, cap, log, j);
    assert data[s.index - 1] in data;
    RewindIff(s, snap, None, Replay);
  }
}
