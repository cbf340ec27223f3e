/** The bounded windows a multi-instrument replay shows, against the unbounded log of bars. */
module ReplayWindows {
  import opened Wrappers
  import opened ReplayReducer
  import opened ReplayMerge

  // ── The unbounded log ──

  function BarPoint(b: Bar): OhlcPoint {
    PointOf(Kline("", b))
  }

  /** The point priming records: the bar's prices as they are, and no volume. */
  function PrimedPoint(b: Bar): OhlcPoint {
    OhlcPoint(Ms(b.ts), Ms(b.ts), b.open, b.high, b.low, b.close, None)
  }

  /** The points of the bars at or after the primed time. */
  function Kept(bars: seq<Bar>, primedMs: int): seq<OhlcPoint> {
    if bars == [] then []
    else
      var b := bars[|bars| - 1];
      Kept(bars[..|bars| - 1], primedMs) + if Ms(b.ts) >= primedMs then [BarPoint(b)] else []
  }

  /** Everything one instrument has shown since the load. */
  function Full(t: Track, primary: string, primedMs: int): seq<OhlcPoint>
    requires t.index <= |t.data| && (t.id == primary ==> t.index >= 1)
  {
    if t.id == primary then [PrimedPoint(t.data[0])] + Kept(t.data[1..t.index], primedMs)
    else Kept(t.data[..t.index], primedMs)
  }

  /** A primed window never shrinks below its one bar, even with capacity 0. */
  function Capacity(id: string, primary: string, cap: nat): nat {
    if id == primary && cap == 0 then 1 else cap
  }

  function Closes(points: seq<OhlcPoint>): (r: seq<real>)
    ensures |r| == |points|
  {
    seq(|points|, i requires 0 <= i < |points| => points[i].close)
  }

  function HistoryOf(points: seq<OhlcPoint>): (r: seq<HistoryPoint>)
    ensures |r| == |points|
  {
    seq(|points|, i requires 0 <= i < |points| => HistoryPoint(points[i].tsMs, points[i].close))
  }

  /** The state priming builds, with the primary's window copied under its id. */
  function Primed(b: Bar, primary: string, cap: nat): View {
    View(Ms(b.ts), b.close, b.open, b.high, b.low, 0, [b.close], [HistoryPoint(Ms(b.ts), b.close)],
         [PrimedPoint(b)], cap, map[primary := b.close], map[primary := [PrimedPoint(b)]])
  }

  // ── The refinement ──

  /** What an instrument shows is the end of its unbounded log; its close is that log's last. */
  ghost predicate Shows(rs: View, t: Track, primary: string, primedMs: int)
    requires t.index <= |t.data| && (t.id == primary ==> t.index >= 1)
  {
    var full := Full(t, primary, primedMs);
    && Per(rs, t.id) == LastN(full, Capacity(t.id, primary, rs.maxLen))
    && (t.id in rs.perIdClose <==> full != [])
    && (full != [] ==> rs.perIdClose[t.id] == full[|full| - 1].close)
  }

  /** The global windows are the primary's window, its closes, and its times and closes. */
  ghost predicate GlobalFollows(rs: View, primary: string) {
    && rs.ohlc == Per(rs, primary)
    && rs.history == Closes(rs.ohlc)
    && rs.points == HistoryOf(rs.ohlc)
  }

  /** The reducer's clock is at the primed time, or no unread bar lies before it. */
  ghost predicate ClockSound(m: Merge, primedMs: int) {
    && m.rs.tsMs >= primedMs
    && (m.rs.tsMs == primedMs
        || forall k, i :: 0 <= k < |m.tracks| && m.tracks[k].index <= i < |m.tracks[k].data| ==>
             m.rs.tsMs <= Ms(m.tracks[k].data[i].ts))
  }

  ghost predicate Layout(tracks: seq<Track>, primary: string, kp: nat) {
    && WellFormed(tracks) && NamedApart(tracks) && AllOrdered(tracks)
    && kp < |tracks| && tracks[kp].id == primary && tracks[kp].index >= 1
  }

  ghost predicate Refines(m: Merge, kp: nat, primedMs: int) {
    && Layout(m.tracks, m.primary, kp)
    && ClockSound(m, primedMs)
    && (forall k :: 0 <= k < |m.tracks| ==> Shows(m.rs, m.tracks[k], m.primary, primedMs))
    && GlobalFollows(m.rs, m.primary)
  }

  /** A state as the multi-instrument load leaves it. */
  ghost predicate JustLoaded(m: Merge, kp: nat) {
    && Layout(m.tracks, m.primary, kp)
    && (forall k :: 0 <= k < |m.tracks| ==> m.tracks[k].index == if k == kp then 1 else 0)
    && m.rs == Primed(m.tracks[kp].data[0], m.primary, m.rs.maxLen)
  }

  lemma LoadRefines(m: Merge, kp: nat)
    requires JustLoaded(m, kp)
    ensures Refines(m, kp, Ms(m.tracks[kp].data[0].ts))
  {
    var p := Ms(m.tracks[kp].data[0].ts);
    forall k | 0 <= k < |m.tracks| ensures Shows(m.rs, m.tracks[k], m.primary, p) {
      var t := m.tracks[k];
      if k == kp {
        assert t.data[1..1] == [];
        assert Full(t, m.primary, p) == [PrimedPoint(t.data[0])];
      } else {
        assert t.id != m.primary;
        assert t.data[..0] == [];
      }
    }
  }

  // ── Folding one group ──

  lemma FoldOne(s: View, e: Event)
    ensures Fold(s, [e]) == Reduce(s, e)
  {
    assert [e][..0] == [];
  }

  /** What the updates of one bar do to the state `s`, when the clock is at that bar. */
  ghost predicate Pushed(s: View, r: View, primary: string, id: string, b: Bar) {
    && r.tsMs == s.tsMs && r.maxLen == s.maxLen && r.price == b.close
    && r.perIdOhlc == s.perIdOhlc[id := Push(Per(s, id), BarPoint(b), s.maxLen)]
    && r.perIdClose == s.perIdClose[id := b.close]
    && r.ohlc == (if id == primary then Push(s.ohlc, BarPoint(b), s.maxLen) else s.ohlc)
    && r.history == (if id == primary then Push(s.history, b.close, s.maxLen) else s.history)
    && (|s.history| == |s.points| ==>
         r.points == if id == primary then Push(s.points, HistoryPoint(Ms(b.ts), b.close), s.maxLen) else s.points)
    && if id == primary then BarFields(r, b) else SameFields(s, r)
  }

  /** The bar fields are those of one bar. */
  predicate BarFields(r: View, b: Bar) {
    r.open == b.open && r.high == b.high && r.low == b.low && r.openTimeMs == Ms(b.ts)
  }

  predicate SameFields(s: View, r: View) {
    r.open == s.open && r.high == s.high && r.low == s.low && r.openTimeMs == s.openTimeMs
  }

  lemma EmitFold(s: View, primary: string, id: string, b: Bar)
    requires id != "" && s.tsMs == Ms(b.ts)
    ensures Pushed(s, Fold(s, Emit(primary, id, b)), primary, id, b)
  {
    FoldOne(s, Kline(id, b));
    if id == primary {
      var mid := Reduce(s, Kline("", b));
      assert Emit(primary, id, b) == [Kline("", b)] + [Kline(id, b)];
      FoldConcat(s, [Kline("", b)], [Kline(id, b)]);
      FoldOne(s, Kline("", b));
      FoldOne(mid, Kline(id, b));
    }
  }

  /** What the updates of a group do to one instrument's window and close. */
  ghost predicate TrackPushed(s: View, r: View, t: Track, due: bool)
    requires due ==> Pending(t)
  {
    if due then
      && Per(r, t.id) == Push(Per(s, t.id), BarPoint(t.data[t.index]), s.maxLen)
      && t.id in r.perIdClose && r.perIdClose[t.id] == t.data[t.index].close
    else
      && Per(r, t.id) == Per(s, t.id)
      && (t.id in r.perIdClose <==> t.id in s.perIdClose)
      && (t.id in s.perIdClose ==> r.perIdClose[t.id] == s.perIdClose[t.id])
  }

  /** What they do to the global windows, when the primary's provider is `t`. */
  ghost predicate GlobalPushed(s: View, r: View, t: Track, due: bool)
    requires due ==> Pending(t)
  {
    if due then
      var b := t.data[t.index];
      && r.ohlc == Push(s.ohlc, BarPoint(b), s.maxLen)
      && r.history == Push(s.history, b.close, s.maxLen)
      && r.points == Push(s.points, HistoryPoint(Ms(b.ts), b.close), s.maxLen)
      && BarFields(r, b)
    else r.ohlc == s.ohlc && r.history == s.history && r.points == s.points && SameFields(s, r)
  }

  /** What the updates of a whole group do: every due instrument is pushed once, no other changes. */
  ghost predicate GroupPushed(s: View, r: View, tracks: seq<Track>, primary: string, ks: seq<nat>, kp: nat)
    requires AllPending(tracks, ks) && kp < |tracks|
    requires forall k :: k in ks ==> k < |tracks| && Pending(tracks[k])
  {
    && r.tsMs == s.tsMs && r.maxLen == s.maxLen
    && (forall k :: 0 <= k < |tracks| ==> TrackPushed(s, r, tracks[k], k in ks))
    && r.price == (if ks == [] then s.price else tracks[ks[|ks| - 1]].data[tracks[ks[|ks| - 1]].index].close)
    && GlobalPushed(s, r, tracks[kp], kp in ks)
  }

  lemma {:induction false} GroupFold(s: View, tracks: seq<Track>, primary: string, ts: nat, ks: seq<nat>, kp: nat)
    requires AllPending(tracks, ks) && Ascending(ks) && NamedApart(tracks)
    requires kp < |tracks| && tracks[kp].id == primary && |s.history| == |s.points|
    requires forall k :: k in ks ==> Due(tracks, ts, k)
    requires s.tsMs == Ms(ts)
    ensures GroupPushed(s, Fold(s, EmitAll(tracks, primary, ks)), tracks, primary, ks, kp)
  {
    if ks != [] {
      var init, k := ks[..|ks| - 1], ks[|ks| - 1];
      assert ks == init + [k] && k in ks;
      GroupFold(s, tracks, primary, ts, init, kp);
      var mid, t := Fold(s, EmitAll(tracks, primary, init)), tracks[k];
      var b := t.data[t.index];
      FoldConcat(s, EmitAll(tracks, primary, init), Emit(primary, t.id, b));
      EmitFold(mid, primary, t.id, b);
      GroupPushedExtends(s, mid, Fold(mid, Emit(primary, t.id, b)), tracks, primary, init, k, kp, ts);
    }
  }

  lemma GroupPushedExtends(s: View, mid: View, r: View, tracks: seq<Track>, primary: string,
                           init: seq<nat>, k: nat, kp: nat, ts: nat)
    requires AllPending(tracks, init) && kp < |tracks| && NamedApart(tracks) && tracks[kp].id == primary
    requires forall j :: j in init ==> j < k && Pending(tracks[j])
    requires k < |tracks| && Due(tracks, ts, k) && |s.history| == |s.points|
    requires GroupPushed(s, mid, tracks, primary, init, kp)
    requires Pushed(mid, r, primary, tracks[k].id, tracks[k].data[tracks[k].index])
    ensures AllPending(tracks, init + [k])
    ensures GroupPushed(s, r, tracks, primary, init + [k], kp)
  {
    hide BarPoint, Push, Ms, TrackPushed, GlobalPushed, Pushed;
    var b := tracks[k].data[tracks[k].index];
    assert forall j :: j in init + [k] <==> j in init || j == k;
    assert k !in init;
    PushedFields(mid, r, primary, tracks[k].id, b);
    forall j | 0 <= j < |tracks| ensures TrackPushed(s, r, tracks[j], j in init + [k]) {
      assert TrackPushed(s, mid, tracks[j], j in init);
      assert j != k ==> tracks[j].id != tracks[k].id;
      TrackPushedExtends(s, mid, r, primary, tracks[k], tracks[j], j in init, j == k);
    }
    GlobalPushedExtends(s, mid, r, primary, tracks[k], tracks[kp], kp in init, kp == k);
  }

  lemma PushedFields(s: View, r: View, primary: string, id: string, b: Bar)
    requires Pushed(s, r, primary, id, b)
    ensures r.tsMs == s.tsMs && r.maxLen == s.maxLen && r.price == b.close
  {
  }

  lemma TrackPushedExtends(s: View, mid: View, r: View, primary: string, t: Track, u: Track, due: bool, same: bool)
    requires Pending(t) && (due ==> Pending(u)) && !(due && same)
    requires if same then u == t else u.id != t.id
    requires TrackPushed(s, mid, u, due) && mid.maxLen == s.maxLen
    requires Pushed(mid, r, primary, t.id, t.data[t.index])
    ensures TrackPushed(s, r, u, due || same)
  {
    hide BarPoint, Push;
  }

  lemma GlobalPushedExtends(s: View, mid: View, r: View, primary: string, t: Track, u: Track, due: bool, same: bool)
    requires Pending(t) && (due ==> Pending(u)) && !(due && same) && u.id == primary
    requires if same then u == t else u.id != t.id
    requires |s.history| == |s.points| && mid.maxLen == s.maxLen
    requires GlobalPushed(s, mid, u, due)
    requires Pushed(mid, r, primary, t.id, t.data[t.index])
    ensures GlobalPushed(s, r, u, due || same)
  {
    hide BarPoint;
  }

  // ── One advance keeps the refinement ──

  lemma KeptExtends(bars: seq<Bar>, lo: nat, i: nat, primedMs: int)
    requires lo <= i < |bars|
    ensures Kept(bars[lo..i + 1], primedMs)
            == Kept(bars[lo..i], primedMs) + if Ms(bars[i].ts) >= primedMs then [BarPoint(bars[i])] else []
  {
    assert bars[lo..i + 1][..i - lo] == bars[lo..i];
  }

  lemma FullExtends(t: Track, primary: string, primedMs: int)
    requires Pending(t) && (t.id == primary ==> t.index >= 1)
    ensures Full(t.(index := t.index + 1), primary, primedMs)
            == Full(t, primary, primedMs)
               + if Ms(t.data[t.index].ts) >= primedMs then [BarPoint(t.data[t.index])] else []
  {
    hide Kept, BarPoint;
    KeptExtends(t.data, if t.id == primary then 1 else 0, t.index, primedMs);
    assert t.data[0..t.index] == t.data[..t.index] && t.data[0..t.index + 1] == t.data[..t.index + 1];
  }

  lemma MsMonotone(a: nat, b: nat)
    requires a <= b
    ensures Ms(a) <= Ms(b)
  {
  }

  lemma ClockAfterGroup(m: Merge, ts: nat, ks: seq<nat>, kp: nat, primedMs: int)
    requires Refines(m, kp, primedMs) && IsGroup(m.tracks, ts, ks)
    ensures forall k, i :: 0 <= k < |m.tracks| && m.tracks[k].index <= i < |m.tracks[k].data| ==>
              Ms(ts) <= Ms(m.tracks[k].data[i].ts)
    ensures Ms(ts) < m.rs.tsMs ==> m.rs.tsMs == primedMs
  {
    GroupIsFirst(m.tracks, ts, ks);
    forall k, i | 0 <= k < |m.tracks| && m.tracks[k].index <= i < |m.tracks[k].data|
      ensures Ms(ts) <= Ms(m.tracks[k].data[i].ts) {
      MsMonotone(ts, m.tracks[k].data[i].ts);
    }
    assert ks[0] in ks && Due(m.tracks, ts, ks[0]);
  }

  /** A group before the primed time is dropped whole. */
  lemma StaleGroup(m: Merge, ts: nat, ks: seq<nat>)
    requires IsGroup(m.tracks, ts, ks) && Ms(ts) < m.rs.tsMs
    ensures Deliver(m, ts, ks).rs == m.rs
  {
    assert forall j :: 0 <= j < |ks| ==> ks[j] in ks;
    EmitAllAt(m.tracks, m.primary, ts, ks);
    FoldStale(m.rs, GroupEvents(m, ts, ks));
  }

  lemma LiveGroup(m: Merge, ts: nat, ks: seq<nat>, kp: nat)
    requires Layout(m.tracks, m.primary, kp) && IsGroup(m.tracks, ts, ks)
    requires m.rs.tsMs <= Ms(ts) && |m.rs.history| == |m.rs.points|
    ensures GroupPushed(m.rs.(tsMs := Ms(ts)), Deliver(m, ts, ks).rs, m.tracks, m.primary, ks, kp)
  {
    var clock := ReplayTimeUpdated(Ms(ts));
    FoldConcat(m.rs, [clock], EmitAll(m.tracks, m.primary, ks));
    FoldOne(m.rs, clock);
    assert m.rs.(tsMs := Ms(ts)) == Reduce(m.rs, clock);
    GroupFold(m.rs.(tsMs := Ms(ts)), m.tracks, m.primary, ts, ks, kp);
  }

  lemma ShowsAfterPush(s: View, r: View, t: Track, primary: string, primedMs: int)
    requires Pending(t) && (t.id == primary ==> t.index >= 1)
    requires Shows(s, t, primary, primedMs) && r.maxLen == s.maxLen
    requires Ms(t.data[t.index].ts) >= primedMs
    requires Per(r, t.id) == Push(Per(s, t.id), BarPoint(t.data[t.index]), s.maxLen)
    requires t.id in r.perIdClose && r.perIdClose[t.id] == t.data[t.index].close
    ensures Shows(r, t.(index := t.index + 1), primary, primedMs)
  {
    FullExtends(t, primary, primedMs);
    PushLastN(Full(t, primary, primedMs), BarPoint(t.data[t.index]), s.maxLen, Capacity(t.id, primary, s.maxLen));
  }

  lemma ShowsAfterDrop(s: View, t: Track, primary: string, primedMs: int)
    requires Pending(t) && (t.id == primary ==> t.index >= 1)
    requires Shows(s, t, primary, primedMs) && Ms(t.data[t.index].ts) < primedMs
    ensures Shows(s, t.(index := t.index + 1), primary, primedMs)
  {
    FullExtends(t, primary, primedMs);
  }

  lemma GlobalAfterPush(s: View, r: View, primary: string, p: OhlcPoint)
    requires GlobalFollows(s, primary) && r.maxLen == s.maxLen
    requires Per(r, primary) == Push(Per(s, primary), p, s.maxLen) == r.ohlc
    requires r.history == Push(s.history, p.close, s.maxLen)
    requires r.points == Push(s.points, HistoryPoint(p.tsMs, p.close), s.maxLen)
    ensures GlobalFollows(r, primary)
  {
  }

  /** What every instrument and the global windows show after a group, given what reducing it does. */
  ghost predicate AllShow(rs: View, tracks: seq<Track>, primary: string, kp: nat, primedMs: int) {
    && Layout(tracks, primary, kp) && GlobalFollows(rs, primary)
    && forall k :: 0 <= k < |tracks| ==> Shows(rs, tracks[k], primary, primedMs)
  }

  lemma LayoutAfterPop(tracks: seq<Track>, primary: string, ks: seq<nat>, kp: nat)
    requires Layout(tracks, primary, kp) && AllPending(tracks, ks)
    ensures Layout(Pop(tracks, ks), primary, kp)
  {
    PopKeepsTracks(tracks, tracks, ks);
  }

  lemma StaleGroupShows(
      rs: View, tracks: seq<Track>, primary: string, ts: nat, ks: seq<nat>, kp: nat, primedMs: int)
    requires AllShow(rs, tracks, primary, kp, primedMs)
    requires IsGroup(tracks, ts, ks) && Ms(ts) < primedMs
    ensures AllShow(rs, Pop(tracks, ks), primary, kp, primedMs)
  {
    hide Shows, GlobalFollows, IsGroup;
    assert AllPending(tracks, ks) by { PendingGroup(tracks, ts, ks); }
    LayoutAfterPop(tracks, primary, ks, kp);
    forall k | 0 <= k < |tracks| ensures Shows(rs, Pop(tracks, ks)[k], primary, primedMs) {
      StaleTrackShows(rs, tracks, primary, ts, ks, primedMs, k);
    }
  }

  lemma PendingGroup(tracks: seq<Track>, ts: nat, ks: seq<nat>)
    requires IsGroup(tracks, ts, ks)
    ensures AllPending(tracks, ks)
  {
  }

  lemma StaleTrackShows(rs: View, tracks: seq<Track>, primary: string, ts: nat, ks: seq<nat>, primedMs: int, k: nat)
    requires IsGroup(tracks, ts, ks) && Ms(ts) < primedMs
    requires k < |tracks| && tracks[k].index <= |tracks[k].data| && (tracks[k].id == primary ==> tracks[k].index >= 1)
    requires Shows(rs, tracks[k], primary, primedMs)
    ensures var t := Pop(tracks, ks)[k];
            t.index <= |t.data| && (t.id == primary ==> t.index >= 1) && Shows(rs, t, primary, primedMs)
  {
    hide Shows;
    if k in ks {
      assert Due(tracks, ts, k);
      ShowsAfterDrop(rs, tracks[k], primary, primedMs);
    }
  }

  lemma LiveGroupShows(s: View, r: View, tracks: seq<Track>, primary: string, ts: nat, ks: seq<nat>, kp: nat,
                       primedMs: int)
    requires AllShow(s, tracks, primary, kp, primedMs)
    requires IsGroup(tracks, ts, ks) && Ms(ts) >= primedMs
    requires GroupPushed(s, r, tracks, primary, ks, kp)
    ensures AllShow(r, Pop(tracks, ks), primary, kp, primedMs)
  {
    hide Shows, GlobalFollows;
    LayoutAfterPop(tracks, primary, ks, kp);
    forall k | 0 <= k < |tracks| ensures Shows(r, Pop(tracks, ks)[k], primary, primedMs) {
      LiveTrackShows(s, r, tracks, primary, ts, ks, kp, primedMs, k);
    }
    LiveGroupGlobal(s, r, tracks, primary, ks, kp);
  }

  lemma LiveTrackShows(s: View, r: View, tracks: seq<Track>, primary: string, ts: nat, ks: seq<nat>,
                       kp: nat, primedMs: int, k: nat)
    requires Layout(tracks, primary, kp) && IsGroup(tracks, ts, ks) && Ms(ts) >= primedMs
    requires GroupPushed(s, r, tracks, primary, ks, kp)
    requires k < |tracks| && (tracks[k].id == primary ==> tracks[k].index >= 1)
    requires Shows(s, tracks[k], primary, primedMs)
    ensures Pop(tracks, ks)[k].id == primary ==> Pop(tracks, ks)[k].index >= 1
    ensures Shows(r, Pop(tracks, ks)[k], primary, primedMs)
  {
    hide Shows, Push, BarPoint;
    assert TrackPushed(s, r, tracks[k], k in ks);
    if k in ks {
      assert Due(tracks, ts, k);
      ShowsAfterPush(s, r, tracks[k], primary, primedMs);
    } else {
      ShowsUntouched(s, r, tracks[k], primary, primedMs);
    }
  }

  lemma ShowsUntouched(s: View, r: View, t: Track, primary: string, primedMs: int)
    requires t.index <= |t.data| && (t.id == primary ==> t.index >= 1)
    requires Shows(s, t, primary, primedMs) && TrackPushed(s, r, t, false) && r.maxLen == s.maxLen
    ensures Shows(r, t, primary, primedMs)
  {
    hide Full;
  }

  lemma LiveGroupGlobal(s: View, r: View, tracks: seq<Track>, primary: string, ks: seq<nat>, kp: nat)
    requires Layout(tracks, primary, kp) && AllPending(tracks, ks) && GlobalFollows(s, primary)
    requires forall k :: k in ks ==> k < |tracks| && Pending(tracks[k])
    requires GroupPushed(s, r, tracks, primary, ks, kp)
    ensures GlobalFollows(r, primary)
  {
    hide Push, BarPoint;
    if kp in ks {
      var b := tracks[kp].data[tracks[kp].index];
      PointFields(b);
      GlobalAfterPush(s, r, primary, BarPoint(b));
    }
  }

  lemma PointFields(b: Bar)
    ensures BarPoint(b).tsMs == Ms(b.ts) && BarPoint(b).close == b.close
  {
  }

  lemma GroupRefines(m: Merge, ts: nat, ks: seq<nat>, kp: nat, primedMs: int)
    requires Refines(m, kp, primedMs) && IsGroup(m.tracks, ts, ks)
    ensures Refines(Deliver(m, ts, ks), kp, primedMs)
  {
    hide Fold, EmitAll, Heads, Full, Shows, GlobalFollows, Due, GroupPushed, GroupEvents;
    ClockAfterGroup(m, ts, ks, kp, primedMs);
    if Ms(ts) < m.rs.tsMs {
      StaleGroup(m, ts, ks);
      StaleGroupShows(m.rs, m.tracks, m.primary, ts, ks, kp, primedMs);
    } else {
      var s := m.rs.(tsMs := Ms(ts));
      ClockIsNotShown(m.rs, m.tracks, m.primary, kp, primedMs, Ms(ts));
      LiveGroup(m, ts, ks, kp);
      LiveGroupShows(s, Deliver(m, ts, ks).rs, m.tracks, m.primary, ts, ks, kp, primedMs);
    }
  }

  lemma ClockIsNotShown(rs: View, tracks: seq<Track>, primary: string, kp: nat, primedMs: int, ms: int)
    requires AllShow(rs, tracks, primary, kp, primedMs)
    ensures AllShow(rs.(tsMs := ms), tracks, primary, kp, primedMs)
    ensures |rs.history| == |rs.points|
  {
    hide Full;
    forall k | 0 <= k < |tracks| ensures Shows(rs.(tsMs := ms), tracks[k], primary, primedMs) {
      assert Shows(rs, tracks[k], primary, primedMs);
    }
  }

  lemma AdvanceRefines(m: Merge, kp: nat, primedMs: int)
    requires Refines(m, kp, primedMs)
    ensures Refines(Advance(m), kp, primedMs)
  {
    if Heads(m.tracks) != [] {
      var ts, ks := AdvanceGroup(m);
      GroupRefines(m, ts, ks, kp, primedMs);
    }
  }

  lemma {:induction false} AdvanceNRefines(m: Merge, n: nat, kp: nat, primedMs: int)
    requires Refines(m, kp, primedMs)
    ensures Refines(AdvanceN(m, n), kp, primedMs)
  {
    hide Advance, Refines;
    if n > 0 {
      AdvanceNRefines(m, n - 1, kp, primedMs);
      AdvanceRefines(AdvanceN(m, n - 1), kp, primedMs);
    }
  }

  /**
   * Window refinement: after any number of advances following a load, each instrument's window is
   * the end of its log of bars at or after the primed time, and the global windows are the
   * primary's, despite the double emission and the separate caps.
   */
  lemma WindowsAreSuffixes(m: Merge, n: nat, kp: nat)
    requires JustLoaded(m, kp)
    ensures Refines(AdvanceN(m, n), kp, Ms(m.tracks[kp].data[0].ts))
  {
    LoadRefines(m, kp);
    AdvanceNRefines(m, n, kp, Ms(m.tracks[kp].data[0].ts));
  }

  lemma PriceAfterGroup(m: Merge, ts: nat, ks: seq<nat>, kp: nat)
    requires Layout(m.tracks, m.primary, kp) && GlobalFollows(m.rs, m.primary)
    requires IsGroup(m.tracks, ts, ks) && m.rs.tsMs <= Ms(ts)
    ensures var t := m.tracks[ks[|ks| - 1]]; Deliver(m, ts, ks).rs.price == t.data[t.index].close
  {
    hide Fold, EmitAll, Heads, GroupEvents, Pop, Push;
    LiveGroup(m, ts, ks, kp);
  }

  /**
   * The shared price is not the primary's: after an advance that is not stale it is the close of
   * the last due provider in load order.
   */
  lemma PriceIsLastDue(m: Merge, kp: nat, primedMs: int) returns (k: nat)
    requires Refines(m, kp, primedMs) && Unread(m.tracks) > 0
    ensures k < |m.tracks| && Pending(m.tracks[k])
    ensures Ms(m.tracks[k].data[m.tracks[k].index].ts) >= m.rs.tsMs ==>
              Advance(m).rs.price == m.tracks[k].data[m.tracks[k].index].close
    ensures forall j :: k < j < |m.tracks| && Pending(m.tracks[j]) ==>
              m.tracks[k].data[m.tracks[k].index].ts < m.tracks[j].data[m.tracks[j].index].ts
    ensures forall j :: 0 <= j < k && Pending(m.tracks[j]) ==>
              m.tracks[k].data[m.tracks[k].index].ts <= m.tracks[j].data[m.tracks[j].index].ts
  {
    hide Fold, EmitAll, Full, Shows, Heads, GroupEvents, Pop;
    HeadsEmpty(m.tracks);
    var ts, ks := AdvanceGroup(m);
    k := ks[|ks| - 1];
    assert k in ks;
    if m.rs.tsMs <= Ms(ts) {
      PriceAfterGroup(m, ts, ks, kp);
    }
    forall j | k < j < |m.tracks| && Pending(m.tracks[j])
      ensures ts < m.tracks[j].data[m.tracks[j].index].ts {
      assert j !in ks;
    }
  }

  // ── When the shared price is the primary's ──

  lemma AscendingInit(a: seq<nat>)
    requires Ascending(a) && a != []
    ensures Ascending(a[..|a| - 1])
    ensures forall k :: k in a[..|a| - 1] <==> k in a && k != a[|a| - 1]
    ensures forall k :: k in a ==> k <= a[|a| - 1]
  {
    assert a == a[..|a| - 1] + [a[|a| - 1]];
  }

  lemma SameEmptiness(a: seq<nat>, b: seq<nat>)
    requires forall k :: k in a <==> k in b
    ensures a == [] <==> b == []
  {
    assert a != [] ==> a[0] in a;
    assert b != [] ==> b[0] in b;
  }

  lemma {:induction false} AscendingUnique(a: seq<nat>, b: seq<nat>)
    requires Ascending(a) && Ascending(b) && forall k :: k in a <==> k in b
    ensures a == b
  {
    SameEmptiness(a, b);
    if a != [] {
      AscendingInit(a);
      AscendingInit(b);
      hide Ascending;
      var x, y, init, front := a[|a| - 1], b[|b| - 1], a[..|a| - 1], b[..|b| - 1];
      assert x in a && y in b && x == y;
      assert a == init + [x] && b == front + [y];
      forall k ensures k in init <==> k in front {
        assert k in init <==> k in a && k != x;
        assert k in front <==> k in b && k != y;
      }
      AscendingUnique(init, front);
    }
  }

  lemma GroupIsUnread(tracks: seq<Track>, ts: nat, ks: seq<nat>)
    requires IsGroup(tracks, ts, ks)
    ensures Heads(tracks) != []
  {
    HeadsComplete(tracks, |tracks|);
    hide HeadsUpTo;
    assert ks[0] in ks && Due(tracks, ts, ks[0]);
    assert Head(ts, ks[0]) in Heads(tracks);
  }

  lemma NoGroup(tracks: seq<Track>)
    ensures Heads(tracks) == [] ==> forall ts, ks :: !IsGroup(tracks, ts, ks)
  {
    hide IsGroup;
    forall ts, ks | IsGroup(tracks, ts, ks) ensures Heads(tracks) != [] {
      GroupIsUnread(tracks, ts, ks);
    }
  }

  lemma GroupIsUnique(tracks: seq<Track>, ts: nat, ks: seq<nat>, ts': nat, ks': seq<nat>)
    requires IsGroup(tracks, ts, ks) && IsGroup(tracks, ts', ks')
    ensures ts' == ts && ks' == ks
  {
    assert ks[0] in ks && Due(tracks, ts, ks[0]);
    assert ks'[0] in ks' && Due(tracks, ts', ks'[0]);
    AscendingUnique(ks, ks');
  }

  /** The group an advance reads is the only one there is. */
  lemma AdvanceIsDeliver(m: Merge, ts: nat, ks: seq<nat>)
    requires IsGroup(m.tracks, ts, ks)
    ensures Advance(m) == Deliver(m, ts, ks)
  {
    hide Deliver, Advance, IsGroup;
    GroupIsUnread(m.tracks, ts, ks);
    var least, group := AdvanceGroup(m);
    GroupIsUnique(m.tracks, ts, ks, least, group);
  }

  /** The shared price is the primary's last close. */
  ghost predicate PrimaryPriced(rs: View, primary: string) {
    primary in rs.perIdClose && rs.price == rs.perIdClose[primary]
  }

  function NextClose(t: Track): real
    requires Pending(t)
  {
    t.data[t.index].close
  }

  /** The last due provider's next close is the one the primary will have. */
  ghost predicate LastDueAgrees(m: Merge, ts: nat, ks: seq<nat>, kp: nat)
    requires kp < |m.tracks| && m.primary in m.rs.perIdClose && IsGroup(m.tracks, ts, ks)
  {
    NextClose(m.tracks[ks[|ks| - 1]])
    == if kp in ks then NextClose(m.tracks[kp]) else m.rs.perIdClose[m.primary]
  }

  lemma PrimaryHasClose(m: Merge, kp: nat, primedMs: int)
    requires Refines(m, kp, primedMs)
    ensures m.primary in m.rs.perIdClose
  {
    assert Shows(m.rs, m.tracks[kp], m.primary, primedMs);
  }

  /** The primary's close after a live group. */
  lemma PrimaryCloseAfterGroup(m: Merge, ts: nat, ks: seq<nat>, kp: nat)
    requires Layout(m.tracks, m.primary, kp) && |m.rs.history| == |m.rs.points|
    requires IsGroup(m.tracks, ts, ks) && m.rs.tsMs <= Ms(ts) && m.primary in m.rs.perIdClose
    ensures var rs := Deliver(m, ts, ks).rs;
            && m.primary in rs.perIdClose
            && rs.perIdClose[m.primary] == if kp in ks then NextClose(m.tracks[kp]) else m.rs.perIdClose[m.primary]
  {
    hide Fold, EmitAll, Heads, GroupEvents, Pop, Push;
    LiveGroup(m, ts, ks, kp);
    assert TrackPushed(m.rs.(tsMs := Ms(ts)), Deliver(m, ts, ks).rs, m.tracks[kp], kp in ks);
  }

  /**
   * The exact condition: after the next group the shared price is the primary's close when the last
   * due provider's next close is the primary's too; a stale group leaves it as it was.
   */
  lemma PriceMatchesPrimaryIff(m: Merge, ts: nat, ks: seq<nat>, kp: nat, primedMs: int)
    requires Refines(m, kp, primedMs) && IsGroup(m.tracks, ts, ks)
    ensures Advance(m) == Deliver(m, ts, ks) && m.primary in m.rs.perIdClose
    ensures PrimaryPriced(Advance(m).rs, m.primary) <==>
            if Ms(ts) < m.rs.tsMs then PrimaryPriced(m.rs, m.primary) else LastDueAgrees(m, ts, ks, kp)
  {
    AdvanceIsDeliver(m, ts, ks);
    PrimaryHasClose(m, kp, primedMs);
    hide Advance, Deliver, Shows, IsGroup, Full;
    if Ms(ts) < m.rs.tsMs {
      StaleGroup(m, ts, ks);
    } else {
      PriceAfterGroup(m, ts, ks, kp);
      PrimaryCloseAfterGroup(m, ts, ks, kp);
    }
  }

  /** The next group, if there is one, is stale or its last due provider agrees with the primary. */
  ghost predicate NextAgrees(m: Merge, kp: nat) {
    && kp < |m.tracks| && m.primary in m.rs.perIdClose
    && forall ts, ks :: IsGroup(m.tracks, ts, ks) ==> Ms(ts) < m.rs.tsMs || LastDueAgrees(m, ts, ks, kp)
  }

  lemma NextAgreesIff(m: Merge, kp: nat, primedMs: int)
    requires Refines(m, kp, primedMs) && PrimaryPriced(m.rs, m.primary)
    ensures PrimaryPriced(Advance(m).rs, m.primary) <==> NextAgrees(m, kp)
  {
    assert kp < |m.tracks|;
    hide Advance, LastDueAgrees, Refines, IsGroup;
    NoGroup(m.tracks);
    if Heads(m.tracks) == [] {
      AdvanceIdle(m);
    } else {
      var ts, ks := AdvanceGroup(m);
      PriceMatchesPrimaryIff(m, ts, ks, kp, primedMs);
      forall ts', ks' | IsGroup(m.tracks, ts', ks') ensures ts' == ts && ks' == ks {
        GroupIsUnique(m.tracks, ts, ks, ts', ks');
      }
    }
  }

  /** At each of the first `n` advances the last due provider agreed with the primary. */
  ghost predicate AgreedFor(m: Merge, n: nat, kp: nat) {
    n > 0 ==> AgreedFor(m, n - 1, kp) && NextAgrees(AdvanceN(m, n - 1), kp)
  }

  /** The shared price was the primary's close at the start and after each of the `n` advances. */
  ghost predicate PricedFor(m: Merge, n: nat) {
    PrimaryPriced(AdvanceN(m, n).rs, m.primary) && (n > 0 ==> PricedFor(m, n - 1))
  }

  lemma PricedAtLoad(m: Merge, kp: nat)
    requires JustLoaded(m, kp)
    ensures PricedFor(m, 0) && AgreedFor(m, 0, kp)
  {
  }

  lemma PricedUnfold(m: Merge, n: nat)
    requires n > 0
    ensures PricedFor(m, n) <==> PricedFor(m, n - 1) && PrimaryPriced(AdvanceN(m, n).rs, m.primary)
    ensures PricedFor(m, n - 1) ==> PrimaryPriced(AdvanceN(m, n - 1).rs, m.primary)
  {
    hide AdvanceN, PrimaryPriced;
  }

  lemma AgreedUnfold(m: Merge, n: nat, kp: nat)
    requires n > 0
    ensures AgreedFor(m, n, kp) <==> AgreedFor(m, n - 1, kp) && NextAgrees(AdvanceN(m, n - 1), kp)
  {
    hide AdvanceN, NextAgrees;
  }

  /** After a load the price stays the primary's close exactly as long as the last due providers agree. */
  lemma {:induction false} PricedForIff(m: Merge, n: nat, kp: nat)
    requires JustLoaded(m, kp)
    ensures PricedFor(m, n) <==> AgreedFor(m, n, kp)
  {
    hide AdvanceN, Advance, PricedFor, AgreedFor, NextAgrees, PrimaryPriced, JustLoaded;
    if n == 0 {
      PricedAtLoad(m, kp);
    } else {
      PricedForIff(m, n - 1, kp);
      PricedUnfold(m, n);
      AgreedUnfold(m, n, kp);
      if PrimaryPriced(AdvanceN(m, n - 1).rs, m.primary) {
        PricedStep(m, n - 1, kp);
      }
    }
  }

  lemma PricedStep(m: Merge, n: nat, kp: nat)
    requires JustLoaded(m, kp) && PrimaryPriced(AdvanceN(m, n).rs, m.primary)
    ensures PrimaryPriced(AdvanceN(m, n + 1).rs, m.primary) <==> NextAgrees(AdvanceN(m, n), kp)
  {
    WindowsAreSuffixes(m, n, kp);
    AdvanceKeepsTracks(m, n);
    var s := AdvanceN(m, n);
    assert AdvanceN(m, n + 1) == Advance(s);
    hide Advance, AdvanceN, NextAgrees, Refines, JustLoaded, PrimaryPriced;
    NextAgreesIff(s, kp, Ms(m.tracks[kp].data[0].ts));
  }

  // ── Two instruments whose prices part ──

  const FIRST := Bar(60_000_000_000, 100.0, 100.0, 100.0, 100.0, 1.0)
  const SECOND := Bar(120_000_000_000, 101.0, 101.0, 101.0, 101.0, 1.0)
  const OTHER := Bar(120_000_000_000, 2_500.0, 2_500.0, 2_500.0, 2_500.0, 1.0)

  /** Just loaded: the primary has shown its first bar, and both instruments have one at the same later time. */
  const PAIR := Merge([Track("7203.TSE", [FIRST, SECOND], 1), Track("6758.TSE", [OTHER], 0)], "7203.TSE",
                      Primed(FIRST, "7203.TSE", 100), [], false)

  lemma PairIsLoaded()
    ensures JustLoaded(PAIR, 0)
  {
    assert PAIR.tracks[0].id[0] != PAIR.tracks[1].id[0];
  }

  lemma PairHeads()
    ensures Heads(PAIR.tracks) == [Head(SECOND.ts, 0), Head(SECOND.ts, 1)]
  {
    assert HeadsUpTo(PAIR.tracks, 0) == [] && HeadsUpTo(PAIR.tracks, 1) == [Head(SECOND.ts, 0)];
  }

  lemma BothAtOnce(ts: nat)
    ensures AtTime([Head(ts, 0), Head(ts, 1)], ts) == [0, 1]
  {
    var heads := [Head(ts, 0), Head(ts, 1)];
    assert heads[..1] == [heads[0]] && [heads[0]][..0] == [];
    assert AtTime([heads[0]], ts) == [0];
  }

  lemma PairGroup()
    ensures AllPending(PAIR.tracks, [0, 1]) && IsGroup(PAIR.tracks, SECOND.ts, [0, 1])
    ensures Advance(PAIR) == Deliver(PAIR, SECOND.ts, [0, 1])
  {
    PairHeads();
    BothAtOnce(SECOND.ts);
    hide Deliver, HeadsUpTo, AtTime, Heads;
    assert MinTime([Head(SECOND.ts, 0), Head(SECOND.ts, 1)]) == SECOND.ts;
  }

  /** After one advance the shared price is the other instrument's, while the primary's close is its own. */
  lemma PriceLeavesPrimary()
    ensures JustLoaded(PAIR, 0) && Accepted(FIRST) && Accepted(SECOND) && Accepted(OTHER)
    ensures var rs := Advance(PAIR).rs;
            rs.price == OTHER.close && PAIR.primary in rs.perIdClose && rs.perIdClose[PAIR.primary] == SECOND.close
  {
    PairIsLoaded();
    LoadRefines(PAIR, 0);
    PairGroup();
    assert PAIR.rs.tsMs <= Ms(SECOND.ts) && |PAIR.rs.history| == |PAIR.rs.points|;
    hide Advance, Deliver, IsGroup;
    PriceAfterGroup(PAIR, SECOND.ts, [0, 1], 0);
    PrimaryCloseAfterGroup(PAIR, SECOND.ts, [0, 1], 0);
  }
}
