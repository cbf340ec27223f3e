/** What a replay shows of the bars it has read, field by field. */
module ReplayShown {
  import opened Wrappers
  import opened ReplayReducer
  import opened ReplayMerge
  import opened ReplayWindows
  import opened ReplayRewind

  /** The point of a bar; a primed one carries no volume. */
  predicate ShowsBar(p: OhlcPoint, b: Bar, primed: bool) {
    p == OhlcPoint(b.ts / 1_000_000, b.ts / 1_000_000, b.open, b.high, b.low, b.close,
                   if primed then None else Some(b.volume))
  }

  ghost predicate AllAccepted(tracks: seq<Track>) {
    forall t, b :: t in tracks && b in t.data ==> Accepted(b)
  }

  // ── The bars kept are the last ones ──

  lemma AcceptedPoint(b: Bar)
    requires Accepted(b)
    ensures ShowsBar(BarPoint(b), b, false) && ShowsBar(PrimedPoint(b), b, true)
  {
  }

  /** The points are those of the bars from `from` on. */
  ghost predicate ShowsFrom(points: seq<OhlcPoint>, bars: seq<Bar>, from: nat) {
    && |points| + from == |bars|
    && forall i :: 0 <= i < |points| ==> ShowsBar(points[i], bars[from + i], false)
  }

  lemma ShowsNext(points: seq<OhlcPoint>, bars: seq<Bar>, from: nat, b: Bar)
    requires ShowsFrom(points, bars, from) && Accepted(b)
    ensures ShowsFrom(points + [BarPoint(b)], bars + [b], from)
  {
    AcceptedPoint(b);
    hide ShowsBar, BarPoint;
  }

  /** The first bar at or after a time, or the length. */
  ghost predicate StartsAt(bars: seq<Bar>, ms: int, from: nat) {
    && from <= |bars|
    && (forall i :: 0 <= i < from ==> Ms(bars[i].ts) < ms)
    && (forall i :: from <= i < |bars| ==> Ms(bars[i].ts) >= ms)
  }

  lemma StartsNext(bars: seq<Bar>, ms: int, from: nat, b: Bar)
    requires StartsAt(bars, ms, from) && TimeOrdered(bars + [b])
    ensures StartsAt(bars + [b], ms, if Ms(b.ts) < ms then |bars| + 1 else from)
    ensures Ms(b.ts) < ms ==> from == |bars|
  {
    var all := bars + [b];
    forall i | 0 <= i < |bars| ensures Ms(bars[i].ts) <= Ms(b.ts) {
      assert all[i] == bars[i] && all[|bars|] == b;
      MsMonotone(bars[i].ts, b.ts);
    }
    assert from < |bars| ==> Ms(bars[from].ts) >= ms;
  }

  lemma PrefixOrdered(bars: seq<Bar>, n: nat)
    requires TimeOrdered(bars) && PositiveBars(bars) && n <= |bars|
    ensures TimeOrdered(bars[..n]) && PositiveBars(bars[..n])
    ensures forall i :: 0 <= i < |bars| ==> Accepted(bars[i])
  {
    assert forall i :: 0 <= i < n ==> bars[..n][i] == bars[i] && bars[i] in bars;
  }

  lemma SuffixOrdered(bars: seq<Bar>, lo: nat, hi: nat)
    requires TimeOrdered(bars) && PositiveBars(bars) && lo <= hi <= |bars|
    ensures TimeOrdered(bars[lo..hi]) && PositiveBars(bars[lo..hi])
    ensures lo == 0 || (forall i :: 0 <= i < hi - lo ==> Ms(bars[0].ts) <= Ms(bars[lo..hi][i].ts))
  {
    var cut := bars[lo..hi];
    assert forall i :: 0 <= i < |cut| ==> cut[i] == bars[lo + i] && bars[lo + i] in bars;
    if lo > 0 {
      forall i | 0 <= i < |cut| ensures Ms(bars[0].ts) <= Ms(cut[i].ts) {
        MsMonotone(bars[0].ts, cut[i].ts);
      }
    }
  }

  /** Of ordered bars those at or after a time are the last ones, each shown as it is. */
  lemma {:induction false} KeptAre(bars: seq<Bar>, ms: int) returns (from: nat)
    requires TimeOrdered(bars) && PositiveBars(bars)
    ensures StartsAt(bars, ms, from) && ShowsFrom(Kept(bars, ms), bars, from)
  {
    if bars == [] {
      from := 0;
    } else {
      var n := |bars| - 1;
      var b, init := bars[n], bars[..n];
      PrefixOrdered(bars, n);
      assert bars == init + [b] && Accepted(b);
      hide BarPoint, ShowsFrom, StartsAt, Ms, TimeOrdered, PositiveBars, Accepted;
      from := KeptAre(init, ms);
      StartsNext(init, ms, from, b);
      if Ms(b.ts) >= ms {
        ShowsNext(Kept(init, ms), init, from, b);
      } else {
        ShowsNothing(Kept(init, ms), init, from, b);
        from := |bars|;
      }
    }
  }

  lemma ShowsNothing(points: seq<OhlcPoint>, bars: seq<Bar>, from: nat, b: Bar)
    requires ShowsFrom(points, bars, from) && from == |bars|
    ensures ShowsFrom(points, bars + [b], |bars| + 1)
  {
  }

  // ── Several instruments ──

  /** An instrument's points so far: its bars from `from` on, the primed one first if it is the primary. */
  ghost predicate Unbounded(full: seq<OhlcPoint>, t: Track, primary: string, from: nat)
    requires t.index <= |t.data|
  {
    && |full| + from == t.index
    && forall i :: 0 <= i < |full| ==> ShowsBar(full[i], t.data[from + i], t.id == primary && from + i == 0)
  }

  /** Where an instrument's points start: the primary's with its first bar, another's at the primed time. */
  ghost predicate FirstShown(t: Track, primary: string, ms: int, from: nat)
    requires t.index <= |t.data|
  {
    StartsAt(t.data[..t.index], ms, from) && (t.id == primary ==> from == 0)
  }

  lemma StartsFirst(bars: seq<Bar>, ms: int, from: nat)
    requires StartsAt(bars, ms, from) && forall i :: 0 <= i < |bars| ==> Ms(bars[i].ts) >= ms
    ensures from == 0
  {
    assert bars != [] ==> Ms(bars[0].ts) >= ms;
  }

  lemma FullAre(t: Track, primary: string, ms: int) returns (from: nat)
    requires t.index <= |t.data| && TimeOrdered(t.data) && PositiveBars(t.data)
    requires t.id == primary ==> t.index >= 1 && ms == Ms(t.data[0].ts)
    ensures Unbounded(Full(t, primary, ms), t, primary, from) && FirstShown(t, primary, ms, from)
  {
    if t.id == primary {
      PrimaryFull(t, primary, ms);
      from := 0;
    } else {
      PrefixOrdered(t.data, t.index);
      hide Kept, ShowsBar, StartsAt, TimeOrdered, PositiveBars;
      from := KeptAre(t.data[..t.index], ms);
      ReadShown(Kept(t.data[..t.index], ms), t, primary, from);
    }
  }

  lemma ReadShown(full: seq<OhlcPoint>, t: Track, primary: string, from: nat)
    requires t.index <= |t.data| && t.id != primary && ShowsFrom(full, t.data[..t.index], from)
    ensures Unbounded(full, t, primary, from)
  {
    hide ShowsBar;
  }

  /** All of the primary's bars are at or after its first. */
  lemma PrimaryFull(t: Track, primary: string, ms: int)
    requires 1 <= t.index <= |t.data| && TimeOrdered(t.data) && PositiveBars(t.data)
    requires t.id == primary && ms == Ms(t.data[0].ts)
    ensures Unbounded(Full(t, primary, ms), t, primary, 0) && FirstShown(t, primary, ms, 0)
  {
    var rest := t.data[1..t.index];
    SuffixOrdered(t.data, 1, t.index);
    var from := KeptAre(rest, ms);
    StartsFirst(rest, ms, from);
    assert t.data[0] in t.data;
    AcceptedPoint(t.data[0]);
    hide Kept, ShowsBar, BarPoint, PrimedPoint, TimeOrdered, PositiveBars, Accepted, Ms;
    PrimaryShown(Kept(rest, ms), rest, t, primary, ms);
  }

  lemma PrimaryShown(kept: seq<OhlcPoint>, rest: seq<Bar>, t: Track, primary: string, ms: int)
    requires 1 <= t.index <= |t.data| && t.id == primary && rest == t.data[1..t.index] && ms == Ms(t.data[0].ts)
    requires ShowsFrom(kept, rest, 0) && StartsAt(rest, ms, 0) && ShowsBar(PrimedPoint(t.data[0]), t.data[0], true)
    ensures Unbounded([PrimedPoint(t.data[0])] + kept, t, primary, 0) && FirstShown(t, primary, ms, 0)
  {
    hide ShowsBar, PrimedPoint, Ms;
    var full, read := [PrimedPoint(t.data[0])] + kept, t.data[..t.index];
    forall i | 0 <= i < |full| ensures ShowsBar(full[i], t.data[i], i == 0) {
      if i > 0 {
        assert full[i] == kept[i - 1] && rest[i - 1] == t.data[i];
      }
    }
    forall i | 0 <= i < |read| ensures Ms(read[i].ts) >= ms {
      if i > 0 {
        assert rest[i - 1] == read[i];
      }
    }
  }

  /**
   * A window of an instrument that has read up to its position: the last bars it has read, field by
   * field, as many as fit, and none from before the primed time.
   */
  ghost predicate ShowsLast(w: seq<OhlcPoint>, t: Track, primary: string, primedMs: int, cap: nat)
    requires t.index <= |t.data|
  {
    && Fills(|w|, t, primedMs, cap)
    && forall i :: 0 <= i < |w| ==> ShowsPlace(w[i], t, t.index - |w| + i, primary, primedMs)
  }

  /** The point of the bar at a position, which is not before the primed time. */
  ghost predicate ShowsPlace(p: OhlcPoint, t: Track, at: nat, primary: string, primedMs: int)
    requires at < |t.data|
  {
    ShowsBar(p, t.data[at], t.id == primary && at == 0) && t.data[at].ts / 1_000_000 >= primedMs
  }

  /** A window takes as many of the bars read as fit and lie at or after the primed time. */
  ghost predicate Fills(size: nat, t: Track, primedMs: int, cap: nat)
    requires t.index <= |t.data|
  {
    && size <= t.index && size <= cap
    && (size == t.index || size == cap || t.data[t.index - size - 1].ts / 1_000_000 < primedMs)
  }

  /** The window kept for an instrument; a primed one never goes below its one bar. */
  ghost predicate ShowsWindow(rs: View, t: Track, primary: string, primedMs: int)
    requires t.index <= |t.data|
  {
    ShowsLast(if t.id in rs.perIdOhlc then rs.perIdOhlc[t.id] else [], t, primary, primedMs,
              if t.id == primary && rs.maxLen == 0 then 1 else rs.maxLen)
  }

  ghost predicate EndOf<T>(w: seq<T>, full: seq<T>, cap: nat) {
    && |w| == (if |full| <= cap then |full| else cap)
    && forall i :: 0 <= i < |w| ==> w[i] == full[|full| - |w| + i]
  }

  lemma ShowsEnd(rs: View, t: Track, primary: string, ms: int)
    requires t.index <= |t.data| && (t.id == primary ==> t.index >= 1)
    requires Shows(rs, t, primary, ms)
    ensures EndOf(Per(rs, t.id), Full(t, primary, ms), Capacity(t.id, primary, rs.maxLen))
  {
    hide Full;
  }

  /** A window that is the end of an instrument's points shows its last bars, from the primed time on. */
  lemma WindowOf(full: seq<OhlcPoint>, w: seq<OhlcPoint>, t: Track, primary: string, ms: int, from: nat, cap: nat)
    requires t.index <= |t.data| && EndOf(w, full, cap)
    requires Unbounded(full, t, primary, from) && FirstShown(t, primary, ms, from)
    ensures ShowsLast(w, t, primary, ms, cap)
  {
    hide ShowsBar;
    var read := t.data[..t.index];
    forall i | 0 <= i < |w| ensures ShowsPlace(w[i], t, t.index - |w| + i, primary, ms) {
      var k := |full| - |w| + i;
      assert w[i] == full[k] && from + k == t.index - |w| + i;
      assert read[from + k] == t.data[from + k];
    }
    if |w| == |full| && |w| < t.index {
      assert read[from - 1] == t.data[from - 1];
    }
  }

  lemma WindowIs(rs: View, t: Track, primary: string, ms: int)
    requires t.index <= |t.data| && TimeOrdered(t.data) && PositiveBars(t.data)
    requires t.id == primary ==> t.index >= 1 && ms == Ms(t.data[0].ts)
    requires Shows(rs, t, primary, ms)
    ensures ShowsWindow(rs, t, primary, ms)
  {
    var from := FullAre(t, primary, ms);
    ShowsEnd(rs, t, primary, ms);
    hide Full, Shows, EndOf, Unbounded, FirstShown, ShowsLast, TimeOrdered, PositiveBars;
    WindowOf(Full(t, primary, ms), Per(rs, t.id), t, primary, ms, from, Capacity(t.id, primary, rs.maxLen));
  }

  /** The primary's bar fields are those of the last bar it has read; priming leaves no open time. */
  ghost predicate ShowsFields(rs: View, t: Track)
    requires 1 <= t.index <= |t.data|
  {
    var b := t.data[t.index - 1];
    && rs.open == b.open && rs.high == b.high && rs.low == b.low
    && rs.openTimeMs == if t.index == 1 then 0 else b.ts / 1_000_000
  }

  lemma PrimaryIsLive(m: Merge, ts: nat, ks: seq<nat>, kp: nat)
    requires Layout(m.tracks, m.primary, kp) && IsGroup(m.tracks, ts, ks)
    ensures kp in ks ==> Ms(m.tracks[kp].data[0].ts) <= Ms(ts)
  {
    if kp in ks {
      assert Due(m.tracks, ts, kp);
      MsMonotone(m.tracks[kp].data[0].ts, ts);
    }
  }

  lemma FieldsAfterGroup(m: Merge, ts: nat, ks: seq<nat>, kp: nat)
    requires Layout(m.tracks, m.primary, kp) && IsGroup(m.tracks, ts, ks) && ShowsFields(m.rs, m.tracks[kp])
    requires m.rs.tsMs <= Ms(ts) && |m.rs.history| == |m.rs.points|
    ensures var t := Deliver(m, ts, ks).tracks[kp];
            1 <= t.index <= |t.data| && ShowsFields(Deliver(m, ts, ks).rs, t)
  {
    hide Fold, EmitAll, Heads, GroupEvents, Push, BarPoint, TrackPushed;
    LiveGroup(m, ts, ks, kp);
  }

  lemma FieldsAfterStale(m: Merge, ts: nat, ks: seq<nat>, kp: nat)
    requires Layout(m.tracks, m.primary, kp) && IsGroup(m.tracks, ts, ks) && ShowsFields(m.rs, m.tracks[kp])
    requires Ms(ts) < m.rs.tsMs == Ms(m.tracks[kp].data[0].ts)
    ensures var t := Deliver(m, ts, ks).tracks[kp];
            1 <= t.index <= |t.data| && ShowsFields(Deliver(m, ts, ks).rs, t)
  {
    hide Fold, EmitAll, Heads, GroupEvents, NamedApart, AllOrdered;
    StaleGroup(m, ts, ks);
    PrimaryIsLive(m, ts, ks, kp);
  }

  lemma FieldsStep(m: Merge, kp: nat, primedMs: int)
    requires Refines(m, kp, primedMs) && ShowsFields(m.rs, m.tracks[kp])
    requires primedMs == Ms(m.tracks[kp].data[0].ts)
    ensures kp < |Advance(m).tracks| && 1 <= Advance(m).tracks[kp].index <= |Advance(m).tracks[kp].data|
    ensures ShowsFields(Advance(m).rs, Advance(m).tracks[kp])
  {
    assert Layout(m.tracks, m.primary, kp) && GlobalFollows(m.rs, m.primary);
    if Heads(m.tracks) == [] {
      AdvanceIdle(m);
    } else {
      var ts, ks := AdvanceGroup(m);
      ClockAfterGroup(m, ts, ks, kp, primedMs);
      hide Advance, Deliver, Refines, IsGroup, ShowsFields;
      if Ms(ts) < m.rs.tsMs {
        FieldsAfterStale(m, ts, ks, kp);
      } else {
        FieldsAfterGroup(m, ts, ks, kp);
      }
      assert |Deliver(m, ts, ks).tracks| == |m.tracks| by { DeliverSize(m, ts, ks); }
    }
  }

  lemma DeliverSize(m: Merge, ts: nat, ks: seq<nat>)
    requires AllPending(m.tracks, ks)
    ensures |Deliver(m, ts, ks).tracks| == |m.tracks|
  {
    hide Fold, GroupEvents, Heads;
  }

  /** What the engine shows after any number of advances from a load over accepted bars. */
  ghost predicate ShowsAll(s: Merge, kp: nat, primedMs: int) {
    && WellFormed(s.tracks) && kp < |s.tracks| && s.tracks[kp].index >= 1
    && (forall k :: 0 <= k < |s.tracks| ==> ShowsWindow(s.rs, s.tracks[k], s.primary, primedMs))
    && ShowsFields(s.rs, s.tracks[kp])
    && s.primary in s.rs.perIdOhlc && s.rs.ohlc == s.rs.perIdOhlc[s.primary]
    && |s.rs.history| == |s.rs.points| == |s.rs.ohlc|
    && forall i :: 0 <= i < |s.rs.ohlc| ==>
         && s.rs.history[i] == s.rs.ohlc[i].close
         && s.rs.points[i] == HistoryPoint(s.rs.ohlc[i].tsMs, s.rs.ohlc[i].close)
  }

  lemma FieldsAtLoad(m: Merge, kp: nat)
    requires JustLoaded(m, kp)
    ensures kp < |m.tracks| && 1 <= m.tracks[kp].index <= |m.tracks[kp].data| && ShowsFields(m.rs, m.tracks[kp])
  {
  }

  lemma LoadedRun(m: Merge, n: nat, kp: nat)
    requires JustLoaded(m, kp)
    ensures var s := AdvanceN(m, n);
            && Refines(s, kp, Ms(m.tracks[kp].data[0].ts)) && s.primary == m.primary
            && |s.tracks| == |m.tracks| && forall k :: 0 <= k < |m.tracks| ==> s.tracks[k].data == m.tracks[k].data
  {
    hide AdvanceN, Primed;
    WindowsAreSuffixes(m, n, kp);
    AdvanceKeepsTracks(m, n);
  }

  lemma {:induction false} FieldsFollow(m: Merge, n: nat, kp: nat)
    requires JustLoaded(m, kp)
    ensures var s := AdvanceN(m, n);
            kp < |s.tracks| && 1 <= s.tracks[kp].index <= |s.tracks[kp].data| && ShowsFields(s.rs, s.tracks[kp])
  {
    hide AdvanceN, Advance, ShowsFields, Refines, JustLoaded;
    FieldsAtLoad(m, kp);
    if n == 0 {
      AdvanceNone(m);
    } else {
      FieldsFollow(m, n - 1, kp);
      LoadedRun(m, n - 1, kp);
      AdvanceNext(m, n);
      FieldsStep(AdvanceN(m, n - 1), kp, Ms(m.tracks[kp].data[0].ts));
    }
  }

  lemma AdvanceNone(m: Merge)
    ensures AdvanceN(m, 0) == m
  {
  }

  lemma AdvanceNext(m: Merge, n: nat)
    requires n > 0
    ensures AdvanceN(m, n) == Advance(AdvanceN(m, n - 1))
  {
    hide Advance;
  }

  /**
   * After any number of advances from a load over accepted bars: every window holds the last bars
   * its instrument has read, and the global fields and windows are the primary's.
   */
  lemma WindowsShowBars(m: Merge, n: nat, kp: nat)
    requires JustLoaded(m, kp) && AllAccepted(m.tracks)
    ensures AdvanceN(m, n).primary == m.primary
    ensures ShowsAll(AdvanceN(m, n), kp, m.tracks[kp].data[0].ts / 1_000_000)
  {
    var s, ms := AdvanceN(m, n), Ms(m.tracks[kp].data[0].ts);
    LoadedRun(m, n, kp);
    FieldsFollow(m, n, kp);
    hide JustLoaded, Advance, AdvanceN, ShowsWindow, ShowsFields, AllAccepted, ShowsAll;
    RunShows(s, kp, ms, m.tracks);
  }

  lemma RunShows(s: Merge, kp: nat, ms: int, tracks: seq<Track>)
    requires Refines(s, kp, ms) && ms == Ms(s.tracks[kp].data[0].ts) && ShowsFields(s.rs, s.tracks[kp])
    requires AllAccepted(tracks) && |tracks| == |s.tracks|
    requires forall k :: 0 <= k < |tracks| ==> s.tracks[k].data == tracks[k].data
    ensures ShowsAll(s, kp, ms)
  {
    hide Shows, ShowsWindow, ShowsFields, AllAccepted, TimeOrdered, PositiveBars;
    forall k | 0 <= k < |s.tracks| ensures ShowsWindow(s.rs, s.tracks[k], s.primary, ms) {
      BarsAccepted(tracks, k);
      assert Shows(s.rs, s.tracks[k], s.primary, ms);
      assert k != kp ==> s.tracks[k].id != s.primary;
      WindowIs(s.rs, s.tracks[k], s.primary, ms);
    }
    assert Shows(s.rs, s.tracks[kp], s.primary, ms);
    PrimaryWindow(s.rs, s.tracks[kp], s.primary, ms);
  }

  lemma PrimaryWindow(rs: View, t: Track, primary: string, ms: int)
    requires t.index <= |t.data| && t.id == primary && t.index >= 1 && Shows(rs, t, primary, ms)
    ensures primary in rs.perIdOhlc
  {
  }

  lemma BarsAccepted(tracks: seq<Track>, k: nat)
    requires AllAccepted(tracks) && k < |tracks|
    ensures PositiveBars(tracks[k].data)
  {
  }

  // ── One provider ──

  /** What a live bar without an id does to the state. */
  lemma UntaggedBar(v: View, b: Bar)
    requires v.tsMs <= Ms(b.ts) && |v.history| == |v.points|
    ensures var r := Fold(v, BarEvents(b));
            && BarFields(r, b) && r.maxLen == v.maxLen
            && r.ohlc == Push(v.ohlc, BarPoint(b), v.maxLen)
            && r.history == Push(v.history, b.close, v.maxLen)
            && r.points == Push(v.points, HistoryPoint(Ms(b.ts), b.close), v.maxLen)
  {
    var clock, kline := ReplayTimeUpdated(Ms(b.ts)), Kline("", b);
    assert BarEvents(b) == [clock] + [kline];
    FoldConcat(v, [clock], [kline]);
    FoldOne(v, clock);
    FoldOne(Reduce(v, clock), kline);
  }

  /** One more bar read, at or after the primed time, slides a window on. */
  lemma WindowNext(w: seq<OhlcPoint>, t: Track, ms: int, cap: nat)
    requires Pending(t) && t.index >= 1 && ShowsLast(w, t, t.id, ms, if cap == 0 then 1 else cap) && w != []
    requires Accepted(t.data[t.index]) && Ms(t.data[t.index].ts) >= ms
    ensures ShowsLast(Push(w, BarPoint(t.data[t.index]), cap), t.(index := t.index + 1), t.id, ms,
                      if cap == 0 then 1 else cap)
    ensures |Push(w, BarPoint(t.data[t.index]), cap)| >= 1
  {
    var b, u := t.data[t.index], t.(index := t.index + 1);
    AcceptedPoint(b);
    var p, top := BarPoint(b), if cap == 0 then 1 else cap;
    var r := Push(w, p, cap);
    assert |w| <= top && |r| == if |w| < top then |w| + 1 else |w|;
    FillsNext(|w|, t, ms, top);
    hide ShowsBar, BarPoint, Fills, Push;
    assert |r| <= u.index;
    assert forall i :: 0 <= i < |r| - 1 ==> r[i] == w[i + |w| + 1 - |r|] by { PushKeeps(w, p, cap); }
    assert r[|r| - 1] == p by { PushKeeps(w, p, cap); }
    forall i | 0 <= i < |r| ensures ShowsPlace(r[i], u, u.index - |r| + i, t.id, ms) {
      if i < |r| - 1 {
        var k := i + |w| + 1 - |r|;
        assert r[i] == w[k] && t.index - |w| + k == u.index - |r| + i;
      }
    }
  }

  lemma PushKeeps<T>(w: seq<T>, p: T, cap: nat)
    requires w != []
    ensures var r := Push(w, p, cap);
            |w| <= |r| <= |w| + 1 && r[|r| - 1] == p && forall i :: 0 <= i < |r| - 1 ==> r[i] == w[i + |w| + 1 - |r|]
  {
  }

  lemma FillsNext(size: nat, t: Track, ms: int, cap: nat)
    requires Pending(t) && Fills(size, t, ms, cap)
    ensures Fills(if size < cap then size + 1 else size, t.(index := t.index + 1), ms, cap)
  {
    if size < cap {
      assert t.index + 1 - (size + 1) - 1 == t.index - size - 1;
    }
  }

  /** What a provider held alone shows: the same as the primary of several. */
  ghost predicate ShowsAlone(s: Single, cap: nat)
    requires 1 <= s.index <= |s.data|
  {
    && s.rs.maxLen == cap && ShowsFields(s.rs, Track("", s.data, s.index))
    && ShowsLast(s.rs.ohlc, Track("", s.data, s.index), "", s.data[0].ts / 1_000_000, if cap == 0 then 1 else cap)
    && |s.rs.history| == |s.rs.points| == |s.rs.ohlc| >= 1
    && forall i :: 0 <= i < |s.rs.ohlc| ==>
         && s.rs.history[i] == s.rs.ohlc[i].close
         && s.rs.points[i] == HistoryPoint(s.rs.ohlc[i].tsMs, s.rs.ohlc[i].close)
  }

  lemma AloneNext(s: Single, cap: nat)
    requires 1 <= s.index < |s.data| && ShowsAlone(s, cap)
    requires TimeOrdered(s.data) && PositiveBars(s.data) && s.rs.tsMs == Ms(s.data[s.index - 1].ts)
    ensures ShowsAlone(AdvanceSingle(s), cap)
  {
    var b, t := s.data[s.index], Track("", s.data, s.index);
    assert b in s.data;
    MsMonotone(s.data[s.index - 1].ts, b.ts);
    MsMonotone(s.data[0].ts, b.ts);
    UntaggedBar(s.rs, b);
    WindowNext(s.rs.ohlc, t, Ms(s.data[0].ts), cap);
    PointFields(b);
    hide Fold, ShowsLast, BarPoint, BarEvents, TimeOrdered, PositiveBars, Accepted;
  }

  lemma AlonePrimed(data: seq<Bar>, cap: nat, log: seq<Event>)
    requires data != [] && Accepted(data[0])
    ensures ShowsAlone(PrimedSingle(data, cap, log), cap)
  {
    AcceptedPoint(data[0]);
    hide ShowsBar;
  }

  /** After priming one provider of ordered, accepted bars and any number of advances: the last bars read. */
  lemma {:induction false} AloneShowsBars(data: seq<Bar>, cap: nat, log: seq<Event>, j: nat)
    requires data != [] && TimeOrdered(data) && PositiveBars(data)
    ensures var s := AdvanceSingleN(PrimedSingle(data, cap, log), j);
            && s.data == data && s.index == (if 1 + j <= |data| then 1 + j else |data|)
            && s.rs.price == data[s.index - 1].close && s.rs.tsMs == data[s.index - 1].ts / 1_000_000
            && ShowsAlone(s, cap)
  {
    hide AdvanceSingle, AdvanceSingleN, PrimedSingle, ShowsAlone, TimeOrdered, PositiveBars, RoundTrips;
    PrimedReads(data, cap, log, j);
    if j == 0 {
      PrefixOrdered(data, 0);
      AlonePrimed(data, cap, log);
      AdvanceSingleNone(PrimedSingle(data, cap, log));
    } else {
      AloneShowsBars(data, cap, log, j - 1);
      PrimedReads(data, cap, log, j - 1);
      AdvanceSingleNext(PrimedSingle(data, cap, log), j);
      var s := AdvanceSingleN(PrimedSingle(data, cap, log), j - 1);
      if s.index < |data| {
        AloneNext(s, cap);
      } else {
        AloneDone(s, cap);
      }
    }
  }

  /** The single provider's log: a clock event and an untagged update for each bar read since priming. */
  ghost predicate LogsAlone(s: Single, log: seq<Event>) {
    && 1 <= s.index <= |s.data| && |s.log| == |log| + 2 * (s.index - 1) && log <= s.log
    && forall i :: 1 <= i < s.index ==>
         && s.log[|log| + 2 * i - 2] == ReplayTimeUpdated(s.data[i].ts / 1_000_000)
         && IsUpdate(s.log[|log| + 2 * i - 1], "", s.data[i])
  }

  /** The single-provider path logs every bar it reads, in order, and is exhausted exactly at the end. */
  lemma {:induction false} AloneLogs(data: seq<Bar>, cap: nat, log: seq<Event>, j: nat)
    requires data != []
    ensures var s := AdvanceSingleN(PrimedSingle(data, cap, log), j);
            && s.data == data && (s.exhausted <==> s.index == |data|) && LogsAlone(s, log)
  {
    if j > 0 {
      AloneLogs(data, cap, log, j - 1);
      AloneLogsOn(AdvanceSingleN(PrimedSingle(data, cap, log), j - 1), log);
      hide AdvanceSingle, LogsAlone, PrimedSingle;
    }
  }

  lemma AloneLogsOn(s: Single, log: seq<Event>)
    requires LogsAlone(s, log) && (s.exhausted <==> s.index == |s.data|)
    ensures var r := AdvanceSingle(s);
            r.data == s.data && (r.exhausted <==> r.index == |r.data|) && LogsAlone(r, log)
  {
    hide Fold;
  }

  lemma AdvanceSingleNone(s: Single)
    ensures AdvanceSingleN(s, 0) == s
  {
  }

  lemma AdvanceSingleNext(s: Single, n: nat)
    requires n > 0
    ensures AdvanceSingleN(s, n) == AdvanceSingle(AdvanceSingleN(s, n - 1))
  {
    hide AdvanceSingle;
  }

  lemma AloneDone(s: Single, cap: nat)
    requires s.index == |s.data| >= 1 && ShowsAlone(s, cap)
    ensures ShowsAlone(AdvanceSingle(s), cap)
  {
  }

  // ── Restoring ──

  /** What a snapshot leaves out is filled in: bar prices by its price, times by its time, points a second apart. */
  lemma RestoreFillsIn(v: View, s: Snapshot)
    ensures var r := Restored(v, s);
            && r.price == s.price && r.tsMs == s.tsMs && r.history == s.history && r.ohlc == s.ohlc
            && r.perIdClose == v.perIdClose && r.perIdOhlc == v.perIdOhlc && r.maxLen == v.maxLen
            && r.open == (if s.open == None || s.open == Some(0.0) then s.price else s.open.value)
            && r.high == (if s.high == None || s.high == Some(0.0) then s.price else s.high.value)
            && r.low == (if s.low == None || s.low == Some(0.0) then s.price else s.low.value)
            && r.openTimeMs == (if s.openTimeMs == None || s.openTimeMs == Some(0) then s.tsMs else s.openTimeMs.value)
    ensures var points := Restored(v, s).points;
            if s.points != [] then points == s.points
            else
              && |points| == |s.history|
              && (points != [] ==> points[|points| - 1].tsMs == s.tsMs)
              && (forall i :: 0 <= i < |points| ==> points[i].price == s.history[i])
              && forall i :: 0 < i < |points| ==> points[i].tsMs == points[i - 1].tsMs + 1000
  {
  }
}
