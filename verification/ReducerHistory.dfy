/** What a reducer state shows, read off the events it was given. */
module ReducerHistory {
  import opened Wrappers
  import opened ReplayReducer

  // ── The events that count ──

  /** The events not behind the clock when they came: neither before `clock` nor before an earlier event. */
  function Live(clock: int, es: seq<Event>): seq<Event> {
    if es == [] then []
    else
      var init, e := es[..|es| - 1], es[|es| - 1];
      if e.tsMs >= clock && forall j :: 0 <= j < |init| ==> init[j].tsMs <= e.tsMs then Live(clock, init) + [e]
      else Live(clock, init)
  }

  /** Those that carry a price. */
  function Priced(es: seq<Event>): (r: seq<Event>)
    ensures forall e :: e in r ==> !e.ReplayTimeUpdated?
  {
    if es == [] then []
    else
      var rest := Priced(es[..|es| - 1]);
      if es[|es| - 1].ReplayTimeUpdated? then rest else rest + [es[|es| - 1]]
  }

  /** Of those, the ones for an instrument; the empty id is that of the global windows. */
  function About(es: seq<Event>, id: string): (r: seq<Event>)
    requires forall e :: e in es ==> !e.ReplayTimeUpdated?
    ensures forall e :: e in r ==> !e.ReplayTimeUpdated? && e.instrumentId == id
  {
    if es == [] then []
    else
      var rest := About(es[..|es| - 1], id);
      if es[|es| - 1].instrumentId == id then rest + [es[|es| - 1]] else rest
  }

  /** Of those, the bars. */
  function Bars(es: seq<Event>): (r: seq<Event>)
    ensures forall e :: e in r ==> e.KlineUpdate? && e in es
  {
    if es == [] then []
    else
      var rest := Bars(es[..|es| - 1]);
      if es[|es| - 1].KlineUpdate? then rest + [es[|es| - 1]] else rest
  }

  lemma Prefix(es: seq<Event>, e: Event)
    ensures (es + [e])[..|es + [e]| - 1] == es && (es + [e])[|es + [e]| - 1] == e
  {
  }

  // ── Windows ──

  /** The size of a window after so many additions. */
  function Grown(size: nat, added: nat, cap: nat): nat {
    if size + added <= cap then size + added else if size <= cap then cap else size
  }

  /** The end of `before` with `added` put after it, as long as the window may be. */
  ghost predicate Slides<T>(before: seq<T>, after: seq<T>, added: seq<T>, cap: nat) {
    && |after| == Grown(|before|, |added|, cap)
    && after == (before + added)[|before| + |added| - |after|..]
  }

  lemma SlidesOn<T>(before: seq<T>, after: seq<T>, added: seq<T>, x: T, cap: nat)
    requires Slides(before, after, added, cap)
    ensures Slides(before, Push(after, x, cap), added + [x], cap)
  {
    var all := before + added;
    assert before + (added + [x]) == all + [x];
    assert after + [x] == (all + [x])[|all| - |after|..];
  }

  lemma SlidesNowhere<T>(before: seq<T>, cap: nat)
    ensures Slides(before, before, [], cap)
  {
  }

  /** The points of some bars, field by field; a price that is not positive gives way to the close. */
  ghost predicate Drawn(points: seq<OhlcPoint>, bars: seq<Event>) {
    && |points| == |bars|
    && forall k :: 0 <= k < |bars| ==>
         var e := bars[k];
         e.KlineUpdate? && points[k] == OhlcPoint(
           e.tsMs, if e.openTimeMs > 0 then e.openTimeMs else e.tsMs,
           if e.open > 0.0 then e.open else e.close, if e.high > 0.0 then e.high else e.close,
           if e.low > 0.0 then e.low else e.close, e.close, Some(e.volume))
  }

  predicate IsPrice(price: real, e: Event) {
    !e.ReplayTimeUpdated? && price == if e.KlineUpdate? then e.close else e.price
  }

  ghost predicate Prices(prices: seq<real>, es: seq<Event>) {
    |prices| == |es| && forall k :: 0 <= k < |es| ==> IsPrice(prices[k], es[k])
  }

  // ── What a state shows of the live events ──

  /** Clock, shared price and capacity. */
  ghost predicate ReadsClock(s: View, r: View, live: seq<Event>) {
    var priced := Priced(live);
    && r.maxLen == s.maxLen
    && r.tsMs == (if live == [] then s.tsMs else live[|live| - 1].tsMs)
    && if priced == [] then r.price == s.price else IsPrice(r.price, priced[|priced| - 1])
  }

  /** The bar fields are those of the last global bar. */
  ghost predicate ReadsBar(s: View, r: View, live: seq<Event>) {
    var bars := Bars(About(Priced(live), ""));
    if bars == [] then
      r.open == s.open && r.high == s.high && r.low == s.low && r.openTimeMs == s.openTimeMs
    else
      var e := bars[|bars| - 1];
      r.open == e.open && r.high == e.high && r.low == e.low && r.openTimeMs == e.openTimeMs
  }

  /** A window of points takes in the points of some bars. */
  ghost predicate TakesBars(before: seq<OhlcPoint>, after: seq<OhlcPoint>, bars: seq<Event>, cap: nat) {
    exists points :: Drawn(points, bars) && Slides(before, after, points, cap)
  }

  /** A list of closes takes in the prices of some updates. */
  ghost predicate TakesPrices(before: seq<real>, after: seq<real>, updates: seq<Event>, cap: nat) {
    exists prices :: Prices(prices, updates) && Slides(before, after, prices, cap)
  }

  /** A list of history points takes in their times and prices. */
  ghost predicate TakesPoints(before: seq<HistoryPoint>, after: seq<HistoryPoint>, updates: seq<Event>, cap: nat) {
    exists points: seq<HistoryPoint> ::
      Prices(Closes(points), updates) && Times(points, updates) && Slides(before, after, points, cap)
  }

  /** The global windows take in the global updates; the history points follow the closes. */
  ghost predicate ReadsGlobal(s: View, r: View, live: seq<Event>) {
    var updates := About(Priced(live), "");
    && TakesBars(s.ohlc, r.ohlc, Bars(updates), s.maxLen)
    && TakesPrices(s.history, r.history, updates, s.maxLen)
    && (|s.points| == |s.history| ==>
          |r.points| == |r.history| && TakesPoints(s.points, r.points, updates, s.maxLen))
  }

  function Closes(points: seq<HistoryPoint>): (r: seq<real>)
    ensures |r| == |points|
  {
    seq(|points|, k requires 0 <= k < |points| => points[k].price)
  }

  ghost predicate Times(points: seq<HistoryPoint>, es: seq<Event>) {
    |points| == |es| && forall k :: 0 <= k < |es| ==> points[k].tsMs == es[k].tsMs
  }

  /** An instrument's close and window take in the updates under its id. */
  ghost predicate ReadsInstrument(s: View, r: View, live: seq<Event>, id: string) {
    var updates := About(Priced(live), id);
    && (if updates == [] then
          (id in r.perIdClose <==> id in s.perIdClose) && (id in s.perIdClose ==> r.perIdClose[id] == s.perIdClose[id])
        else id in r.perIdClose && IsPrice(r.perIdClose[id], updates[|updates| - 1]))
    && TakesBars(Per(s, id), Per(r, id), Bars(updates), s.maxLen)
  }

  ghost predicate Reads(s: View, r: View, live: seq<Event>) {
    && ReadsClock(s, r, live) && ReadsBar(s, r, live) && ReadsGlobal(s, r, live)
    && forall id: string :: id != "" ==> ReadsInstrument(s, r, live, id)
  }

  // ── One more event ──

  lemma PricedNext(live: seq<Event>, e: Event)
    ensures Priced(live + [e]) == if e.ReplayTimeUpdated? then Priced(live) else Priced(live) + [e]
  {
    Prefix(live, e);
  }

  lemma UpdatesNext(live: seq<Event>, e: Event, id: string)
    ensures var (before, after) := (About(Priced(live), id), About(Priced(live + [e]), id));
            if !e.ReplayTimeUpdated? && e.instrumentId == id then
              after == before + [e] && Bars(after) == if e.KlineUpdate? then Bars(before) + [e] else Bars(before)
            else after == before
  {
    PricedNext(live, e);
    Prefix(Priced(live), e);
    Prefix(About(Priced(live), id), e);
    hide Priced;
  }

  lemma DrawnNext(points: seq<OhlcPoint>, bars: seq<Event>, e: Event)
    requires Drawn(points, bars) && e.KlineUpdate?
    ensures Drawn(points + [PointOf(e)], bars + [e])
  {
  }

  lemma PricesNext(prices: seq<real>, es: seq<Event>, e: Event)
    requires Prices(prices, es) && !e.ReplayTimeUpdated?
    ensures Prices(prices + [PriceOf(e)], es + [e])
  {
  }

  lemma ClockNext(s: View, r: View, live: seq<Event>, e: Event)
    requires ReadsClock(s, r, live) && r.tsMs <= e.tsMs
    ensures ReadsClock(s, Reduce(r, e), live + [e])
  {
    PricedNext(live, e);
    hide Priced;
  }

  lemma BarNext(s: View, r: View, live: seq<Event>, e: Event)
    requires ReadsBar(s, r, live) && r.tsMs <= e.tsMs
    ensures ReadsBar(s, Reduce(r, e), live + [e])
  {
    UpdatesNext(live, e, "");
    hide Bars, About, Priced;
  }

  lemma TakesBar(before: seq<OhlcPoint>, after: seq<OhlcPoint>, bars: seq<Event>, e: Event, cap: nat)
    requires TakesBars(before, after, bars, cap) && e.KlineUpdate?
    ensures TakesBars(before, Push(after, PointOf(e), cap), bars + [e], cap)
  {
    hide Push, PointOf, Drawn, Slides;
    var points :| Drawn(points, bars) && Slides(before, after, points, cap);
    DrawnNext(points, bars, e);
    SlidesOn(before, after, points, PointOf(e), cap);
  }

  lemma TakesPrice(before: seq<real>, after: seq<real>, updates: seq<Event>, e: Event, cap: nat)
    requires TakesPrices(before, after, updates, cap) && !e.ReplayTimeUpdated?
    ensures TakesPrices(before, Push(after, PriceOf(e), cap), updates + [e], cap)
  {
    hide Push, PriceOf, Prices, Slides;
    var prices :| Prices(prices, updates) && Slides(before, after, prices, cap);
    PricesNext(prices, updates, e);
    SlidesOn(before, after, prices, PriceOf(e), cap);
  }

  lemma TakesPoint(before: seq<HistoryPoint>, after: seq<HistoryPoint>, updates: seq<Event>, e: Event, cap: nat)
    requires TakesPoints(before, after, updates, cap) && !e.ReplayTimeUpdated?
    ensures TakesPoints(before, Push(after, HistoryPoint(e.tsMs, PriceOf(e)), cap), updates + [e], cap)
  {
    hide Push, Slides;
    var p := HistoryPoint(e.tsMs, PriceOf(e));
    var points: seq<HistoryPoint> :|
      Prices(Closes(points), updates) && Times(points, updates) && Slides(before, after, points, cap);
    SlidesOn(before, after, points, p, cap);
    assert Closes(points + [p]) == Closes(points) + [PriceOf(e)];
    PricesNext(Closes(points), updates, e);
    assert Times(points + [p], updates + [e]);
  }

  /** The history points lose their oldest together with the history. */
  lemma PointsPushed(r: View, e: Event)
    requires !e.ReplayTimeUpdated? && e.instrumentId == "" && r.tsMs <= e.tsMs && |r.points| == |r.history|
    ensures Reduce(r, e).points == Push(r.points, HistoryPoint(e.tsMs, PriceOf(e)), r.maxLen)
    ensures |Reduce(r, e).points| == |Reduce(r, e).history|
  {
  }

  lemma GlobalNext(s: View, r: View, live: seq<Event>, e: Event)
    requires ReadsGlobal(s, r, live) && r.tsMs <= e.tsMs && r.maxLen == s.maxLen
    ensures ReadsGlobal(s, Reduce(r, e), live + [e])
  {
    UpdatesNext(live, e, "");
    var updates := About(Priced(live), "");
    hide Push, PointOf, PriceOf, Bars, About, Priced, TakesBars, TakesPrices, TakesPoints;
    if !e.ReplayTimeUpdated? && e.instrumentId == "" {
      if e.KlineUpdate? {
        TakesBar(s.ohlc, r.ohlc, Bars(updates), e, s.maxLen);
      }
      TakesPrice(s.history, r.history, updates, e, s.maxLen);
      if |s.points| == |s.history| {
        PointsPushed(r, e);
        TakesPoint(s.points, r.points, updates, e, s.maxLen);
      }
    }
  }

  /** What one event does to an instrument's close and window. */
  lemma InstrumentReduced(r: View, e: Event, id: string)
    requires r.tsMs <= e.tsMs && id != ""
    ensures var next := Reduce(r, e);
            if !e.ReplayTimeUpdated? && e.instrumentId == id then
              && id in next.perIdClose && next.perIdClose[id] == PriceOf(e)
              && Per(next, id) == if e.KlineUpdate? then Push(Per(r, id), PointOf(e), r.maxLen) else Per(r, id)
            else
              && (id in next.perIdClose <==> id in r.perIdClose)
              && (id in r.perIdClose ==> next.perIdClose[id] == r.perIdClose[id])
              && Per(next, id) == Per(r, id)
  {
    hide Push, PointOf;
  }

  lemma InstrumentNext(s: View, r: View, live: seq<Event>, e: Event, id: string)
    requires ReadsInstrument(s, r, live, id) && r.tsMs <= e.tsMs && r.maxLen == s.maxLen && id != ""
    ensures ReadsInstrument(s, Reduce(r, e), live + [e], id)
  {
    UpdatesNext(live, e, id);
    var updates := About(Priced(live), id);
    InstrumentReduced(r, e, id);
    hide Reduce, Push, PointOf, Bars, About, Priced, TakesBars, Per;
    if e.KlineUpdate? && e.instrumentId == id {
      TakesBar(Per(s, id), Per(r, id), Bars(updates), e, s.maxLen);
    }
  }

  lemma ReadsNothing(s: View)
    ensures Reads(s, s, [])
  {
    SlidesNowhere(s.ohlc, s.maxLen);
    SlidesNowhere(s.history, s.maxLen);
    SlidesNowhere(s.points, s.maxLen);
    assert Drawn([], []) && Prices([], []) && Closes([]) == [] && Times([], []);
    forall id: string | id != "" ensures ReadsInstrument(s, s, [], id) {
      SlidesNowhere(Per(s, id), s.maxLen);
    }
  }

  lemma ReadsNext(s: View, r: View, live: seq<Event>, e: Event)
    requires Reads(s, r, live) && r.tsMs <= e.tsMs
    ensures Reads(s, Reduce(r, e), live + [e])
  {
    assert r.maxLen == s.maxLen;
    ClockNext(s, r, live, e);
    BarNext(s, r, live, e);
    GlobalNext(s, r, live, e);
    hide ReadsClock, ReadsBar, ReadsGlobal, ReadsInstrument, Reduce;
    forall id: string | id != "" ensures ReadsInstrument(s, Reduce(r, e), live + [e], id) {
      InstrumentNext(s, r, live, e, id);
    }
  }

  /** The clock is the latest time heard of. */
  lemma {:induction false} ClockIsLatest(s: View, es: seq<Event>)
    ensures s.tsMs <= Fold(s, es).tsMs && forall e :: e in es ==> e.tsMs <= Fold(s, es).tsMs
    ensures Fold(s, es).tsMs == s.tsMs || exists e :: e in es && e.tsMs == Fold(s, es).tsMs
  {
    if es != [] {
      ClockIsLatest(s, es[..|es| - 1]);
      assert es == es[..|es| - 1] + [es[|es| - 1]];
      assert es[|es| - 1] in es;
    }
  }

  /**
   * From any state and over any events, stale ones included: clock, shared price, bar fields, global
   * windows and every instrument's close and window are read off the live events.
   */
  lemma {:induction false} ReducerReads(s: View, es: seq<Event>)
    ensures Reads(s, Fold(s, es), Live(s.tsMs, es))
  {
    hide Reads, Reduce;
    if es == [] {
      ReadsNothing(s);
    } else {
      var init, e := es[..|es| - 1], es[|es| - 1];
      ReducerReads(s, init);
      ClockIsLatest(s, init);
      var r := Fold(s, init);
      assert forall j :: 0 <= j < |init| ==> init[j] in init;
      if e.tsMs >= r.tsMs {
        ReadsNext(s, r, Live(s.tsMs, init), e);
      } else {
        StaleIgnored(r, e);
      }
    }
  }

  lemma StaleIgnored(r: View, e: Event)
    requires e.tsMs < r.tsMs
    ensures Reduce(r, e) == r
  {
  }
}
