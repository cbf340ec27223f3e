/** Replay events, and the reducer that folds them into bounded windows. */
module ReplayReducer {
  import opened Wrappers

  /** One bar; times are nanoseconds. */
  datatype Bar = Bar(ts: nat, open: real, high: real, low: real, close: real, volume: real)

  function Ms(ts: nat): nat {
    ts / 1_000_000
  }

  /** A bar the point models accept: a positive time and positive prices. */
  predicate Accepted(b: Bar) {
    Ms(b.ts) > 0 && b.open > 0.0 && b.high > 0.0 && b.low > 0.0 && b.close > 0.0
  }

  datatype HistoryPoint = HistoryPoint(tsMs: int, price: real)

  datatype OhlcPoint = OhlcPoint(
    tsMs: int, openTimeMs: int, open: real, high: real, low: real, close: real, volume: Option<real>)

  datatype Event =
    | ReplayTimeUpdated(tsMs: int)
    | KlineUpdate(tsMs: int, close: real, open: real, high: real, low: real,
                  openTimeMs: int, instrumentId: string, volume: real)
    | TradeUpdate(tsMs: int, price: real, instrumentId: string)

  /** The value of a reducer state. */
  datatype View = View(
    tsMs: int, price: real, open: real, high: real, low: real, openTimeMs: int,
    history: seq<real>, points: seq<HistoryPoint>, ohlc: seq<OhlcPoint>, maxLen: nat,
    perIdClose: map<string, real>, perIdOhlc: map<string, seq<OhlcPoint>>)

  function Positive(x: real, otherwise: real): real {
    if x > 0.0 then x else otherwise
  }

  function PointOf(e: Event): OhlcPoint
    requires e.KlineUpdate?
  {
    OhlcPoint(e.tsMs, if e.openTimeMs > 0 then e.openTimeMs else e.tsMs,
              Positive(e.open, e.close), Positive(e.high, e.close), Positive(e.low, e.close),
              e.close, Some(e.volume))
  }

  /** Append, then drop the oldest element if the window overflows. */
  function Push<T>(window: seq<T>, x: T, cap: nat): seq<T> {
    if |window| + 1 > cap then (window + [x])[1..] else window + [x]
  }

  function PriceOf(e: Event): real
    requires !e.ReplayTimeUpdated?
  {
    if e.KlineUpdate? then e.close else e.price
  }

  /** The window kept for one instrument; empty when it has none. */
  function Per(s: View, id: string): seq<OhlcPoint> {
    if id in s.perIdOhlc then s.perIdOhlc[id] else []
  }

  function Reduce(s: View, e: Event): View {
    if e.tsMs < s.tsMs then s
    else if e.ReplayTimeUpdated? then s.(tsMs := e.tsMs)
    else if e.instrumentId != "" then ReduceTagged(s, e)
    else ReduceGlobal(s, e)
  }

  /** An event with an instrument id: that instrument's close and window, and the shared price. */
  function ReduceTagged(s: View, e: Event): View
    requires !e.ReplayTimeUpdated?
  {
    s.(tsMs := e.tsMs, price := PriceOf(e), perIdClose := s.perIdClose[e.instrumentId := PriceOf(e)],
       perIdOhlc := if e.TradeUpdate? then s.perIdOhlc
                    else s.perIdOhlc[e.instrumentId := Push(Per(s, e.instrumentId), PointOf(e), s.maxLen)])
  }

  /** An event without one: the global bar fields and windows. */
  function ReduceGlobal(s: View, e: Event): View
    requires !e.ReplayTimeUpdated?
  {
    var bar := if e.TradeUpdate? then s
               else s.(open := e.open, high := e.high, low := e.low, openTimeMs := e.openTimeMs,
                       ohlc := Push(s.ohlc, PointOf(e), s.maxLen));
    var full := |s.history| + 1 > s.maxLen;
    bar.(tsMs := e.tsMs, price := PriceOf(e),
         history := Push(s.history, PriceOf(e), s.maxLen),
         points := var grown := s.points + [HistoryPoint(e.tsMs, PriceOf(e))];
                   if full then grown[1..] else grown)
  }

  function Fold(s: View, events: seq<Event>): View {
    if events == [] then s
    else Reduce(Fold(s, events[..|events| - 1]), events[|events| - 1])
  }

  lemma {:induction false} FoldConcat(s: View, a: seq<Event>, b: seq<Event>)
    ensures Fold(s, a + b) == Fold(Fold(s, a), b)
  {
    if b == [] {
      assert a + b == a;
    } else {
      FoldConcat(s, a, b[..|b| - 1]);
      assert (a + b)[..|a + b| - 1] == a + b[..|b| - 1];
    }
  }

  /** Stale events leave no trace. */
  lemma {:induction false} FoldStale(s: View, events: seq<Event>)
    requires forall e :: e in events ==> e.tsMs < s.tsMs
    ensures Fold(s, events) == s
  {
    if events != [] {
      FoldStale(s, events[..|events| - 1]);
    }
  }

  /** The reducer state proper, mutated in place. */
  class ReducerState {
    var tsMs: int
    var price: real
    var open: real
    var high: real
    var low: real
    var openTimeMs: int
    var history: seq<real>
    var points: seq<HistoryPoint>
    var ohlc: seq<OhlcPoint>
    const maxLen: nat
    var perIdClose: map<string, real>
    var perIdOhlc: map<string, seq<OhlcPoint>>

    ghost function Value(): View reads this {
      View(tsMs, price, open, high, low, openTimeMs, history, points, ohlc, maxLen, perIdClose, perIdOhlc)
    }

    constructor (v: View)
      ensures Value() == v
    {
      tsMs, price, open, high, low, openTimeMs := v.tsMs, v.price, v.open, v.high, v.low, v.openTimeMs;
      history, points, ohlc, maxLen := v.history, v.points, v.ohlc, v.maxLen;
      perIdClose, perIdOhlc := v.perIdClose, v.perIdOhlc;
    }

    method ApplyEvent(e: Event)
      modifies this
      ensures Value() == Reduce(old(Value()), e)
    {
      hide Positive, Push;
      if e.ReplayTimeUpdated? {
        if e.tsMs >= tsMs {
          tsMs := e.tsMs;
        }
        return;
      }
      if e.tsMs < tsMs {
        return;
      }
      var px := if e.KlineUpdate? then e.close else e.price;
      var iid := e.instrumentId;
      tsMs, price := e.tsMs, px;
      if iid != "" {
        perIdClose := perIdClose[iid := px];
        if e.KlineUpdate? {
          AppendPerId(iid, PointOf(e));
        }
      } else {
        if e.KlineUpdate? {
          open, high, low, openTimeMs := e.open, e.high, e.low, e.openTimeMs;
          AppendGlobal(PointOf(e));
        }
        AppendHistory(e.tsMs, px);
      }
    }

    method AppendGlobal(p: OhlcPoint)
      modifies this`ohlc
      ensures ohlc == Push(old(ohlc), p, maxLen)
    {
      ohlc := ohlc + [p];
      if |ohlc| > maxLen {
        ohlc := ohlc[1..];
      }
    }

    method AppendHistory(ts: int, px: real)
      modifies this`history, this`points
      ensures history == Push(old(history), px, maxLen)
      ensures var grown := old(points) + [HistoryPoint(ts, px)];
              points == if |old(history)| + 1 > maxLen then grown[1..] else grown
    {
      history := history + [px];
      points := points + [HistoryPoint(ts, px)];
      if |history| > maxLen {
        history, points := history[1..], points[1..];
      }
    }

    method AppendPerId(iid: string, p: OhlcPoint)
      modifies this`perIdOhlc
      ensures var pts := if iid in old(perIdOhlc) then old(perIdOhlc)[iid] else [];
              perIdOhlc == old(perIdOhlc)[iid := Push(pts, p, maxLen)]
    {
      var pts := if iid in perIdOhlc then perIdOhlc[iid] else [];
      pts := pts + [p];
      if |pts| > maxLen {
        pts := pts[1..];
      }
      perIdOhlc := perIdOhlc[iid := pts];
    }
  }

  // ── Windows ──

  /** The last `n` elements. */
  function LastN<T>(xs: seq<T>, n: nat): seq<T> {
    if |xs| <= n then xs else xs[|xs| - n..]
  }

  /** A capped push keeps a suffix of the unbounded log. With capacity 0 a primed window keeps one. */
  lemma PushLastN<T>(xs: seq<T>, x: T, cap: nat, n: nat)
    requires n == cap || (cap == 0 && n == 1 && xs != [])
    ensures Push(LastN(xs, n), x, cap) == LastN(xs + [x], n)
  {
  }
}
