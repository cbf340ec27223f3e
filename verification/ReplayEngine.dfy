/** The replay engine: providers, the merge loop, the replay controls, snapshot and restore. */
module ReplayEngine {
  import opened Wrappers
  import opened ReplayReducer
  import opened ReplayMerge
  import opened ReplayWindows
  import opened ReplayRewind
  import C = ReplayControl
  import P = ReplayPositions

  /** A bar list and a read position. */
  class BarProvider {
    const data: seq<Bar>
    /** `file_path`, for providers that have one. */
    const path: Option<string>
    var index: nat

    ghost predicate Valid() reads this {
      index <= |data|
    }

    constructor (data: seq<Bar>, path: Option<string>)
      ensures Valid() && this.data == data && this.path == path && index == 0
    {
      this.data, this.path, index := data, path, 0;
    }

    function PeekNextTick(): Option<Bar> reads this {
      if index < |data| then Some(data[index]) else None
    }

    method PopNextTick() returns (tick: Option<Bar>)
      requires Valid()
      modifies this
      ensures Valid()
      ensures tick == if old(index) < |data| then Some(data[old(index)]) else None
      ensures index == if old(index) < |data| then old(index) + 1 else old(index)
    {
      tick := None;
      if index < |data| {
        tick := Some(data[index]);
        index := index + 1;
      }
    }

    predicate IsExhausted() reads this {
      index >= |data|
    }

    method SetCurrentIndex(value: int)
      requires Valid()
      modifies this
      ensures Valid() && index as int == if 0 <= value <= |data| then value else old(index)
    {
      if 0 <= value <= |data| {
        index := value;
      }
    }
  }

  // ── Sorting the pending heads ──

  ghost predicate SortedByTime(heads: seq<Head>) {
    forall i, j :: 0 <= i < j < |heads| ==> heads[i].ts <= heads[j].ts
  }

  /** Equal times keep their order: at each time, the same positions in the same order. */
  ghost predicate StablySame(a: seq<Head>, b: seq<Head>) {
    |a| == |b| && forall ts: nat :: AtTime(a, ts) == AtTime(b, ts)
  }

  lemma {:induction false} AtTimeConcat(a: seq<Head>, b: seq<Head>, ts: nat)
    ensures AtTime(a + b, ts) == AtTime(a, ts) + AtTime(b, ts)
  {
    if b == [] {
      assert a + b == a;
    } else {
      AtTimeConcat(a, b[..|b| - 1], ts);
      assert (a + b)[..|a + b| - 1] == a + b[..|b| - 1];
    }
  }

  lemma {:induction false} AtTimeNone(heads: seq<Head>, ts: nat)
    requires forall h :: h in heads ==> h.ts != ts
    ensures AtTime(heads, ts) == []
  {
    if heads != [] {
      AtTimeNone(heads[..|heads| - 1], ts);
    }
  }

  /** Inserting `h` after every head not later than it commutes with `AtTime`. */
  lemma InsertIsStable(front: seq<Head>, back: seq<Head>, h: Head)
    requires forall x :: x in back ==> x.ts > h.ts
    ensures StablySame(front + [h] + back, front + back + [h])
  {
    forall ts: nat ensures AtTime(front + [h] + back, ts) == AtTime(front + back + [h], ts) {
      AtTimeConcat(front + [h], back, ts);
      AtTimeConcat(front, [h], ts);
      AtTimeConcat(front + back, [h], ts);
      AtTimeConcat(front, back, ts);
      assert [h][..0] == [];
      if h.ts == ts {
        AtTimeNone(back, ts);
      }
    }
  }

  /** The stable sort of the pending list by time. */
  method SortByTime(pending: seq<Head>) returns (sorted: seq<Head>)
    ensures SortedByTime(sorted) && StablySame(sorted, pending)
  {
    sorted := [];
    for n := 0 to |pending|
      invariant SortedByTime(sorted) && StablySame(sorted, pending[..n])
    {
      ghost var before := sorted;
      sorted := InsertByTime(sorted, pending[n]);
      StableAppend(before, pending[..n], pending[n]);
      assert pending[..n] + [pending[n]] == pending[..n + 1];
    }
    assert pending[..|pending|] == pending;
  }

  /** Places `h` behind every head that is not later. */
  method InsertByTime(sorted: seq<Head>, h: Head) returns (r: seq<Head>)
    requires SortedByTime(sorted)
    ensures SortedByTime(r) && StablySame(r, sorted + [h])
  {
    var i := |sorted|;
    while i > 0 && sorted[i - 1].ts > h.ts
      invariant 0 <= i <= |sorted|
      invariant forall j :: i <= j < |sorted| ==> sorted[j].ts > h.ts
    {
      i := i - 1;
    }
    r := sorted[..i] + [h] + sorted[i..];
    assert StablySame(r, sorted + [h]) by {
      hide SortedByTime;
      InsertIsStable(sorted[..i], sorted[i..], h);
      assert sorted[..i] + sorted[i..] == sorted;
    }
    SortedInsert(sorted, i, h);
  }

  lemma SortedInsert(sorted: seq<Head>, i: nat, h: Head)
    requires SortedByTime(sorted) && i <= |sorted|
    requires forall j :: i <= j < |sorted| ==> sorted[j].ts > h.ts
    requires i == 0 || sorted[i - 1].ts <= h.ts
    ensures SortedByTime(sorted[..i] + [h] + sorted[i..])
  {
  }

  lemma StableAppend(a: seq<Head>, b: seq<Head>, h: Head)
    requires StablySame(a, b)
    ensures StablySame(a + [h], b + [h])
  {
    forall ts: nat ensures AtTime(a + [h], ts) == AtTime(b + [h], ts) {
      AtTimeConcat(a, [h], ts);
      AtTimeConcat(b, [h], ts);
    }
  }

  lemma {:induction false} AtTimeFinds(heads: seq<Head>, ts: nat, k: nat)
    ensures k in AtTime(heads, ts) <==> Head(ts, k) in heads
  {
    if heads != [] {
      AtTimeFinds(heads[..|heads| - 1], ts, k);
      assert heads == heads[..|heads| - 1] + [heads[|heads| - 1]];
    }
  }

  /** The head of the sorted list carries the least time. */
  lemma SortedStartsAtMin(sorted: seq<Head>, heads: seq<Head>)
    requires SortedByTime(sorted) && StablySame(sorted, heads) && heads != []
    ensures sorted[0].ts == MinTime(heads)
  {
    var min := MinTime(heads);
    var h :| h in heads && h.ts == min;
    AtTimeFinds(heads, h.ts, h.k);
    AtTimeFinds(sorted, h.ts, h.k);
    AtTimeFinds(sorted, sorted[0].ts, sorted[0].k);
    AtTimeFinds(heads, sorted[0].ts, sorted[0].k);
    assert sorted[0] in sorted;
  }

  /** Walking the sorted list while the time is the first one visits exactly the group. */
  lemma GroupIsPrefix(sorted: seq<Head>, n: nat)
    requires SortedByTime(sorted) && 0 < n <= |sorted|
    requires forall i :: 0 <= i < n ==> sorted[i].ts == sorted[0].ts
    requires n == |sorted| || sorted[n].ts != sorted[0].ts
    ensures AtTime(sorted, sorted[0].ts) == AtTime(sorted[..n], sorted[0].ts)
  {
    AtTimeConcat(sorted[..n], sorted[n..], sorted[0].ts);
    assert sorted[..n] + sorted[n..] == sorted;
    AtTimeNone(sorted[n..], sorted[0].ts);
  }

  // ── Loading ──

  /** The keys of a dictionary filled in this order: first occurrences. */
  function Keys(ids: seq<string>): (keys: seq<string>)
    ensures forall id :: id in keys <==> id in ids
    ensures forall i, j :: 0 <= i < j < |keys| ==> keys[i] != keys[j]
    ensures ids != [] ==> keys != [] && keys[0] == ids[0]
  {
    if ids == [] then []
    else
      var init, last := ids[..|ids| - 1], ids[|ids| - 1];
      var keys := Keys(init);
      assert ids == init + [last];
      if last in keys then keys else keys + [last]
  }

  /** `at` lists, ascending, where the keys first occur. */
  ghost predicate FirstAt(ids: seq<string>, keys: seq<string>, at: seq<nat>) {
    && |at| == |keys|
    && (forall k :: 0 <= k < |at| ==> at[k] < |ids| && keys[k] == ids[at[k]])
    && (forall k, i :: 0 <= k < |at| && 0 <= i < at[k] && i < |ids| ==> ids[i] != keys[k])
    && forall k, l :: 0 <= k < l < |at| ==> at[k] < at[l]
  }

  /** The keys come in the order of their first occurrences. */
  lemma {:induction false} KeysInOrder(ids: seq<string>) returns (at: seq<nat>)
    ensures FirstAt(ids, Keys(ids), at)
  {
    if ids == [] {
      at := [];
    } else {
      var n := |ids| - 1;
      var before := KeysInOrder(ids[..n]);
      FirstAtNext(ids[..n], ids[n], Keys(ids[..n]), before);
      assert ids[..n] + [ids[n]] == ids;
      hide FirstAt;
      at := if ids[n] in Keys(ids[..n]) then before else before + [n];
    }
  }

  lemma FirstAtNext(ids: seq<string>, last: string, keys: seq<string>, at: seq<nat>)
    requires FirstAt(ids, keys, at) && forall id :: id in ids ==> id in keys
    ensures FirstAt(ids + [last], keys, at)
    ensures last !in keys ==> FirstAt(ids + [last], keys + [last], at + [|ids|])
  {
    assert forall i :: 0 <= i < |ids| ==> ids[i] in keys;
  }

  type Bars = map<string, seq<Bar>>

  /**
   * Where bars come from: a catalog, the direct loader, or nowhere. `stored` are the bars a catalog
   * holds for each id, and `fetched` those it holds after a fetch, where fetching is set up.
   */
  datatype Source =
    | Catalog(stored: Bars, fetched: Option<Bars>)
    | Direct(single: Option<seq<Bar>>)
    | NotConfigured

  /** Bars for an id; a provider without bars cannot be built. */
  predicate Available(bars: Bars, id: string) {
    id in bars && bars[id] != []
  }

  /** The bars a provider for an id ends up with: the stored ones, or fetched ones where there are none. */
  function BarsOf(stored: Bars, fetched: Option<Bars>, id: string): seq<Bar> {
    if Available(stored, id) then stored[id]
    else if fetched.Some? && id in fetched.value then fetched.value[id]
    else []
  }

  function EndBars(ids: seq<string>, stored: Bars, fetched: Option<Bars>): Bars {
    map id | id in ids :: BarsOf(stored, fetched, id)
  }

  predicate CanLoad(ids: seq<string>, source: Source, granularityOk: bool) {
    ids != [] && granularityOk &&
    match source
    case Catalog(stored, fetched) => forall id :: id in ids ==> BarsOf(stored, fetched, id) != []
    case Direct(single) => single.Some? && single.value != []
    case NotConfigured => false
  }

  /** The bar that priming shows. */
  function FirstBar(ids: seq<string>, source: Source): Bar
    requires CanLoad(ids, source, true)
  {
    match source
    case Catalog(stored, fetched) =>
      assert ids[0] in ids;
      BarsOf(stored, fetched, ids[0])[0]
    case Direct(single) => single.value[0]
  }

  /** What building the providers of a load comes to. */
  function BuildOf(ids: seq<string>, source: Source, granularityOk: bool): C.Build {
    if !CanLoad(ids, source, granularityOk) then C.Missing
    else if Accepted(FirstBar(ids, source)) then C.Ready
    else C.Rejected
  }

  /** When nothing can be built, and when what is built is rejected. */
  lemma BuildOutcomes(ids: seq<string>, source: Source, granularityOk: bool)
    ensures BuildOf(ids, source, granularityOk).Missing? <==>
            || ids == [] || !granularityOk || source.NotConfigured?
            || (source.Direct? && (source.single == None || source.single == Some([])))
            || (source.Catalog? && exists id :: id in ids && BarsOf(source.stored, source.fetched, id) == [])
    ensures !BuildOf(ids, source, granularityOk).Missing? ==>
              var bars := if source.Direct? then source.single.value
                          else BarsOf(source.stored, source.fetched, ids[0]);
              bars != [] && FirstBar(ids, source) == bars[0]
    ensures BuildOf(ids, source, granularityOk).Rejected? ==>
              var b := FirstBar(ids, source);
              b.ts < 1_000_000 || b.open <= 0.0 || b.high <= 0.0 || b.low <= 0.0 || b.close <= 0.0
    ensures BuildOf(ids, source, granularityOk).Ready? ==>
              var b := FirstBar(ids, source);
              b.ts >= 1_000_000 && b.open > 0.0 && b.high > 0.0 && b.low > 0.0 && b.close > 0.0
  {
    if !BuildOf(ids, source, granularityOk).Missing? {
      assert ids[0] in ids;
    }
    hide BarsOf;
  }

  /** Stored bars win; fetched ones stand in where an id has none. */
  lemma BarsAre(stored: Bars, fetched: Option<Bars>, id: string)
    ensures id in stored && stored[id] != [] ==> BarsOf(stored, fetched, id) == stored[id]
    ensures id !in stored || stored[id] == [] ==>
              BarsOf(stored, fetched, id)
              == if fetched.Some? && id in fetched.value then fetched.value[id] else []
  {
  }

  /** A load succeeds, is refused with a reason, or raises out of priming. */
  datatype LoadOutcome = Loaded | Refused | Raised

  datatype Entry = Entry(id: string, provider: BarProvider)

  ghost function TracksOf(entries: seq<Entry>): (r: seq<Track>)
    reads set e | e in entries :: e.provider
    ensures |r| == |entries|
    ensures forall k :: 0 <= k < |entries| ==>
              r[k] == Track(entries[k].id, entries[k].provider.data, entries[k].provider.index)
  {
    if entries == [] then []
    else
      var e := entries[|entries| - 1];
      TracksOf(entries[..|entries| - 1]) + [Track(e.id, e.provider.data, e.provider.index)]
  }

  // ── The engine ──

  class DataEngine {
    const maxLen: nat
    var mode: Mode
    var replayState: C.ReplayState
    var isRunning: bool
    var runGate: bool
    var provider: BarProvider?
    var providers: seq<Entry>
    var primaryId: string
    var rs: ReducerState
    var exhausted: bool
    var eventLog: seq<Event>

    ghost function Objects(): set<object> reads this`provider, this`providers {
      (set e | e in providers :: e.provider as object) + (if provider != null then {provider} else {})
    }

    ghost predicate Valid()
      reads this`provider, this`providers, this`mode, Objects()
    {
      && (provider != null ==> provider.Valid())
      && (forall e :: e in providers ==> e.provider.Valid())
      && (forall i, j :: 0 <= i < j < |providers| ==> providers[i].provider != providers[j].provider)
      && (providers != [] ==> providers[0].provider == provider)
      && (provider != null ==> mode == Replay)
    }

    ghost function Controls(): C.Control reads this {
      C.Control(replayState, isRunning, runGate, provider != null)
    }

    ghost function Tracks(): (r: seq<Track>)
      reads this`provider, this`providers, Objects()
      ensures |r| == |providers|
      ensures forall k :: 0 <= k < |providers| ==>
                r[k] == Track(providers[k].id, providers[k].provider.data, providers[k].provider.index)
    {
      TracksOf(providers)
    }

    /** The providers held, the primary first; a provider held alone has no id. */
    ghost function Readers(): seq<Track>
      reads this`provider, this`providers, Objects()
    {
      if providers != [] then Tracks()
      else if provider != null then [Track("", provider.data, provider.index)] else []
    }

    ghost function Positions(): P.Engine reads this, Objects() {
      P.Engine(Controls(), Readers())
    }

    /** The multi-instrument path as a value. */
    ghost function Merged(): Merge
      reads this, rs, Objects()
    {
      Merge(Tracks(), primaryId, rs.Value(), eventLog, exhausted)
    }

    /** The single-provider path as a value. */
    ghost function Alone(): Single
      requires provider != null
      reads this`provider, this`rs, this`eventLog, this`exhausted, rs, provider
    {
      Single(provider.data, provider.index, rs.Value(), eventLog, exhausted)
    }

    constructor (maxLen: nat, initial: View)
      ensures Valid() && providers == [] && provider == null && fresh(rs)
      ensures Controls() == C.INITIAL && eventLog == [] && rs.Value() == initial && mode == Static
    {
      this.maxLen := maxLen;
      mode, replayState, isRunning, runGate := Static, C.IDLE, false, true;
      provider, providers, primaryId := null, [], "";
      exhausted, eventLog := false, [];
      rs := new ReducerState(initial);
    }

    /** Everything but the log and the exhausted flag is as it was. */
    twostate predicate SameShape() reads this {
      && providers == old(providers) && provider == old(provider) && primaryId == old(primaryId)
      && mode == old(mode) && rs == old(rs) && Controls() == old(Controls()) && Objects() == old(Objects())
    }

    method ApplyEventLocked(e: Event)
      requires Valid()
      modifies this`eventLog, rs
      ensures Valid() && SameShape() && Tracks() == old(Tracks()) && exhausted == old(exhausted)
      ensures eventLog == old(eventLog) + [e]
      ensures rs.Value() == Reduce(old(rs.Value()), e)
    {
      eventLog := eventLog + [e];
      rs.ApplyEvent(e);
      assert Tracks() == old(Tracks());
    }

    /** Pops the next bar of provider `k`. */
    method PopAt(k: nat) returns (b: Bar)
      requires Valid() && k < |providers| && Pending(Tracks()[k])
      modifies Objects()
      ensures Valid() && unchanged(this) && unchanged(rs)
      ensures var t := old(Tracks())[k];
              b == t.data[t.index] && Tracks() == old(Tracks())[k := t.(index := t.index + 1)]
    {
      assert providers[k] in providers;
      var popped := providers[k].provider.PopNextTick();
      b := popped.value;
      assert Tracks() == old(Tracks())[k := Tracks()[k]];
    }

    // ── Controls ──

    method Start()
      modifies this`isRunning, this`replayState
      ensures Positions() == P.Step(old(Positions()), P.Call(C.Start, []))
    {
      isRunning, replayState := true, C.RUNNING;
    }

    method Stop()
      modifies this`isRunning, this`replayState
      ensures Positions() == P.Step(old(Positions()), P.Call(C.Stop, []))
    {
      isRunning, replayState := false, C.IDLE;
    }

    method StartEngine() returns (ok: bool)
      modifies this`isRunning, this`replayState
      ensures Positions() == P.Step(old(Positions()), P.Call(C.StartEngine, []))
      ensures ok <==> old(replayState) == C.LOADED
    {
      if replayState != C.LOADED {
        return false;
      }
      isRunning, replayState := true, C.RUNNING;
      ok := true;
    }

    method PauseReplay() returns (ok: bool)
      modifies this`isRunning, this`replayState, this`runGate
      ensures Positions() == P.Step(old(Positions()), P.Call(C.PauseReplay, []))
      ensures ok <==> old(replayState) == C.RUNNING
    {
      if replayState != C.RUNNING {
        return false;
      }
      isRunning, replayState, runGate := false, C.PAUSED, false;
      ok := true;
    }

    method ResumeReplay() returns (ok: bool)
      modifies this`isRunning, this`replayState, this`runGate
      ensures Positions() == P.Step(old(Positions()), P.Call(C.ResumeReplay, []))
      ensures ok <==> old(replayState) == C.PAUSED
    {
      if replayState != C.PAUSED {
        return false;
      }
      isRunning, replayState, runGate := true, C.RUNNING, true;
      ok := true;
    }

    method StopReplay() returns (ok: bool)
      modifies this`isRunning, this`replayState, this`runGate
      ensures Positions() == P.Step(old(Positions()), P.Call(C.StopReplay, []))
      ensures ok <==> old(replayState) in {C.RUNNING, C.PAUSED}
    {
      if replayState != C.RUNNING && replayState != C.PAUSED {
        return false;
      }
      isRunning, replayState, runGate := false, C.IDLE, true;
      ok := true;
    }

    /** Drops the providers, so that the next load builds new ones. */
    method ForceStopReplay()
      modifies this`isRunning, this`replayState, this`runGate, this`provider, this`providers
      ensures Positions() == P.Step(old(Positions()), P.Call(C.ForceStopReplay, []))
      ensures provider == null && providers == [] && Valid()
    {
      isRunning, replayState := false, C.IDLE;
      provider, providers := null, [];
      runGate := true;
    }

    method SetReplaySpeed(multiplier: int) returns (ok: bool)
      ensures ok <==> multiplier != 0
    {
      ok := multiplier != 0;
    }

    // ── Loading ──

    /** Reads the first bar of `p` and shows it; `ok` is false when the point models raise at it. */
    method PrimeProviderLocked(p: BarProvider) returns (ok: bool)
      requires p.Valid() && p.index < |p.data|
      modifies this`provider, this`mode, this`rs, this`exhausted, p
      ensures provider == p && mode == Replay && p.Valid() && p.index == old(p.index) + 1
      ensures ok <==> Accepted(p.data[old(p.index)])
      ensures ok ==> fresh(rs) && rs.Value() == PrimedSingle(p.data[old(p.index)..], maxLen, []).rs
      ensures ok ==> (exhausted <==> p.index >= |p.data|)
      ensures !ok ==> unchanged(this`rs) && unchanged(this`exhausted)
    {
      var tick := p.PopNextTick();
      var b := tick.value;
      provider, mode := p, Replay;
      if !Accepted(b) {
        return false;
      }
      ok := true;
      rs := new ReducerState(View(Ms(b.ts), b.close, b.open, b.high, b.low, 0, [b.close],
                                  [HistoryPoint(Ms(b.ts), b.close)], [PrimedPoint(b)], maxLen, map[], map[]));
      exhausted := p.IsExhausted();
    }

    /** The stored bars of an id, or after a fetch, where one is set up; empty when there are none. */
    static method FetchIfMissing(stored: Bars, fetched: Option<Bars>, id: string) returns (data: seq<Bar>)
      ensures data == BarsOf(stored, fetched, id)
    {
      if Available(stored, id) {
        return stored[id];
      }
      if fetched.None? || !Available(fetched.value, id) {
        return [];
      }
      data := fetched.value[id];
    }

    /** Builds the provider dictionary, or names the first id that has no bars. */
    static method BuildProviders(ids: seq<string>, stored: Bars, fetched: Option<Bars>)
      returns (r: Result<seq<Entry>, string>)
      ensures r.Ok? <==> forall id :: id in ids ==> BarsOf(stored, fetched, id) != []
      ensures r.Err? ==> r.error in ids && BarsOf(stored, fetched, r.error) == []
      ensures r.Ok? ==>
                && |r.value| == |Keys(ids)|
                && (forall k :: 0 <= k < |r.value| ==>
                      var e := r.value[k];
                      && e.id == Keys(ids)[k] && fresh(e.provider)
                      && e.provider.data == BarsOf(stored, fetched, e.id) != []
                      && e.provider.index == 0 && e.provider.path == None)
                && (forall i, j :: 0 <= i < j < |r.value| ==> r.value[i].provider != r.value[j].provider)
    {
      hide BarsOf;
      var entries: seq<Entry> := [];
      for n := 0 to |ids|
        invariant forall id :: id in ids[..n] ==> BarsOf(stored, fetched, id) != []
        invariant |entries| == |Keys(ids[..n])|
        invariant forall k :: 0 <= k < |entries| ==>
                    var e := entries[k];
                    && e.id == Keys(ids[..n])[k] && fresh(e.provider)
                    && e.provider.data == BarsOf(stored, fetched, e.id) != []
                      && e.provider.index == 0 && e.provider.path == None
        invariant forall i, j :: 0 <= i < j < |entries| ==> entries[i].provider != entries[j].provider
      {
        var iid := ids[n];
        assert ids[..n + 1][..n] == ids[..n];
        var data := FetchIfMissing(stored, fetched, iid);
        if data == [] {
          return Err(iid);
        }
        var p := new BarProvider(data, None);
        var k := 0;
        while k < |entries| && entries[k].id != iid
          invariant 0 <= k <= |entries|
          invariant forall j :: 0 <= j < k ==> entries[j].id != iid
        {
          k := k + 1;
        }
        if k < |entries| {
          entries := entries[k := Entry(iid, p)];
        } else {
          entries := entries + [Entry(iid, p)];
        }
      }
      assert ids[..|ids|] == ids;
      r := Ok(entries);
    }

    /** The view a successful multi-instrument load leaves. */
    ghost predicate LoadedFrom(ids: seq<string>, bars: Bars)
      reads this`provider, this`providers, this`primaryId, this`rs, rs, Objects()
    {
      && ids != [] && primaryId == ids[0] && Available(bars, ids[0])
      && |providers| == |Keys(ids)|
      && (forall k :: 0 <= k < |providers| ==>
            Keys(ids)[k] in bars && Tracks()[k] == Track(Keys(ids)[k], bars[Keys(ids)[k]], if k == 0 then 1 else 0))
      && rs.Value() == Primed(bars[ids[0]][0], ids[0], maxLen)
    }

    method LoadReplayData(ids: seq<string>, source: Source, granularityOk: bool) returns (r: LoadOutcome)
      requires Valid()
      modifies this
      ensures Valid()
      ensures r == if old(replayState) != C.IDLE then Refused
                   else if old(provider) != null then Loaded
                   else match BuildOf(ids, source, granularityOk)
                     case Missing => Refused case Rejected => Raised case Ready => Loaded
      ensures Positions() == P.Step(old(Positions()), P.Call(C.Load(BuildOf(ids, source, granularityOk)), Readers()))
      ensures eventLog == old(eventLog)
      ensures r.Refused? || old(provider) != null ==> unchanged(this`provider) && unchanged(this`mode)
      ensures !r.Loaded? || old(provider) != null ==>
                && unchanged(this`providers) && unchanged(this`rs)
                && unchanged(this`primaryId) && unchanged(this`exhausted)
      ensures !r.Refused? && old(provider) == null ==>
                provider != null && mode == Replay && fresh(Objects()) && P.JustBuilt(Readers())
      ensures r.Loaded? && old(provider) == null ==> fresh(rs)
      ensures r.Loaded? && old(provider) == null && source.Catalog? ==>
                LoadedFrom(ids, EndBars(ids, source.stored, source.fetched))
      ensures r.Loaded? && old(provider) == null && source.Direct? ==>
                Alone() == PrimedSingle(source.single.value, maxLen, eventLog)
    {
      hide LoadedFrom, PrimedSingle, BuildOf, P.JustBuilt, Valid, Readers, Alone;
      if replayState != C.IDLE {
        return Refused;
      }
      if provider != null {
        MarkLoaded();
        return Loaded;
      }
      var build := LoadFresh(ids, source, granularityOk);
      match build {
        case Missing => r := Refused;
        case Rejected => r := Raised;
        case Ready =>
          replayState := C.LOADED;
          r := Loaded;
      }
    }

    /** Providers already held are kept as they are. */
    method MarkLoaded()
      requires Valid()
      modifies this`replayState
      ensures Valid() && Readers() == old(Readers()) && Controls() == old(Controls()).(state := C.LOADED)
    {
      replayState := C.LOADED;
    }

    /** The load proper, once the engine holds no provider. */
    method LoadFresh(ids: seq<string>, source: Source, granularityOk: bool) returns (build: C.Build)
      requires Valid() && provider == null
      modifies this`provider, this`providers, this`primaryId, this`mode, this`rs, this`exhausted
      ensures Valid() && build == BuildOf(ids, source, granularityOk)
      ensures build.Missing? ==> unchanged(this) && Readers() == old(Readers())
      ensures !build.Ready? ==>
                && unchanged(this`providers) && unchanged(this`rs)
                && unchanged(this`primaryId) && unchanged(this`exhausted)
      ensures !build.Missing? ==>
                provider != null && mode == Replay && fresh(Objects()) && P.JustBuilt(Readers())
      ensures build.Ready? ==> fresh(rs)
      ensures build.Ready? && source.Catalog? ==> LoadedFrom(ids, EndBars(ids, source.stored, source.fetched))
      ensures build.Ready? && source.Direct? ==> Alone() == PrimedSingle(source.single.value, maxLen, eventLog)
    {
      hide Valid, LoadedFrom, Alone, PrimedSingle, Objects, Readers, P.JustBuilt, BarsOf, Accepted;
      if ids == [] || source.NotConfigured? || !granularityOk {
        return C.Missing;
      }
      if source.Catalog? {
        build := LoadCatalog(ids, source.stored, source.fetched);
      } else {
        build := LoadDirect(source.single);
      }
    }

    method LoadCatalog(ids: seq<string>, stored: Bars, fetched: Option<Bars>) returns (build: C.Build)
      requires Valid() && provider == null && ids != []
      modifies this`provider, this`providers, this`primaryId, this`mode, this`rs, this`exhausted
      ensures Valid()
      ensures build == BuildOf(ids, Catalog(stored, fetched), true)
      ensures build.Missing? ==> unchanged(this) && Readers() == old(Readers())
      ensures !build.Ready? ==>
                && unchanged(this`providers) && unchanged(this`rs)
                && unchanged(this`primaryId) && unchanged(this`exhausted)
      ensures !build.Missing? ==>
                provider != null && mode == Replay && fresh(Objects()) && P.JustBuilt(Readers())
      ensures build.Ready? ==> fresh(rs) && LoadedFrom(ids, EndBars(ids, stored, fetched))
    {
      var built := BuildProviders(ids, stored, fetched);
      BuildOfCatalog(ids, stored, fetched);
      hide BuildOf, Keys, Valid, Tracks, LoadedFrom, BarsOf, Accepted, Readers, P.JustBuilt, Objects;
      if built.Err? {
        return C.Missing;
      }
      var ok := InstallCatalog(ids, stored, fetched, built.value);
      assert fresh(set e | e in built.value :: e.provider as object);
      build := if ok then C.Ready else C.Rejected;
    }

    /** Primes and installs the providers built for a catalog load. */
    method InstallCatalog(ids: seq<string>, stored: Bars, fetched: Option<Bars>, entries: seq<Entry>)
      returns (ok: bool)
      requires Valid() && provider == null && ids != [] && |entries| == |Keys(ids)|
      requires forall k :: 0 <= k < |entries| ==>
                 var e := entries[k];
                 e.id == Keys(ids)[k] && e.provider.data == BarsOf(stored, fetched, e.id) != [] && e.provider.index == 0
      requires forall i, j :: 0 <= i < j < |entries| ==> entries[i].provider != entries[j].provider
      modifies this`provider, this`providers, this`primaryId, this`mode, this`rs, this`exhausted, entries[0].provider
      ensures Valid() && provider == entries[0].provider && mode == Replay && P.JustBuilt(Readers())
      ensures Objects() <= set e | e in entries :: e.provider as object
      ensures BarsOf(stored, fetched, ids[0]) != [] && (ok <==> Accepted(BarsOf(stored, fetched, ids[0])[0]))
      ensures !ok ==> unchanged(this`rs) && unchanged(this`exhausted) && unchanged(this`primaryId) && providers == []
      ensures ok ==> fresh(rs) && LoadedFrom(ids, EndBars(ids, stored, fetched))
    {
      assert entries[0] in entries;
      hide Keys, Primed, PrimedSingle, Valid, TracksOf, Tracks, LoadedFrom, BarsOf, Accepted, Readers, P.JustBuilt;
      ok := LoadEntries(ids[0], entries);
      if ok {
        EntriesLoaded(ids, stored, fetched);
      }
    }

    static lemma BuildOfCatalog(ids: seq<string>, stored: Bars, fetched: Option<Bars>)
      requires ids != []
      ensures var build := BuildOf(ids, Catalog(stored, fetched), true);
              if forall id :: id in ids ==> BarsOf(stored, fetched, id) != [] then
                && BarsOf(stored, fetched, ids[0]) != []
                && build == if Accepted(BarsOf(stored, fetched, ids[0])[0]) then C.Ready else C.Rejected
              else build == C.Missing
    {
      hide BarsOf, Accepted;
      assert ids[0] in ids;
    }

    /** The providers, priced and positioned one by one, are the view of a loaded engine. */
    lemma EntriesLoaded(ids: seq<string>, stored: Bars, fetched: Option<Bars>)
      requires ids != [] && primaryId == ids[0] && |providers| == |Keys(ids)|
      requires BarsOf(stored, fetched, ids[0]) != []
      requires forall k :: 0 <= k < |providers| ==>
                 var e := providers[k];
                 && e.id == Keys(ids)[k] && e.provider.data == BarsOf(stored, fetched, e.id)
                 && e.provider.index == if k == 0 then 1 else 0
      requires rs.Value() == Primed(BarsOf(stored, fetched, ids[0])[0], ids[0], maxLen)
      ensures LoadedFrom(ids, EndBars(ids, stored, fetched))
    {
      hide Keys, Primed, TracksOf, BarsOf;
      assert ids[0] in ids;
      forall k | 0 <= k < |providers| ensures Keys(ids)[k] in ids {
        assert Keys(ids)[k] in Keys(ids);
      }
    }

    method LoadDirect(single: Option<seq<Bar>>) returns (build: C.Build)
      requires Valid() && provider == null
      modifies this`provider, this`mode, this`rs, this`exhausted
      ensures Valid()
      ensures build == BuildOf([""], Direct(single), true)
      ensures build.Missing? ==> unchanged(this) && Readers() == old(Readers())
      ensures !build.Ready? ==> unchanged(this`rs) && unchanged(this`exhausted)
      ensures !build.Missing? ==>
                provider != null && mode == Replay && fresh(Objects()) && P.JustBuilt(Readers())
      ensures build.Ready? ==> fresh(rs) && Alone() == PrimedSingle(single.value, maxLen, eventLog)
    {
      if single.None? || single.value == [] {
        return C.Missing;
      }
      assert providers == [];
      var p := new BarProvider(single.value, None);
      assert p.data[0..] == p.data;
      var ok := PrimeProviderLocked(p);
      build := if ok then C.Ready else C.Rejected;
    }

    /** Primes the first provider of a new dictionary and installs the dictionary, unless priming raises. */
    method LoadEntries(primary: string, entries: seq<Entry>) returns (ok: bool)
      requires Valid() && provider == null
      requires entries != [] && entries[0].id == primary
      requires forall k :: 0 <= k < |entries| ==> entries[k].provider.data != [] && entries[k].provider.index == 0
      requires forall i, j :: 0 <= i < j < |entries| ==> entries[i].provider != entries[j].provider
      modifies this`provider, this`providers, this`primaryId, this`mode, this`rs, this`exhausted, entries[0].provider
      ensures Valid() && provider == entries[0].provider && mode == Replay
      ensures ok <==> Accepted(provider.data[0])
      ensures !ok ==> unchanged(this`rs) && unchanged(this`exhausted) && unchanged(this`primaryId) && providers == []
      ensures ok ==> providers == entries && primaryId == primary
      ensures ok ==> fresh(rs) && rs.Value() == Primed(entries[0].provider.data[0], primary, maxLen)
      ensures forall k :: 0 <= k < |entries| ==> entries[k].provider.index == if k == 0 then 1 else 0
      ensures P.JustBuilt(Readers())
    {
      var first := entries[0].provider;
      assert first.data[0..] == first.data && providers == [];
      ok := PrimeProviderLocked(first);
      if !ok {
        return;
      }
      providers, primaryId := entries, primary;
      if rs.ohlc != [] {
        rs.perIdOhlc := rs.perIdOhlc[primary := rs.ohlc];
        if primary !in rs.perIdClose {
          rs.perIdClose := rs.perIdClose[primary := rs.price];
        }
      }
      assert entries[0] in providers;
    }

    // ── Advancing ──

    /** One group of the merge: the peek, sort and pop loops. */
    method AdvanceMulti()
      requires Valid() && providers != []
      modifies this`eventLog, this`exhausted, rs, Objects()
      ensures Valid() && SameShape() && Merged() == Advance(old(Merged()))
      ensures Readers() == P.Read(old(Readers()))
    {
      P.ReadIsAdvance(Merged());
      hide Valid, Tracks, Objects, Fold, EmitAll, Pop, AtTime, HeadsUpTo, MinTime, P.Read;
      ghost var m := Merged();
      var sorted := PeekSorted();
      if sorted == [] {
        SetExhausted(true);
        return;
      }
      SortedStartsAtMin(sorted, Heads(m.tracks));
      EmitGroup(sorted, sorted[0].ts, m);
      var done := AllExhausted();
      SetExhausted(done);
    }

    method SetExhausted(done: bool)
      requires Valid()
      modifies this`exhausted
      ensures Valid() && SameShape() && Merged() == old(Merged()).(exhausted := done)
    {
      hide TracksOf;
      exhausted := done;
      assert Tracks() == old(Tracks());
    }

    /** Peeks every provider and sorts what is pending by time. */
    method PeekSorted() returns (sorted: seq<Head>)
      requires Valid()
      ensures Valid() && Merged() == old(Merged()) && SameShape()
      ensures SortedByTime(sorted) && StablySame(sorted, Heads(Tracks()))
    {
      hide Heads, HeadsUpTo, AtTime;
      var pending := PeekAll();
      sorted := SortByTime(pending);
    }

    method PeekAll() returns (pending: seq<Head>)
      requires Valid()
      ensures Valid() && Merged() == old(Merged()) && SameShape()
      ensures pending == Heads(Tracks())
    {
      pending := [];
      for k := 0 to |providers|
        invariant pending == HeadsUpTo(Tracks(), k)
      {
        var tick := providers[k].provider.PeekNextTick();
        if tick.Some? {
          pending := pending + [Head(tick.value.ts, k)];
        } else {
          assert pending + [] == pending;
        }
      }
    }

    method AllExhausted() returns (done: bool)
      requires Valid()
      ensures Valid() && Merged() == old(Merged()) && SameShape()
      ensures done <==> Heads(Tracks()) == []
    {
      done := true;
      for k := 0 to |providers|
        invariant done <==> forall j :: 0 <= j < k ==> !Pending(Tracks()[j])
      {
        assert Pending(Tracks()[k]) <==> !providers[k].provider.IsExhausted();
        if !providers[k].provider.IsExhausted() {
          done := false;
        }
      }
      HeadsEmpty(Tracks());
      UnreadZero(Tracks());
    }

    /** What has been read, logged and reduced once the providers `ks` of a group are done. */
    ghost predicate Emitted(m: Merge, ts: nat, ks: seq<nat>)
      reads this, rs, Objects()
    {
      && AllPending(m.tracks, ks)
      && Tracks() == Pop(m.tracks, ks)
      && eventLog == m.log + GroupEvents(m, ts, ks)
      && rs.Value() == Fold(m.rs, GroupEvents(m, ts, ks))
    }

    /** The clock event, then the pop loop over the sorted list. */
    method EmitGroup(sorted: seq<Head>, minTs: nat, ghost m: Merge)
      requires Valid() && m == Merged() && sorted != [] && SortedByTime(sorted) && minTs == sorted[0].ts
      requires StablySame(sorted, Heads(m.tracks))
      modifies this`eventLog, rs, Objects()
      ensures Valid() && SameShape() && Emitted(m, minTs, AtTime(Heads(m.tracks), minTs))
    {
      hide Valid, Tracks, Objects, Emitted, AtTime, Heads;
      EmitClock(minTs, m);
      var i := 0;
      EmptyPrefix(sorted, minTs);
      while i < |sorted| && sorted[i].ts == minTs
        invariant 0 <= i <= |sorted| && Valid() && SameShape()
        invariant forall j :: 0 <= j < i ==> sorted[j].ts == minTs
        invariant AtTime(sorted[..i], minTs) == PositionsOf(sorted[..i])
        invariant Emitted(m, minTs, PositionsOf(sorted[..i]))
      {
        PrefixOfGroup(sorted, minTs, i, m.tracks);
        EmitOne(sorted[i].k, minTs, PositionsOf(sorted[..i]), m);
        i := i + 1;
      }
      GroupIsPrefix(sorted, i);
    }

    method EmitClock(minTs: nat, ghost m: Merge)
      requires Valid() && m == Merged()
      modifies this`eventLog, rs
      ensures Valid() && SameShape() && Emitted(m, minTs, [])
    {
      hide Valid, Objects, Tracks, Reduce, Ms;
      var clock := ReplayTimeUpdated(Ms(minTs));
      FoldOne(m.rs, clock);
      ApplyEventLocked(clock);
      assert [clock] + [] == [clock];
      assert Pop(m.tracks, []) == m.tracks;
    }

    /** Pops provider `k` and applies its update; the primary's goes out untagged first. */
    method EmitOne(k: nat, minTs: nat, ghost done: seq<nat>, ghost m: Merge)
      requires Valid() && k < |providers| && k !in done && m.primary == primaryId
      requires |m.tracks| == |providers| && Emitted(m, minTs, done)
      requires Due(m.tracks, minTs, k)
      modifies this`eventLog, rs, Objects()
      ensures Valid() && SameShape() && Emitted(m, minTs, done + [k])
    {
      hide Valid, Objects, Tracks, Fold, EmitAll, GroupEvents, Reduce, Ms, Pop;
      var iid := providers[k].id;
      assert iid == Tracks()[k].id;
      EmitStep(m, minTs, done, k);
      PopExtends(m.tracks, done, k);
      var b := PopAt(k);
      var ms := Ms(minTs);
      if iid == primaryId {
        ApplyEventLocked(KlineUpdate(ms, b.close, b.open, b.high, b.low, ms, "", b.volume));
      }
      ApplyEventLocked(KlineUpdate(ms, b.close, b.open, b.high, b.low, ms, iid, b.volume));
    }

    /** The single-provider path: one bar, or the exhausted flag. */
    method AdvanceAlone()
      requires Valid() && providers == [] && provider != null
      modifies this`eventLog, this`exhausted, rs, provider
      ensures Valid() && SameShape() && Alone() == AdvanceSingle(old(Alone()))
      ensures Readers() == P.Read(old(Readers()))
    {
      hide Reduce, P.Read;
      P.ReadOne(Track("", provider.data, provider.index));
      ghost var before := Alone();
      var tick := provider.PopNextTick();
      if tick.Some? {
        var b := tick.value;
        ghost var events := BarEvents(b);
        assert events == [events[0]] + [events[1]];
        FoldConcat(before.rs, [events[0]], [events[1]]);
        FoldOne(before.rs, events[0]);
        FoldOne(Reduce(before.rs, events[0]), events[1]);
        ApplyEventLocked(ReplayTimeUpdated(Ms(b.ts)));
        ApplyEventLocked(KlineUpdate(Ms(b.ts), b.close, b.open, b.high, b.low, Ms(b.ts), "", b.volume));
        exhausted := provider.IsExhausted();
      } else {
        exhausted := true;
      }
    }

    /** Advances one tick; `noise` and `nowMs` feed the static random walk only. */
    method AdvanceOneLocked(noise: real, nowMs: int)
      requires Valid()
      modifies this`eventLog, this`exhausted, rs, Objects()
      ensures Valid() && SameShape()
      ensures providers != [] ==> Merged() == Advance(old(Merged()))
      ensures providers == [] && provider != null ==> Alone() == AdvanceSingle(old(Alone()))
      ensures Readers() == P.Read(old(Readers()))
      ensures provider == null ==>
                var px := old(rs.price) + noise;
                var e := KlineUpdate(nowMs, px, px, px, px, 0, "", 0.0);
                eventLog == old(eventLog) + [e] && rs.Value() == Reduce(old(rs.Value()), e)
    {
      hide Advance, AdvanceSingle, Reduce, Tracks, P.Read;
      if providers != [] {
        AdvanceMulti();
      } else if provider != null {
        AdvanceAlone();
      } else {
        P.ReadNone();
        var px := rs.price + noise;
        ApplyEventLocked(KlineUpdate(nowMs, px, px, px, px, 0, "", 0.0));
      }
    }

    /** The background loop's call: nothing happens unless the engine is running. */
    method AdvanceTick(noise: real, nowMs: int)
      requires Valid()
      modifies this`eventLog, this`exhausted, rs, Objects()
      ensures Valid() && SameShape() && Positions() == P.Step(old(Positions()), P.Call(C.Advance, []))
      ensures !isRunning ==> unchanged(this) && unchanged(rs) && unchanged(Objects())
      ensures C.Consistent(Controls()) && replayState != C.RUNNING ==>
                unchanged(this) && unchanged(rs) && unchanged(Objects())
      ensures isRunning && providers != [] ==> Merged() == Advance(old(Merged()))
      ensures isRunning && providers == [] && provider != null ==> Alone() == AdvanceSingle(old(Alone()))
    {
      hide Advance, AdvanceSingle, Reduce, Readers, P.Read;
      if isRunning {
        AdvanceOneLocked(noise, nowMs);
      }
    }

    /** One tick from PAUSED or LOADED, staying in that state. */
    method StepReplay(noise: real, nowMs: int) returns (ok: bool)
      requires Valid()
      modifies this`eventLog, this`exhausted, this`isRunning, this`replayState, rs, Objects()
      ensures Valid() && Positions() == P.Step(old(Positions()), P.Call(C.StepReplay, []))
      ensures ok <==> old(replayState) in {C.PAUSED, C.LOADED}
      ensures !ok ==> unchanged(this) && unchanged(rs) && unchanged(Objects())
      ensures ok && providers != [] ==> Merged() == Advance(old(Merged()))
      ensures ok && providers == [] && provider != null ==> Alone() == AdvanceSingle(old(Alone()))
    {
      hide Advance, AdvanceSingle, Reduce, Valid, Tracks, Objects, Readers, P.Read;
      if replayState != C.PAUSED && replayState != C.LOADED {
        return false;
      }
      var previous := replayState;
      AdvanceOneLocked(noise, nowMs);
      SetControls(false, previous);
      assert Readers() == P.Read(old(Readers()));
      ok := true;
    }

    method SetControls(running: bool, state: C.ReplayState)
      requires Valid()
      modifies this`isRunning, this`replayState
      ensures Valid() && Merged() == old(Merged()) && Readers() == old(Readers())
      ensures Controls() == old(Controls()).(running := running, state := state)
      ensures provider != null ==> Alone() == old(Alone())
    {
      hide TracksOf;
      isRunning, replayState := running, state;
      assert Tracks() == old(Tracks());
    }

    method ForgetInstrument(id: string)
      modifies rs
      ensures rs.Value() == old(rs.Value()).(perIdClose := old(rs.perIdClose) - {id},
                                             perIdOhlc := old(rs.perIdOhlc) - {id})
    {
      rs.perIdClose := rs.perIdClose - {id};
      rs.perIdOhlc := rs.perIdOhlc - {id};
    }

    // ── Snapshot and restore ──

    /** A snapshot needs a positive price and time; the state model rejects others. */
    method TakeSnapshot() returns (r: Result<Snapshot, string>)
      requires Valid()
      ensures r.Ok? <==> rs.price > 0.0 && rs.tsMs > 0
      ensures r.Ok? ==> r.value == SnapshotOf(rs.Value(), if provider != null then provider.index else 0,
                                              if provider != null then provider.path else None, mode)
      ensures r.Ok? ==>
                var s := r.value;
                && s.price == rs.price && s.tsMs == rs.tsMs && s.mode == mode
                && s.history == rs.history && s.points == rs.points && s.ohlc == rs.ohlc
                && s.open == (if rs.open == 0.0 then None else Some(rs.open))
                && s.high == (if rs.high == 0.0 then None else Some(rs.high))
                && s.low == (if rs.low == 0.0 then None else Some(rs.low))
                && s.openTimeMs == (if rs.openTimeMs == 0 then None else Some(rs.openTimeMs))
                && s.replayIndex == (if provider == null then 0 else provider.index)
                && s.sourcePath == if provider == null then None else provider.path
    {
      if rs.price <= 0.0 || rs.tsMs <= 0 {
        return Err("invalid state");
      }
      var path, index := None, 0;
      if provider != null {
        path, index := provider.path, provider.index;
      }
      r := Ok(Snapshot(rs.price, rs.tsMs, rs.history, rs.points, rs.ohlc,
                       OrNone(rs.open), OrNone(rs.high), OrNone(rs.low), TimeOrNone(rs.openTimeMs),
                       index, path, mode));
    }

    /** Restores a snapshot of the same mode and source. Only the primary's provider is repositioned. */
    method RestoreSnapshot(s: Snapshot) returns (r: Result<(), string>)
      requires Valid()
      modifies this`exhausted, rs, Objects()
      ensures Valid() && SameShape() && eventLog == old(eventLog)
      ensures r.Ok? <==>
                && s.mode == mode
                && (mode == Replay ==>
                      provider != null
                      && (s.sourcePath == None || s.sourcePath == Some("") || s.sourcePath == provider.path))
      ensures r.Err? ==> unchanged(this) && unchanged(rs) && unchanged(Objects())
      ensures r.Ok? ==> rs.Value() == Restored(old(rs.Value()), s)
      ensures r.Ok? && provider != null ==> Alone() == Rewound(old(Alone()), s)
      ensures r.Ok? && provider != null ==> (exhausted <==> provider.index >= |provider.data|)
      ensures Positions() == P.Step(old(Positions()), P.Call(C.RestoreSnapshot(r.Ok?, s.replayIndex), []))
      ensures forall e :: e in providers && e.provider != provider ==> e.provider.index == old(e.provider.index)
    {
      hide Restored, Tracks, Readers, P.Rewind;
      if s.mode != mode {
        return Err("Snapshot mode mismatch");
      }
      if mode == Replay {
        if provider == null {
          return Err("no provider to restore to");
        }
        if s.sourcePath.Some? && s.sourcePath.value != "" && s.sourcePath != provider.path {
          return Err("Snapshot source mismatch");
        }
      }
      RestoreReducer(s);
      if provider != null {
        Reposition(s.replayIndex);
      } else {
        NoReaders(s.replayIndex);
      }
      r := Ok(());
    }

    lemma NoReaders(index: nat)
      requires Valid() && provider == null
      ensures P.Rewind(Readers(), index) == Readers() == []
    {
    }

    method RestoreReducer(s: Snapshot)
      requires Valid()
      modifies rs
      ensures Valid() && Readers() == old(Readers()) && rs.Value() == Restored(old(rs.Value()), s)
    {
      hide Restored, Tracks;
      RestoreState(rs, s);
    }

    method Reposition(index: nat)
      requires Valid() && provider != null
      modifies this`exhausted, provider
      ensures Valid() && SameShape()
      ensures provider.index == if index <= |provider.data| then index else old(provider.index)
      ensures exhausted <==> provider.index >= |provider.data|
      ensures Readers() == P.Rewind(old(Readers()), index)
    {
      hide TracksOf;
      provider.SetCurrentIndex(index);
      exhausted := provider.IsExhausted();
    }
  }

  method RestoreState(rs: ReducerState, s: Snapshot)
    modifies rs
    ensures rs.Value() == Restored(old(rs.Value()), s)
  {
    var points := if s.points != [] then s.points else Reconstructed(s.history, s.tsMs);
    rs.price, rs.tsMs, rs.history, rs.points, rs.ohlc := s.price, s.tsMs, s.history, points, s.ohlc;
    rs.open, rs.high, rs.low := OrElse(s.open, s.price), OrElse(s.high, s.price), OrElse(s.low, s.price);
    rs.openTimeMs := if s.openTimeMs.Some? && s.openTimeMs.value != 0 then s.openTimeMs.value else s.tsMs;
  }

  /** A multi-instrument load of ordered bars is the starting point of the window refinement. */
  lemma LoadedIsJustLoaded(e: DataEngine, ids: seq<string>, bars: Bars)
    requires e.Valid() && e.LoadedFrom(ids, bars) && "" !in ids
    requires forall id :: id in ids ==> id in bars && TimeOrdered(bars[id])
    ensures JustLoaded(e.Merged(), 0)
  {
    var tracks := e.Tracks();
    forall k | 0 <= k < |tracks|
      ensures tracks[k].id in ids && tracks[k].data == bars[tracks[k].id]
      ensures tracks[k].index == if k == 0 then 1 else 0
    {
      assert Keys(ids)[k] in Keys(ids);
      assert tracks[k] == Track(Keys(ids)[k], bars[Keys(ids)[k]], if k == 0 then 1 else 0);
      assert e.providers[k] in e.providers;
    }
  }

  lemma PopExtends(tracks: seq<Track>, done: seq<nat>, k: nat)
    requires k < |tracks| && k !in done
    ensures Pop(tracks, done)[k] == tracks[k]
    ensures Pop(tracks, done + [k]) == Pop(tracks, done)[k := tracks[k].(index := tracks[k].index + 1)]
  {
    assert forall j :: j in done + [k] <==> j in done || j == k;
  }

  /** What one more provider of a group adds to the events and to the reduced state. */
  lemma EmitStep(m: Merge, ts: nat, done: seq<nat>, k: nat)
    requires AllPending(m.tracks, done) && k < |m.tracks| && Pending(m.tracks[k])
    ensures AllPending(m.tracks, done + [k])
    ensures var t, before := m.tracks[k], Fold(m.rs, GroupEvents(m, ts, done));
            var b := t.data[t.index];
            && GroupEvents(m, ts, done + [k]) == GroupEvents(m, ts, done) + Emit(m.primary, t.id, b)
            && Fold(m.rs, GroupEvents(m, ts, done + [k]))
               == if t.id == m.primary then Reduce(Reduce(before, Kline("", b)), Kline(t.id, b))
                  else Reduce(before, Kline(t.id, b))
  {
    hide Reduce;
    var t := m.tracks[k];
    var b, before := t.data[t.index], Fold(m.rs, GroupEvents(m, ts, done));
    assert (done + [k])[..|done|] == done;
    FoldConcat(m.rs, GroupEvents(m, ts, done), Emit(m.primary, t.id, b));
    FoldOne(before, Kline(t.id, b));
    if t.id == m.primary {
      assert Emit(m.primary, t.id, b) == [Kline("", b)] + [Kline(t.id, b)];
      FoldConcat(before, [Kline("", b)], [Kline(t.id, b)]);
      FoldOne(before, Kline("", b));
      FoldOne(Reduce(before, Kline("", b)), Kline(t.id, b));
    }
  }

  function PositionsOf(heads: seq<Head>): (r: seq<nat>)
    ensures |r| == |heads|
  {
    seq(|heads|, i requires 0 <= i < |heads| => heads[i].k)
  }

  /** The next head of the group is due and not yet read. */
  lemma PrefixOfGroup(sorted: seq<Head>, ts: nat, i: nat, tracks: seq<Track>)
    requires i < |sorted| && sorted[i].ts == ts && StablySame(sorted, Heads(tracks))
    requires AtTime(sorted[..i], ts) == PositionsOf(sorted[..i])
    ensures sorted[i].k < |tracks| && Due(tracks, ts, sorted[i].k)
    ensures sorted[i].k !in PositionsOf(sorted[..i])
    ensures AtTime(sorted[..i + 1], ts) == PositionsOf(sorted[..i + 1]) == PositionsOf(sorted[..i]) + [sorted[i].k]
  {
    DuePositions(tracks, ts);
    AtTimeFinds(sorted, ts, sorted[i].k);
    assert sorted[i] in sorted;
    assert sorted[..i + 1][..i] == sorted[..i];
    var ks, done := AtTime(Heads(tracks), ts), PositionsOf(sorted[..i]);
    AtTimeConcat(sorted[..i + 1], sorted[i + 1..], ts);
    assert sorted[..i + 1] + sorted[i + 1..] == sorted;
    assert done + [sorted[i].k] == ks[..i + 1];
    assert PositionsOf(sorted[..i + 1]) == done + [sorted[i].k];
    forall j | 0 <= j < i ensures done[j] != sorted[i].k {
      assert ks[j] < ks[i] && done[j] == ks[j] && ks[i] == sorted[i].k;
    }
  }

  lemma EmptyPrefix(sorted: seq<Head>, ts: nat)
    ensures sorted[..0] == [] && AtTime(sorted[..0], ts) == [] == PositionsOf(sorted[..0])
  {
  }
}
