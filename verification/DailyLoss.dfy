/** The post-trade daily-loss stop: rails and equity baselines per run, evaluated on account snapshots. */
module DailyLoss {
  import opened Positions
  import opened Wrappers

  type RunId = string

  datatype Snapshot = Snapshot(cash: real, unrealized: seq<real>)

  function Sum(xs: seq<real>): real {
    if xs == [] then 0.0 else Sum(xs[..|xs| - 1]) + xs[|xs| - 1]
  }

  /** Cash plus the unrealized result of every position. */
  function Equity(s: Snapshot): real {
    s.cash + Sum(s.unrealized)
  }

  /** A cap of zero or less switches the rail off. */
  predicate Breach(cap: int, pnl: real) {
    cap > 0 && pnl < -(cap as real)
  }

  // ── The two tables ──

  datatype Tables = Tables(rails: map<RunId, int>, baseline: map<RunId, real>)

  const EMPTY := Tables(map[], map[])

  function Record(t: Tables, id: RunId, cap: int): Tables {
    Tables(t.rails[id := cap], t.baseline - {id})
  }

  function Release(t: Tables, id: RunId): Tables {
    Tables(t.rails - {id}, t.baseline - {id})
  }

  /** Only the first active run is judged; its first snapshot becomes its baseline. */
  function Evaluate(t: Tables, active: seq<RunId>, snapshot: Snapshot): (Tables, Option<RunId>) {
    if active == [] || active[0] !in t.rails then (t, None)
    else
      var id, equity := active[0], Equity(snapshot);
      if id !in t.baseline then (t.(baseline := t.baseline[id := equity]), None)
      else if Breach(t.rails[id], equity - t.baseline[id]) then (Release(t, id), Some(id))
      else (t, None)
  }

  class LossStop {
    var runRails: map<RunId, int>
    var runEquityBaseline: map<RunId, real>

    ghost function Value(): Tables reads this {
      Tables(runRails, runEquityBaseline)
    }

    constructor ()
      ensures Value() == EMPTY
    {
      runRails, runEquityBaseline := map[], map[];
    }

    static method EquityFromSnapshot(s: Snapshot) returns (equity: real)
      ensures equity == Equity(s)
    {
      equity := s.cash;
      for i := 0 to |s.unrealized|
        invariant equity == s.cash + Sum(s.unrealized[..i])
      {
        assert s.unrealized[..i + 1][..i] == s.unrealized[..i];
        equity := equity + s.unrealized[i];
      }
      assert s.unrealized[..|s.unrealized|] == s.unrealized;
    }

    /** The end of a start request: new rails, and no baseline carried over. */
    method RecordRails(id: RunId, cap: int)
      modifies this
      ensures Value() == Record(old(Value()), id, cap)
    {
      runRails := runRails[id := cap];
      runEquityBaseline := runEquityBaseline - {id};
    }

    method ReleaseRunRailsLocked(id: RunId)
      modifies this
      ensures Value() == Release(old(Value()), id)
    {
      runRails := runRails - {id};
      runEquityBaseline := runEquityBaseline - {id};
    }

    /** The account callback; `stop` names the run to be failed. */
    method EvaluatePostTradeLoss(active: seq<RunId>, snapshot: Snapshot) returns (stop: Option<RunId>)
      modifies this
      ensures (Value(), stop) == Evaluate(old(Value()), active, snapshot)
    {
      if active == [] {
        return None;
      }
      var id := active[0];
      if id !in runRails {
        return None;
      }
      var equity := EquityFromSnapshot(snapshot);
      if id !in runEquityBaseline {
        runEquityBaseline := runEquityBaseline[id := equity];
        return None;
      }
      if !Breach(runRails[id], equity - runEquityBaseline[id]) {
        return None;
      }
      ReleaseRunRailsLocked(id);
      stop := Some(id);
    }
  }

  // ── Any interleaving ──

  /** `Started`: rails recorded; `Ended`: a control request found the run terminal; `Account`: a snapshot came in. */
  datatype Event = Started(id: RunId, cap: int) | Ended(id: RunId) | Account(active: seq<RunId>, snapshot: Snapshot)

  function Apply(t: Tables, e: Event): (Tables, Option<RunId>) {
    match e
    case Started(id, cap) => (Record(t, id, cap), None)
    case Ended(id) => (Release(t, id), None)
    case Account(active, snapshot) => Evaluate(t, active, snapshot)
  }

  function After(es: seq<Event>): Tables {
    if es == [] then EMPTY else Apply(After(es[..|es| - 1]), es[|es| - 1]).0
  }

  /** Does the last event stop this run? */
  predicate StopsAt(es: seq<Event>, id: RunId)
    requires es != []
  {
    Apply(After(es[..|es| - 1]), es[|es| - 1]).1 == Some(id)
  }

  function Stops(es: seq<Event>, id: RunId): nat {
    if es == [] then 0 else Stops(es[..|es| - 1], id) + if StopsAt(es, id) then 1 else 0
  }

  function Starts(es: seq<Event>, id: RunId): nat {
    if es == [] then 0
    else Starts(es[..|es| - 1], id) + if es[|es| - 1].Started? && es[|es| - 1].id == id then 1 else 0
  }

  lemma {:induction false} BaselinesHaveRails(es: seq<Event>)
    ensures After(es).baseline.Keys <= After(es).rails.Keys
  {
    if es != [] {
      BaselinesHaveRails(es[..|es| - 1]);
    }
  }

  /** Each recording of rails allows at most one stop, used up while no rails are held. */
  lemma {:induction false} StopsBoundedByStarts(es: seq<Event>, id: RunId)
    ensures Stops(es, id) + (if id in After(es).rails then 1 else 0) <= Starts(es, id)
  {
    if es != [] {
      StopsBoundedByStarts(es[..|es| - 1], id);
    }
  }

  /** With run ids never reused, a run is stopped for its loss at most once. */
  lemma StoppedAtMostOnce(es: seq<Event>, id: RunId)
    requires Starts(es, id) <= 1
    ensures Stops(es, id) <= 1
  {
    StopsBoundedByStarts(es, id);
  }

  // ── What the tables mean, read off the history ──

  predicate IsStart(e: Event, id: RunId) {
    e.Started? && e.id == id
  }

  /** The events since the run's rails were last recorded, and the cap recorded then. */
  function Since(es: seq<Event>, id: RunId): Option<(int, seq<Event>)> {
    if es == [] then None
    else
      var last := es[|es| - 1];
      if IsStart(last, id) then Some((last.cap, []))
      else
        var before := Since(es[..|es| - 1], id);
        if before.None? then None else Some((before.value.0, before.value.1 + [last]))
  }

  predicate Judged(e: Event, id: RunId) {
    e.Account? && e.active != [] && e.active[0] == id
  }

  /** Equities of the snapshots that arrived while the run was the first active one. */
  function Equities(es: seq<Event>, id: RunId): seq<real> {
    if es == [] then []
    else Equities(es[..|es| - 1], id) + if Judged(es[|es| - 1], id) then [Equity(es[|es| - 1].snapshot)] else []
  }

  /** Some equity after the first has fallen more than the cap below the first. */
  predicate LossExceeded(cap: int, equities: seq<real>) {
    exists k :: 0 < k < |equities| && Breach(cap, equities[k] - equities[0])
  }

  /** The run is still watched: recorded, not ended since, and its loss not yet exceeded. */
  predicate Watched(es: seq<Event>, id: RunId): (w: bool)
    ensures w ==> Since(es, id).Some?
  {
    && Since(es, id).Some?
    && var (cap, since) := Since(es, id).value;
       Ended(id) !in since && !LossExceeded(cap, Equities(since, id))
  }

  lemma LossExceededAppend(cap: int, equities: seq<real>, e: real)
    ensures LossExceeded(cap, equities + [e]) <==>
            LossExceeded(cap, equities) || (equities != [] && Breach(cap, e - equities[0]))
  {
    var more := equities + [e];
    if LossExceeded(cap, equities) {
      var k :| 0 < k < |equities| && Breach(cap, equities[k] - equities[0]);
      assert more[k] == equities[k];
    }
    if equities != [] && Breach(cap, e - equities[0]) {
      assert more[|equities|] == e;
    }
  }

  lemma HistoryAppends(es: seq<Event>, last: Event, id: RunId)
    requires Since(es, id).Some? && !IsStart(last, id)
    ensures var (cap, since) := Since(es, id).value;
            && Since(es + [last], id) == Some((cap, since + [last]))
            && Equities(since + [last], id)
               == Equities(since, id) + (if Judged(last, id) then [Equity(last.snapshot)] else [])
  {
    hide LossExceeded, Equity, Breach, Judged, IsStart;
    var (cap, since) := Since(es, id).value;
    assert (es + [last])[..|es|] == es && (since + [last])[..|since|] == since;
  }

  /** How one more event changes what the history says about a run. */
  lemma HistoryStep(es: seq<Event>, last: Event, id: RunId)
    requires Since(es, id).Some? && !IsStart(last, id)
    ensures var (cap, since) := Since(es, id).value;
            && Since(es + [last], id) == Some((cap, since + [last]))
            && Equities(since + [last], id)
               == Equities(since, id) + (if Judged(last, id) then [Equity(last.snapshot)] else [])
            && (Watched(es + [last], id) <==>
                  && Watched(es, id) && last != Ended(id)
                  && !(Judged(last, id) && Equities(since, id) != []
                       && Breach(cap, Equity(last.snapshot) - Equities(since, id)[0])))
  {
    hide Since, Equities, LossExceeded, Equity, Breach, IsStart;
    var (cap, since) := Since(es, id).value;
    HistoryAppends(es, last, id);
    if Judged(last, id) {
      LossExceededAppend(cap, Equities(since, id), Equity(last.snapshot));
    } else {
      assert Equities(since, id) + [] == Equities(since, id);
    }
  }

  lemma NotStartedStep(es: seq<Event>, last: Event, id: RunId)
    requires IsStart(last, id) || Since(es, id).None?
    ensures Since(es + [last], id) == if IsStart(last, id) then Some((last.cap, [])) else None
    ensures Watched(es + [last], id) <==> IsStart(last, id)
  {
    assert (es + [last])[..|es|] == es;
  }

  /** The tables' entries for one run say what the history says. */
  predicate Agrees(t: Tables, es: seq<Event>, id: RunId) {
    && (id in t.rails <==> Watched(es, id))
    && (Watched(es, id) ==> t.rails[id] == Since(es, id).value.0)
    && (id in t.baseline <==> Watched(es, id) && Equities(Since(es, id).value.1, id) != [])
    && (id in t.baseline ==> t.baseline[id] == Equities(Since(es, id).value.1, id)[0])
  }

  lemma StartAgrees(t: Tables, es: seq<Event>, last: Event, id: RunId)
    requires Agrees(t, es, id) && (IsStart(last, id) || Since(es, id).None?)
    ensures Agrees(Apply(t, last).0, es + [last], id)
  {
    hide LossExceeded, Since, Equity, Breach;
    NotStartedStep(es, last, id);
  }

  lemma StepAgrees(t: Tables, es: seq<Event>, last: Event, id: RunId)
    requires Agrees(t, es, id) && !IsStart(last, id) && Since(es, id).Some?
    ensures Agrees(Apply(t, last).0, es + [last], id)
  {
    hide LossExceeded, Since, Equities, Equity, Breach, Watched;
    HistoryStep(es, last, id);
  }

  /**
   * The tables hold exactly the watched runs, each with its own cap, and as
   * baseline the equity of the first snapshot evaluated after its rails were
   * recorded.
   */
  lemma {:induction false} TablesReadHistory(es: seq<Event>, id: RunId)
    ensures Agrees(After(es), es, id)
  {
    if es != [] {
      hide Agrees, Since, Apply;
      var before, last := es[..|es| - 1], es[|es| - 1];
      assert es == before + [last];
      TablesReadHistory(before, id);
      if IsStart(last, id) || Since(before, id).None? {
        StartAgrees(After(before), before, last, id);
      } else {
        StepAgrees(After(before), before, last, id);
      }
    }
  }

  // ── When a run is stopped, event by event ──

  /** Sums of position results add up however the positions are split. */
  lemma {:induction false} SumSplits(a: seq<real>, b: seq<real>)
    ensures Sum(a + b) == Sum(a) + Sum(b)
    ensures |b| == 1 ==> Sum(b) == b[0]
  {
    if b == [] {
      assert a + b == a;
    } else {
      assert (a + b)[..|a + b| - 1] == a + b[..|b| - 1];
      SumSplits(a, b[..|b| - 1]);
    }
  }

  /** Cash and unrealized results have fallen by more than the cap from the first snapshot. */
  predicate Fallen(cap: int, first: Snapshot, now: Snapshot) {
    && cap > 0
    && now.cash + Sum(now.unrealized) < first.cash + Sum(first.unrealized) - cap as real
  }

  /** Event `i` recorded the run's rails, which no event since has recorded again or released. */
  predicate RailsFrom(es: seq<Event>, id: RunId, i: nat) {
    && i < |es| && es[i].Started? && es[i].id == id
    && forall k :: i < k < |es| ==> es[k] != Ended(id) && !(es[k].Started? && es[k].id == id)
  }

  /** Event `j` brought the first snapshot since `i` that found the run first active. */
  predicate FirstSnapshot(es: seq<Event>, id: RunId, i: nat, j: nat) {
    && i < j < |es| && Judged(es[j], id)
    && forall k :: i < k < j ==> !Judged(es[k], id)
  }

  lemma {:induction false} SinceIs(es: seq<Event>, id: RunId, i: nat)
    requires i < |es| && IsStart(es[i], id) && forall k :: i < k < |es| ==> !IsStart(es[k], id)
    ensures Since(es, id) == Some((es[i].cap, es[i + 1..]))
  {
    var n := |es| - 1;
    if i < n {
      SinceIs(es[..n], id, i);
      assert es[..n][i + 1..] + [es[n]] == es[i + 1..];
    } else {
      assert es[i + 1..] == [];
    }
  }

  lemma {:induction false} SinceSome(es: seq<Event>, id: RunId) returns (i: nat)
    requires Since(es, id).Some?
    ensures i < |es| && IsStart(es[i], id) && forall k :: i < k < |es| ==> !IsStart(es[k], id)
  {
    var n := |es| - 1;
    if IsStart(es[n], id) {
      i := n;
    } else {
      i := SinceSome(es[..n], id);
    }
  }

  function JudgedAt(es: seq<Event>, id: RunId): set<nat> {
    set k: nat | k < |es| && Judged(es[k], id)
  }

  lemma JudgedNext(es: seq<Event>, id: RunId)
    requires es != []
    ensures var n: nat := |es| - 1;
            && JudgedAt(es, id) == JudgedAt(es[..n], id) + (if Judged(es[n], id) then {n} else {})
            && forall k :: k in JudgedAt(es[..n], id) ==> k < n
  {
  }

  /** `at` lists the judged snapshots, whose equities are those of the stretch of events. */
  ghost predicate JudgedList(es: seq<Event>, id: RunId, at: seq<nat>) {
    && Lists(at, JudgedAt(es, id)) && |at| == |Equities(es, id)|
    && forall k :: 0 <= k < |at| ==>
                     at[k] < |es| && Judged(es[at[k]], id) && Equities(es, id)[k] == Equity(es[at[k]].snapshot)
  }

  /** The equities of a stretch of events are those of its judged snapshots, in order. */
  lemma {:induction false} EquitiesAt(es: seq<Event>, id: RunId) returns (at: seq<nat>)
    ensures JudgedList(es, id, at)
  {
    if es == [] {
      at := [];
    } else {
      hide Equity, JudgedAt, Lists;
      var n := |es| - 1;
      at := EquitiesAt(es[..n], id);
      JudgedNext(es, id);
      if Judged(es[n], id) {
        ListsNext(at, JudgedAt(es[..n], id), n);
        at := at + [n];
      }
    }
  }

  /** No snapshot after the first found the run fallen. */
  predicate NotYetFallen(es: seq<Event>, id: RunId, i: nat, j: nat)
    requires i < |es| && es[i].Started? && j < |es| && es[j].Account?
  {
    forall k :: j < k < |es| && Judged(es[k], id) ==> !Fallen(es[i].cap, es[j].snapshot, es[k].snapshot)
  }

  lemma BreachIsFallen(cap: int, first: Snapshot, now: Snapshot)
    ensures Breach(cap, Equity(now) - Equity(first)) <==> Fallen(cap, first, now)
  {
  }

  /** The first snapshot since event `i`, if there is one, and what came of the later ones. */
  lemma FirstSince(es: seq<Event>, id: RunId, i: nat) returns (j: nat)
    requires i < |es| && es[i].Started? && Equities(es[i + 1..], id) != []
    ensures FirstSnapshot(es, id, i, j)
    ensures Equities(es[i + 1..], id)[0] == Equity(es[j].snapshot)
    ensures LossExceeded(es[i].cap, Equities(es[i + 1..], id)) <==> !NotYetFallen(es, id, i, j)
  {
    var since := es[i + 1..];
    var at := EquitiesAt(since, id);
    j := i + 1 + at[0];
    LossIs(es, id, i, at);
    hide Equities, Equity, Fallen, Breach, Judged, LossExceeded, NotYetFallen;
    forall k | i < k < |es| && Judged(es[k], id) ensures k >= j {
      assert since[k - i - 1] == es[k] && k - i - 1 in JudgedAt(since, id) && k - i - 1 in at;
      var m :| 0 <= m < |at| && at[m] == k - i - 1;
      assert at[0] <= at[m];
    }
  }

  lemma LossIs(es: seq<Event>, id: RunId, i: nat, at: seq<nat>)
    requires i < |es| && es[i].Started? && at != [] && JudgedList(es[i + 1..], id, at)
    ensures var j := i + 1 + at[0];
            && j < |es| && es[j].Account?
            && (LossExceeded(es[i].cap, Equities(es[i + 1..], id)) <==> !NotYetFallen(es, id, i, j))
  {
    var since, equities := es[i + 1..], Equities(es[i + 1..], id);
    var j := i + 1 + at[0];
    assert es[j].Account?;
    hide Equities, Equity, Fallen, Breach, Judged;
    forall k | 0 < k < |at|
      ensures Breach(es[i].cap, equities[k] - equities[0])
              <==> Fallen(es[i].cap, es[j].snapshot, es[i + 1 + at[k]].snapshot)
    {
      BreachIsFallen(es[i].cap, es[j].snapshot, es[i + 1 + at[k]].snapshot);
    }
    if LossExceeded(es[i].cap, equities) {
      var k :| 0 < k < |equities| && Breach(es[i].cap, equities[k] - equities[0]);
      assert Judged(es[i + 1 + at[k]], id) && at[0] < at[k];
    }
    if !NotYetFallen(es, id, i, j) {
      var m :| j < m < |es| && Judged(es[m], id) && Fallen(es[i].cap, es[j].snapshot, es[m].snapshot);
      assert since[m - i - 1] == es[m] && m - i - 1 in JudgedAt(since, id) && m - i - 1 in at;
      var k :| 0 <= k < |at| && at[k] == m - i - 1;
      assert k > 0;
    }
  }

  lemma NoneJudged(es: seq<Event>, id: RunId, j: nat)
    requires j < |es| && Judged(es[j], id)
    ensures Equities(es, id) != []
  {
    var at := EquitiesAt(es, id);
    assert j in JudgedAt(es, id) && j in at;
  }

  lemma FirstIsUnique(es: seq<Event>, id: RunId, i: nat, j: nat, k: nat)
    requires FirstSnapshot(es, id, i, j) && FirstSnapshot(es, id, i, k)
    ensures j == k
  {
  }

  lemma StopsByTables(es: seq<Event>, active: seq<RunId>, snapshot: Snapshot, id: RunId)
    ensures StopsAt(es + [Account(active, snapshot)], id) <==>
            && active != [] && active[0] == id && Watched(es, id)
            && var (cap, since) := Since(es, id).value;
               Equities(since, id) != [] && Breach(cap, Equity(snapshot) - Equities(since, id)[0])
  {
    assert (es + [Account(active, snapshot)])[..|es|] == es;
    TablesReadHistory(es, id);
  }

  /** The run is watched, and this snapshot finds it fallen below its first one. */
  ghost predicate StopDue(es: seq<Event>, snapshot: Snapshot, id: RunId) {
    exists i: nat, j: nat ::
      && RailsFrom(es, id, i) && FirstSnapshot(es, id, i, j)
      && NotYetFallen(es, id, i, j) && Fallen(es[i].cap, es[j].snapshot, snapshot)
  }

  /**
   * A snapshot stops a run exactly when the run is the first active one, its rails were recorded
   * with a positive cap and not released since, and cash and unrealized results have now for the
   * first time fallen by more than the cap from the first snapshot judged since.
   */
  lemma StopsExactly(es: seq<Event>, active: seq<RunId>, snapshot: Snapshot, id: RunId)
    ensures StopsAt(es + [Account(active, snapshot)], id) <==>
            active != [] && active[0] == id && StopDue(es, snapshot, id)
  {
    StopsByTables(es, active, snapshot, id);
    hide StopsAt, StopDue, Watched, Equities, Equity, Breach;
    if StopDue(es, snapshot, id) {
      DueMeansWatched(es, snapshot, id);
    }
    if Watched(es, id) && Equities(Since(es, id).value.1, id) != [] {
      WatchedIsDueIff(es, snapshot, id);
    }
  }

  lemma WatchedIsDueIff(es: seq<Event>, snapshot: Snapshot, id: RunId)
    requires Watched(es, id) && Equities(Since(es, id).value.1, id) != []
    ensures var (cap, since) := Since(es, id).value;
            StopDue(es, snapshot, id) <==> Breach(cap, Equity(snapshot) - Equities(since, id)[0])
  {
    hide Equities, Equity, Breach, Fallen, LossExceeded, NotYetFallen, StopDue;
    var i := SinceSome(es, id);
    SinceIs(es, id, i);
    RailsAre(es, id, i);
    var j := FirstSince(es, id, i);
    BreachIsFallen(es[i].cap, es[j].snapshot, snapshot);
    hide FirstSnapshot, RailsFrom;
    StopDueIs(es, snapshot, id, i, j);
  }

  lemma StopDueIs(es: seq<Event>, snapshot: Snapshot, id: RunId, i: nat, j: nat)
    requires RailsFrom(es, id, i) && FirstSnapshot(es, id, i, j) && NotYetFallen(es, id, i, j)
    ensures StopDue(es, snapshot, id) <==> Fallen(es[i].cap, es[j].snapshot, snapshot)
  {
    if StopDue(es, snapshot, id) {
      StopDueAt(es, snapshot, id, i, j);
    }
  }

  lemma DueMeansWatched(es: seq<Event>, snapshot: Snapshot, id: RunId)
    requires StopDue(es, snapshot, id)
    ensures Watched(es, id) && Equities(Since(es, id).value.1, id) != []
  {
    var i: nat, j: nat :| RailsFrom(es, id, i) && FirstSnapshot(es, id, i, j)
                          && NotYetFallen(es, id, i, j) && Fallen(es[i].cap, es[j].snapshot, snapshot);
    hide Watched, Equities, Fallen, NotYetFallen;
    DueIsWatched(es, id, i, j);
  }

  lemma RailsAre(es: seq<Event>, id: RunId, i: nat)
    requires i < |es| && IsStart(es[i], id) && forall k :: i < k < |es| ==> !IsStart(es[k], id)
    ensures Ended(id) !in es[i + 1..] <==> RailsFrom(es, id, i)
  {
    if Ended(id) in es[i + 1..] {
      var k :| 0 <= k < |es[i + 1..]| && es[i + 1..][k] == Ended(id);
      assert es[i + 1 + k] == Ended(id);
    } else {
      forall k | i < k < |es| ensures es[k] != Ended(id) {
        assert es[i + 1..][k - i - 1] == es[k];
      }
    }
  }

  lemma StopDueAt(es: seq<Event>, snapshot: Snapshot, id: RunId, i: nat, j: nat)
    requires StopDue(es, snapshot, id) && RailsFrom(es, id, i) && FirstSnapshot(es, id, i, j)
    ensures NotYetFallen(es, id, i, j) && Fallen(es[i].cap, es[j].snapshot, snapshot)
  {
    var i': nat, j': nat :| RailsFrom(es, id, i') && FirstSnapshot(es, id, i', j')
                            && NotYetFallen(es, id, i', j') && Fallen(es[i'].cap, es[j'].snapshot, snapshot);
    assert i' == i;
    FirstIsUnique(es, id, i, j, j');
  }

  lemma DueIsWatched(es: seq<Event>, id: RunId, i: nat, j: nat)
    requires RailsFrom(es, id, i) && FirstSnapshot(es, id, i, j) && NotYetFallen(es, id, i, j)
    ensures Watched(es, id) && Since(es, id) == Some((es[i].cap, es[i + 1..])) && Equities(es[i + 1..], id) != []
  {
    SinceIs(es, id, i);
    RailsAre(es, id, i);
    assert es[i + 1..][j - i - 1] == es[j];
    NoneJudged(es[i + 1..], id, j - i - 1);
    var j' := FirstSince(es, id, i);
    FirstIsUnique(es, id, i, j, j');
    hide Equities, LossExceeded, NotYetFallen;
  }
}
