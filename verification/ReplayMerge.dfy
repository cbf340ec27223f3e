/** The merge of several bar providers into one event stream, as a function of the unread bars. */
module ReplayMerge {
  import opened ReplayReducer

  /** One instrument's bars and how many of them have been read. */
  datatype Track = Track(id: string, data: seq<Bar>, index: nat)

  ghost predicate WellFormed(tracks: seq<Track>) {
    forall k :: 0 <= k < |tracks| ==> tracks[k].index <= |tracks[k].data|
  }

  predicate Pending(t: Track) {
    t.index < |t.data|
  }

  // ── Which providers are due ──

  /** A provider that still has a bar: the bar's time, and the provider's position. */
  datatype Head = Head(ts: nat, k: nat)

  /** The heads of the first `n` providers, in provider order. */
  function HeadsUpTo(tracks: seq<Track>, n: nat): seq<Head>
    requires n <= |tracks|
  {
    if n == 0 then []
    else
      var t := tracks[n - 1];
      HeadsUpTo(tracks, n - 1) + if Pending(t) then [Head(t.data[t.index].ts, n - 1)] else []
  }

  function Heads(tracks: seq<Track>): seq<Head> {
    HeadsUpTo(tracks, |tracks|)
  }

  /** The positions of the heads at time `ts`, in order. */
  function AtTime(heads: seq<Head>, ts: nat): seq<nat> {
    if heads == [] then []
    else
      var rest := AtTime(heads[..|heads| - 1], ts);
      if heads[|heads| - 1].ts == ts then rest + [heads[|heads| - 1].k] else rest
  }

  ghost predicate Due(tracks: seq<Track>, ts: nat, k: nat) {
    k < |tracks| && Pending(tracks[k]) && tracks[k].data[tracks[k].index].ts == ts
  }

  lemma {:induction false} HeadsComplete(tracks: seq<Track>, n: nat)
    requires n <= |tracks|
    ensures forall h :: h in HeadsUpTo(tracks, n) <==> h.k < n && Due(tracks, h.ts, h.k)
    ensures forall i, j :: 0 <= i < j < |HeadsUpTo(tracks, n)| ==> HeadsUpTo(tracks, n)[i].k < HeadsUpTo(tracks, n)[j].k
  {
    if n > 0 {
      HeadsComplete(tracks, n - 1);
      var rest, t := HeadsUpTo(tracks, n - 1), tracks[n - 1];
      forall i | 0 <= i < |rest| ensures rest[i].k < n - 1 {
        assert rest[i] in rest;
      }
      if Pending(t) {
        var h := Head(t.data[t.index].ts, n - 1);
        assert forall x :: x in rest + [h] <==> x in rest || x == h;
      }
    }
  }

  lemma {:induction false} AtTimeMembers(heads: seq<Head>, ts: nat)
    requires forall i, j :: 0 <= i < j < |heads| ==> heads[i].k < heads[j].k
    ensures forall k :: k in AtTime(heads, ts) <==> Head(ts, k) in heads
    ensures forall i, j :: 0 <= i < j < |AtTime(heads, ts)| ==> AtTime(heads, ts)[i] < AtTime(heads, ts)[j]
  {
    if heads != [] {
      var init, h := heads[..|heads| - 1], heads[|heads| - 1];
      AtTimeMembers(init, ts);
      assert heads == init + [h];
      var rest := AtTime(init, ts);
      forall i | 0 <= i < |rest| ensures rest[i] < h.k {
        assert rest[i] in rest;
        assert Head(ts, rest[i]) in init;
      }
    }
  }

  lemma DuePositions(tracks: seq<Track>, ts: nat)
    ensures forall k :: k in AtTime(Heads(tracks), ts) <==> Due(tracks, ts, k)
    ensures forall i, j :: 0 <= i < j < |AtTime(Heads(tracks), ts)| ==>
              AtTime(Heads(tracks), ts)[i] < AtTime(Heads(tracks), ts)[j]
    ensures AllPending(tracks, AtTime(Heads(tracks), ts))
  {
    HeadsComplete(tracks, |tracks|);
    AtTimeMembers(Heads(tracks), ts);
    var ks := AtTime(Heads(tracks), ts);
    forall j | 0 <= j < |ks| ensures ks[j] < |tracks| && Pending(tracks[ks[j]]) {
      assert ks[j] in ks;
    }
  }

  /** The least time at the head of any provider. */
  function MinTime(heads: seq<Head>): (ts: nat)
    requires heads != []
    ensures exists h :: h in heads && h.ts == ts
    ensures forall h :: h in heads ==> ts <= h.ts
  {
    if |heads| == 1 then heads[0].ts
    else
      var rest := MinTime(heads[1..]);
      assert heads == [heads[0]] + heads[1..];
      if heads[0].ts <= rest then heads[0].ts else rest
  }

  // ── One advance ──

  function Kline(id: string, b: Bar): Event {
    KlineUpdate(Ms(b.ts), b.close, b.open, b.high, b.low, Ms(b.ts), id, b.volume)
  }

  /** The primary is emitted twice: untagged for the global windows, then under its own id. */
  function Emit(primary: string, id: string, b: Bar): seq<Event> {
    if id == primary then [Kline("", b), Kline(id, b)] else [Kline(id, b)]
  }

  ghost predicate AllPending(tracks: seq<Track>, ks: seq<nat>) {
    forall j :: 0 <= j < |ks| ==> ks[j] < |tracks| && Pending(tracks[ks[j]])
  }

  function EmitAll(tracks: seq<Track>, primary: string, ks: seq<nat>): seq<Event>
    requires AllPending(tracks, ks)
  {
    if ks == [] then []
    else
      var t := tracks[ks[|ks| - 1]];
      EmitAll(tracks, primary, ks[..|ks| - 1]) + Emit(primary, t.id, t.data[t.index])
  }

  /** Reads one bar of every provider listed. */
  function Pop(tracks: seq<Track>, ks: seq<nat>): (r: seq<Track>)
    ensures |r| == |tracks|
  {
    seq(|tracks|, k requires 0 <= k < |tracks| =>
      if k in ks then tracks[k].(index := tracks[k].index + 1) else tracks[k])
  }

  datatype Merge = Merge(tracks: seq<Track>, primary: string, rs: View, log: seq<Event>, exhausted: bool)

  function GroupEvents(m: Merge, ts: nat, ks: seq<nat>): seq<Event>
    requires AllPending(m.tracks, ks)
  {
    [ReplayTimeUpdated(Ms(ts))] + EmitAll(m.tracks, m.primary, ks)
  }

  /** Reads and reduces the bars of the providers listed, under one clock event. */
  function Deliver(m: Merge, ts: nat, ks: seq<nat>): Merge
    requires AllPending(m.tracks, ks)
  {
    var events := GroupEvents(m, ts, ks);
    Merge(Pop(m.tracks, ks), m.primary, Fold(m.rs, events), m.log + events, Heads(Pop(m.tracks, ks)) == [])
  }

  function Advance(m: Merge): Merge {
    if Heads(m.tracks) == [] then m.(exhausted := true)
    else
      var ts := MinTime(Heads(m.tracks));
      DuePositions(m.tracks, ts);
      Deliver(m, ts, AtTime(Heads(m.tracks), ts))
  }

  function AdvanceN(m: Merge, n: nat): Merge {
    if n == 0 then m else Advance(AdvanceN(m, n - 1))
  }

  ghost predicate Ascending(ks: seq<nat>) {
    forall i, j :: 0 <= i < j < |ks| ==> ks[i] < ks[j]
  }

  /** `ks` are, in order, all the providers whose next bar is at `ts`, the least pending time. */
  ghost predicate IsGroup(tracks: seq<Track>, ts: nat, ks: seq<nat>) {
    && AllPending(tracks, ks) && Ascending(ks) && ks != []
    && (forall k :: k in ks <==> Due(tracks, ts, k))
    && (forall k :: 0 <= k < |tracks| && Pending(tracks[k]) ==> ts <= tracks[k].data[tracks[k].index].ts)
  }

  lemma AdvanceGroup(m: Merge) returns (ts: nat, ks: seq<nat>)
    requires Heads(m.tracks) != []
    ensures IsGroup(m.tracks, ts, ks) && Advance(m) == Deliver(m, ts, ks)
  {
    ts := MinTime(Heads(m.tracks));
    ks := AtTime(Heads(m.tracks), ts);
    DuePositions(m.tracks, ts);
    HeadsComplete(m.tracks, |m.tracks|);
    var h :| h in Heads(m.tracks) && h.ts == ts;
    assert h.k in ks;
    forall k | 0 <= k < |m.tracks| && Pending(m.tracks[k]) ensures ts <= m.tracks[k].data[m.tracks[k].index].ts {
      assert Head(m.tracks[k].data[m.tracks[k].index].ts, k) in Heads(m.tracks);
    }
  }

  // ── Termination ──

  function Unread(tracks: seq<Track>): nat {
    if tracks == [] then 0
    else
      var t := tracks[|tracks| - 1];
      Unread(tracks[..|tracks| - 1]) + if Pending(t) then |t.data| - t.index else 0
  }

  lemma {:induction false} UnreadPop(tracks: seq<Track>, ks: seq<nat>)
    requires forall k :: k in ks && k < |tracks| ==> Pending(tracks[k])
    ensures Unread(Pop(tracks, ks)) <= Unread(tracks)
    ensures (exists k :: k in ks && k < |tracks|) ==> Unread(Pop(tracks, ks)) < Unread(tracks)
  {
    if tracks != [] {
      UnreadPop(tracks[..|tracks| - 1], ks);
      assert Pop(tracks, ks)[..|tracks| - 1] == Pop(tracks[..|tracks| - 1], ks);
    }
  }

  lemma {:induction false} UnreadZero(tracks: seq<Track>)
    ensures Unread(tracks) == 0 <==> forall k :: 0 <= k < |tracks| ==> !Pending(tracks[k])
  {
    if tracks != [] {
      UnreadZero(tracks[..|tracks| - 1]);
    }
  }

  lemma HeadsEmpty(tracks: seq<Track>)
    ensures Heads(tracks) == [] <==> Unread(tracks) == 0
  {
    HeadsComplete(tracks, |tracks|);
    UnreadZero(tracks);
    if Heads(tracks) != [] {
      assert Heads(tracks)[0] in Heads(tracks);
    } else {
      forall k: nat | k < |tracks| ensures !Pending(tracks[k]) {
        var h := Head(if Pending(tracks[k]) then tracks[k].data[tracks[k].index].ts else 0, k);
        assert h !in Heads(tracks);
      }
    }
  }

  // ── What an advance logs ──

  /** The update of a bar under an id, written out. */
  predicate IsUpdate(e: Event, id: string, b: Bar) {
    e == KlineUpdate(b.ts / 1_000_000, b.close, b.open, b.high, b.low, b.ts / 1_000_000, id, b.volume)
  }

  /**
   * Provider by provider, `ends` counts the updates up to and with its own: each emits one under its
   * own id, and the primary an untagged one just before.
   */
  ghost predicate Emitted(tracks: seq<Track>, primary: string, ks: seq<nat>, es: seq<Event>, ends: seq<nat>)
    requires AllPending(tracks, ks)
  {
    && |ends| == |ks| && |es| == (if ks == [] then 0 else ends[|ks| - 1])
    && forall i :: 0 <= i < |ks| ==> EmittedAt(tracks, primary, ks, es, ends, i)
  }

  ghost predicate EmittedAt(
      tracks: seq<Track>, primary: string, ks: seq<nat>, es: seq<Event>, ends: seq<nat>, i: nat)
    requires AllPending(tracks, ks) && i < |ks| == |ends|
  {
    var t, end := tracks[ks[i]], ends[i];
    && end == (if i == 0 then 0 else ends[i - 1]) + (if t.id == primary then 2 else 1) && end <= |es|
    && IsUpdate(es[end - 1], t.id, t.data[t.index])
    && (t.id == primary ==> IsUpdate(es[end - 2], "", t.data[t.index]))
  }

  lemma {:induction false} EmitsInOrder(tracks: seq<Track>, primary: string, ks: seq<nat>) returns (ends: seq<nat>)
    requires AllPending(tracks, ks)
    ensures Emitted(tracks, primary, ks, EmitAll(tracks, primary, ks), ends)
  {
    if ks == [] {
      ends := [];
    } else {
      var n := |ks| - 1;
      var t := tracks[ks[n]];
      var before := EmitsInOrder(tracks, primary, ks[..n]);
      ends := before + [|EmitAll(tracks, primary, ks[..n])| + |Emit(primary, t.id, t.data[t.index])|];
      EmitsNext(tracks, primary, ks, EmitAll(tracks, primary, ks[..n]), before);
    }
  }

  lemma EmitsNext(tracks: seq<Track>, primary: string, ks: seq<nat>, es: seq<Event>, ends: seq<nat>)
    requires ks != [] && AllPending(tracks, ks) && Emitted(tracks, primary, ks[..|ks| - 1], es, ends)
    ensures var t := tracks[ks[|ks| - 1]];
            var last := Emit(primary, t.id, t.data[t.index]);
            Emitted(tracks, primary, ks, es + last, ends + [|es| + |last|])
  {
    var n := |ks| - 1;
    var t := tracks[ks[n]];
    var last := Emit(primary, t.id, t.data[t.index]);
    LastEmits(primary, t.id, t.data[t.index]);
    hide IsUpdate, Emit;
    var more, all := ends + [|es| + |last|], es + last;
    forall i | 0 <= i < n ensures EmittedAt(tracks, primary, ks, all, more, i) {
      assert EmittedAt(tracks, primary, ks[..n], es, ends, i);
    }
    assert n > 0 ==> more[n - 1] == ends[n - 1];
    assert all[|all| - 1] == last[|last| - 1];
    assert t.id == primary ==> all[|all| - 2] == last[0];
    assert EmittedAt(tracks, primary, ks, all, more, n);
  }

  lemma LastEmits(primary: string, id: string, b: Bar)
    ensures |Emit(primary, id, b)| == if id == primary then 2 else 1
    ensures IsUpdate(Emit(primary, id, b)[|Emit(primary, id, b)| - 1], id, b)
    ensures id == primary ==> IsUpdate(Emit(primary, id, b)[0], "", b)
  {
  }

  /** One advance logs the clock, then the updates of the due providers in provider order. */
  lemma AdvanceLogs(m: Merge) returns (ts: nat, ks: seq<nat>, es: seq<Event>, ends: seq<nat>)
    requires Unread(m.tracks) > 0
    ensures IsGroup(m.tracks, ts, ks) && Emitted(m.tracks, m.primary, ks, es, ends)
    ensures Advance(m).log == m.log + [ReplayTimeUpdated(ts / 1_000_000)] + es
  {
    HeadsEmpty(m.tracks);
    hide Heads, Unread, Emitted, IsGroup, EmitAll, Advance, Deliver;
    ts, ks := AdvanceGroup(m);
    GroupPending(m.tracks, ts, ks);
    es := EmitAll(m.tracks, m.primary, ks);
    ends := EmitsInOrder(m.tracks, m.primary, ks);
    DeliverLogs(m, ts, ks);
  }

  lemma DeliverLogs(m: Merge, ts: nat, ks: seq<nat>)
    requires AllPending(m.tracks, ks)
    ensures Deliver(m, ts, ks).log
            == m.log + [ReplayTimeUpdated(ts / 1_000_000)] + EmitAll(m.tracks, m.primary, ks)
  {
    hide AllPending, EmitAll, Fold;
    var clock := [ReplayTimeUpdated(ts / 1_000_000)];
    assert m.log + (clock + EmitAll(m.tracks, m.primary, ks)) == m.log + clock + EmitAll(m.tracks, m.primary, ks);
  }

  lemma GroupPending(tracks: seq<Track>, ts: nat, ks: seq<nat>)
    requires IsGroup(tracks, ts, ks)
    ensures AllPending(tracks, ks)
  {
  }

  /** An advance with anything left to read reads something. */
  lemma AdvanceReads(m: Merge)
    requires Unread(m.tracks) > 0
    ensures Unread(Advance(m).tracks) < Unread(m.tracks)
  {
    HeadsEmpty(m.tracks);
    var ts, ks := AdvanceGroup(m);
    assert ks[0] in ks;
    UnreadPop(m.tracks, ks);
  }

  /** The exhausted flag an advance leaves is exact. */
  lemma ExhaustedIff(m: Merge)
    ensures Advance(m).exhausted <==> Unread(Advance(m).tracks) == 0
  {
    HeadsEmpty(m.tracks);
    HeadsEmpty(Advance(m).tracks);
  }

  lemma AdvanceIdle(m: Merge)
    requires Heads(m.tracks) == []
    ensures Advance(m) == m.(exhausted := true)
  {
  }

  lemma AdvanceAtEnd(m: Merge)
    requires Unread(m.tracks) == 0
    ensures Advance(m) == m.(exhausted := true)
  {
    HeadsEmpty(m.tracks);
  }

  lemma {:induction false} MergeTerminates(m: Merge, n: nat)
    ensures Unread(AdvanceN(m, n).tracks) <= if n <= Unread(m.tracks) then Unread(m.tracks) - n else 0
    ensures n > 0 && n >= Unread(m.tracks) ==> AdvanceN(m, n).exhausted
  {
    hide Advance, Heads, Unread;
    if n > 0 {
      MergeTerminates(m, n - 1);
      var before := AdvanceN(m, n - 1);
      if Unread(before.tracks) > 0 {
        AdvanceReads(before);
      } else {
        AdvanceAtEnd(before);
      }
      ExhaustedIff(before);
    }
  }

  // ── Completeness ──

  /** The bar updates logged under `id`. */
  function Tagged(events: seq<Event>, id: string): seq<Event> {
    if events == [] then []
    else
      var e := events[|events| - 1];
      Tagged(events[..|events| - 1], id) + if e.KlineUpdate? && e.instrumentId == id then [e] else []
  }

  lemma {:induction false} TaggedConcat(a: seq<Event>, b: seq<Event>, id: string)
    ensures Tagged(a + b, id) == Tagged(a, id) + Tagged(b, id)
  {
    if b == [] {
      assert a + b == a;
    } else {
      TaggedConcat(a, b[..|b| - 1], id);
      assert (a + b)[..|a + b| - 1] == a + b[..|b| - 1];
    }
  }

  function Klines(id: string, bars: seq<Bar>): (events: seq<Event>)
    ensures |events| == |bars|
  {
    seq(|bars|, i requires 0 <= i < |bars| => Kline(id, bars[i]))
  }

  ghost predicate NamedApart(tracks: seq<Track>) {
    && (forall k :: 0 <= k < |tracks| ==> tracks[k].id != "")
    && (forall i, j :: 0 <= i < j < |tracks| ==> tracks[i].id != tracks[j].id)
  }

  /** Emitting a group logs exactly one tagged update for each provider in it. */
  lemma {:induction false} TaggedEmitAll(tracks: seq<Track>, primary: string, ks: seq<nat>, k: nat)
    requires NamedApart(tracks) && Ascending(ks) && AllPending(tracks, ks)
    requires k < |tracks| && (k in ks ==> Pending(tracks[k]))
    ensures Tagged(EmitAll(tracks, primary, ks), tracks[k].id)
            == if k in ks then [Kline(tracks[k].id, tracks[k].data[tracks[k].index])] else []
  {
    if ks != [] {
      hide Tagged, Emit, Kline, NamedApart, Ascending;
      var init, j := ks[..|ks| - 1], ks[|ks| - 1];
      AscendingInit(ks);
      NamesApart(tracks, j, k);
      TaggedEmitAll(tracks, primary, init, k);
      var bar := tracks[j].data[tracks[j].index];
      TaggedConcat(EmitAll(tracks, primary, init), Emit(primary, tracks[j].id, bar), tracks[k].id);
      TaggedEmit(primary, tracks[j].id, bar, tracks[k].id);
    }
  }

  lemma AscendingInit(ks: seq<nat>)
    requires Ascending(ks) && ks != []
    ensures var init, j := ks[..|ks| - 1], ks[|ks| - 1];
            ks == init + [j] && Ascending(init) && j !in init
  {
  }

  lemma NamesApart(tracks: seq<Track>, j: nat, k: nat)
    requires NamedApart(tracks) && j < |tracks| && k < |tracks|
    ensures tracks[k].id != "" && (tracks[j].id == tracks[k].id <==> j == k)
  {
  }

  lemma TaggedOne(e: Event, id: string)
    ensures Tagged([e], id) == if e.KlineUpdate? && e.instrumentId == id then [e] else []
  {
    assert [e][..0] == [];
  }

  lemma TaggedEmit(primary: string, id: string, b: Bar, wanted: string)
    requires wanted != ""
    ensures Tagged(Emit(primary, id, b), wanted) == if id == wanted then [Kline(id, b)] else []
  {
    TaggedOne(Kline(id, b), wanted);
    if id == primary {
      assert Emit(primary, id, b) == [Kline("", b)] + [Kline(id, b)];
      TaggedOne(Kline("", b), wanted);
      TaggedConcat([Kline("", b)], [Kline(id, b)], wanted);
    }
  }

  /** Advancing keeps ids, data and well-formedness, and only moves read positions forward. */
  ghost predicate SameTracks(a: seq<Track>, b: seq<Track>) {
    && |a| == |b| && WellFormed(b)
    && forall k :: 0 <= k < |a| ==> a[k].id == b[k].id && a[k].data == b[k].data && a[k].index <= b[k].index
  }

  lemma PopKeepsTracks(start: seq<Track>, tracks: seq<Track>, ks: seq<nat>)
    requires SameTracks(start, tracks) && AllPending(tracks, ks)
    ensures SameTracks(start, Pop(tracks, ks))
  {
  }

  lemma StepKeepsTracks(start: seq<Track>, m: Merge)
    requires SameTracks(start, m.tracks)
    ensures SameTracks(start, Advance(m).tracks) && Advance(m).primary == m.primary
  {
    if Heads(m.tracks) != [] {
      var ts, ks := AdvanceGroup(m);
      PopKeepsTracks(start, m.tracks, ks);
    }
  }

  lemma {:induction false} AdvanceKeepsTracks(m: Merge, n: nat)
    requires WellFormed(m.tracks)
    ensures SameTracks(m.tracks, AdvanceN(m, n).tracks)
    ensures AdvanceN(m, n).primary == m.primary
  {
    hide Advance;
    if n > 0 {
      AdvanceKeepsTracks(m, n - 1);
      StepKeepsTracks(m.tracks, AdvanceN(m, n - 1));
    }
  }

  /** What one delivered group adds to the log under the id of provider `k`. */
  lemma TaggedDeliver(m: Merge, ts: nat, ks: seq<nat>, k: nat)
    requires NamedApart(m.tracks) && IsGroup(m.tracks, ts, ks) && k < |m.tracks|
    ensures var t := m.tracks[k];
            Tagged(Deliver(m, ts, ks).log, t.id)
            == Tagged(m.log, t.id) + if Due(m.tracks, ts, k) then [Kline(t.id, t.data[t.index])] else []
    ensures Deliver(m, ts, ks).tracks == Pop(m.tracks, ks)
    ensures Pop(m.tracks, ks)[k].index == m.tracks[k].index + if Due(m.tracks, ts, k) then 1 else 0
  {
    hide Heads, Fold, EmitAll, Tagged;
    var id := m.tracks[k].id;
    TaggedEmitAll(m.tracks, m.primary, ks, k);
    TaggedOne(ReplayTimeUpdated(Ms(ts)), id);
    TaggedConcat([ReplayTimeUpdated(Ms(ts))], EmitAll(m.tracks, m.primary, ks), id);
    TaggedConcat(m.log, GroupEvents(m, ts, ks), id);
  }

  /** The log holds, under each id, what was there at `start` and the bars read since. */
  ghost predicate LoggedSince(start: Merge, m: Merge, k: nat)
    requires k < |start.tracks| && SameTracks(start.tracks, m.tracks)
  {
    var t := start.tracks[k];
    Tagged(m.log, t.id) == Tagged(start.log, t.id) + Klines(t.id, t.data[t.index..m.tracks[k].index])
  }

  lemma LoggedStep(start: Merge, m: Merge, k: nat)
    requires NamedApart(start.tracks) && k < |start.tracks| && SameTracks(start.tracks, m.tracks)
    requires LoggedSince(start, m, k)
    ensures SameTracks(start.tracks, Advance(m).tracks) && LoggedSince(start, Advance(m), k)
  {
    hide Tagged, Heads, Klines, Advance, Deliver, Pop;
    StepKeepsTracks(start.tracks, m);
    if Heads(m.tracks) != [] {
      var ts, ks := AdvanceGroup(m);
      TaggedDeliver(m, ts, ks, k);
      KlinesExtend(start.tracks[k], m.tracks[k].index);
    } else {
      AdvanceIdle(m);
    }
  }

  /**
   * Merge completeness: whatever the order of bars inside the providers, the updates logged under
   * an instrument's id are exactly the bars read since, once each and in order.
   */
  lemma {:induction false} LogIsComplete(m: Merge, n: nat, k: nat)
    requires WellFormed(m.tracks) && NamedApart(m.tracks) && k < |m.tracks|
    ensures SameTracks(m.tracks, AdvanceN(m, n).tracks) && LoggedSince(m, AdvanceN(m, n), k)
  {
    hide Advance, Tagged, Klines;
    if n > 0 {
      LogIsComplete(m, n - 1, k);
      LoggedStep(m, AdvanceN(m, n - 1), k);
    }
  }

  lemma KlinesExtend(t: Track, j: nat)
    requires t.index <= j <= |t.data|
    ensures j < |t.data| ==>
              Klines(t.id, t.data[t.index..j + 1]) == Klines(t.id, t.data[t.index..j]) + [Kline(t.id, t.data[j])]
  {
  }

  /** Advancing as often as there are unread bars logs every one of them. */
  lemma MergeComplete(m: Merge, n: nat, k: nat)
    requires WellFormed(m.tracks) && NamedApart(m.tracks) && k < |m.tracks| && n >= Unread(m.tracks)
    ensures Tagged(AdvanceN(m, n).log, m.tracks[k].id)
            == Tagged(m.log, m.tracks[k].id) + Klines(m.tracks[k].id, m.tracks[k].data[m.tracks[k].index..])
  {
    hide Advance, Tagged, Klines;
    LogIsComplete(m, n, k);
    MergeTerminates(m, n);
    AllRead(m.tracks, AdvanceN(m, n).tracks, k);
    assert m.tracks[k].data[m.tracks[k].index..|m.tracks[k].data|] == m.tracks[k].data[m.tracks[k].index..];
  }

  lemma AllRead(start: seq<Track>, tracks: seq<Track>, k: nat)
    requires SameTracks(start, tracks) && Unread(tracks) == 0 && k < |start|
    ensures tracks[k].index == |start[k].data|
  {
    UnreadZero(tracks);
  }

  /** A logged update, field by field. */
  lemma KlineFields(id: string, bars: seq<Bar>, i: nat)
    requires i < |bars|
    ensures var b := bars[i];
            Klines(id, bars)[i]
            == KlineUpdate(b.ts / 1_000_000, b.close, b.open, b.high, b.low, b.ts / 1_000_000, id, b.volume)
  {
  }

  /** A group logs one untagged update for the primary, if it is due. */
  lemma {:induction false} UntaggedEmitAll(tracks: seq<Track>, primary: string, ks: seq<nat>, kp: nat)
    requires NamedApart(tracks) && Ascending(ks) && AllPending(tracks, ks)
    requires kp < |tracks| && tracks[kp].id == primary && (kp in ks ==> Pending(tracks[kp]))
    ensures Tagged(EmitAll(tracks, primary, ks), "")
            == if kp in ks then [Kline("", tracks[kp].data[tracks[kp].index])] else []
  {
    if ks != [] {
      hide Tagged, Emit, Kline, NamedApart, Ascending;
      var init, j := ks[..|ks| - 1], ks[|ks| - 1];
      AscendingInit(ks);
      NamesApart(tracks, j, kp);
      NamesApart(tracks, j, j);
      UntaggedEmitAll(tracks, primary, init, kp);
      var bar := tracks[j].data[tracks[j].index];
      TaggedConcat(EmitAll(tracks, primary, init), Emit(primary, tracks[j].id, bar), "");
      UntaggedEmit(primary, tracks[j].id, bar);
    }
  }

  lemma UntaggedEmit(primary: string, id: string, b: Bar)
    requires id != ""
    ensures Tagged(Emit(primary, id, b), "") == if id == primary then [Kline("", b)] else []
  {
    TaggedOne(Kline(id, b), "");
    if id == primary {
      assert Emit(primary, id, b) == [Kline("", b)] + [Kline(id, b)];
      TaggedOne(Kline("", b), "");
      TaggedConcat([Kline("", b)], [Kline(id, b)], "");
    }
  }

  lemma UntaggedDeliver(m: Merge, ts: nat, ks: seq<nat>, kp: nat)
    requires NamedApart(m.tracks) && IsGroup(m.tracks, ts, ks) && kp < |m.tracks| && m.tracks[kp].id == m.primary
    ensures var t := m.tracks[kp];
            Tagged(Deliver(m, ts, ks).log, "")
            == Tagged(m.log, "") + if Due(m.tracks, ts, kp) then [Kline("", t.data[t.index])] else []
    ensures Deliver(m, ts, ks).tracks == Pop(m.tracks, ks)
    ensures Pop(m.tracks, ks)[kp].index == m.tracks[kp].index + if Due(m.tracks, ts, kp) then 1 else 0
  {
    hide Heads, Fold, EmitAll, Tagged;
    UntaggedEmitAll(m.tracks, m.primary, ks, kp);
    TaggedOne(ReplayTimeUpdated(Ms(ts)), "");
    TaggedConcat([ReplayTimeUpdated(Ms(ts))], EmitAll(m.tracks, m.primary, ks), "");
    TaggedConcat(m.log, GroupEvents(m, ts, ks), "");
  }

  lemma UntaggedStep(start: Merge, m: Merge, kp: nat)
    requires NamedApart(start.tracks) && kp < |start.tracks| && SameTracks(start.tracks, m.tracks)
    requires start.tracks[kp].id == m.primary
    requires Tagged(m.log, "")
             == Tagged(start.log, "") + Klines("", start.tracks[kp].data[start.tracks[kp].index..m.tracks[kp].index])
    ensures SameTracks(start.tracks, Advance(m).tracks)
    ensures Tagged(Advance(m).log, "")
            == Tagged(start.log, "")
               + Klines("", start.tracks[kp].data[start.tracks[kp].index..Advance(m).tracks[kp].index])
  {
    hide Tagged, Heads, Klines, Advance, Deliver, Pop;
    StepKeepsTracks(start.tracks, m);
    if Heads(m.tracks) != [] {
      var ts, ks := AdvanceGroup(m);
      UntaggedDeliver(m, ts, ks, kp);
      KlinesExtend(start.tracks[kp].(id := ""), m.tracks[kp].index);
    } else {
      AdvanceIdle(m);
    }
  }

  /** Beside the tagged updates the log holds one untagged update for each bar the primary has read since. */
  lemma {:induction false} UntaggedIsPrimary(m: Merge, n: nat, kp: nat)
    requires WellFormed(m.tracks) && NamedApart(m.tracks) && kp < |m.tracks| && m.tracks[kp].id == m.primary
    ensures SameTracks(m.tracks, AdvanceN(m, n).tracks)
    ensures Tagged(AdvanceN(m, n).log, "")
            == Tagged(m.log, "")
               + Klines("", m.tracks[kp].data[m.tracks[kp].index..AdvanceN(m, n).tracks[kp].index])
  {
    hide Advance, Tagged, Klines, NamedApart;
    AdvanceKeepsTracks(m, n);
    if n > 0 {
      UntaggedIsPrimary(m, n - 1, kp);
      AdvanceKeepsTracks(m, n - 1);
      UntaggedStep(m, AdvanceN(m, n - 1), kp);
    } else {
      NoKlines(m.tracks[kp]);
    }
  }

  lemma NoKlines(t: Track)
    requires t.index <= |t.data|
    ensures Klines("", t.data[t.index..t.index]) == []
  {
  }

  // ── Order ──

  ghost predicate TimeOrdered(bars: seq<Bar>) {
    forall i, j :: 0 <= i < j < |bars| ==> bars[i].ts <= bars[j].ts
  }

  ghost predicate StrictlyOrdered(bars: seq<Bar>) {
    forall i, j :: 0 <= i < j < |bars| ==> bars[i].ts < bars[j].ts
  }

  ghost predicate AllOrdered(tracks: seq<Track>) {
    forall k :: 0 <= k < |tracks| ==> TimeOrdered(tracks[k].data)
  }

  /** Every unread bar lies at or after `ts`. */
  ghost predicate NoneBefore(tracks: seq<Track>, ts: nat) {
    forall k, i :: 0 <= k < |tracks| && tracks[k].index <= i < |tracks[k].data| ==> ts <= tracks[k].data[i].ts
  }

  lemma GroupIsFirst(tracks: seq<Track>, ts: nat, ks: seq<nat>)
    requires AllOrdered(tracks) && IsGroup(tracks, ts, ks)
    ensures NoneBefore(tracks, ts)
  {
    forall k, i | 0 <= k < |tracks| && tracks[k].index <= i < |tracks[k].data| ensures ts <= tracks[k].data[i].ts {
      assert Pending(tracks[k]);
    }
  }

  function Clocks(events: seq<Event>): seq<int> {
    if events == [] then []
    else
      var e := events[|events| - 1];
      Clocks(events[..|events| - 1]) + if e.ReplayTimeUpdated? then [e.tsMs] else []
  }

  lemma {:induction false} ClocksConcat(a: seq<Event>, b: seq<Event>)
    ensures Clocks(a + b) == Clocks(a) + Clocks(b)
  {
    if b == [] {
      assert a + b == a;
    } else {
      ClocksConcat(a, b[..|b| - 1]);
      assert (a + b)[..|a + b| - 1] == a + b[..|b| - 1];
    }
  }

  lemma {:induction false} NoClocks(events: seq<Event>)
    requires forall e :: e in events ==> e.KlineUpdate?
    ensures Clocks(events) == []
  {
    if events != [] {
      NoClocks(events[..|events| - 1]);
      assert events[|events| - 1] in events;
    }
  }

  /** All events of a group are bar updates at the group's time. */
  lemma {:induction false} EmitAllAt(tracks: seq<Track>, primary: string, ts: nat, ks: seq<nat>)
    requires AllPending(tracks, ks)
    requires forall j :: 0 <= j < |ks| ==> tracks[ks[j]].data[tracks[ks[j]].index].ts == ts
    ensures forall e :: e in EmitAll(tracks, primary, ks) ==> e.KlineUpdate? && e.tsMs == Ms(ts)
  {
    if ks != [] {
      EmitAllAt(tracks, primary, ts, ks[..|ks| - 1]);
    }
  }

  lemma ClocksOfDeliver(m: Merge, ts: nat, ks: seq<nat>)
    requires IsGroup(m.tracks, ts, ks)
    ensures Clocks(Deliver(m, ts, ks).log) == Clocks(m.log) + [Ms(ts) as int]
  {
    hide Fold, Heads, EmitAll, Pop;
    var clock := ReplayTimeUpdated(Ms(ts));
    assert forall j :: 0 <= j < |ks| ==> ks[j] in ks;
    EmitAllAt(m.tracks, m.primary, ts, ks);
    NoClocks(EmitAll(m.tracks, m.primary, ks));
    assert [clock][..0] == [];
    ClocksConcat([clock], EmitAll(m.tracks, m.primary, ks));
    ClocksConcat(m.log, GroupEvents(m, ts, ks));
  }

  ghost predicate NeverBack(clocks: seq<int>) {
    forall i, j :: 0 <= i < j < |clocks| ==> clocks[i] <= clocks[j]
  }

  /** What was logged from `from` on is in order, and no unread bar lies before the bound it has reached. */
  ghost predicate ClockBound(m: Merge, from: nat, t: nat) {
    && from <= |m.log|
    && NeverBack(Clocks(m.log[from..])) && NoneBefore(m.tracks, t)
    && forall c :: c in Clocks(m.log[from..]) ==> c <= Ms(t)
  }

  lemma ClockBoundStep(m: Merge, from: nat, t: nat, ts: nat, ks: seq<nat>)
    requires AllOrdered(m.tracks) && ClockBound(m, from, t) && IsGroup(m.tracks, ts, ks)
    ensures ClockBound(Deliver(m, ts, ks), from, ts)
  {
    hide Clocks, Fold, EmitAll, Heads;
    var since := m.(log := m.log[from..]);
    ClocksOfDeliver(since, ts, ks);
    assert Deliver(m, ts, ks).log[from..] == Deliver(since, ts, ks).log;
    GroupIsFirst(m.tracks, ts, ks);
    assert ks[0] in ks;
    assert t <= m.tracks[ks[0]].data[m.tracks[ks[0]].index].ts;
    var clocks := Clocks(m.log[from..]);
    forall i | 0 <= i < |clocks| ensures clocks[i] <= Ms(ts) {
      assert clocks[i] in clocks;
    }
  }

  lemma ClockBoundAdvance(m: Merge, from: nat, t: nat) returns (t': nat)
    requires AllOrdered(m.tracks) && ClockBound(m, from, t)
    ensures ClockBound(Advance(m), from, t')
  {
    t' := t;
    if Heads(m.tracks) != [] {
      var ks: seq<nat>;
      t', ks := AdvanceGroup(m);
      ClockBoundStep(m, from, t, t', ks);
    }
  }

  lemma ClockBoundStart(m: Merge)
    ensures ClockBound(m, |m.log|, 0)
  {
    assert m.log[|m.log|..] == [];
  }

  lemma OrderKept(m: Merge, n: nat)
    requires WellFormed(m.tracks) && AllOrdered(m.tracks)
    ensures AllOrdered(AdvanceN(m, n).tracks)
  {
    hide Advance, AdvanceN, TimeOrdered;
    AdvanceKeepsTracks(m, n);
  }

  lemma {:induction false} ClockBoundHolds(m: Merge, n: nat) returns (t: nat)
    requires WellFormed(m.tracks) && AllOrdered(m.tracks)
    ensures ClockBound(AdvanceN(m, n), |m.log|, t)
  {
    hide Advance, ClockBound, WellFormed, AllOrdered;
    if n == 0 {
      ClockBoundStart(m);
      t := 0;
    } else {
      t := ClockBoundHolds(m, n - 1);
      OrderKept(m, n - 1);
      t := ClockBoundAdvance(AdvanceN(m, n - 1), |m.log|, t);
    }
  }

  /** With ordered providers the clock events any number of advances log never go back. */
  lemma ClockNeverGoesBack(m: Merge, n: nat)
    requires WellFormed(m.tracks) && AllOrdered(m.tracks)
    ensures |m.log| <= |AdvanceN(m, n).log|
    ensures NeverBack(Clocks(AdvanceN(m, n).log[|m.log|..]))
  {
    var _ := ClockBoundHolds(m, n);
  }

  /**
   * With strictly ordered providers each effective advance consumes one distinct timestamp: every
   * bar it reads carries the minimum, and every bar left is later.
   */
  lemma OneTimestampPerAdvance(m: Merge) returns (ts: nat)
    requires WellFormed(m.tracks) && Unread(m.tracks) > 0
    requires forall k :: 0 <= k < |m.tracks| ==> StrictlyOrdered(m.tracks[k].data)
    ensures NoneBefore(m.tracks, ts) && NoneBefore(Advance(m).tracks, ts + 1)
    ensures SameTracks(m.tracks, Advance(m).tracks) && Unread(Advance(m).tracks) < Unread(m.tracks)
    ensures forall k, i :: 0 <= k < |m.tracks| && m.tracks[k].index <= i < Advance(m).tracks[k].index ==>
              m.tracks[k].data[i].ts == ts
  {
    HeadsEmpty(m.tracks);
    AdvanceReads(m);
    StepKeepsTracks(m.tracks, m);
    var ks: seq<nat>;
    ts, ks := AdvanceGroup(m);
    GroupIsFirst(m.tracks, ts, ks);
    PopOneTimestamp(m.tracks, ts, ks);
  }

  lemma PopOneTimestamp(tracks: seq<Track>, ts: nat, ks: seq<nat>)
    requires IsGroup(tracks, ts, ks)
    requires forall k :: 0 <= k < |tracks| ==> StrictlyOrdered(tracks[k].data)
    ensures NoneBefore(Pop(tracks, ks), ts + 1)
    ensures forall k, i :: 0 <= k < |tracks| && tracks[k].index <= i < Pop(tracks, ks)[k].index ==>
              tracks[k].data[i].ts == ts
  {
    hide StrictlyOrdered;
    forall k, i | 0 <= k < |tracks| && Pop(tracks, ks)[k].index <= i < |tracks[k].data|
      ensures ts + 1 <= tracks[k].data[i].ts
    {
      assert Pending(tracks[k]);
      assert k in ks <==> Due(tracks, ts, k);
      StrictlyLater(tracks[k], ts, k in ks, i);
    }
    forall k, i | 0 <= k < |tracks| && tracks[k].index <= i < Pop(tracks, ks)[k].index
      ensures tracks[k].data[i].ts == ts
    {
      assert k in ks <==> Due(tracks, ts, k);
    }
  }

  /** After the bar at the least time, if it was due, only later bars are left of a provider. */
  lemma StrictlyLater(t: Track, ts: nat, due: bool, i: nat)
    requires StrictlyOrdered(t.data) && Pending(t) && (due <==> t.data[t.index].ts == ts)
    requires ts <= t.data[t.index].ts && t.index + (if due then 1 else 0) <= i < |t.data|
    ensures ts < t.data[i].ts
  {
    assert t.index < i ==> t.data[t.index].ts < t.data[i].ts;
  }
}
