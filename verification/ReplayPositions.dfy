/** Read positions under the replay controls: which calls move them, over any call sequence. */
module ReplayPositions {
  import C = ReplayControl
  import opened ReplayMerge

  /** The control fields, and the providers held: the primary first, none in a session without bars. */
  datatype Engine = Engine(control: C.Control, tracks: seq<Track>)

  /** A call, and the providers a load builds for it, a rejected one included. */
  datatype Call = Call(call: C.Call, built: seq<Track>)

  /** One advance reads a bar of every provider at the least pending time. */
  function Read(tracks: seq<Track>): seq<Track> {
    if Heads(tracks) == [] then tracks else Pop(tracks, AtTime(Heads(tracks), MinTime(Heads(tracks))))
  }

  function Rewind(tracks: seq<Track>, index: nat): seq<Track> {
    if tracks != [] && index <= |tracks[0].data| then tracks[0 := tracks[0].(index := index)] else tracks
  }

  /** The providers after a call. The advance looks at the running flag, not at the state. */
  function Moved(e: Engine, c: Call): seq<Track> {
    match c.call
    case Load(build) =>
      if e.control.state == C.IDLE && !e.control.loaded && !build.Missing? then c.built else e.tracks
    case ForceStopReplay => []
    case Advance => if e.control.running then Read(e.tracks) else e.tracks
    case StepReplay =>
      if e.control.state == C.PAUSED || e.control.state == C.LOADED then Read(e.tracks) else e.tracks
    case RestoreSnapshot(accepted, index) => if accepted then Rewind(e.tracks, index) else e.tracks
    case _ => e.tracks
  }

  function Step(e: Engine, c: Call): Engine {
    Engine(C.Step(e.control, c.call), Moved(e, c))
  }

  function Run(e: Engine, calls: seq<Call>): Engine {
    if calls == [] then e else Step(Run(e, calls[..|calls| - 1]), calls[|calls| - 1])
  }

  /** Providers as a load leaves them: the primary's first bar shown, nothing else read. */
  ghost predicate JustBuilt(tracks: seq<Track>) {
    && tracks != []
    && forall k :: 0 <= k < |tracks| ==> tracks[k].data != [] && tracks[k].index == if k == 0 then 1 else 0
  }

  /** The call builds providers if the engine is idle and holds none. */
  predicate Builds(call: C.Call) {
    call.Load? && !call.build.Missing?
  }

  ghost predicate Plausible(calls: seq<Call>) {
    forall c :: c in calls && Builds(c.call) ==> JustBuilt(c.built)
  }

  ghost predicate Sound(e: Engine) {
    && C.Consistent(e.control) && WellFormed(e.tracks)
    && (e.control.loaded <==> e.tracks != [])
  }

  // ── Reading ──

  lemma ReadIsAdvance(m: Merge)
    ensures Advance(m).tracks == Read(m.tracks)
  {
  }

  lemma ReadNone()
    ensures Read([]) == []
  {
  }

  lemma PopMoves(tracks: seq<Track>, ks: seq<nat>)
    requires WellFormed(tracks) && AllPending(tracks, ks)
    ensures WellFormed(Pop(tracks, ks))
    ensures forall k :: 0 <= k < |tracks| ==>
              Pop(tracks, ks)[k] == if k in ks then tracks[k].(index := tracks[k].index + 1) else tracks[k]
  {
    forall k | 0 <= k < |tracks| && k in ks ensures Pending(tracks[k]) {
      var j :| 0 <= j < |ks| && ks[j] == k;
    }
  }

  /** The group an advance reads; empty when all is read. */
  lemma DueGroup(tracks: seq<Track>) returns (ks: seq<nat>)
    requires WellFormed(tracks)
    ensures AllPending(tracks, ks) && Read(tracks) == Pop(tracks, ks)
    ensures Unread(tracks) > 0 ==> ks != [] && ks[0] < |tracks|
    ensures Unread(tracks) == 0 ==> ks == []
  {
    HeadsEmpty(tracks);
    if Heads(tracks) == [] {
      ks := [];
      assert Pop(tracks, []) == tracks;
    } else {
      hide Unread, WellFormed;
      var heads := Heads(tracks);
      var ts := MinTime(heads);
      ks := AtTime(heads, ts);
      DuePositions(tracks, ts);
      HeadsComplete(tracks, |tracks|);
      var h :| h in heads && h.ts == ts;
      hide Heads, AtTime, Pop;
      assert Due(tracks, ts, h.k);
      assert h.k in ks && ks[0] in ks;
    }
  }

  /** Reading moves positions forward by at most one bar each, and by one somewhere unless all is read. */
  lemma ReadMoves(tracks: seq<Track>)
    requires WellFormed(tracks)
    ensures |Read(tracks)| == |tracks| && WellFormed(Read(tracks))
    ensures forall k :: 0 <= k < |tracks| ==>
              && Read(tracks)[k].id == tracks[k].id && Read(tracks)[k].data == tracks[k].data
              && tracks[k].index <= Read(tracks)[k].index <= tracks[k].index + 1
    ensures Read(tracks) != tracks <==> Unread(tracks) > 0
  {
    var ks := DueGroup(tracks);
    PopMoves(tracks, ks);
    hide Read, Pop, Unread, WellFormed;
    if ks != [] {
      assert ks[0] in ks;
      assert Read(tracks)[ks[0]] != tracks[ks[0]];
    } else {
      assert Read(tracks) == tracks;
    }
  }

  /** One provider alone: its next bar, if it has one. */
  lemma ReadOne(t: Track)
    requires t.index <= |t.data|
    ensures Read([t]) == [if Pending(t) then t.(index := t.index + 1) else t]
  {
    ReadMoves([t]);
    OneUnread(t);
    hide Read, Unread;
    assert Read([t])[0] == Read([t])[0].(index := Read([t])[0].index);
    assert Read([t]) == [Read([t])[0]];
  }

  lemma OneUnread(t: Track)
    requires t.index <= |t.data|
    ensures Unread([t]) > 0 <==> Pending(t)
  {
    UnreadZero([t]);
    hide Unread;
    assert [t][0] == t;
  }

  // ── Over any call sequence ──

  lemma ControlStep(c: C.Control, call: C.Call)
    requires C.Consistent(c)
    ensures var d := C.Step(c, call);
            && C.Consistent(d)
            && (d.loaded <==>
                  !call.ForceStopReplay? && (c.loaded || (Builds(call) && c.state == C.IDLE)))
  {
  }

  lemma BuiltSound(tracks: seq<Track>)
    requires JustBuilt(tracks)
    ensures WellFormed(tracks) && tracks != []
  {
  }

  lemma RewindSound(tracks: seq<Track>, index: nat)
    requires WellFormed(tracks)
    ensures WellFormed(Rewind(tracks, index)) && |Rewind(tracks, index)| == |tracks|
  {
  }

  lemma ReadSound(tracks: seq<Track>)
    requires WellFormed(tracks)
    ensures WellFormed(Read(tracks)) && |Read(tracks)| == |tracks|
  {
    ReadMoves(tracks);
  }

  lemma MovedSound(e: Engine, c: Call)
    requires Sound(e) && (Builds(c.call) ==> JustBuilt(c.built))
    ensures WellFormed(Moved(e, c))
    ensures Moved(e, c) != [] <==>
            && !c.call.ForceStopReplay?
            && (e.tracks != [] || (Builds(c.call) && e.control.state == C.IDLE))
  {
    ReadSound(e.tracks);
    RewindSound(e.tracks, if c.call.RestoreSnapshot? then c.call.index else 0);
    if Builds(c.call) {
      BuiltSound(c.built);
    }
    assert WellFormed([]);
    hide Read, Rewind, WellFormed, JustBuilt, Unread, C.Consistent;
  }

  lemma StepSound(e: Engine, c: Call)
    requires Sound(e) && (Builds(c.call) ==> JustBuilt(c.built))
    ensures Sound(Step(e, c))
  {
    ControlStep(e.control, c.call);
    MovedSound(e, c);
    hide Moved, C.Step, C.Consistent;
  }

  lemma {:induction false} RunSound(e: Engine, calls: seq<Call>)
    requires Sound(e) && Plausible(calls)
    ensures Sound(Run(e, calls))
  {
    if calls != [] {
      hide Sound, Step;
      RunSound(e, calls[..|calls| - 1]);
      assert calls[|calls| - 1] in calls;
      StepSound(Run(e, calls[..|calls| - 1]), calls[|calls| - 1]);
    }
  }

  /** The call reads bars: an advance in RUNNING or a step in LOADED or PAUSED, with something unread. */
  predicate Reads(e: Engine, call: C.Call) {
    && Unread(e.tracks) > 0
    && ((call.Advance? && e.control.state == C.RUNNING)
        || (call.StepReplay? && (e.control.state == C.LOADED || e.control.state == C.PAUSED)))
  }

  /** The call puts other providers or another position in place. */
  predicate Replaces(e: Engine, call: C.Call) {
    || (Builds(call) && e.control.state == C.IDLE && e.tracks == [])
    || (call.ForceStopReplay? && e.tracks != [])
    || (call.RestoreSnapshot? && call.accepted && e.tracks != []
        && call.index <= |e.tracks[0].data| && call.index != e.tracks[0].index)
  }

  /**
   * After any call sequence, the next call changes a read position exactly when it reads bars in
   * the right state, loads into an empty engine, drops the providers or restores another position.
   */
  lemma PositionsMoveIff(e: Engine, calls: seq<Call>, next: Call)
    requires Sound(e) && Plausible(calls + [next])
    ensures var now := Run(e, calls);
            && Run(e, calls + [next]) == Step(now, next)
            && (Step(now, next).tracks != now.tracks <==> Reads(now, next.call) || Replaces(now, next.call))
            && (Reads(now, next.call) ==> Step(now, next).tracks == Read(now.tracks))
  {
    assert (calls + [next])[..|calls|] == calls;
    assert next in calls + [next] && forall c :: c in calls ==> c in calls + [next];
    RunSound(e, calls);
    MovedIff(Run(e, calls), next);
    hide Moved, Reads, Replaces, Read, Sound;
  }

  lemma MovedIff(now: Engine, next: Call)
    requires Sound(now) && (Builds(next.call) ==> JustBuilt(next.built))
    ensures Moved(now, next) != now.tracks <==> Reads(now, next.call) || Replaces(now, next.call)
    ensures Reads(now, next.call) ==> Moved(now, next) == Read(now.tracks)
  {
    hide JustBuilt, WellFormed, Moved, Reads, Replaces, Read;
    if next.call.Advance? || next.call.StepReplay? {
      ReadingMoves(now, next);
    } else {
      ReplacingMoves(now, next);
    }
  }

  /** Calls that read move a position exactly when they may read and something is unread. */
  lemma ReadingMoves(now: Engine, next: Call)
    requires next.call.Advance? || next.call.StepReplay?
    requires WellFormed(now.tracks) && (now.control.running <==> now.control.state == C.RUNNING)
    ensures Moved(now, next) != now.tracks <==> Reads(now, next.call)
    ensures !Replaces(now, next.call) && (Reads(now, next.call) ==> Moved(now, next) == Read(now.tracks))
  {
    ReadChanges(now.tracks);
    hide Read, Unread, WellFormed;
  }

  /** Calls that read nothing move a position exactly when they replace one. */
  lemma ReplacingMoves(now: Engine, next: Call)
    requires !next.call.Advance? && !next.call.StepReplay?
    requires (now.control.loaded <==> now.tracks != []) && (Builds(next.call) ==> JustBuilt(next.built))
    ensures Moved(now, next) != now.tracks <==> Replaces(now, next.call)
    ensures !Reads(now, next.call)
  {
    RewindMoves(now.tracks, if next.call.RestoreSnapshot? then next.call.index else 0);
    if Builds(next.call) {
      BuiltSound(next.built);
    }
    hide Read, Rewind, JustBuilt, WellFormed;
  }

  lemma ReadChanges(tracks: seq<Track>)
    requires WellFormed(tracks)
    ensures Read(tracks) != tracks <==> Unread(tracks) > 0
  {
    ReadMoves(tracks);
  }

  lemma RewindMoves(tracks: seq<Track>, index: nat)
    ensures Rewind(tracks, index) != tracks <==>
            tracks != [] && index <= |tracks[0].data| && index != tracks[0].index
  {
    if tracks != [] && index <= |tracks[0].data| {
      assert Rewind(tracks, index)[0].index == index;
    }
  }

  lemma {:induction false} RunConcat(e: Engine, a: seq<Call>, b: seq<Call>)
    ensures Run(e, a + b) == Run(Run(e, a), b)
  {
    if b == [] {
      assert a + b == a;
    } else {
      assert (a + b)[..|a + b| - 1] == a + b[..|b| - 1];
      RunConcat(e, a, b[..|b| - 1]);
    }
  }

  const STOPPED := Engine(C.Control(C.IDLE, false, true, false), [])

  /** Calls a stopped engine without providers ignores: all but the legacy start and a load that builds. */
  predicate IgnoredWhenStopped(call: C.Call) {
    !call.Start? && !Builds(call)
  }

  /**
   * A forced stop and a later load start from fresh providers, whatever was held and read before
   * and whatever ignored calls come in between.
   */
  lemma ForceStopLoadsAfresh(e: Engine, before: seq<Call>, between: seq<Call>, load: Call)
    requires load.call == C.Load(C.Ready)
    requires forall c :: c in between ==> IgnoredWhenStopped(c.call)
    ensures var after := Run(e, before + [Call(C.ForceStopReplay, [])] + between + [load]);
            after == Engine(C.Control(C.LOADED, false, true, true), load.built)
  {
    var stop := Call(C.ForceStopReplay, []);
    RunConcat(e, before + [stop] + between, [load]);
    RunConcat(e, before + [stop], between);
    RunConcat(e, before, [stop]);
    assert [stop][..0] == [] && [load][..0] == [];
    StaysStopped(between);
  }

  lemma {:induction false} StaysStopped(between: seq<Call>)
    requires forall c :: c in between ==> IgnoredWhenStopped(c.call)
    ensures Run(STOPPED, between) == STOPPED
  {
    if between != [] {
      assert between[|between| - 1] in between;
      StaysStopped(between[..|between| - 1]);
      IgnoredStays(between[|between| - 1]);
    }
  }

  lemma IgnoredStays(c: Call)
    requires IgnoredWhenStopped(c.call)
    ensures Step(STOPPED, c) == STOPPED
  {
  }

  /**
   * After any calls that leave an idle engine without providers: a load whose first bar is rejected
   * leaves its provider held, so that the next load succeeds with it, whatever that load asks for.
   */
  lemma RejectedLoadSticks(e: Engine, before: seq<Call>, reject: Call, load: Call)
    requires reject.call == C.Load(C.Rejected) && load.call.Load?
    requires var now := Run(e, before); now.control.state == C.IDLE && !now.control.loaded
    ensures var now, after := Run(e, before), Run(e, before + [reject, load]);
            after == Engine(now.control.(state := C.LOADED, loaded := true), reject.built)
  {
    RunConcat(e, before, [reject, load]);
    RunOfTwo(Run(e, before), reject, load);
  }

  lemma RunOfTwo(e: Engine, a: Call, b: Call)
    ensures Run(e, [a, b]) == Step(Step(e, a), b)
  {
    hide Step;
    assert [a, b][..1] == [a] && [a][..0] == [];
    assert Run(e, [a]) == Step(Run(e, []), a);
  }

  /** An accepted restore puts the primary at the index, if that lies in its bars, and moves no other. */
  lemma RestorePutsPrimary(e: Engine, index: nat, k: nat)
    requires k < |e.tracks|
    ensures var next := Step(e, Call(C.RestoreSnapshot(true, index), []));
            && |next.tracks| == |e.tracks| && next.control == e.control
            && next.tracks[k] == e.tracks[k].(index := next.tracks[k].index)
            && next.tracks[k].index == if k == 0 && index <= |e.tracks[0].data| then index else e.tracks[k].index
  {
  }
}
