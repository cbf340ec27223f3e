/** The replay control machine. */
module ReplayControl {

  datatype ReplayState = IDLE | LOADED | RUNNING | PAUSED

  /** `gate` is the run event: set unless a pause cleared it. `loaded`: a provider is held. */
  datatype Control = Control(state: ReplayState, running: bool, gate: bool, loaded: bool)

  /** What building the providers of a load comes to: none, a first bar the point models reject, or all well. */
  datatype Build = Missing | Rejected | Ready

  datatype Call =
    | Start | Stop
    | Load(build: Build)
    | StartEngine | PauseReplay | ResumeReplay | StopReplay | ForceStopReplay
    | SetReplaySpeed(multiplier: int)
    | Advance | StepReplay
    | TakeSnapshot | RestoreSnapshot(accepted: bool, index: nat)

  const INITIAL := Control(IDLE, false, true, false)

  /** The control fields after a call. A rejected load raises after it has taken hold of its provider. */
  function Step(c: Control, call: Call): Control {
    match call
    case Start => c.(running := true, state := RUNNING)
    case Stop => c.(running := false, state := IDLE)
    case Load(build) =>
      if c.state != IDLE then c
      else if c.loaded || build.Ready? then c.(state := LOADED, loaded := true)
      else c.(loaded := build.Rejected?)
    case StartEngine => if c.state == LOADED then c.(running := true, state := RUNNING) else c
    case PauseReplay =>
      if c.state == RUNNING then c.(running := false, state := PAUSED, gate := false) else c
    case ResumeReplay =>
      if c.state == PAUSED then c.(running := true, state := RUNNING, gate := true) else c
    case StopReplay =>
      if c.state == RUNNING || c.state == PAUSED then c.(running := false, state := IDLE, gate := true) else c
    case ForceStopReplay => Control(IDLE, false, true, false)
    case SetReplaySpeed(_) => c
    case Advance => c
    case TakeSnapshot => c
    case RestoreSnapshot(_, _) => c
    case StepReplay => if c.state == PAUSED || c.state == LOADED then c.(running := false) else c
  }

  function Run(c: Control, calls: seq<Call>): Control {
    if calls == [] then c else Step(Run(c, calls[..|calls| - 1]), calls[|calls| - 1])
  }

  ghost predicate Consistent(c: Control) {
    && (c.running <==> c.state == RUNNING)
    && (c.state == PAUSED ==> !c.gate)
  }

  predicate Legacy(call: Call) {
    call.Start? || call.Stop?
  }

  /**
   * Over any call sequence: running exactly in RUNNING, and a paused session has its gate cleared.
   * Without the legacy start and stop a cleared gate also means a paused session.
   */
  lemma {:induction false} ControlIsConsistent(loaded: bool, calls: seq<Call>)
    ensures Consistent(Run(INITIAL.(loaded := loaded), calls))
    ensures (forall call :: call in calls ==> !Legacy(call)) ==>
              (Run(INITIAL.(loaded := loaded), calls).gate <==> Run(INITIAL.(loaded := loaded), calls).state != PAUSED)
  {
    if calls != [] {
      ControlIsConsistent(loaded, calls[..|calls| - 1]);
      assert forall call :: call in calls[..|calls| - 1] ==> call in calls;
      assert calls[|calls| - 1] in calls;
    }
  }

  // ── Which state a session is in ──

  /** The call takes the session into a state, from whichever it is in. */
  predicate Enters(c: Control, call: Call, state: ReplayState) {
    match state
    case RUNNING =>
      || call.Start?
      || (call.StartEngine? && c.state == LOADED)
      || (call.ResumeReplay? && c.state == PAUSED)
    case PAUSED => call.PauseReplay? && c.state == RUNNING
    case LOADED => call.Load? && c.state == IDLE && (c.loaded || call.build.Ready?)
    case IDLE =>
      || call.Stop? || call.ForceStopReplay?
      || (call.StopReplay? && (c.state == RUNNING || c.state == PAUSED))
  }

  lemma EntersOrStays(c: Control, call: Call)
    ensures Enters(c, call, Step(c, call).state)
            || (Step(c, call).state == c.state && forall state :: !Enters(c, call, state))
    ensures forall state :: Enters(c, call, state) ==> Step(c, call).state == state
  {
  }

  /** Call `i` entered the state, and no call from there to `n` entered any. */
  ghost predicate LastEntered(start: Control, calls: seq<Call>, i: nat, n: nat, state: ReplayState)
    requires n <= |calls|
  {
    && i < n && Enters(Run(start, calls[..i]), calls[i], state)
    && forall j, other :: i < j < n ==> !Enters(Run(start, calls[..j]), calls[j], other)
  }

  ghost predicate NoneEntered(start: Control, calls: seq<Call>, n: nat)
    requires n <= |calls|
  {
    forall j, other :: 0 <= j < n ==> !Enters(Run(start, calls[..j]), calls[j], other)
  }

  /** Over any call sequence the session is in the state entered last. */
  lemma {:induction false} StateIsLastEntered(start: Control, calls: seq<Call>, n: nat)
    requires n <= |calls|
    ensures var state := Run(start, calls[..n]).state;
            || (exists i: nat :: LastEntered(start, calls, i, n, state))
            || (NoneEntered(start, calls, n) && state == start.state)
  {
    if n == 0 {
      assert calls[..0] == [];
    } else {
      hide Step, Enters, Run;
      var p: nat := n - 1;
      StateIsLastEntered(start, calls, p);
      RunStep(start, calls, p);
      var c, state := Run(start, calls[..p]), Run(start, calls[..n]).state;
      EntersOrStays(c, calls[p]);
      if Enters(c, calls[p], state) {
        assert LastEntered(start, calls, p, n, state);
      } else if i: nat :| LastEntered(start, calls, i, p, state) {
        assert LastEntered(start, calls, i, n, state);
      }
    }
  }

  /** A pause and a resume give the controls back. */
  lemma PauseThenResume(c: Control)
    requires Consistent(c) && c.state == RUNNING
    ensures Step(c, PauseReplay) == Control(PAUSED, false, false, c.loaded)
    ensures Step(Step(c, PauseReplay), ResumeReplay) == Control(RUNNING, true, true, c.loaded)
    ensures c.gate ==> Step(Step(c, PauseReplay), ResumeReplay) == c
  {
  }

  /** Stopping keeps the providers for the next load; a forced stop does not. */
  lemma StopThenLoad(c: Control, build: Build)
    requires Consistent(c) && c.state in {RUNNING, PAUSED}
    ensures Step(Step(c, StopReplay), Load(build)).state == LOADED <==> c.loaded || build.Ready?
    ensures Step(Step(c, ForceStopReplay), Load(build)).state == LOADED <==> build.Ready?
    ensures Step(c, StopReplay).loaded == c.loaded && !Step(c, ForceStopReplay).loaded
  {
  }

  // ── When the gate is left cleared ──

  /** The gate is cleared in PAUSED and only there. */
  predicate GateFollows(c: Control) {
    c.gate <==> c.state != PAUSED
  }

  /** Calls that set the run gate. */
  predicate SetsGate(c: Control, call: Call) {
    || call.ForceStopReplay?
    || (call.ResumeReplay? && c.state == PAUSED)
    || (call.StopReplay? && (c.state == RUNNING || c.state == PAUSED))
  }

  /** One call breaks the gate's tie to PAUSED exactly when it is a legacy call made while paused. */
  lemma GateBrokenIff(c: Control, call: Call)
    requires Consistent(c) && GateFollows(c)
    ensures !GateFollows(Step(c, call)) <==> Legacy(call) && c.state == PAUSED
  {
  }

  /** Call `i` was a legacy call made while paused, and no call from there to `n` set the gate. */
  ghost predicate LostAt(start: Control, calls: seq<Call>, i: nat, n: nat)
    requires n <= |calls|
  {
    && i < n && Legacy(calls[i]) && Run(start, calls[..i]).state == PAUSED
    && forall j :: i < j < n ==> !SetsGate(Run(start, calls[..j]), calls[j])
  }

  lemma RunStep(start: Control, calls: seq<Call>, k: nat)
    requires k < |calls|
    ensures Run(start, calls[..k + 1]) == Step(Run(start, calls[..k]), calls[k])
  {
    assert calls[..k + 1][..k] == calls[..k];
  }

  lemma GateStep(c: Control, call: Call)
    requires Consistent(c)
    ensures var d := Step(c, call);
            && Consistent(d)
            && (d.gate <==> (c.gate && !(call.PauseReplay? && c.state == RUNNING)) || SetsGate(c, call))
            && (c.state == PAUSED && d.state != PAUSED ==> Legacy(call) || SetsGate(c, call))
            && (d.state == PAUSED && c.state != PAUSED ==> call.PauseReplay? && c.state == RUNNING)
            && !(Legacy(call) && SetsGate(c, call))
            && (call.PauseReplay? && c.state == RUNNING ==> d.state == PAUSED)
  {
  }

  /** After one more call the gate is lost if that call loses it, or lost before and not set again. */
  lemma LostStep(start: Control, calls: seq<Call>, p: nat, n: nat)
    requires n == p + 1 <= |calls|
    ensures var c := Run(start, calls[..p]);
            (exists i: nat :: LostAt(start, calls, i, n))
            <==> || (Legacy(calls[p]) && c.state == PAUSED)
                 || (!SetsGate(c, calls[p]) && exists i: nat :: LostAt(start, calls, i, p))
  {
    hide SetsGate, Legacy, Run;
    var c := Run(start, calls[..p]);
    if Legacy(calls[p]) && c.state == PAUSED {
      assert LostAt(start, calls, p, n);
    } else if i: nat :| LostAt(start, calls, i, p) && !SetsGate(c, calls[p]) {
      assert LostAt(start, calls, i, n);
    }
    forall i: nat | LostAt(start, calls, i, n) && i < p
      ensures LostAt(start, calls, i, p) && !SetsGate(c, calls[p])
    {
    }
  }

  /**
   * Over any call sequence, outside PAUSED the gate is cleared exactly when a legacy call was made
   * while paused and no call since has set the gate; and while it is lost it stays cleared.
   */
  lemma {:induction false} GateLostIff(start: Control, calls: seq<Call>, n: nat)
    requires n <= |calls| && Consistent(start) && GateFollows(start)
    ensures var c := Run(start, calls[..n]);
            && Consistent(c)
            && ((exists i: nat :: LostAt(start, calls, i, n)) ==> !c.gate)
            && (c.state != PAUSED ==> (!c.gate <==> exists i: nat :: LostAt(start, calls, i, n)))
  {
    if n == 0 {
      assert calls[..0] == [];
    } else {
      var p: nat := n - 1;
      hide Step, SetsGate, Legacy, Run, LostAt;
      GateLostIff(start, calls, p);
      LostStep(start, calls, p, n);
      RunStep(start, calls, p);
      GateStep(Run(start, calls[..p]), calls[p]);
    }
  }

  lemma RunOfFour(c: Control, c1: Call, c2: Call, c3: Call, c4: Call)
    ensures Run(c, [c1, c2, c3, c4]) == Step(Step(Step(Step(c, c1), c2), c3), c4)
  {
    assert Run(c, [c1]) == Step(Run(c, []), c1);
    assert Run(c, [c1, c2]) == Step(Run(c, [c1]), c2) by { assert [c1, c2][..1] == [c1]; }
    assert Run(c, [c1, c2, c3]) == Step(Run(c, [c1, c2]), c3) by { assert [c1, c2, c3][..2] == [c1, c2]; }
    assert [c1, c2, c3, c4][..3] == [c1, c2, c3];
  }

  /** The shortest such runs. */
  lemma LegacyLeavesGateCleared(call: Call)
    requires Legacy(call)
    ensures var c := Run(INITIAL, [Load(Ready), StartEngine, PauseReplay, call]); !c.gate && c.state != PAUSED
  {
    RunOfFour(INITIAL, Load(Ready), StartEngine, PauseReplay, call);
  }
}
