/**
 * The two-lock discipline between handler threads, the live loop and the
 * daily-loss worker. Programs are data: what a thread or a loop callback does
 * to locks and to the loop, and nothing else.
 */
module LockDiscipline {
  import opened Wrappers

  // ── Programs ──

  /** `Strategy` and `Rails` belong to the backend, `Registry` is the run registry's own lock. */
  datatype Lock = Strategy | Rails | Registry

  /** `Call` is a blocking round trip to the live loop; `Spawn` starts a worker thread. */
  datatype Act = Acquire(lock: Lock) | Release(lock: Lock) | Call(body: seq<Act>) | Spawn(body: seq<Act>)

  const LOOP_RANK := 1

  /** The order in which things are waited for; the live loop ranks between the two backend locks. */
  function Rank(l: Lock): nat {
    match l
    case Strategy => 0
    case Rails => 2
    case Registry => 3
  }

  predicate AllBelow(held: set<Lock>, rank: nat) {
    forall l :: l in held ==> Rank(l) < rank
  }

  predicate AllAbove(held: set<Lock>, rank: nat) {
    forall l :: l in held ==> Rank(l) > rank
  }

  /** From holding `held`, the program waits upwards in rank only and ends with nothing held. */
  predicate Disciplined(todo: seq<Act>, held: set<Lock>, onLoop: bool)
    decreases todo
  {
    if todo == [] then held == {}
    else match todo[0]
      case Acquire(l) =>
        AllBelow(held, Rank(l)) && (onLoop ==> Rank(l) > LOOP_RANK) && Disciplined(todo[1..], held + {l}, onLoop)
      case Release(l) =>
        l in held && Disciplined(todo[1..], held - {l}, onLoop)
      case Call(body) =>
        !onLoop && AllBelow(held, LOOP_RANK) && Disciplined(body, {}, true) && Disciplined(todo[1..], held, onLoop)
      case Spawn(body) =>
        Disciplined(body, {}, false) && Disciplined(todo[1..], held, onLoop)
  }

  // ── The backend's programs ──

  /** Steps under the strategy lock: a registry lookup, or a round trip whose loop side makes some lookups. */
  datatype HostStep = Lookup | RoundTrip(lookups: nat)

  function Lookups(n: nat): seq<Act> {
    if n == 0 then [] else [Acquire(Registry), Release(Registry)] + Lookups(n - 1)
  }

  function Section(steps: seq<HostStep>): seq<Act> {
    if steps == [] then [Release(Strategy)]
    else match steps[0]
      case Lookup => [Acquire(Registry), Release(Registry)] + Section(steps[1..])
      case RoundTrip(n) => [Call(Lookups(n))] + Section(steps[1..])
  }

  /** A run failed for its loss: the host call under the strategy lock. */
  function FailRunForLoss(steps: seq<HostStep>): seq<Act> {
    [Acquire(Strategy)] + Section(steps)
  }

  /** Starting or controlling a run: the host call, then the rails lock when rails are recorded or released. */
  function Handler(steps: seq<HostStep>, touchesRails: bool): seq<Act> {
    FailRunForLoss(steps) + if touchesRails then [Acquire(Rails), Release(Rails)] else []
  }

  /** The account callback: rails lock around a registry lookup, and perhaps a worker for the loss stop. */
  function EvaluateLoss(worker: Option<seq<HostStep>>): seq<Act> {
    [Acquire(Rails), Acquire(Registry), Release(Registry), Release(Rails)]
    + if worker.None? then [] else [Spawn(FailRunForLoss(worker.value))]
  }

  /** What the loop does for a callback or a round trip: an account snapshot, or some lookups, perhaps none. */
  datatype LoopWork = AccountSnapshot(worker: Option<seq<HostStep>>) | RunLookups(n: nat)

  function Body(work: LoopWork): seq<Act> {
    match work
    case AccountSnapshot(worker) => EvaluateLoss(worker)
    case RunLookups(n) => Lookups(n)
  }

  /** Steps of a request that holds neither backend lock: a registry lookup or a round trip. */
  datatype RequestStep = LookUpRun | OnLoop(work: LoopWork)

  /** Logging in and out, subscribing, orders, snapshots and status: one step after another. */
  function Request(steps: seq<RequestStep>): seq<Act> {
    if steps == [] then []
    else match steps[0]
      case LookUpRun => [Acquire(Registry), Release(Registry)] + Request(steps[1..])
      case OnLoop(work) => [Call(Body(work))] + Request(steps[1..])
  }

  lemma {:induction false} LookupsDisciplined(n: nat, held: set<Lock>, onLoop: bool, rest: seq<Act>)
    requires AllBelow(held, 3) && Disciplined(rest, held, onLoop)
    ensures Disciplined(Lookups(n) + rest, held, onLoop)
  {
    hide Disciplined;
    if n == 0 {
      assert Lookups(0) + rest == rest;
    } else {
      LookupsDisciplined(n - 1, held, onLoop, rest);
      RegistryUse(held, onLoop, Lookups(n - 1) + rest);
      assert Lookups(n) + rest == [Acquire(Registry), Release(Registry)] + (Lookups(n - 1) + rest);
    }
  }

  lemma RegistryUse(held: set<Lock>, onLoop: bool, rest: seq<Act>)
    requires AllBelow(held, 3) && Disciplined(rest, held, onLoop)
    ensures Disciplined([Acquire(Registry), Release(Registry)] + rest, held, onLoop)
  {
    var p := [Acquire(Registry), Release(Registry)] + rest;
    assert p[1..] == [Release(Registry)] + rest && p[1..][1..] == rest;
    assert held + {Registry} - {Registry} == held;
  }

  lemma {:induction false} SectionDisciplined(steps: seq<HostStep>, rest: seq<Act>)
    requires Disciplined(rest, {}, false)
    ensures Disciplined(Section(steps) + rest, {Strategy}, false)
  {
    hide Disciplined;
    if steps == [] {
      ReleaseStrategy(rest);
    } else {
      SectionDisciplined(steps[1..], rest);
      var later := Section(steps[1..]) + rest;
      match steps[0] {
        case Lookup =>
          RegistryUse({Strategy}, false, later);
          assert Section(steps) + rest == [Acquire(Registry), Release(Registry)] + later;
        case RoundTrip(n) =>
          EmptyDisciplined();
          LookupsDisciplined(n, {}, true, []);
          assert Lookups(n) + [] == Lookups(n);
          CallUnderStrategy(Lookups(n), later);
          assert Section(steps) + rest == [Call(Lookups(n))] + later;
      }
    }
  }

  lemma ReleaseStrategy(rest: seq<Act>)
    requires Disciplined(rest, {}, false)
    ensures Disciplined([Release(Strategy)] + rest, {Strategy}, false)
  {
    assert ([Release(Strategy)] + rest)[1..] == rest && {Strategy} - {Strategy} == {};
  }

  lemma CallUnderStrategy(body: seq<Act>, rest: seq<Act>)
    requires Disciplined(body, {}, true) && Disciplined(rest, {Strategy}, false)
    ensures Disciplined([Call(body)] + rest, {Strategy}, false)
  {
    assert ([Call(body)] + rest)[1..] == rest;
  }

  lemma EmptyDisciplined()
    ensures Disciplined([], {}, true)
  {
  }

  /** Every handler and the loss worker keep the discipline, however many lookups and round trips they make. */
  lemma HandlerDisciplined(steps: seq<HostStep>, touchesRails: bool)
    ensures Disciplined(Handler(steps, touchesRails), {}, false)
  {
    var rest := if touchesRails then [Acquire(Rails), Release(Rails)] else [];
    assert Disciplined(rest, {}, false) by {
      if touchesRails {
        assert rest[1..] == [Release(Rails)] && rest[1..][1..] == [];
        assert {} + {Rails} - {Rails} == {};
      }
    }
    SectionDisciplined(steps, rest);
    var p := Handler(steps, touchesRails);
    assert p == [Acquire(Strategy)] + (Section(steps) + rest);
    assert {} + {Strategy} == {Strategy};
  }

  lemma EvaluateLossDisciplined(worker: Option<seq<HostStep>>)
    ensures Disciplined(EvaluateLoss(worker), {}, true)
  {
    var rest := if worker.None? then [] else [Spawn(FailRunForLoss(worker.value))];
    if worker.Some? {
      HandlerDisciplined(worker.value, false);
      assert Handler(worker.value, false) == FailRunForLoss(worker.value);
      assert rest[1..] == [];
    }
    var tail := [Release(Rails)] + rest;
    assert Disciplined(tail, {Rails}, true) by {
      assert tail[1..] == rest && {Rails} - {Rails} == {};
    }
    RegistryUse({Rails}, true, tail);
    assert {} + {Rails} == {Rails};
    assert EvaluateLoss(worker) == [Acquire(Rails)] + ([Acquire(Registry), Release(Registry)] + tail);
  }

  lemma BodyDisciplined(work: LoopWork)
    ensures Disciplined(Body(work), {}, true)
  {
    hide Disciplined, EvaluateLoss, Lookups;
    match work {
      case AccountSnapshot(worker) => EvaluateLossDisciplined(worker);
      case RunLookups(n) =>
        EmptyDisciplined();
        LookupsDisciplined(n, {}, true, []);
        assert Lookups(n) + [] == Lookups(n);
    }
  }

  lemma CallHoldingNothing(body: seq<Act>, rest: seq<Act>)
    requires Disciplined(body, {}, true) && Disciplined(rest, {}, false)
    ensures Disciplined([Call(body)] + rest, {}, false)
  {
    assert ([Call(body)] + rest)[1..] == rest;
  }

  /** Requests that take neither backend lock keep the discipline, whatever the loop does for them. */
  lemma {:induction false} RequestDisciplined(steps: seq<RequestStep>)
    ensures Disciplined(Request(steps), {}, false)
  {
    if steps != [] {
      hide Disciplined;
      RequestDisciplined(steps[1..]);
      match steps[0] {
        case LookUpRun => RegistryUse({}, false, Request(steps[1..]));
        case OnLoop(work) =>
          BodyDisciplined(work);
          CallHoldingNothing(Body(work), Request(steps[1..]));
      }
    }
  }

  // ── The programs written out ──

  /** `n` registry lookups, one after another. */
  predicate IsLookups(p: seq<Act>, n: nat) {
    && |p| == 2 * n
    && forall i :: 0 <= i < n ==> p[2 * i] == Acquire(Registry) && p[2 * i + 1] == Release(Registry)
  }

  lemma {:induction false} LookupsAre(n: nat)
    ensures IsLookups(Lookups(n), n)
  {
    if n > 0 {
      LookupsAre(n - 1);
      var p, rest := Lookups(n), Lookups(n - 1);
      forall i | 0 <= i < n ensures p[2 * i] == Acquire(Registry) && p[2 * i + 1] == Release(Registry) {
        if i > 0 {
          assert p[2 * i] == rest[2 * (i - 1)] && p[2 * i + 1] == rest[2 * (i - 1) + 1];
        }
      }
    }
  }

  /** `acts` are what one step under the strategy lock does. */
  predicate IsHostStep(acts: seq<Act>, step: HostStep) {
    match step
    case Lookup => acts == [Acquire(Registry), Release(Registry)]
    case RoundTrip(n) => |acts| == 1 && acts[0].Call? && IsLookups(acts[0].body, n)
  }

  function HostActs(step: HostStep): (acts: seq<Act>)
    ensures IsHostStep(acts, step)
  {
    match step
    case Lookup => [Acquire(Registry), Release(Registry)]
    case RoundTrip(n) =>
      LookupsAre(n);
      [Call(Lookups(n))]
  }

  lemma {:induction false} SectionGrows(steps: seq<HostStep>, step: HostStep)
    ensures |Section(steps)| > 0
    ensures Section(steps + [step]) == Section(steps)[..|Section(steps)| - 1] + HostActs(step) + [Release(Strategy)]
  {
    if steps == [] {
      assert [step][1..] == [] && [] + [step] == [step];
    } else {
      assert (steps + [step])[1..] == steps[1..] + [step] && (steps + [step])[0] == steps[0];
      SectionGrows(steps[1..], step);
      var rest := Section(steps[1..]);
      assert Section(steps) == HostActs(steps[0]) + rest;
      assert Section(steps)[..|Section(steps)| - 1] == HostActs(steps[0]) + rest[..|rest| - 1];
      assert Section(steps + [step]) == HostActs(steps[0]) + Section(steps[1..] + [step]);
    }
  }

  /**
   * A handler takes the strategy lock, does its steps in order, gives the lock back, and only then
   * takes the rails lock if it has to.
   */
  lemma HandlerActs(steps: seq<HostStep>, step: HostStep) returns (acts: seq<Act>)
    ensures IsHostStep(acts, step)
    ensures Handler([], false) == [Acquire(Strategy), Release(Strategy)]
    ensures var p := Handler(steps, false);
            && |p| > 1 && p[|p| - 1] == Release(Strategy)
            && Handler(steps + [step], false) == p[..|p| - 1] + acts + [Release(Strategy)]
            && Handler(steps, true) == p + [Acquire(Rails), Release(Rails)]
  {
    acts := HostActs(step);
    SectionGrows(steps, step);
    SectionEnds(steps);
    var p, inner := Handler(steps, false), Section(steps);
    assert p == [Acquire(Strategy)] + inner;
    assert p[..|p| - 1] == [Acquire(Strategy)] + inner[..|inner| - 1];
    hide HostActs, IsHostStep;
  }

  lemma {:induction false} SectionEnds(steps: seq<HostStep>)
    ensures |Section(steps)| > 0 && Section(steps)[|Section(steps)| - 1] == Release(Strategy)
  {
    if steps != [] {
      SectionEnds(steps[1..]);
    }
  }

  /** `acts` are what the loop does for a snapshot or some lookups. */
  predicate IsLoopWork(acts: seq<Act>, work: LoopWork) {
    match work
    case RunLookups(n) => IsLookups(acts, n)
    case AccountSnapshot(None) => acts == [Acquire(Rails), Acquire(Registry), Release(Registry), Release(Rails)]
    case AccountSnapshot(Some(steps)) =>
      acts == [Acquire(Rails), Acquire(Registry), Release(Registry), Release(Rails), Spawn(Handler(steps, false))]
  }

  lemma BodyIs(work: LoopWork)
    ensures IsLoopWork(Body(work), work)
  {
    match work {
      case RunLookups(n) => LookupsAre(n);
      case AccountSnapshot(None) =>
      case AccountSnapshot(Some(steps)) =>
        assert Handler(steps, false) == FailRunForLoss(steps);
    }
  }

  /** A request looks a run up, or calls the loop, and does nothing in between. */
  lemma {:induction false} RequestActs(steps: seq<RequestStep>, work: LoopWork)
    ensures Request([]) == []
    ensures Request(steps + [LookUpRun]) == Request(steps) + [Acquire(Registry), Release(Registry)]
    ensures IsLoopWork(Body(work), work) && Request(steps + [OnLoop(work)]) == Request(steps) + [Call(Body(work))]
  {
    BodyIs(work);
    if steps == [] {
      assert [LookUpRun][1..] == [] && [OnLoop(work)][1..] == [];
      assert steps + [LookUpRun] == [LookUpRun] && steps + [OnLoop(work)] == [OnLoop(work)];
    } else {
      RequestActs(steps[1..], work);
      RequestPrepends(steps, LookUpRun);
      RequestPrepends(steps, OnLoop(work));
    }
  }

  lemma RequestPrepends(steps: seq<RequestStep>, step: RequestStep)
    requires steps != []
    ensures (steps + [step])[1..] == steps[1..] + [step] && (steps + [step])[0] == steps[0]
  {
  }

  // ── The machine ──

  datatype Who = Thread(id: nat) | Loop

  datatype Agent = Agent(todo: seq<Act>, waiting: bool)

  datatype Job = Job(body: seq<Act>, caller: Option<nat>)

  /** `answers` is the thread whose round trip the loop is serving. */
  datatype State = State(
    threads: seq<Agent>, loop: Agent, answers: Option<nat>, queue: seq<Job>, owner: map<Lock, Who>)

  const IDLE := State([], Agent([], false), None, [], map[])

  function Held(s: State, w: Who): set<Lock> {
    set l | l in s.owner && s.owner[l] == w
  }

  datatype Event =
    | ThreadActs(id: nat) | LoopActs | LoopTakes | LoopAnswers  // the machine itself
    | Arrive(prog: seq<Act>) | Post(prog: seq<Act>)             // a request, a callback put on the loop

  predicate Internal(e: Event) {
    !e.Arrive? && !e.Post?
  }

  predicate CanAct(s: State, a: Agent) {
    && !a.waiting && a.todo != []
    && (a.todo[0].Acquire? ==> a.todo[0].lock !in s.owner)
  }

  predicate Enabled(s: State, e: Event) {
    match e
    case ThreadActs(i) => i < |s.threads| && CanAct(s, s.threads[i])
    case LoopActs => CanAct(s, s.loop)
    case LoopTakes => s.loop.todo == [] && !s.loop.waiting && s.answers.None? && s.queue != []
    case LoopAnswers => s.loop.todo == [] && !s.loop.waiting && s.answers.Some? && s.answers.value < |s.threads|
    case Arrive(_) => true
    case Post(_) => true
  }

  function SetAgent(s: State, w: Who, a: Agent): State
    requires w.Thread? ==> w.id < |s.threads|
  {
    match w
    case Thread(i) => s.(threads := s.threads[i := a])
    case Loop => s.(loop := a)
  }

  /** One agent performs its next act; a round trip queues a job and makes the caller wait. */
  function Act1(s: State, w: Who, a: Agent): State
    requires (w.Thread? ==> w.id < |s.threads|) && a.todo != []
  {
    var t := SetAgent(s, w, Agent(a.todo[1..], a.todo[0].Call?));
    match a.todo[0]
    case Acquire(l) => t.(owner := s.owner[l := w])
    case Release(l) => t.(owner := s.owner - {l})
    case Call(body) => t.(queue := s.queue + [Job(body, if w.Thread? then Some(w.id) else None)])
    case Spawn(body) => t.(threads := t.threads + [Agent(body, false)])
  }

  function Apply(s: State, e: Event): State
    requires Enabled(s, e)
  {
    match e
    case ThreadActs(i) => Act1(s, Thread(i), s.threads[i])
    case LoopActs => Act1(s, Loop, s.loop)
    case LoopTakes => s.(loop := Agent(s.queue[0].body, false), answers := s.queue[0].caller, queue := s.queue[1..])
    case LoopAnswers =>
      var i := s.answers.value;
      s.(threads := s.threads[i := s.threads[i].(waiting := false)], answers := None)
    case Arrive(p) => s.(threads := s.threads + [Agent(p, false)])
    case Post(p) => s.(queue := s.queue + [Job(p, None)])
  }

  /** Only disciplined programs enter. */
  predicate Admitted(e: Event) {
    && (e.Arrive? ==> Disciplined(e.prog, {}, false))
    && (e.Post? ==> Disciplined(e.prog, {}, true))
  }

  predicate IsRun(s: State, es: seq<Event>)
    decreases |es|
  {
    es == [] || (Enabled(s, es[0]) && IsRun(Apply(s, es[0]), es[1..]))
  }

  predicate AllAdmitted(es: seq<Event>) {
    forall e :: e in es ==> Admitted(e)
  }

  function After(s: State, es: seq<Event>): State
    requires IsRun(s, es)
    decreases |es|
  {
    if es == [] then s else After(Apply(s, es[0]), es[1..])
  }

  // ── The invariant ──

  predicate Pending(s: State, i: nat) {
    s.answers == Some(i) || exists k :: 0 <= k < |s.queue| && s.queue[k].caller == Some(i)
  }

  predicate ThreadOk(s: State, i: nat)
    requires i < |s.threads|
  {
    && Disciplined(s.threads[i].todo, Held(s, Thread(i)), false)
    && (s.threads[i].waiting ==> AllBelow(Held(s, Thread(i)), LOOP_RANK) && Pending(s, i))
  }

  predicate LoopOk(s: State) {
    && !s.loop.waiting
    && Disciplined(s.loop.todo, Held(s, Loop), true)
    && AllAbove(Held(s, Loop), LOOP_RANK)
    && (s.answers.Some? ==> s.answers.value < |s.threads|)
  }

  predicate JobOk(s: State, j: Job) {
    Disciplined(j.body, {}, true) && (j.caller.Some? ==> j.caller.value < |s.threads|)
  }

  predicate Inv(s: State) {
    && (forall i :: 0 <= i < |s.threads| ==> ThreadOk(s, i))
    && LoopOk(s)
    && (forall k :: 0 <= k < |s.queue| ==> JobOk(s, s.queue[k]))
    && (forall l :: l in s.owner && s.owner[l].Thread? ==> s.owner[l].id < |s.threads|)
  }

  lemma HeldAfterAcquire(s: State, t: State, l: Lock, w: Who)
    requires l !in s.owner && t.owner == s.owner[l := w]
    ensures Held(t, w) == Held(s, w) + {l}
    ensures forall v :: v != w ==> Held(t, v) == Held(s, v)
  {
  }

  lemma HeldAfterRelease(s: State, t: State, l: Lock, w: Who)
    requires l in Held(s, w) && t.owner == s.owner - {l}
    ensures Held(t, w) == Held(s, w) - {l}
    ensures forall v :: v != w ==> Held(t, v) == Held(s, v)
  {
  }

  lemma HeldSame(s: State, t: State)
    requires t.owner == s.owner
    ensures forall w :: Held(t, w) == Held(s, w)
  {
  }

  lemma PendingStays(s: State, t: State, i: nat)
    requires t.answers == s.answers && s.queue <= t.queue && Pending(s, i)
    ensures Pending(t, i)
  {
    if s.answers != Some(i) {
      var k :| 0 <= k < |s.queue| && s.queue[k].caller == Some(i);
      assert t.queue[k].caller == Some(i);
    }
  }

  /** What another agent does to the owners and the queue leaves this thread as it was. */
  lemma ThreadStays(s: State, t: State, i: nat)
    requires i < |s.threads| && i < |t.threads| && t.threads[i] == s.threads[i] && ThreadOk(s, i)
    requires Held(t, Thread(i)) == Held(s, Thread(i)) && t.answers == s.answers && s.queue <= t.queue
    ensures ThreadOk(t, i)
  {
    hide Disciplined;
    if Pending(s, i) {
      PendingStays(s, t, i);
    }
  }

  predicate IsAgent(s: State, w: Who, a: Agent) {
    match w
    case Thread(i) => i < |s.threads| && s.threads[i] == a
    case Loop => s.loop == a
  }

  /** The acting agent's own obligations after its act. */
  lemma ActorOk(s: State, w: Who, a: Agent)
    requires Inv(s) && IsAgent(s, w, a) && CanAct(s, a)
    ensures var t := Act1(s, w, a);
            && (w.Thread? ==> ThreadOk(t, w.id))
            && (w.Loop? ==> LoopOk(t))
            && (forall v :: v != w ==> Held(t, v) == Held(s, v))
  {
    var t := Act1(s, w, a);
    if w.Thread? {
      assert ThreadOk(s, w.id);
    }
    match a.todo[0] {
      case Acquire(l) => HeldAfterAcquire(s, t, l, w);
      case Release(l) => HeldAfterRelease(s, t, l, w);
      case Call(body) =>
        HeldSame(s, t);
        if w.Thread? {
          assert t.queue[|s.queue|].caller == Some(w.id);
        }
      case Spawn(_) => HeldSame(s, t);
    }
  }

  lemma SpawnedOk(t: State, i: nat)
    requires i < |t.threads| && !t.threads[i].waiting && Disciplined(t.threads[i].todo, {}, false)
    requires forall l :: l in t.owner && t.owner[l].Thread? ==> t.owner[l].id < i
    ensures ThreadOk(t, i)
  {
    assert Held(t, Thread(i)) == {};
  }

  predicate OwnersExist(s: State) {
    forall l :: l in s.owner && s.owner[l].Thread? ==> s.owner[l].id < |s.threads|
  }

  /** What the head of a disciplined program brings with it. */
  lemma HeadOk(s: State, w: Who, a: Agent)
    requires Inv(s) && IsAgent(s, w, a) && CanAct(s, a)
    ensures a.todo[0].Call? ==> w.Thread? && Disciplined(a.todo[0].body, {}, true)
    ensures a.todo[0].Spawn? ==> Disciplined(a.todo[0].body, {}, false)
  {
    if w.Thread? {
      assert ThreadOk(s, w.id);
    }
  }

  lemma ActKeepsInv(s: State, w: Who, a: Agent)
    requires Inv(s) && IsAgent(s, w, a) && CanAct(s, a)
    ensures Inv(Act1(s, w, a))
  {
    hide Disciplined, Held, AllBelow, AllAbove, Pending;
    var t := Act1(s, w, a);
    ActorOk(s, w, a);
    HeadOk(s, w, a);
    forall i: nat | i < |t.threads| ensures ThreadOk(t, i) {
      if i == |s.threads| {
        SpawnedOk(t, i);
      } else if w != Thread(i) {
        assert ThreadOk(s, i);
        ThreadStays(s, t, i);
      }
    }
    forall k | 0 <= k < |t.queue| ensures JobOk(t, t.queue[k]) {
      if k < |s.queue| {
        assert JobOk(s, s.queue[k]);
      }
    }
    assert OwnersExist(t);
  }

  lemma LoopTakesKeepsInv(s: State)
    requires Inv(s) && Enabled(s, LoopTakes)
    ensures Inv(Apply(s, LoopTakes))
  {
    var t := Apply(s, LoopTakes);
    HeldSame(s, t);
    assert JobOk(s, s.queue[0]);
    forall i: nat | i < |t.threads| ensures ThreadOk(t, i) {
      assert ThreadOk(s, i);
      if Pending(s, i) && s.queue[0].caller != Some(i) {
        var k :| 0 <= k < |s.queue| && s.queue[k].caller == Some(i);
        assert t.queue[k - 1].caller == Some(i);
      }
    }
    forall k | 0 <= k < |t.queue| ensures JobOk(t, t.queue[k]) {
      assert JobOk(s, s.queue[k + 1]);
    }
  }

  lemma LoopAnswersKeepsInv(s: State)
    requires Inv(s) && Enabled(s, LoopAnswers)
    ensures Inv(Apply(s, LoopAnswers))
  {
    hide Disciplined;
    var t := Apply(s, LoopAnswers);
    HeldSame(s, t);
    forall i: nat | i < |t.threads| ensures ThreadOk(t, i) {
      assert ThreadOk(s, i);
      if Pending(s, i) && s.answers != Some(i) {
        var k :| 0 <= k < |s.queue| && s.queue[k].caller == Some(i);
        assert t.queue[k].caller == Some(i);
      }
    }
    forall k | 0 <= k < |t.queue| ensures JobOk(t, t.queue[k]) {
      assert JobOk(s, s.queue[k]);
    }
  }

  lemma ArrivalKeepsInv(s: State, e: Event)
    requires Inv(s) && !Internal(e) && Admitted(e)
    ensures Inv(Apply(s, e))
  {
    hide Disciplined, AllBelow, AllAbove, Pending;
    var t := Apply(s, e);
    HeldSame(s, t);
    forall i: nat | i < |t.threads| ensures ThreadOk(t, i) {
      if i == |s.threads| {
        SpawnedOk(t, i);
      } else {
        assert ThreadOk(s, i);
        ThreadStays(s, t, i);
      }
    }
    forall k | 0 <= k < |t.queue| ensures JobOk(t, t.queue[k]) {
      if k < |s.queue| {
        assert JobOk(s, s.queue[k]);
      }
    }
  }

  /** The event is the next act of `w`, and that act is `act`. */
  predicate IsNext(s: State, e: Event, w: Who, act: Act) {
    match w
    case Thread(i) =>
      e == ThreadActs(i) && i < |s.threads| && s.threads[i].todo != [] && s.threads[i].todo[0] == act
    case Loop => e == LoopActs && s.loop.todo != [] && s.loop.todo[0] == act
  }

  /** A lock changes hands only from nobody to the agent that takes it, and from its holder to nobody. */
  lemma LocksMove(s: State, e: Event, l: Lock, w: Who)
    requires Inv(s) && Enabled(s, e)
    ensures var t := Apply(s, e);
            && (IsNext(s, e, w, Acquire(l)) ==> l !in s.owner && l in Held(t, w))
            && (IsNext(s, e, w, Release(l)) ==> l in Held(s, w) && l !in t.owner)
            && (l in Held(t, w)
                <==> IsNext(s, e, w, Acquire(l)) || (l in Held(s, w) && !IsNext(s, e, w, Release(l))))
  {
    match e {
      case ThreadActs(i) => assert ThreadOk(s, i);
      case LoopActs => assert LoopOk(s);
      case _ =>
    }
  }

  /** A thread does its acts in order and waits from a round trip until the loop answers it. */
  lemma ThreadsMove(s: State, e: Event, i: nat)
    requires Enabled(s, e) && i < |s.threads|
    ensures var (t, before) := (Apply(s, e), s.threads[i]);
            && i < |t.threads|
            && t.threads[i].todo == (if e == ThreadActs(i) then before.todo[1..] else before.todo)
            && t.threads[i].waiting == (if e == ThreadActs(i) then before.todo[0].Call?
                                        else before.waiting && !(e == LoopAnswers && s.answers == Some(i)))
  {
  }

  /** The loop serves its queue first come, first served, and nothing is answered before its body is done. */
  lemma QueueMoves(s: State, e: Event)
    requires Inv(s) && Enabled(s, e)
    ensures var t := Apply(s, e);
            && (e == LoopTakes ==>
                  && s.loop.todo == [] && s.answers == None && s.queue != []
                  && t.loop.todo == s.queue[0].body && t.answers == s.queue[0].caller && t.queue == s.queue[1..])
            && (e == LoopAnswers ==> s.loop.todo == [] && t.answers == None && t.queue == s.queue)
            && (!e.LoopTakes? && !e.LoopAnswers? ==> t.answers == s.answers && s.queue <= t.queue)
            && (e.ThreadActs? && s.threads[e.id].todo[0].Call? ==>
                  t.queue == s.queue + [Job(s.threads[e.id].todo[0].body, Some(e.id))])
            && (e.Post? ==> t.queue == s.queue + [Job(e.prog, None)])
            && (e.Arrive? ==> t.threads == s.threads + [Agent(e.prog, false)])
            && (e == LoopActs && s.loop.todo[0].Spawn? ==>
                  t.threads == s.threads + [Agent(s.loop.todo[0].body, false)])
  {
    hide Disciplined;
  }

  lemma KeepsInv(s: State, e: Event)
    requires Inv(s) && Admitted(e) && Enabled(s, e)
    ensures Inv(Apply(s, e))
  {
    hide Inv, Act1;
    match e {
      case ThreadActs(i) => ActKeepsInv(s, Thread(i), s.threads[i]);
      case LoopActs => ActKeepsInv(s, Loop, s.loop);
      case LoopTakes => LoopTakesKeepsInv(s);
      case LoopAnswers => LoopAnswersKeepsInv(s);
      case Arrive(_) => ArrivalKeepsInv(s, e);
      case Post(_) => ArrivalKeepsInv(s, e);
    }
  }

  /** The discipline is kept in every reachable state, for any number of threads and callbacks. */
  lemma {:induction false} ReachableInv(s: State, es: seq<Event>)
    requires Inv(s) && IsRun(s, es) && AllAdmitted(es)
    ensures Inv(After(s, es))
    decreases |es|
  {
    hide Inv, Apply, Enabled, Admitted;
    if es != [] {
      assert Admitted(es[0]);
      KeepsInv(s, es[0]);
      ReachableInv(Apply(s, es[0]), es[1..]);
    }
  }

  lemma IdleInv()
    ensures Inv(IDLE)
  {
    assert Held(IDLE, Loop) == {};
  }

  /** No thread waits for the loop with more than the strategy lock, and no callback holds or waits for that lock. */
  lemma OnlyStrategyAcrossRoundTrips(es: seq<Event>, i: nat)
    requires IsRun(IDLE, es) && AllAdmitted(es) && i < |After(IDLE, es).threads|
    ensures var s := After(IDLE, es);
            && (s.threads[i].waiting ==> Held(s, Thread(i)) <= {Strategy})
            && Strategy !in Held(s, Loop) && !s.loop.waiting
            && (s.loop.todo != [] ==> s.loop.todo[0] != Acquire(Strategy) && !s.loop.todo[0].Call?)
  {
    IdleInv();
    ReachableInv(IDLE, es);
    assert ThreadOk(After(IDLE, es), i);
  }

  // ── Waiting is acyclic ──

  function AgentOf(s: State, w: Who): Agent
    requires w.Thread? ==> w.id < |s.threads|
  {
    match w
    case Thread(i) => s.threads[i]
    case Loop => s.loop
  }

  predicate Exists(s: State, w: Who) {
    w.Thread? ==> w.id < |s.threads|
  }

  /** `w` cannot go on before `v` does: `v` holds the lock it wants, or is the loop it has called. */
  predicate WaitsFor(s: State, w: Who, v: Who) {
    && Exists(s, w)
    && var a := AgentOf(s, w);
       if a.waiting then v == Loop
       else a.todo != [] && a.todo[0].Acquire? && a.todo[0].lock in s.owner && s.owner[a.todo[0].lock] == v
  }

  /** The rank of what `w` wants next. */
  function Level(s: State, w: Who): nat
    requires Exists(s, w)
  {
    var a := AgentOf(s, w);
    if a.waiting then LOOP_RANK else if a.todo != [] && a.todo[0].Acquire? then Rank(a.todo[0].lock) else 4
  }

  lemma WaitingClimbs(s: State, w: Who, v: Who)
    requires Inv(s) && WaitsFor(s, w, v)
    ensures Exists(s, w) && Exists(s, v) && Level(s, w) < Level(s, v)
  {
    if v.Thread? {
      assert ThreadOk(s, v.id);
    }
    if !AgentOf(s, w).waiting {
      assert AgentOf(s, w).todo[0].lock in Held(s, v);
    }
  }

  predicate IsChain(s: State, chain: seq<Who>) {
    forall k :: 0 <= k < |chain| - 1 ==> WaitsFor(s, chain[k], chain[k + 1])
  }

  lemma {:induction false} ChainClimbs(s: State, chain: seq<Who>)
    requires Inv(s) && |chain| > 1 && IsChain(s, chain)
    ensures Exists(s, chain[0]) && Exists(s, chain[|chain| - 1])
    ensures Level(s, chain[0]) + |chain| - 1 <= Level(s, chain[|chain| - 1])
  {
    hide Inv, Level, WaitsFor;
    var n := |chain| - 1;
    assert WaitsFor(s, chain[n - 1], chain[n - 1 + 1]);
    WaitingClimbs(s, chain[n - 1], chain[n]);
    if n > 1 {
      assert IsChain(s, chain[..n]) by {
        forall k | 0 <= k < n - 1 ensures WaitsFor(s, chain[..n][k], chain[..n][k + 1]) {
          assert WaitsFor(s, chain[k], chain[k + 1]);
        }
      }
      ChainClimbs(s, chain[..n]);
    }
  }

  /** In every reachable state nobody waits for itself, and chains have at most five members. */
  lemma NoDeadlockCycle(es: seq<Event>, chain: seq<Who>)
    requires IsRun(IDLE, es) && AllAdmitted(es) && |chain| > 1 && IsChain(After(IDLE, es), chain)
    ensures chain[0] != chain[|chain| - 1] && |chain| <= 5
  {
    IdleInv();
    ReachableInv(IDLE, es);
    ChainClimbs(After(IDLE, es), chain);
  }

  // ── Progress ──

  predicate Done(s: State) {
    && (forall i :: 0 <= i < |s.threads| ==> s.threads[i].todo == [] && !s.threads[i].waiting)
    && s.loop.todo == [] && s.answers.None? && s.queue == []
  }

  ghost predicate CanMove(s: State) {
    exists e :: Internal(e) && Enabled(s, e)
  }

  /** If a lock is held, somebody can act: its holder, or whoever the holder waits for, one rank further up. */
  lemma {:induction false} HeldLockMoves(s: State, l: Lock)
    requires Inv(s) && l in s.owner
    ensures CanMove(s)
    decreases 3 - Rank(l)
  {
    var w := s.owner[l];
    assert l in Held(s, w);
    match w {
      case Thread(i) =>
        assert ThreadOk(s, i);
        if s.threads[i].waiting {
          assert Pending(s, i);
          LoopMoves(s, l);
        } else if CanAct(s, s.threads[i]) {
          assert Enabled(s, ThreadActs(i));
        } else {
          HeldLockMoves(s, s.threads[i].todo[0].lock);
        }
      case Loop =>
        if CanAct(s, s.loop) {
          assert Enabled(s, LoopActs);
        } else {
          HeldLockMoves(s, s.loop.todo[0].lock);
        }
    }
  }

  /** The loop with something to do moves, or waits for a lock ranked above `l`. */
  lemma {:induction false} LoopMoves(s: State, l: Lock)
    requires Inv(s) && Rank(l) < LOOP_RANK
    requires s.loop.todo != [] || s.answers.Some? || s.queue != []
    ensures CanMove(s)
    decreases 3 - Rank(l), 0
  {
    if s.loop.todo == [] {
      assert Enabled(s, if s.answers.Some? then LoopAnswers else LoopTakes);
    } else if CanAct(s, s.loop) {
      assert Enabled(s, LoopActs);
    } else {
      HeldLockMoves(s, s.loop.todo[0].lock);
    }
  }

  /** Deadlock freedom: unless everything has finished, some thread or the loop can step. */
  lemma Progress(s: State)
    requires Inv(s) && !Done(s)
    ensures CanMove(s)
  {
    if s.loop.todo != [] || s.answers.Some? || s.queue != [] {
      LoopMoves(s, Strategy);
    } else {
      var i :| 0 <= i < |s.threads| && (s.threads[i].todo != [] || s.threads[i].waiting);
      assert ThreadOk(s, i);
      if CanAct(s, s.threads[i]) {
        assert Enabled(s, ThreadActs(i));
      } else {
        HeldLockMoves(s, s.threads[i].todo[0].lock);
      }
    }
  }

  // ── Everything finishes ──

  function Size(acts: seq<Act>): nat {
    if acts == [] then 0
    else (match acts[0]
          case Acquire(_) => 1
          case Release(_) => 1
          case Call(body) => 4 + Size(body)
          case Spawn(body) => 1 + Size(body)) + Size(acts[1..])
  }

  function ThreadWork(ts: seq<Agent>): nat {
    if ts == [] then 0 else Size(ts[0].todo) + ThreadWork(ts[1..])
  }

  function QueueWork(q: seq<Job>): nat {
    if q == [] then 0 else 2 + Size(q[0].body) + QueueWork(q[1..])
  }

  function Work(s: State): nat {
    ThreadWork(s.threads) + QueueWork(s.queue) + Size(s.loop.todo) + if s.answers.Some? then 1 else 0
  }

  lemma {:induction false} ThreadWorkUpdate(ts: seq<Agent>, i: nat, a: Agent)
    requires i < |ts|
    ensures ThreadWork(ts[i := a]) + Size(ts[i].todo) == ThreadWork(ts) + Size(a.todo)
  {
    var us := ts[i := a];
    if i == 0 {
      assert us[1..] == ts[1..];
    } else {
      assert us[1..] == ts[1..][i - 1 := a];
      ThreadWorkUpdate(ts[1..], i - 1, a);
    }
  }

  lemma {:induction false} ThreadWorkAppend(ts: seq<Agent>, a: Agent)
    ensures ThreadWork(ts + [a]) == ThreadWork(ts) + Size(a.todo)
  {
    if ts == [] {
      assert [a][1..] == [] && ts + [a] == [a];
    } else {
      assert (ts + [a])[1..] == ts[1..] + [a];
      ThreadWorkAppend(ts[1..], a);
    }
  }

  lemma {:induction false} QueueWorkAppend(q: seq<Job>, j: Job)
    ensures QueueWork(q + [j]) == QueueWork(q) + 2 + Size(j.body)
  {
    if q == [] {
      assert [j][1..] == [] && q + [j] == [j];
    } else {
      assert (q + [j])[1..] == q[1..] + [j];
      QueueWorkAppend(q[1..], j);
    }
  }

  lemma ActShrinks(s: State, w: Who, a: Agent)
    requires IsAgent(s, w, a) && CanAct(s, a)
    ensures Work(Act1(s, w, a)) < Work(s)
  {
    var b := Agent(a.todo[1..], a.todo[0].Call?);
    if w.Thread? {
      ThreadWorkUpdate(s.threads, w.id, b);
    }
    match a.todo[0] {
      case Acquire(_) =>
      case Release(_) =>
      case Call(body) => QueueWorkAppend(s.queue, Job(body, if w.Thread? then Some(w.id) else None));
      case Spawn(body) => ThreadWorkAppend(SetAgent(s, w, b).threads, Agent(body, false));
    }
  }

  lemma StepShrinks(s: State, e: Event)
    requires Internal(e) && Enabled(s, e)
    ensures Work(Apply(s, e)) < Work(s)
  {
    match e {
      case ThreadActs(i) => ActShrinks(s, Thread(i), s.threads[i]);
      case LoopActs => ActShrinks(s, Loop, s.loop);
      case LoopTakes =>
      case LoopAnswers => ThreadWorkUpdate(s.threads, s.answers.value, s.threads[s.answers.value].(waiting := false));
    }
  }

  predicate AllInternal(es: seq<Event>) {
    forall e :: e in es ==> Internal(e)
  }

  /**
   * Left to itself, any reachable state runs down: no schedule is longer than
   * the work left, and one that can go no further has finished every thread,
   * every callback and every round trip, with all locks free.
   */
  lemma {:induction false} EverythingFinishes(s: State, es: seq<Event>)
    requires Inv(s) && IsRun(s, es) && AllInternal(es)
    ensures |es| <= Work(s)
    ensures !CanMove(After(s, es)) ==> Done(After(s, es)) && After(s, es).owner == map[]
    decreases |es|
  {
    hide Inv, Apply, Enabled, Work, CanMove, Done;
    if es == [] {
      if !CanMove(s) {
        if !Done(s) {
          Progress(s);
        }
        DoneFreesLocks(s);
      }
    } else {
      assert Internal(es[0]) && Admitted(es[0]);
      StepShrinks(s, es[0]);
      KeepsInv(s, es[0]);
      EverythingFinishes(Apply(s, es[0]), es[1..]);
    }
  }

  lemma DoneFreesLocks(s: State)
    requires Inv(s) && Done(s)
    ensures s.owner == map[]
  {
    forall i: nat | i < |s.threads| ensures Held(s, Thread(i)) == {} {
      assert ThreadOk(s, i);
    }
    assert forall l :: l in s.owner ==> l in Held(s, s.owner[l]);
  }

  // ── The backend itself ──

  /** What arrives at this backend: strategy handlers, requests without a lock, and work for the loop. */
  ghost predicate Sourced(e: Event) {
    && (e.Arrive? ==>
          || (exists steps, rails :: e.prog == Handler(steps, rails))
          || (exists steps :: e.prog == Request(steps)))
    && (e.Post? ==> exists work :: e.prog == Body(work))
  }

  lemma SourcedAdmitted(e: Event)
    requires Sourced(e)
    ensures Admitted(e)
  {
    hide Disciplined, Handler, Request, Body;
    if e.Arrive? {
      if steps, rails :| e.prog == Handler(steps, rails) {
        HandlerDisciplined(steps, rails);
      } else {
        var steps :| e.prog == Request(steps);
        RequestDisciplined(steps);
      }
    } else if e.Post? {
      var work :| e.prog == Body(work);
      BodyDisciplined(work);
    }
  }

  /**
   * However many starts, controls, other requests, account snapshots and loss stops arrive and
   * however they interleave, something can always step until all of it is done.
   */
  lemma BackendNeverDeadlocks(es: seq<Event>)
    requires IsRun(IDLE, es) && forall e :: e in es ==> Sourced(e)
    ensures CanMove(After(IDLE, es)) || Done(After(IDLE, es))
  {
    hide Inv, Sourced, Admitted, CanMove, Done;
    forall e | e in es ensures Admitted(e) {
      SourcedAdmitted(e);
    }
    IdleInv();
    ReachableInv(IDLE, es);
    if !Done(After(IDLE, es)) {
      Progress(After(IDLE, es));
    }
  }

  // ── Why callbacks must not take the strategy lock ──

  lemma RunOfOneMore(s: State, e: Event, es: seq<Event>)
    requires Enabled(s, e) && IsRun(Apply(s, e), es)
    ensures IsRun(s, [e] + es) && After(s, [e] + es) == After(Apply(s, e), es)
  {
    hide Enabled, Apply;
    assert ([e] + es)[1..] == es;
  }

  const HANDLER := [Acquire(Strategy), Call([]), Release(Strategy)]
  const CALLBACK := [Acquire(Strategy), Release(Strategy)]

  /** The handler holds the lock and has called the loop, which has taken the callback. */
  const STUCK := State([Agent([Release(Strategy)], true)], Agent(CALLBACK, false), None, [Job([], Some(0))],
                       map[Strategy := Thread(0)])

  lemma StuckRun()
    ensures var s := Apply(Apply(IDLE, Arrive(HANDLER)), Post(CALLBACK));
            && Enabled(s, ThreadActs(0)) && Enabled(Apply(s, ThreadActs(0)), LoopTakes)
            && var t := Apply(Apply(s, ThreadActs(0)), LoopTakes);
               Enabled(t, ThreadActs(0)) && Apply(t, ThreadActs(0)) == STUCK
  {
    var s := Apply(Apply(IDLE, Arrive(HANDLER)), Post(CALLBACK));
    var t := Apply(Apply(s, ThreadActs(0)), LoopTakes);
    assert t == State([Agent([Call([]), Release(Strategy)], false)], Agent(CALLBACK, false), None, [],
                      map[Strategy := Thread(0)]);
  }

  lemma StuckIsStuck()
    ensures !CanMove(STUCK) && !Done(STUCK)
  {
  }

  /** A callback that takes the strategy lock meets a handler that calls the loop under it: neither moves again. */
  lemma StrategyLockOnTheLoopDeadlocks()
    ensures HANDLER == Handler([RoundTrip(0)], false)
    ensures var es := [Arrive(HANDLER), Post(CALLBACK), ThreadActs(0), LoopTakes, ThreadActs(0)];
            IsRun(IDLE, es) && !CanMove(After(IDLE, es)) && !Done(After(IDLE, es))
  {
    StuckIsStuck();
    StuckRun();
    hide CanMove, Done;
    var s1 := Apply(IDLE, Arrive(HANDLER));
    var s2 := Apply(s1, Post(CALLBACK));
    var s3 := Apply(s2, ThreadActs(0));
    var s4 := Apply(s3, LoopTakes);
    hide Apply;
    RunOfOneMore(s4, ThreadActs(0), []);
    RunOfOneMore(s3, LoopTakes, [ThreadActs(0)]);
    RunOfOneMore(s2, ThreadActs(0), [LoopTakes, ThreadActs(0)]);
    RunOfOneMore(s1, Post(CALLBACK), [ThreadActs(0), LoopTakes, ThreadActs(0)]);
    RunOfOneMore(IDLE, Arrive(HANDLER), [Post(CALLBACK), ThreadActs(0), LoopTakes, ThreadActs(0)]);
  }
}
