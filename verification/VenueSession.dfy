/** Login, logout and execution mode over one live venue session. */
module VenueSession {
  import opened Wrappers

  // ── The venue state machine ──

  datatype VenueState = DISCONNECTED | AUTHENTICATING | CONNECTED | SUBSCRIBED | RECONNECTING | ERROR

  predicate Allowed(from: VenueState, to: VenueState) {
    match from
    case DISCONNECTED => to.AUTHENTICATING?
    case AUTHENTICATING => to.CONNECTED? || to.ERROR?
    case CONNECTED => to.SUBSCRIBED? || to.ERROR?
    case SUBSCRIBED => to.RECONNECTING? || to.ERROR?
    case RECONNECTING => to.SUBSCRIBED? || to.ERROR?
    case ERROR => to.DISCONNECTED?
  }

  predicate LiveState(s: VenueState) {
    s.CONNECTED? || s.SUBSCRIBED?
  }

  class VenueStateMachine {
    var current: VenueState

    constructor ()
      ensures current == DISCONNECTED
    {
      current := DISCONNECTED;
    }

    /** `ok` is false where the transition is not allowed and the original raises; the state then stays. */
    method TransitionTo(target: VenueState) returns (ok: bool)
      modifies this
      ensures ok <==> Allowed(old(current), target)
      ensures current == if ok then target else old(current)
    {
      if !Allowed(current, target) {
        return false;
      }
      current := target;
      ok := true;
    }

    method Reset()
      modifies this
      ensures current == DISCONNECTED
    {
      current := DISCONNECTED;
    }
  }

  // ── Requests, configuration and what the environment decides ──

  datatype ExecutionMode = Replay | LiveManual | LiveAuto

  predicate IsLive(m: ExecutionMode) {
    !m.Replay?
  }

  datatype Credentials = Prompt | SessionCache | Env | PromptResult

  /** Adapters are told apart by the number the factory gives them. */
  type Adapter = nat

  datatype Config = Config(factory: bool, venue: Option<string>, debugBuild: bool)

  datatype LoginRequest = LoginRequest(venue: string, credentials: Option<Credentials>)

  /**
   * Starting the components: all set, nothing set, or an error after they were set. A start that
   * times out has set nothing yet, but goes on in the loop and may set them later.
   */
  datatype StartOutcome = StartOk | FailsBefore | FailsAfter | TimesOut
  /** A login dialog that fails always names a reason; "AUTH_FAILED" when it gives none itself. */
  type Code = s: string | s != "" witness "AUTH_FAILED"
  datatype PromptOutcome = Authenticated | NoDisplay | PromptError(code: Code) | PromptRaises
  datatype LoginOutcome = LoggedIn | LoginRaises(code: string)
  datatype Attempt = Attempt(adapter: Adapter, start: StartOutcome, prompt: PromptOutcome, login: LoginOutcome)

  /** `liveError`: the runner or bridge of the current session has died. */
  datatype LoginEnv = LoginEnv(liveError: bool, first: Attempt, second: Attempt)

  const KNOWN_VENUES := {"TACHIBANA", "KABU", "MOCK"}
  const ADAPTER_ERROR_CODES := {"SESSION_CACHE_MISSING", "SESSION_CACHE_EXPIRED", "PROMPT_RESULT_MISSING_TOKEN"}

  // ── What the handlers do, as one step each ──

  datatype View = View(
    sm: VenueState, runner: Option<Adapter>, bridge: Option<Adapter>, facade: Option<Adapter>, mode: ExecutionMode)

  const INITIAL := View(DISCONNECTED, None, None, None, Replay)

  /** A session as it stands between two handlers. */
  predicate Consistent(v: View) {
    && (v.sm == DISCONNECTED || LiveState(v.sm))
    && (LiveState(v.sm) ==> v.runner.Some?)
    && v.runner == v.bridge == v.facade
  }

  /** Components without a venue: those of a start that timed out and came through afterwards. */
  predicate Stray(v: View) {
    v.runner.Some? && !LiveState(v.sm)
  }

  function Down(v: View): View {
    View(DISCONNECTED, None, None, None, v.mode)
  }

  function Arrived(v: View, a: Adapter): View {
    v.(runner := Some(a), bridge := Some(a), facade := Some(a))
  }

  function Up(v: View, a: Adapter): View {
    View(CONNECTED, Some(a), Some(a), Some(a), v.mode)
  }

  /** Requests refused before anything is touched. */
  function Refusal(cfg: Config, req: LoginRequest): Option<string> {
    if req.credentials.None? then Some("INVALID_CREDENTIALS_SOURCE")
    else if req.venue !in KNOWN_VENUES then Some("UNKNOWN_VENUE")
    else if req.venue == "KABU" && req.credentials.value.SessionCache? then Some("UNSUPPORTED_FOR_VENUE")
    else if !cfg.factory then Some("LIVE_ADAPTER_NOT_CONFIGURED")
    else if cfg.venue.Some? && cfg.venue.value != req.venue then Some("VENUE_MISMATCH")
    else None
  }

  /** An attempt that finds components in place uses those, and starts none. */
  function OnRunner(runner: Option<Adapter>, a: Attempt): Attempt {
    if runner.Some? then a.(adapter := runner.value, start := StartOk) else a
  }

  /** Why an attempt fails, or "" when it succeeds. */
  function AttemptCode(a: Attempt, source: Credentials): string {
    if !a.start.StartOk? then "VENUE_LOGIN_FAILED"
    else if source.Prompt? && a.prompt.NoDisplay? then "NO_DISPLAY_AVAILABLE"
    else if source.Prompt? && a.prompt.PromptError? then a.prompt.code
    else if source.Prompt? && a.prompt.PromptRaises? then "VENUE_LOGIN_FAILED"
    else if a.login.LoginRaises? then
      if a.login.code in ADAPTER_ERROR_CODES then a.login.code else "VENUE_LOGIN_FAILED"
    else ""
  }

  /** A debug build without a display retries once from the environment. */
  predicate Retries(cfg: Config, source: Credentials, a: Attempt) {
    cfg.debugBuild && source.Prompt? && a.start.StartOk? && a.prompt.NoDisplay?
  }

  /** The attempt a login ends with, and the credentials it uses. A live session is torn down first. */
  function LastAttempt(v: View, cfg: Config, source: Credentials, env: LoginEnv): (Attempt, Credentials) {
    var first := if LiveState(v.sm) then env.first else OnRunner(v.runner, env.first);
    if Retries(cfg, source, first) then (env.second, Env) else (first, source)
  }

  /** A login is refused, a no-op, or it ends in one of two clean states. */
  function LoginStep(v: View, cfg: Config, req: LoginRequest, env: LoginEnv): (View, string) {
    if Refusal(cfg, req).Some? then (v, Refusal(cfg, req).value)
    else if LiveState(v.sm) && !env.liveError then (v, "")
    else if v.sm.AUTHENTICATING? then (v, "ALREADY_AUTHENTICATING")
    else
      var (last, source) := LastAttempt(v, cfg, req.credentials.value, env);
      var code := AttemptCode(last, source);
      if code == "" then (Up(v, last.adapter), "") else (Down(v), code)
  }

  /** `None` stands for a mode name the backend does not know. */
  function ModeStep(v: View, cfg: Config, mode: Option<ExecutionMode>): (View, string) {
    if mode.None? then (v, "INVALID_MODE")
    else if IsLive(mode.value) && !cfg.factory then (v, "LIVE_ADAPTER_NOT_CONFIGURED")
    else if IsLive(mode.value) && !LiveState(v.sm) then (v, "EXECUTION_MODE_PRECONDITION")
    else if IsLive(mode.value) && v.runner.None? then (v.(mode := mode.value), "VENUE_LOGIN_REQUIRED")
    else (v.(mode := mode.value), "")
  }

  // ── The handlers ──

  class ModeManager {
    const venueSm: VenueStateMachine
    var currentMode: ExecutionMode

    constructor (sm: VenueStateMachine)
      ensures venueSm == sm && currentMode == Replay
    {
      venueSm, currentMode := sm, Replay;
    }

    method SetExecutionMode(mode: Option<ExecutionMode>) returns (ok: bool)
      modifies this
      ensures ok <==> mode.Some? && (IsLive(mode.value) ==> LiveState(venueSm.current))
      ensures currentMode == if ok then mode.value else old(currentMode)
    {
      if mode.None? {
        return false;
      }
      if IsLive(mode.value) && !LiveState(venueSm.current) {
        return false;
      }
      currentMode := mode.value;
      ok := true;
    }
  }

  class LiveBackend {
    const cfg: Config
    const venueSm: VenueStateMachine
    const modeManager: ModeManager
    var liveRunner: Option<Adapter>
    var liveBridge: Option<Adapter>
    var orderFacade: Option<Adapter>

    ghost predicate Valid() reads this {
      modeManager.venueSm == venueSm
    }

    ghost function Value(): View reads this, venueSm, modeManager {
      View(venueSm.current, liveRunner, liveBridge, orderFacade, modeManager.currentMode)
    }

    constructor (cfg: Config)
      ensures Valid() && Value() == INITIAL && this.cfg == cfg
    {
      this.cfg := cfg;
      var sm := new VenueStateMachine();
      var mm := new ModeManager(sm);
      venueSm, modeManager := sm, mm;
      liveRunner, liveBridge, orderFacade := None, None, None;
    }

    /** Builds the session's components on the live loop, unless they exist; `ok` is false when it raises. */
    method StartLiveComponents(a: Attempt) returns (ok: bool)
      requires Valid()
      modifies this
      ensures Valid()
      ensures old(liveRunner.Some? && liveBridge.Some?) || !cfg.factory ==> ok && unchanged(this)
      ensures !old(liveRunner.Some? && liveBridge.Some?) && cfg.factory ==>
                && (ok <==> a.start.StartOk?)
                && (a.start.FailsBefore? || a.start.TimesOut? ==> unchanged(this))
                && (a.start.StartOk? || a.start.FailsAfter? ==>
                      liveRunner == liveBridge == orderFacade == Some(a.adapter))
    {
      if (liveRunner.Some? && liveBridge.Some?) || !cfg.factory {
        return true;
      }
      if a.start.FailsBefore? || a.start.TimesOut? {
        return false;
      }
      liveRunner := Some(a.adapter);
      liveBridge := Some(a.adapter);
      orderFacade := Some(a.adapter);
      ok := a.start.StartOk?;
    }

    /** A start that timed out earlier comes through on the loop; it no longer looks at what is in place. */
    method CompleteLateStart(adapter: Adapter)
      requires Valid()
      modifies this
      ensures Valid() && Value() == Arrived(old(Value()), adapter)
    {
      liveRunner := Some(adapter);
      liveBridge := Some(adapter);
      orderFacade := Some(adapter);
    }

    /** Stops and forgets the components, and returns the venue to DISCONNECTED. */
    method TeardownLiveComponents()
      requires Valid()
      modifies this, venueSm
      ensures Valid()
      ensures Value() == if old(liveRunner).None? && old(liveBridge).None? then old(Value()) else Down(old(Value()))
    {
      if liveRunner.None? && liveBridge.None? {
        return;
      }
      liveRunner, liveBridge, orderFacade := None, None, None;
      if venueSm.current != DISCONNECTED {
        venueSm.Reset();
      }
    }

    /** One login attempt: `handled` is false when the caller may retry from the environment. */
    method TryLogin(source: Credentials, a: Attempt) returns (handled: bool, code: string)
      requires Valid() && cfg.factory && venueSm.current == DISCONNECTED && Consistent(Value())
      modifies this, venueSm
      ensures Valid() && modeManager.currentMode == old(modeManager.currentMode)
      ensures code == AttemptCode(OnRunner(old(liveRunner), a), source)
      ensures handled <==> !Retries(cfg, source, OnRunner(old(liveRunner), a))
      ensures code == "" && handled ==> Value() == Up(old(Value()), OnRunner(old(liveRunner), a).adapter)
      ensures code != "" ==> venueSm.current in {DISCONNECTED, AUTHENTICATING}
      ensures liveRunner == liveBridge == orderFacade
      ensures liveRunner.None? && liveBridge.None? ==> Value() == old(Value())
    {
      var started := StartLiveComponents(a);
      if !started {
        return true, "VENUE_LOGIN_FAILED";
      }
      if source.Prompt? {
        if venueSm.current == DISCONNECTED {
          var moved := venueSm.TransitionTo(AUTHENTICATING);
          assert moved;
        }
        match a.prompt {
          case Authenticated =>
          case NoDisplay =>
            return !cfg.debugBuild, "NO_DISPLAY_AVAILABLE";
          case PromptError(ec) =>
            return true, ec;
          case PromptRaises =>
            return true, "VENUE_LOGIN_FAILED";
        }
      }
      if a.login.LoginRaises? {
        return true, if a.login.code in ADAPTER_ERROR_CODES then a.login.code else "VENUE_LOGIN_FAILED";
      }
      if venueSm.current == DISCONNECTED {
        var moved := venueSm.TransitionTo(AUTHENTICATING);
        assert moved;
      }
      if venueSm.current == AUTHENTICATING {
        var moved := venueSm.TransitionTo(CONNECTED);
        assert moved;
      }
      return true, "";
    }

    /** Cleans up after a failed login, whether or not its components were started. */
    method Fail()
      requires Valid() && venueSm.current in {DISCONNECTED, AUTHENTICATING}
      requires liveRunner.None? && liveBridge.None? ==> orderFacade.None?
      modifies this, venueSm
      ensures Valid() && Value() == Down(old(Value()))
    {
      if liveRunner.Some? || liveBridge.Some? {
        TeardownLiveComponents();
      }
      if venueSm.current == AUTHENTICATING {
        var moved := venueSm.TransitionTo(ERROR);
        assert moved;
        venueSm.Reset();
      }
    }

    method VenueLogin(req: LoginRequest, env: LoginEnv) returns (code: string)
      requires Valid() && (Consistent(Value()) || venueSm.current == AUTHENTICATING)
      modifies this, venueSm
      ensures Valid() && (Value(), code) == LoginStep(old(Value()), cfg, req, env)
    {
      if req.credentials.None? {
        return "INVALID_CREDENTIALS_SOURCE";
      }
      var source := req.credentials.value;
      if req.venue !in KNOWN_VENUES {
        return "UNKNOWN_VENUE";
      }
      if req.venue == "KABU" && source.SessionCache? {
        return "UNSUPPORTED_FOR_VENUE";
      }
      if !cfg.factory {
        return "LIVE_ADAPTER_NOT_CONFIGURED";
      }
      if cfg.venue.Some? && cfg.venue.value != req.venue {
        return "VENUE_MISMATCH";
      }
      if LiveState(venueSm.current) {
        if !env.liveError {
          return "";
        }
        if liveRunner.Some? || liveBridge.Some? {
          TeardownLiveComponents();
        }
      }
      if venueSm.current == AUTHENTICATING {
        return "ALREADY_AUTHENTICATING";
      }
      var handled;
      handled, code := TryLogin(source, env.first);
      if !handled && source.Prompt? {
        if cfg.debugBuild {
          if liveRunner.Some? || liveBridge.Some? {
            TeardownLiveComponents();
          }
          handled, code := TryLogin(Env, env.second);
        } else {
          code := "NO_DISPLAY_AVAILABLE";
        }
      }
      if code != "" {
        Fail();
      }
    }

    method VenueLogout()
      requires Valid() && (liveRunner.None? && liveBridge.None? ==> orderFacade.None?)
      modifies this, venueSm
      ensures Valid() && Value() == Down(old(Value()))
    {
      if liveRunner.Some? || liveBridge.Some? {
        TeardownLiveComponents();
      } else if venueSm.current != DISCONNECTED {
        venueSm.Reset();
      }
    }

    method SetExecutionMode(mode: Option<ExecutionMode>) returns (code: string)
      requires Valid()
      modifies modeManager
      ensures Valid() && (Value(), code) == ModeStep(old(Value()), cfg, mode)
    {
      if mode.None? {
        return "INVALID_MODE";
      }
      if IsLive(mode.value) && !cfg.factory {
        return "LIVE_ADAPTER_NOT_CONFIGURED";
      }
      var applied := modeManager.SetExecutionMode(mode);
      if !applied {
        return "EXECUTION_MODE_PRECONDITION";
      }
      if IsLive(mode.value) {
        if liveRunner.None? {
          return "VENUE_LOGIN_REQUIRED";
        }
      }
      code := "";
    }
  }

  // ── Whole sessions ──

  datatype Request =
    | Login(req: LoginRequest, env: LoginEnv)
    | Logout
    | SetMode(mode: Option<ExecutionMode>)
    | LateStart(adapter: Adapter)

  function Handle(v: View, cfg: Config, r: Request): (View, string) {
    match r
    case Login(req, env) => LoginStep(v, cfg, req, env)
    case Logout => (Down(v), "")
    case SetMode(mode) => ModeStep(v, cfg, mode)
    case LateStart(a) => (Arrived(v, a), "")
  }

  /** The session after a sequence of requests, handled one at a time. */
  function After(cfg: Config, rs: seq<Request>): View {
    if rs == [] then INITIAL else Handle(After(cfg, rs[..|rs| - 1]), cfg, rs[|rs| - 1]).0
  }

  /**
   * Between any two handlers a live venue has a runner, bridge and facade are that runner's, and
   * nothing is left authenticating. Without late starts a runner also means a live venue.
   */
  lemma {:induction false} SessionConsistent(cfg: Config, rs: seq<Request>)
    ensures Consistent(After(cfg, rs))
    ensures (forall r :: r in rs ==> !r.LateStart?) ==> !Stray(After(cfg, rs))
  {
    if rs != [] {
      var init, r := rs[..|rs| - 1], rs[|rs| - 1];
      SessionConsistent(cfg, init);
      assert r in rs && forall q :: q in init ==> q in rs;
    }
  }

  /** The session before the request with index `k`. */
  function Before(cfg: Config, rs: seq<Request>, k: nat): View
    requires k <= |rs|
  {
    After(cfg, rs[..k])
  }

  lemma BeforeStep(cfg: Config, rs: seq<Request>, k: nat)
    requires k < |rs|
    ensures Consistent(Before(cfg, rs, k))
    ensures Before(cfg, rs, k + 1) == Handle(Before(cfg, rs, k), cfg, rs[k]).0
  {
    SessionConsistent(cfg, rs[..k]);
    assert rs[..k + 1][..k] == rs[..k];
  }

  lemma NothingBefore(cfg: Config, rs: seq<Request>)
    ensures Before(cfg, rs, 0) == INITIAL
  {
  }

  /** The request settles whether components are in place: a logout, or a login that is not refused. */
  predicate Clears(cfg: Config, r: Request) {
    r.Logout? || (r.Login? && Refusal(cfg, r.req).None?)
  }

  /** One request leaves stray components exactly when it is a late start without a venue, or leaves them alone. */
  lemma StrayIff(v: View, cfg: Config, r: Request)
    requires Consistent(v)
    ensures Stray(Handle(v, cfg, r).0) <==>
            (r.LateStart? && !LiveState(v.sm)) || (Stray(v) && !Clears(cfg, r))
  {
  }

  /** Request `i` was a late start without a venue, and no request from there to `n` cleared it. */
  ghost predicate StrayedAt(cfg: Config, rs: seq<Request>, i: nat, n: nat)
    requires n <= |rs|
  {
    i < n && rs[i].LateStart? && !LiveState(Before(cfg, rs, i).sm) && forall k :: i < k < n ==> !Clears(cfg, rs[k])
  }

  /**
   * After any history components stand without a venue exactly when a late start put them there and
   * nothing since has cleared them.
   */
  lemma {:induction false} StrayHistory(cfg: Config, rs: seq<Request>, n: nat)
    requires n <= |rs|
    ensures Stray(Before(cfg, rs, n)) <==> exists i: nat :: StrayedAt(cfg, rs, i, n)
  {
    hide Clears, Before, Handle, Stray;
    if n == 0 {
      NothingBefore(cfg, rs);
      NoStrayAtFirst();
    } else {
      var p: nat := n - 1;
      StrayHistory(cfg, rs, p);
      BeforeStep(cfg, rs, p);
      var v := Before(cfg, rs, p);
      StrayIff(v, cfg, rs[p]);
      if rs[p].LateStart? && !LiveState(v.sm) {
        assert StrayedAt(cfg, rs, p, n);
      } else if i: nat :| StrayedAt(cfg, rs, i, p) && !Clears(cfg, rs[p]) {
        assert StrayedAt(cfg, rs, i, n);
      }
      assert forall i: nat :: StrayedAt(cfg, rs, i, n) && i < p ==> StrayedAt(cfg, rs, i, p);
    }
  }

  lemma NoStrayAtFirst()
    ensures !Stray(INITIAL)
  {
  }

  /**
   * While the venue stays live its components change only by a late start of another adapter, or
   * by a login that replaces a dead session.
   */
  lemma RunnerChangesIff(v: View, cfg: Config, r: Request)
    requires Consistent(v) && LiveState(v.sm) && LiveState(Handle(v, cfg, r).0.sm)
    ensures Handle(v, cfg, r).0.runner != v.runner <==>
            || (r.LateStart? && Some(r.adapter) != v.runner)
            || (r.Login? && Refusal(cfg, r.req).None? && r.env.liveError
                && Some(LastAttempt(v, cfg, r.req.credentials.value, r.env).0.adapter) != v.runner)
  {
  }

  /** A start times out, the next login succeeds, the first start comes through: its adapter never logged in. */
  lemma LateStartTakesOver()
    ensures var cfg := Config(true, None, false);
            var slow := Attempt(0, TimesOut, Authenticated, LoggedIn);
            var good := Attempt(1, StartOk, Authenticated, LoggedIn);
            var req := LoginRequest("MOCK", Some(Env));
            var rs := [Login(req, LoginEnv(false, slow, slow)), Login(req, LoginEnv(false, good, good)), LateStart(0)];
            && After(cfg, rs[..2]) == Up(INITIAL, 1) && Handle(INITIAL, cfg, rs[0]).1 == "VENUE_LOGIN_FAILED"
            && After(cfg, rs) == Up(INITIAL, 0)
  {
    var cfg := Config(true, None, false);
    var slow := Attempt(0, TimesOut, Authenticated, LoggedIn);
    var good := Attempt(1, StartOk, Authenticated, LoggedIn);
    var req := LoginRequest("MOCK", Some(Env));
    var rs := [Login(req, LoginEnv(false, slow, slow)), Login(req, LoginEnv(false, good, good)), LateStart(0)];
    assert rs[..1][..0] == [] && rs[..2][..1] == rs[..1];
    assert After(cfg, rs[..1]) == INITIAL;
  }

  /** A login settles the session whatever happened: an adapter in place or of its own attempts, or none. */
  lemma {:induction false} LoginSettles(cfg: Config, rs: seq<Request>, req: LoginRequest, env: LoginEnv)
    ensures var v, after := After(cfg, rs), After(cfg, rs + [Login(req, env)]);
            && after.mode == v.mode
            && (after == v || after == Down(v) || after == Up(v, env.first.adapter)
                || after == Up(v, env.second.adapter) || (Stray(v) && after == Up(v, v.runner.value)))
            && (Refusal(cfg, req).None? && (!LiveState(v.sm) || env.liveError) ==>
                  (LiveState(after.sm) <==> Handle(v, cfg, Login(req, env)).1 == ""))
  {
    assert (rs + [Login(req, env)])[..|rs|] == rs;
  }

  /** A mode request that fails changes nothing, after any session. */
  lemma {:induction false} FailedModeKeepsMode(cfg: Config, rs: seq<Request>, mode: Option<ExecutionMode>)
    ensures var v := After(cfg, rs);
            var (after, code) := Handle(v, cfg, SetMode(mode));
            code != "VENUE_LOGIN_REQUIRED" && (code != "" ==> after == v)
  {
    SessionConsistent(cfg, rs);
  }

  /**
   * `SetExecutionMode` assigns the mode before it looks for a runner, so the
   * guarantee above rests on the session: it holds of a state, for every
   * request, exactly when the state is not a live venue without a runner.
   */
  lemma FailedModeKeepsModeIff(v: View, cfg: Config)
    ensures (forall m: Option<ExecutionMode> :: ModeStep(v, cfg, m).1 != "" ==> ModeStep(v, cfg, m).0.mode == v.mode)
            <==> !(cfg.factory && LiveState(v.sm) && v.runner.None?)
  {
    if cfg.factory && LiveState(v.sm) && v.runner.None? {
      var m := Some(if v.mode.LiveAuto? then LiveManual else LiveAuto);
      assert ModeStep(v, cfg, m).1 != "" && ModeStep(v, cfg, m).0.mode != v.mode;
    }
  }

  // ── What a request answers, by its inputs ──

  /** The backend can try to log in for the request: a known, configured venue and credentials it supports. */
  predicate Supported(cfg: Config, req: LoginRequest) {
    && req.credentials.Some? && req.venue in {"TACHIBANA", "KABU", "MOCK"}
    && !(req.venue == "KABU" && req.credentials == Some(SessionCache))
    && cfg.factory && (cfg.venue == None || cfg.venue == Some(req.venue))
  }

  /** An attempt succeeds if nothing on its way fails; only a prompt asks for a dialog. */
  predicate Succeeds(a: Attempt, source: Credentials) {
    a.start == StartOk && (source == Prompt ==> a.prompt == Authenticated) && a.login == LoggedIn
  }

  /** A first attempt by prompt that found no display: a debug build then tries the environment. */
  predicate TriesAgain(cfg: Config, source: Credentials, a: Attempt) {
    cfg.debugBuild && source == Prompt && a.start == StartOk && a.prompt == NoDisplay
  }

  /** The attempt that decides a login that is let through, and its credentials. */
  function LastTry(v: View, cfg: Config, source: Credentials, env: LoginEnv): (Attempt, Credentials) {
    var held := v.runner.Some? && v.sm == DISCONNECTED;
    var first := if held then Attempt(v.runner.value, StartOk, env.first.prompt, env.first.login) else env.first;
    if TriesAgain(cfg, source, first) then (env.second, Env) else (first, source)
  }

  /**
   * After any history a login that is not supported changes nothing; with a live venue whose session
   * works it changes nothing either; any other ends live on an adapter, or with everything down.
   */
  lemma LoginByInputs(cfg: Config, rs: seq<Request>, req: LoginRequest, env: LoginEnv)
    ensures var v := After(cfg, rs);
            var (after, code) := Handle(v, cfg, Login(req, env));
            if !Supported(cfg, req) then after == v && code != ""
            else if v.sm in {CONNECTED, SUBSCRIBED} && !env.liveError then after == v && code == ""
            else
              var (last, source) := LastTry(v, cfg, req.credentials.value, env);
              && code == AttemptCode(last, source)
              && if Succeeds(last, source) then
                   var a := Some(last.adapter);
                   after == View(CONNECTED, a, a, a, v.mode) && code == ""
                 else after == View(DISCONNECTED, None, None, None, v.mode) && code != ""
  {
    SessionConsistent(cfg, rs);
    hide After;
    LastTryIs(After(cfg, rs), cfg, req, env);
    hide LastTry, LastAttempt, AttemptCode, Succeeds;
  }

  lemma LastTryIs(v: View, cfg: Config, req: LoginRequest, env: LoginEnv)
    requires Consistent(v)
    ensures req.credentials.Some? ==>
              var (last, source) := LastTry(v, cfg, req.credentials.value, env);
              && LastAttempt(v, cfg, req.credentials.value, env) == (last, source)
              && (AttemptCode(last, source) == "" <==> Succeeds(last, source))
  {
  }

  /** Each refusal is the answer whatever the environment does exactly when its own condition is the first to hold. */
  lemma RefusedIff(cfg: Config, rs: seq<Request>, req: LoginRequest)
    ensures AlwaysAnswers(cfg, rs, req, "INVALID_CREDENTIALS_SOURCE") <==> req.credentials == None
    ensures AlwaysAnswers(cfg, rs, req, "UNKNOWN_VENUE") <==>
            req.credentials.Some? && req.venue !in {"TACHIBANA", "KABU", "MOCK"}
    ensures AlwaysAnswers(cfg, rs, req, "UNSUPPORTED_FOR_VENUE") <==>
            req.venue == "KABU" && req.credentials == Some(SessionCache)
    ensures AlwaysAnswers(cfg, rs, req, "LIVE_ADAPTER_NOT_CONFIGURED") <==>
            req.credentials.Some? && req.venue in {"TACHIBANA", "KABU", "MOCK"}
            && !(req.venue == "KABU" && req.credentials == Some(SessionCache)) && !cfg.factory
    ensures AlwaysAnswers(cfg, rs, req, "VENUE_MISMATCH") <==>
            req.credentials.Some? && req.venue in {"TACHIBANA", "KABU", "MOCK"}
            && !(req.venue == "KABU" && req.credentials == Some(SessionCache)) && cfg.factory
            && cfg.venue != None && cfg.venue != Some(req.venue)
  {
    SessionConsistent(cfg, rs);
    var good := Attempt(0, StartOk, Authenticated, LoggedIn);
    var env := LoginEnv(true, good, good);
    LoginByInputs(cfg, rs, req, env);
    assert Supported(cfg, req) ==> Handle(After(cfg, rs), cfg, Login(req, env)).1 == "";
    hide After;
  }

  ghost predicate AlwaysAnswers(cfg: Config, rs: seq<Request>, req: LoginRequest, code: string) {
    forall env :: Handle(After(cfg, rs), cfg, Login(req, env)) == (After(cfg, rs), code)
  }

  /** A supported login that finds another one under way changes nothing. */
  lemma LoginUnderWay(v: View, cfg: Config, req: LoginRequest, env: LoginEnv)
    requires v.sm == AUTHENTICATING && Supported(cfg, req)
    ensures Handle(v, cfg, Login(req, env)) == (v, "ALREADY_AUTHENTICATING")
  {
  }

  /** Why a failed attempt says it failed. */
  lemma FailureCodes(a: Attempt, source: Credentials)
    ensures AttemptCode(a, source) == "" <==> Succeeds(a, source)
    ensures a.start != StartOk ==> AttemptCode(a, source) == "VENUE_LOGIN_FAILED"
    ensures a.start == StartOk && source == Prompt ==>
              && (a.prompt == NoDisplay ==> AttemptCode(a, source) == "NO_DISPLAY_AVAILABLE")
              && (a.prompt == PromptRaises ==> AttemptCode(a, source) == "VENUE_LOGIN_FAILED")
              && (a.prompt.PromptError? ==> AttemptCode(a, source) == a.prompt.code)
    ensures a.start == StartOk && (source == Prompt ==> a.prompt == Authenticated) && a.login.LoginRaises? ==>
              AttemptCode(a, source)
              == if a.login.code in {"SESSION_CACHE_MISSING", "SESSION_CACHE_EXPIRED", "PROMPT_RESULT_MISSING_TOKEN"}
                 then a.login.code else "VENUE_LOGIN_FAILED"
  {
  }

  /** After any history a mode request answers and changes the mode by its inputs; a logout keeps only the mode. */
  lemma ModeByInputs(cfg: Config, rs: seq<Request>, mode: Option<ExecutionMode>)
    ensures var v := After(cfg, rs);
            var (after, code) := Handle(v, cfg, SetMode(mode));
            var live := mode == Some(LiveManual) || mode == Some(LiveAuto);
            && (code == "INVALID_MODE" <==> mode == None)
            && (code == "LIVE_ADAPTER_NOT_CONFIGURED" <==> live && !cfg.factory)
            && (code == "EXECUTION_MODE_PRECONDITION" <==> live && cfg.factory && v.sm !in {CONNECTED, SUBSCRIBED})
            && (code == "" <==> mode == Some(Replay) || (live && cfg.factory && v.sm in {CONNECTED, SUBSCRIBED}))
            && after == v.(mode := if code == "" then mode.value else v.mode)
    ensures Handle(After(cfg, rs), cfg, Logout)
            == (View(DISCONNECTED, None, None, None, After(cfg, rs).mode), "")
  {
    SessionConsistent(cfg, rs);
  }

  /** The venue's transitions. */
  lemma Transitions(from: VenueState, to: VenueState)
    ensures Allowed(from, to) <==>
            (from, to) in {(DISCONNECTED, AUTHENTICATING), (AUTHENTICATING, CONNECTED), (CONNECTED, SUBSCRIBED),
                           (SUBSCRIBED, RECONNECTING), (RECONNECTING, SUBSCRIBED), (ERROR, DISCONNECTED)}
            || (to == ERROR && from !in {DISCONNECTED, ERROR})
  {
  }

  // ── The live mode outlives the session ──

  predicate Orphaned(v: View) {
    IsLive(v.mode) && !LiveState(v.sm)
  }

  /** A login that gets past the refusals fails, as its last attempt decides. */
  predicate AttemptsFail(v: View, cfg: Config, r: Request)
    requires r.Login?
  {
    && Refusal(cfg, r.req).None?
    && var (last, source) := LastAttempt(v, cfg, r.req.credentials.value, r.env);
       AttemptCode(last, source) != ""
  }

  predicate AttemptsSucceed(v: View, cfg: Config, r: Request)
    requires r.Login?
  {
    Refusal(cfg, r.req).None? && !AttemptsFail(v, cfg, r)
  }

  /** The request ends a live session: a logout, or a dead session replaced in vain. */
  predicate Ends(v: View, cfg: Config, r: Request) {
    LiveState(v.sm) && (r.Logout? || (r.Login? && r.env.liveError && AttemptsFail(v, cfg, r)))
  }

  /** The request brings a session up from nothing. */
  predicate Begins(v: View, cfg: Config, r: Request) {
    !LiveState(v.sm) && r.Login? && AttemptsSucceed(v, cfg, r)
  }

  predicate EntersLive(v: View, cfg: Config, r: Request) {
    r.SetMode? && r.mode.Some? && IsLive(r.mode.value) && cfg.factory && LiveState(v.sm)
  }

  predicate EntersReplay(r: Request) {
    r == SetMode(Some(Replay))
  }

  /** A request takes the session away from under a live mode exactly when it ends the session. */
  lemma OrphanedIff(v: View, cfg: Config, r: Request)
    requires Consistent(v) && !Orphaned(v)
    ensures Orphaned(Handle(v, cfg, r).0) <==> IsLive(v.mode) && Ends(v, cfg, r)
  {
  }

  /** What one request does to the venue and to the mode of a session between handlers. */
  lemma OneRequest(v: View, cfg: Config, r: Request)
    requires Consistent(v)
    ensures var after := Handle(v, cfg, r).0;
            && (LiveState(after.sm) <==> (LiveState(v.sm) && !Ends(v, cfg, r)) || Begins(v, cfg, r))
            && (IsLive(after.mode) <==> EntersLive(v, cfg, r) || (IsLive(v.mode) && !EntersReplay(r)))
  {
  }

  /** Request `i` entered a live mode, and no request from there to `n` entered Replay. */
  ghost predicate LiveSince(cfg: Config, rs: seq<Request>, i: nat, n: nat)
    requires n <= |rs|
  {
    i < n && EntersLive(Before(cfg, rs, i), cfg, rs[i]) && forall k :: i < k < n ==> !EntersReplay(rs[k])
  }

  /** Request `j` ended the session, and no request from there to `n` began one. */
  ghost predicate DownSince(cfg: Config, rs: seq<Request>, j: nat, n: nat)
    requires n <= |rs|
  {
    j < n && Ends(Before(cfg, rs, j), cfg, rs[j]) && forall k :: j < k < n ==> !Begins(Before(cfg, rs, k), cfg, rs[k])
  }

  lemma {:induction false} ModeHistory(cfg: Config, rs: seq<Request>, n: nat)
    requires n <= |rs|
    ensures IsLive(Before(cfg, rs, n).mode) <==> exists i: nat :: LiveSince(cfg, rs, i, n)
  {
    hide EntersLive, EntersReplay, Before, Handle;
    if n == 0 {
      NothingBefore(cfg, rs);
    } else {
      var p: nat := n - 1;
      ModeHistory(cfg, rs, p);
      BeforeStep(cfg, rs, p);
      OneRequest(Before(cfg, rs, p), cfg, rs[p]);
      EnteringIsNotLeaving(Before(cfg, rs, p), cfg, rs[p]);
      if EntersLive(Before(cfg, rs, p), cfg, rs[p]) {
        assert LiveSince(cfg, rs, p, n);
      } else if i: nat :| LiveSince(cfg, rs, i, p) && !EntersReplay(rs[p]) {
        assert LiveSince(cfg, rs, i, n);
      }
      assert forall i: nat :: LiveSince(cfg, rs, i, n) && i < p ==> LiveSince(cfg, rs, i, p);
    }
  }

  lemma EnteringIsNotLeaving(v: View, cfg: Config, r: Request)
    ensures !(EntersLive(v, cfg, r) && EntersReplay(r)) && !(EntersLive(v, cfg, r) && Ends(v, cfg, r))
  {
  }

  /** From a live session on, the venue is down exactly when a request since ended it for good. */
  lemma {:induction false} VenueHistory(cfg: Config, rs: seq<Request>, m: nat, n: nat)
    requires m <= n <= |rs| && LiveState(Before(cfg, rs, m).sm)
    ensures !LiveState(Before(cfg, rs, n).sm) <==> exists j: nat :: m <= j && DownSince(cfg, rs, j, n)
  {
    hide Ends, Begins, Before, Handle;
    if n > m {
      var p: nat := n - 1;
      VenueHistory(cfg, rs, m, p);
      BeforeStep(cfg, rs, p);
      var v := Before(cfg, rs, p);
      OneRequest(v, cfg, rs[p]);
      EndingIsNotBeginning(v, cfg, rs[p]);
      if Ends(v, cfg, rs[p]) {
        assert DownSince(cfg, rs, p, n);
      } else if j: nat :| m <= j && DownSince(cfg, rs, j, p) && !Begins(v, cfg, rs[p]) {
        assert DownSince(cfg, rs, j, n);
      }
      assert forall j: nat :: DownSince(cfg, rs, j, n) && j < p ==> DownSince(cfg, rs, j, p);
    }
  }

  lemma EndingIsNotBeginning(v: View, cfg: Config, r: Request)
    ensures Ends(v, cfg, r) ==> LiveState(v.sm) && !Begins(v, cfg, r)
  {
  }

  /**
   * After any history a live mode is left without a session exactly when a live mode was entered,
   * with no Replay request since, and later the session was ended, with no session begun since.
   */
  lemma OrphanedHistory(cfg: Config, rs: seq<Request>)
    ensures Orphaned(After(cfg, rs)) <==>
            exists i: nat, j: nat :: i < j && LiveSince(cfg, rs, i, |rs|) && DownSince(cfg, rs, j, |rs|)
  {
    var n := |rs|;
    assert rs[..n] == rs;
    ModeHistory(cfg, rs, n);
    forall i: nat | LiveSince(cfg, rs, i, n)
      ensures !LiveState(Before(cfg, rs, n).sm) <==> exists j: nat :: i < j && DownSince(cfg, rs, j, n)
    {
      BeforeStep(cfg, rs, i);
      OneRequest(Before(cfg, rs, i), cfg, rs[i]);
      EnteringIsNotLeaving(Before(cfg, rs, i), cfg, rs[i]);
      VenueHistory(cfg, rs, i + 1, n);
      hide DownSince;
    }
    hide LiveSince, DownSince;
    if Orphaned(After(cfg, rs)) {
      var i: nat :| LiveSince(cfg, rs, i, n);
      var j: nat :| i < j && DownSince(cfg, rs, j, n);
    }
  }

  lemma LiveModeOutlivesLogout()
    ensures var cfg := Config(true, None, false);
            var good := Attempt(0, StartOk, Authenticated, LoggedIn);
            var v := After(cfg, [Login(LoginRequest("MOCK", Some(Env)), LoginEnv(false, good, good)),
                                 SetMode(Some(LiveAuto)), Logout]);
            v.mode == LiveAuto && v.sm == DISCONNECTED && v.runner.None?
  {
    var cfg := Config(true, None, false);
    var good := Attempt(0, StartOk, Authenticated, LoggedIn);
    var login := Login(LoginRequest("MOCK", Some(Env)), LoginEnv(false, good, good));
    var r := [login, SetMode(Some(LiveAuto)), Logout];
    assert r[..2][..1] == [login] && [login][..0] == [];
    assert After(cfg, [login]) == Up(INITIAL, 0);
    assert After(cfg, r[..2]) == Up(INITIAL, 0).(mode := LiveAuto);
  }
}
