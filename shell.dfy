/**
 * The Tauri command layer: the session state created at startup, the two
 * commands the front-end invokes (`get_game_code`, `get_realtime_game`) and
 * the native message loop that owns the keyboard hook. Every network call is
 * replaced by its outcome, given as an input; the requests the command would
 * send are returned so that routing can be stated.
 */
module Shell {
  import opened Wrappers
  import opened Keyboard

  const BACKEND_URL: string := "http://localhost:8082"
  const LOCAL_GAME_URL: string := "https://127.0.0.1:2999/liveclientdata/allgamedata"
  const REALTIME_URL: string := BACKEND_URL + "/api/games/realtime"
  const GET_BY_CODE_URL: string := BACKEND_URL + "/api/games/get_by_code"
  const CREATE_URL: string := BACKEND_URL + "/api/games/create"
  /** The item id both relay bodies put in `simulated_items`. */
  const SIMULATED_ITEMS: seq<nat> := [3115]

  /** `AppState`, without the shared HTTP client. */
  datatype AppState = AppState(staticGameCode: nat, staticGameId: string)

  /** The JSON bodies of the two relay requests. */
  datatype Body =
    | RealtimeBody(gameId: string, gameCode: nat, gameData: string, simulatedItems: seq<nat>)
    | GetByCodeBody(gameCode: nat, simulatedItems: seq<nat>)

  datatype HttpRequest = Get(url: string) | Post(url: string, body: Body)

  /** What the local game client gave: a send error, or a response whose body was (`Some`) or was not (`None`) readable as text. */
  datatype LocalOutcome = LocalSendErr(error: string) | LocalResponse(text: Option<string>)

  /**
   * What the backend gave: a send error, a body that does not decode as
   * `{success, data, message}`, or the decoded envelope. `data` holds the
   * serialization of the JSON value (`data.to_string()`).
   */
  datatype BackendOutcome =
    | BackendSendErr(error: string)
    | BackendDecodeErr(error: string)
    | Envelope(success: bool, data: Option<string>, message: Option<string>)

  /** One run of a command: the requests it sent, in order, and what it returned. */
  datatype RelayRun = RelayRun(requests: seq<HttpRequest>, result: Result<string, string>)

  /** `get_game_code`: the code stored at startup. */
  function GetGameCode(state: AppState): nat {
    state.staticGameCode
  }

  /** The tail of the `get_game_data` closure: `data` wins, whatever `success` says. */
  function MapEnvelope(success: bool, data: Option<string>, message: Option<string>): Result<string, string> {
    if data.Some? then Ok(data.value)
    else if message.Some? then Err(message.value)
    else Err("Unknown error")
  }

  /** The `get_game_data` closure: one POST to the backend, then its outcome mapped to a result. */
  function GetGameData(url: string, body: Body, backend: BackendOutcome): RelayRun {
    var sent := [Post(url, body)];
    match backend
    case BackendSendErr(e) => RelayRun(sent, Err("Error om server response: " + e))
    case BackendDecodeErr(e) => RelayRun(sent, Err("Error ocurred on json parsing: " + e))
    case Envelope(success, data, message) => RelayRun(sent, MapEnvelope(success, data, message))
  }

  /** `get_realtime_game`: the own code relays the local game client's data, any other code asks get-by-code. */
  function GetRealtimeGame(state: AppState, gameCode: nat, local: LocalOutcome, backend: BackendOutcome): RelayRun {
    if gameCode == state.staticGameCode then
      match local
      case LocalSendErr(e) =>
        RelayRun([Get(LOCAL_GAME_URL)], Err("Error ocurred in getting live game: " + e))
      case LocalResponse(text) =>
        var gameData := text.UnwrapOr("");
        var run := GetGameData(REALTIME_URL,
          RealtimeBody(state.staticGameId, state.staticGameCode, gameData, SIMULATED_ITEMS), backend);
        RelayRun([Get(LOCAL_GAME_URL)] + run.requests, run.result)
    else
      GetGameData(GET_BY_CODE_URL, GetByCodeBody(gameCode, SIMULATED_ITEMS), backend)
  }

  /** Envelope mapping: `Ok` exactly when `data` is present, the message or "Unknown error" otherwise, and `success` never matters. */
  lemma EnvelopeMapping(success: bool, data: Option<string>, message: Option<string>)
    ensures MapEnvelope(success, data, message) == MapEnvelope(!success, data, message)
    ensures MapEnvelope(success, data, message).Ok? <==> data.Some?
    ensures data.Some? ==> MapEnvelope(success, data, message) == Ok(data.value)
    ensures data.None? ==> MapEnvelope(success, data, message) == Err(message.UnwrapOr("Unknown error"))
  {
  }

  /** A failed envelope with no data still succeeds when data is present, and `{success: false}` alone gives "Unknown error". */
  lemma EnvelopeExamples()
    ensures MapEnvelope(false, Some("X"), Some("M")) == Ok("X")
    ensures MapEnvelope(true, None, Some("M")) == Err("M")
    ensures MapEnvelope(false, None, None) == Err("Unknown error")
  {
  }

  /** The route: the own code reads the local client and posts the full realtime body; any other code posts only code and items to get-by-code. */
  lemma Routing(state: AppState, gameCode: nat, local: LocalOutcome, backend: BackendOutcome)
    ensures var run := GetRealtimeGame(state, gameCode, local, backend);
      if gameCode == state.staticGameCode then
        && run.requests[0] == Get(LOCAL_GAME_URL)
        && (local.LocalResponse? ==>
              (run.requests ==
                [Get(LOCAL_GAME_URL),
                 Post(REALTIME_URL, RealtimeBody(state.staticGameId, state.staticGameCode, local.text.UnwrapOr(""), [3115]))]))
      else
        run.requests == [Post(GET_BY_CODE_URL, GetByCodeBody(gameCode, [3115]))]
  {
  }

  /** A failed local send returns early: an error, and the backend is never contacted. */
  lemma LocalSendFailureSkipsBackend(state: AppState, e: string, backend: BackendOutcome)
    ensures var run := GetRealtimeGame(state, state.staticGameCode, LocalSendErr(e), backend);
      run.requests == [Get(LOCAL_GAME_URL)] && run.result == Err("Error ocurred in getting live game: " + e)
  {
  }

  /** An unreadable local body is relayed as the empty string, not reported as an error. */
  lemma UnreadableBodyRelaysEmpty(state: AppState, backend: BackendOutcome)
    ensures var run := GetRealtimeGame(state, state.staticGameCode, LocalResponse(None), backend);
      run.requests[1] == Post(REALTIME_URL, RealtimeBody(state.staticGameId, state.staticGameCode, "", [3115]))
      && run.result == GetRealtimeGame(state, state.staticGameCode, LocalResponse(Some("")), backend).result
  {
  }

  /** The backend is contacted on the get-by-code route, and on the own route once the local request got a response. */
  predicate ReachesBackend(state: AppState, gameCode: nat, local: LocalOutcome) {
    gameCode != state.staticGameCode || local.LocalResponse?
  }

  /** Some request of the run is a POST to the backend. */
  predicate PostsToBackend(run: RelayRun) {
    exists i :: 0 <= i < |run.requests| && run.requests[i].Post?
  }

  /** Backend send and decode failures become errors with a descriptive prefix on every path that reaches the backend, and the backend is reached on exactly those paths. */
  lemma BackendFailuresAreErrors(state: AppState, gameCode: nat, local: LocalOutcome, e: string)
    ensures ReachesBackend(state, gameCode, local) ==>
      GetRealtimeGame(state, gameCode, local, BackendSendErr(e)).result == Err("Error om server response: " + e)
    ensures ReachesBackend(state, gameCode, local) ==>
      GetRealtimeGame(state, gameCode, local, BackendDecodeErr(e)).result == Err("Error ocurred on json parsing: " + e)
    ensures forall backend: BackendOutcome ::
      PostsToBackend(GetRealtimeGame(state, gameCode, local, backend)) <==> ReachesBackend(state, gameCode, local)
  {
    forall backend: BackendOutcome
      ensures PostsToBackend(GetRealtimeGame(state, gameCode, local, backend)) <==> ReachesBackend(state, gameCode, local)
    {
      var run := GetRealtimeGame(state, gameCode, local, backend);
      if ReachesBackend(state, gameCode, local) {
        assert run.requests[|run.requests| - 1].Post?;
      } else {
        assert run.requests == [Get(LOCAL_GAME_URL)];
      }
    }
  }

  /** The decoded `CreateGameResponse`. */
  datatype CreateGameResponse = CreateGameResponse(gameCode: nat, gameId: string)

  /** What the startup call to the create endpoint gave. */
  datatype CreateOutcome =
    | CreateSendErr
    | CreateDecodeErr
    | CreateEnvelope(success: bool, data: Option<CreateGameResponse>, message: Option<string>)

  /** The `initialization` block of `run` followed by `unwrap_or_default`. */
  function Bootstrap(outcome: CreateOutcome): AppState {
    var init: Option<CreateGameResponse> :=
      match outcome
      case CreateSendErr => None
      case CreateDecodeErr => None
      case CreateEnvelope(success, data, _) => if success then data else None;
    match init
    case Some(res) => AppState(res.gameCode, res.gameId)
    case None => AppState(0, "")
  }

  /** Startup never aborts: every failure falls back to `(0, "")`; a successful envelope with data gives its code and id. */
  lemma BootstrapFallback(outcome: CreateOutcome)
    ensures (outcome.CreateSendErr? || outcome.CreateDecodeErr? ||
             (outcome.CreateEnvelope? && (!outcome.success || outcome.data.None?)))
            ==> Bootstrap(outcome) == AppState(0, "")
    ensures outcome.CreateEnvelope? && outcome.success && outcome.data.Some? ==>
      Bootstrap(outcome) == AppState(outcome.data.value.gameCode, outcome.data.value.gameId)
  {
  }

  /** After an unreachable backend at startup the code command still answers, with 0, and code 0 then takes the local route. */
  lemma UnreachableBackendStillAnswers(local: LocalOutcome, backend: BackendOutcome)
    ensures GetGameCode(Bootstrap(CreateSendErr)) == 0
    ensures GetRealtimeGame(Bootstrap(CreateSendErr), 0, local, backend).requests[0] == Get(LOCAL_GAME_URL)
  {
  }

  // ---------------------------------------------------------------------------
  // The native message loop

  /** One `GetMessageW` call: a retrieved message, or the -1 error return, which leaves `msg` as it was. */
  datatype Fetch = Got(message: nat) | Failed

  /** The main webview window; only its visibility and focus are modelled. */
  class Window {
    var visible: bool
    var focused: bool

    constructor (visible: bool)
      ensures this.visible == visible && !focused
    {
      this.visible := visible;
      focused := false;
    }
  }

  datatype LoopOutcome = LoopOutcome(quit: bool, toggles: nat)

  /**
   * What the loop does with the rest of the fetches when the last message
   * seen is `msg`: whether it reaches `WM_QUIT`, and how many times it
   * dispatches the toggle message. `GetMessageW` returns false exactly for
   * `WM_QUIT`; the -1 error is true, so the old `msg` is dispatched again.
   */
  function LoopRun(fetches: seq<Fetch>, msg: nat): LoopOutcome
    decreases |fetches|
  {
    if |fetches| == 0 then LoopOutcome(false, 0)
    else
      var m := if fetches[0].Got? then fetches[0].message else msg;
      if fetches[0].Got? && m == WM_QUIT then LoopOutcome(true, 0)
      else
        var rest := LoopRun(fetches[1..], m);
        LoopOutcome(rest.quit, rest.toggles + (if m == WM_TOGGLE then 1 else 0))
  }

  predicate Odd(n: nat) { n % 2 == 1 }

  /**
   * The thread spawned in `setup`: install the hook, pump messages until
   * `WM_QUIT`, toggling the window on each `WM_USER + 1`, then call
   * `uninstall_hook`. A run whose fetches end before `WM_QUIT` stands for a
   * loop still blocked in `GetMessageW`. When `install_hook` panics, the
   * spawned task ends there: no message is pumped and `uninstall_hook` is
   * never reached.
   */
  method MessageLoop(hooks: HookSystem, moduleFound: bool, reg: Registration, fetches: seq<Fetch>, win: Window?)
    returns (panicked: bool, quit: bool, toggles: nat)
    modifies hooks, win
    ensures panicked <==> IsInvalid(old(hooks.handle)) && !(moduleFound && reg.Registered?)
    ensures panicked ==> !quit && toggles == 0 && hooks.handle == old(hooks.handle)
    ensures !panicked ==> LoopOutcome(quit, toggles) == LoopRun(fetches, 0)
    ensures var installed := InstallSpec(old(hooks.handle), moduleFound, reg);
      hooks.handle == (if quit then UninstallIntended(installed) else installed)
    ensures quit ==> IsInvalid(hooks.handle)
    ensures win != null ==> win.visible == (old(win.visible) != Odd(toggles))
    ensures win != null && toggles > 0 && win.visible ==> win.focused
    ensures win != null && toggles == 0 ==> win.focused == old(win.focused)
  {
    quit, toggles := false, 0;
    panicked := hooks.InstallHook(moduleFound, reg);
    if panicked {
      return;
    }
    ghost var installed := hooks.handle;
    var msg: nat := 0;
    var i := 0;
    while i < |fetches| && !quit
      invariant 0 <= i <= |fetches|
      invariant hooks.handle == installed
      invariant !quit ==> msg != WM_QUIT
      invariant !quit ==> LoopRun(fetches, 0) == LoopOutcome(LoopRun(fetches[i..], msg).quit, toggles + LoopRun(fetches[i..], msg).toggles)
      invariant quit ==> LoopRun(fetches, 0) == LoopOutcome(true, toggles)
      invariant win != null ==> win.visible == (old(win.visible) != Odd(toggles))
      invariant win != null && toggles > 0 && win.visible ==> win.focused
      invariant win != null && toggles == 0 ==> win.focused == old(win.focused)
    {
      assert fetches[i..][1..] == fetches[i + 1..];
      var f := fetches[i];
      i := i + 1;
      if f.Got? {
        msg := f.message;
      }
      // GetMessageW returns false for WM_QUIT; the explicit `break` on
      // WM_QUIT is the same exit.
      if msg == WM_QUIT {
        quit := true;
      } else if msg == WM_TOGGLE {
        toggles := toggles + 1;
        if win != null {
          if !win.visible {
            win.visible := true;
            win.focused := true;
          } else {
            win.visible := false;
          }
        }
      }
    }
    if quit {
      hooks.UninstallHook();
      IntendedUninstallAlwaysClears(installed);
    }
  }

  /** Quit is reached iff some retrieved message is `WM_QUIT`, and nothing after it is dispatched. */
  lemma {:induction false} QuitIffRetrieved(fetches: seq<Fetch>, msg: nat)
    requires msg != WM_QUIT
    ensures LoopRun(fetches, msg).quit <==> Got(WM_QUIT) in fetches
  {
    if |fetches| > 0 {
      var m := if fetches[0].Got? then fetches[0].message else msg;
      if !(fetches[0].Got? && m == WM_QUIT) {
        QuitIffRetrieved(fetches[1..], m);
        assert fetches == [fetches[0]] + fetches[1..];
      }
    }
  }

  /** Messages other than the toggle, and fetch errors before any message, never toggle the window. */
  lemma {:induction false} OtherMessagesDoNothing(fetches: seq<Fetch>)
    requires forall i :: 0 <= i < |fetches| ==> fetches[i] != Got(WM_TOGGLE)
    ensures LoopRun(fetches, 0).toggles == 0
  {
    OtherMessagesDoNothingFrom(fetches, 0);
  }

  lemma {:induction false} OtherMessagesDoNothingFrom(fetches: seq<Fetch>, msg: nat)
    requires msg != WM_TOGGLE
    requires forall i :: 0 <= i < |fetches| ==> fetches[i] != Got(WM_TOGGLE)
    ensures LoopRun(fetches, msg).toggles == 0
  {
    if |fetches| > 0 {
      var m := if fetches[0].Got? then fetches[0].message else msg;
      if !(fetches[0].Got? && m == WM_QUIT) {
        OtherMessagesDoNothingFrom(fetches[1..], m);
      }
    }
  }

  /** A fetch error after a toggle dispatches the toggle again, since `msg` still holds it. */
  lemma FailedFetchRepeatsToggle()
    ensures LoopRun([Got(WM_TOGGLE), Failed, Got(WM_QUIT)], 0) == LoopOutcome(true, 2)
  {
    assert [Got(WM_TOGGLE), Failed, Got(WM_QUIT)][1..] == [Failed, Got(WM_QUIT)];
    assert [Failed, Got(WM_QUIT)][1..] == [Got(WM_QUIT)];
    assert LoopRun([Got(WM_QUIT)], WM_TOGGLE) == LoopOutcome(true, 0);
    assert LoopRun([Failed, Got(WM_QUIT)], WM_TOGGLE) == LoopOutcome(true, 1);
  }
}
