/**
 * The front-end side of the relay: `get_realtime_game` settles one call of
 * the Tauri command (or, outside the desktop app, of the get-by-code
 * endpoint) and writes the shared failure counter and game data;
 * `get_code` stores the session code the shell reports.
 */
module Invokers {
  import opened Wrappers
  import opened Numeric
  import opened RealtimeData

  /** The get-by-code fallback: send error, decode error, or the decoded envelope. */
  datatype FallbackOutcome =
    | FallbackSendErr
    | FallbackDecodeErr
    | FallbackDecoded(data: Option<Realtime>, message: Option<string>)

  /**
   * How the invoke promise settled: rejected; resolved with a string (and
   * what `serde_json::from_str` makes of it); or resolved with a non-string,
   * which means the app runs in a browser and the fallback is tried.
   */
  datatype InvokeOutcome =
    | InvokeErr
    | StringValue(text: string, parsed: Option<Realtime>)
    | NonString(fallback: FallbackOutcome)

  /** The shared `Rc<RefCell<usize>>` failure counter. */
  class FailureCounter {
    var count: nat
    constructor ()
      ensures count == 0
    {
      count := 0;
    }
  }

  /** The `UseStateHandle<Option<Rc<Realtime>>>` holding the last game data. */
  class GameDataHandle {
    var data: Option<Realtime>
    constructor ()
      ensures data == None
    {
      data := None;
    }
  }

  /** Whether a settled call publishes game data or counts as a failure. */
  datatype RelayEffect = Publish(data: Realtime) | CountFailure

  function RelayEffectOf(o: InvokeOutcome): RelayEffect {
    match o
    case InvokeErr => CountFailure
    case StringValue(text, parsed) =>
      if text != "" && parsed.Some? then Publish(parsed.value) else CountFailure
    case NonString(fallback) =>
      match fallback
      case FallbackDecoded(data, _) => if data.Some? then Publish(data.value) else CountFailure
      case FallbackSendErr => CountFailure
      case FallbackDecodeErr => CountFailure
  }

  /** Every failure writes `MAX_FAILURES`; every success writes 0. */
  function CounterAfter(e: RelayEffect, maxFailures: nat): nat {
    if e.Publish? then 0 else maxFailures
  }

  function DataAfter(e: RelayEffect, data: Option<Realtime>): Option<Realtime> {
    if e.Publish? then Some(e.data) else data
  }

  /** `get_realtime_game`, once its invoke has settled with outcome `o`; `byCode` is the code posted to the fallback, if it ran. */
  method GetRealtimeGame(gameCode: nat, o: InvokeOutcome, gameData: GameDataHandle, counter: FailureCounter, maxFailures: nat)
    returns (byCode: Option<nat>)
    modifies gameData, counter
    ensures counter.count == CounterAfter(RelayEffectOf(o), maxFailures)
    ensures gameData.data == DataAfter(RelayEffectOf(o), old(gameData.data))
    ensures byCode == if o.NonString? then Some(gameCode) else None
  {
    byCode := None;
    match o {
      case StringValue(text, parsed) =>
        if text != "" {
          match parsed {
            case Some(realtime) =>
              gameData.data := Some(realtime);
              counter.count := 0;
            case None =>
              counter.count := maxFailures;
          }
        } else {
          counter.count := maxFailures;
        }
      case NonString(fallback) =>
        byCode := Some(gameCode);
        match fallback {
          case FallbackDecoded(data, _) =>
            if data.Some? {
              gameData.data := Some(data.value);
              counter.count := 0;
            } else {
              counter.count := maxFailures;
            }
          case FallbackDecodeErr =>
            counter.count := maxFailures;
          case FallbackSendErr =>
            counter.count := maxFailures;
        }
      case InvokeErr =>
        counter.count := maxFailures;
    }
  }

  /** The two success paths, and only they, publish data. */
  lemma PublishesExactlyOnSuccess(o: InvokeOutcome)
    ensures RelayEffectOf(o).Publish? <==>
      (o.StringValue? && o.text != "" && o.parsed.Some?) ||
      (o.NonString? && o.fallback.FallbackDecoded? && o.fallback.data.Some?)
    ensures o.StringValue? && o.text != "" && o.parsed.Some? ==> RelayEffectOf(o) == Publish(o.parsed.value)
    ensures o.NonString? && o.fallback.FallbackDecoded? && o.fallback.data.Some? ==>
      RelayEffectOf(o) == Publish(o.fallback.data.value)
  {
  }

  /** The state of the two shared cells after the settled calls `os`, in order. */
  function SettleAll(os: seq<InvokeOutcome>, data: Option<Realtime>, count: nat, maxFailures: nat): (Option<Realtime>, nat)
  {
    if |os| == 0 then (data, count)
    else
      var e := RelayEffectOf(os[|os| - 1]);
      var before := SettleAll(os[..|os| - 1], data, count, maxFailures);
      (DataAfter(e, before.0), CounterAfter(e, maxFailures))
  }

  /**
   * Over any run of settled calls the counter is only ever 0 or
   * `MAX_FAILURES` (never an increment), game data once present is never
   * cleared, and without a success both cells keep what they had.
   */
  lemma {:induction false} SettleAllInvariants(os: seq<InvokeOutcome>, data: Option<Realtime>, count: nat, maxFailures: nat)
    ensures var r := SettleAll(os, data, count, maxFailures);
      && (|os| > 0 ==> r.1 == 0 || r.1 == maxFailures)
      && (data.Some? ==> r.0.Some?)
      && ((forall i :: 0 <= i < |os| ==> RelayEffectOf(os[i]).CountFailure?) ==>
            r.0 == data && r.1 == (if |os| == 0 then count else maxFailures))
  {
    if |os| > 0 {
      SettleAllInvariants(os[..|os| - 1], data, count, maxFailures);
      var before := os[..|os| - 1];
      assert forall i :: 0 <= i < |before| ==> before[i] == os[i];
    }
  }

  /** A single failure is enough to reach the stop threshold `MAX_FAILURES - 1`. */
  lemma OneFailureReachesThreshold(o: InvokeOutcome, maxFailures: nat)
    requires maxFailures >= 1
    requires RelayEffectOf(o).CountFailure?
    ensures CounterAfter(RelayEffectOf(o), maxFailures) >= maxFailures - 1
  {
  }

  /** The value `invoke_get_game_code` resolves with. */
  datatype JsValue = Undefined | Number(x: real) | OtherValue

  /** The code after `get_code`: unchanged for `undefined`, else the number cast to usize, 0 for a non-number. */
  function CodeAfter(reply: JsValue, code: nat): nat {
    match reply
    case Undefined => code
    case Number(x) => RealToUsize(x)
    case OtherValue => 0
  }

  lemma GetCodeCases(reply: JsValue, code: nat)
    ensures reply.Undefined? ==> CodeAfter(reply, code) == code
    ensures reply.OtherValue? ==> CodeAfter(reply, code) == 0
    ensures reply.Number? && 0.0 <= reply.x < WASM_USIZE_MAX as real ==>
      CodeAfter(reply, code) as real <= reply.x < CodeAfter(reply, code) as real + 1.0
    ensures reply.Number? && reply.x < 1.0 ==> CodeAfter(reply, code) == 0
    ensures reply.Number? && reply.x >= WASM_USIZE_MAX as real ==> CodeAfter(reply, code) == WASM_USIZE_MAX
  {
  }

  /** The `UseStateHandle<usize>` holding the game code. */
  class CodeHandle {
    var code: nat
    constructor (code: nat)
      ensures this.code == code
    {
      this.code := code;
    }
  }

  method GetCode(reply: JsValue, handle: CodeHandle)
    modifies handle
    ensures handle.code == CodeAfter(reply, old(handle.code))
  {
    if !reply.Undefined? {
      var asF64 := if reply.Number? then reply.x else 0.0;
      handle.code := RealToUsize(asF64);
    }
  }
}
