/**
 * The realtime page: a one-second polling interval that relays the game of
 * a six-character code, the failure counter that stops it, the set of
 * hidden enemy indices, and the pure views the page renders from the last
 * game data (visible enemies, the two scoreboard columns, the game clock).
 */
module RealtimePage {
  import opened Wrappers
  import opened Numeric
  import opened RealtimeData
  import Invokers

  /** A live `gloo` interval polling the relay for `gameCode`. */
  datatype Interval = Interval(gameCode: string)

  const CODE_LENGTH: nat := 6

  /** `start_game`: starts polling only when none is live and the code has six characters. */
  function StartAfter(interval: Option<Interval>, code: string): Option<Interval> {
    if interval.None? && |code| == CODE_LENGTH then Some(Interval(code)) else interval
  }

  lemma StartCases(interval: Option<Interval>, code: string)
    ensures interval.Some? ==> StartAfter(interval, code) == interval
    ensures interval.None? ==> (StartAfter(interval, code).Some? <==> |code| == CODE_LENGTH)
    ensures StartAfter(interval, code).Some? && interval.None? ==> StartAfter(interval, code).value.gameCode == code
    ensures StartAfter(StartAfter(interval, code), code) == StartAfter(interval, code)
  {
  }

  /** After a tick, polling stops exactly when the counter has reached `MAX_FAILURES - 1`. */
  function TickAfter(interval: Option<Interval>, count: nat, maxFailures: nat): Option<Interval> {
    if count >= maxFailures - 1 then None else interval
  }

  /**
   * Because every failure writes `MAX_FAILURES` into the counter, the first
   * tick after any failed call stops polling, and a tick after a success
   * stops it only when `MAX_FAILURES` is 1.
   */
  lemma TickStopsAfterOneFailure(interval: Option<Interval>, o: Invokers.InvokeOutcome, maxFailures: nat)
    requires maxFailures >= 1
    ensures Invokers.RelayEffectOf(o).CountFailure? ==>
      TickAfter(interval, Invokers.CounterAfter(Invokers.RelayEffectOf(o), maxFailures), maxFailures) == None
    ensures Invokers.RelayEffectOf(o).Publish? ==>
      ((TickAfter(interval, Invokers.CounterAfter(Invokers.RelayEffectOf(o), maxFailures), maxFailures) == None) <==>
        (interval.None? || maxFailures == 1))
  {
  }

  /**
   * The code-change effect as written: it clears the interval and then tests
   * `is_none()` on the handle captured at render time, which still shows the
   * interval that was live then.
   */
  function CodeChangeAsWritten(atRender: Option<Interval>, newCode: string): Option<Interval> {
    if atRender.None? && |newCode| == CODE_LENGTH then Some(Interval(newCode)) else None
  }

  /** The code-change effect as evidently intended: drop the old interval, poll the new code if it has six characters. */
  function CodeChangeIntended(newCode: string): Option<Interval> {
    if |newCode| == CODE_LENGTH then Some(Interval(newCode)) else None
  }

  /** Changing a live session's code to another valid code stops polling altogether. */
  lemma CodeChangeStopsLivePolling()
    ensures CodeChangeAsWritten(Some(Interval("123456")), "654321") == None
    ensures CodeChangeIntended("654321") == Some(Interval("654321"))
  {
  }

  /** The intended effect never keeps the old code and polls iff the new code is valid; the written one agrees only when nothing was live. */
  lemma CodeChangeIntendedPolls(atRender: Option<Interval>, newCode: string)
    ensures CodeChangeIntended(newCode).Some? <==> |newCode| == CODE_LENGTH
    ensures CodeChangeIntended(newCode).Some? ==> CodeChangeIntended(newCode).value.gameCode == newCode
    ensures CodeChangeAsWritten(atRender, newCode) == CodeChangeIntended(newCode) <==>
      atRender.None? || |newCode| != CODE_LENGTH
  {
  }

  /** Every element of `s`, in order, except those equal to `x` (`Vec::retain`). */
  function RemoveAll(s: seq<nat>, x: nat): (r: seq<nat>)
    ensures |r| <= |s|
    ensures forall y :: y in r <==> y in s && y != x
  {
    if |s| == 0 then []
    else (if s[0] == x then [] else [s[0]]) + RemoveAll(s[1..], x)
  }

  /** The hide/show click: remove the index if present, else append it. */
  function Toggle(s: seq<nat>, x: nat): seq<nat> {
    if x in s then RemoveAll(s, x) else s + [x]
  }

  predicate NoDuplicates(s: seq<nat>) {
    forall i, j :: 0 <= i < j < |s| ==> s[i] != s[j]
  }

  lemma {:induction false} RemoveAllKeepsNoDuplicates(s: seq<nat>, x: nat)
    requires NoDuplicates(s)
    ensures NoDuplicates(RemoveAll(s, x))
  {
    if |s| > 0 {
      RemoveAllKeepsNoDuplicates(s[1..], x);
      var rest := RemoveAll(s[1..], x);
      assert s[0] !in s[1..] by {
        forall k | 0 <= k < |s[1..]| ensures s[1..][k] != s[0] {
          assert s[1..][k] == s[k + 1];
        }
      }
      assert s[0] !in rest;
    }
  }

  lemma {:induction false} RemoveAllAbsent(s: seq<nat>, x: nat)
    requires x !in s
    ensures RemoveAll(s, x) == s
  {
    if |s| > 0 {
      assert x !in s[1..];
      RemoveAllAbsent(s[1..], x);
    }
  }

  lemma {:induction false} RemoveAllConcat(s: seq<nat>, t: seq<nat>, x: nat)
    ensures RemoveAll(s + t, x) == RemoveAll(s, x) + RemoveAll(t, x)
  {
    if |s| > 0 {
      assert (s + t)[1..] == s[1..] + t;
      RemoveAllConcat(s[1..], t, x);
    } else {
      assert s + t == t;
    }
  }

  /** A toggle flips the membership of its index only, and keeps the list free of duplicates. */
  lemma ToggleFlipsOnlyItsIndex(s: seq<nat>, x: nat)
    requires NoDuplicates(s)
    ensures NoDuplicates(Toggle(s, x))
    ensures x in Toggle(s, x) <==> x !in s
    ensures forall y :: y != x ==> (y in Toggle(s, x) <==> y in s)
  {
    if x in s {
      RemoveAllKeepsNoDuplicates(s, x);
    }
  }

  /** Two toggles of one index restore its membership, and restore the list exactly when the index was not hidden. */
  lemma ToggleTwiceRestores(s: seq<nat>, x: nat)
    ensures forall y :: y in Toggle(Toggle(s, x), x) <==> y in s
    ensures x !in s ==> Toggle(Toggle(s, x), x) == s
  {
    if x !in s {
      RemoveAllConcat(s, [x], x);
      RemoveAllAbsent(s, x);
      assert RemoveAll([x], x) == [];
    }
  }

  /** The enemies whose position `i` (from `from` on) is not among the hidden indices, in order. */
  function VisibleFrom(enemies: seq<Enemy>, hidden: seq<nat>, from: nat): seq<Enemy>
    decreases |enemies| - from
  {
    if from >= |enemies| then []
    else (if from in hidden then [] else [enemies[from]]) + VisibleFrom(enemies, hidden, from + 1)
  }

  function VisibleEnemies(enemies: seq<Enemy>, hidden: seq<nat>): seq<Enemy> {
    VisibleFrom(enemies, hidden, 0)
  }

  /** The positions `from..n-1` that are not hidden, increasing. */
  function KeptFrom(n: nat, hidden: seq<nat>, from: nat): (r: seq<nat>)
    decreases n - from
    ensures forall k :: k in r <==> from <= k < n && k !in hidden
    ensures forall i :: 0 <= i < |r| ==> from <= r[i] < n
    ensures forall i, j :: 0 <= i < j < |r| ==> r[i] < r[j]
  {
    if from >= n then []
    else
      var rest := KeptFrom(n, hidden, from + 1);
      (if from in hidden then [] else [from]) + rest
  }

  /** From `from` on, the shown enemies are those at the kept positions. */
  predicate ShowsKept(enemies: seq<Enemy>, hidden: seq<nat>, from: nat) {
    var kept := KeptFrom(|enemies|, hidden, from);
    && |VisibleFrom(enemies, hidden, from)| == |kept|
    && forall j :: 0 <= j < |kept| ==> VisibleFrom(enemies, hidden, from)[j] == enemies[kept[j]]
  }

  lemma VisibleFromStep(enemies: seq<Enemy>, hidden: seq<nat>, from: nat)
    requires from < |enemies| && ShowsKept(enemies, hidden, from + 1)
    ensures ShowsKept(enemies, hidden, from)
  {
    var rest, keptRest := VisibleFrom(enemies, hidden, from + 1), KeptFrom(|enemies|, hidden, from + 1);
    if from !in hidden {
      var shown, kept := [enemies[from]] + rest, [from] + keptRest;
      assert VisibleFrom(enemies, hidden, from) == shown;
      assert KeptFrom(|enemies|, hidden, from) == kept;
      forall j | 0 <= j < |kept| ensures shown[j] == enemies[kept[j]] {
        if j > 0 {
          assert shown[j] == rest[j - 1] && kept[j] == keptRest[j - 1];
        }
      }
    }
  }

  lemma {:induction false} VisibleFromIsKept(enemies: seq<Enemy>, hidden: seq<nat>, from: nat)
    decreases |enemies| - from
    ensures ShowsKept(enemies, hidden, from)
  {
    if from < |enemies| {
      VisibleFromIsKept(enemies, hidden, from + 1);
      VisibleFromStep(enemies, hidden, from);
    }
  }

  /**
   * The visible enemies are exactly the enemies at the increasing positions
   * that are not hidden: nothing hidden is shown, nothing else is dropped,
   * and the order is kept.
   */
  lemma VisibleEnemiesExact(enemies: seq<Enemy>, hidden: seq<nat>)
    ensures var kept := KeptFrom(|enemies|, hidden, 0);
      && (forall k :: k in kept <==> 0 <= k < |enemies| && k !in hidden)
      && (forall i, j :: 0 <= i < j < |kept| ==> kept[i] < kept[j])
      && |VisibleEnemies(enemies, hidden)| == |kept|
      && forall j :: 0 <= j < |kept| ==> VisibleEnemies(enemies, hidden)[j] == enemies[kept[j]]
  {
    VisibleFromIsKept(enemies, hidden, 0);
  }

  lemma {:induction false} NothingHiddenShowsAllFrom(enemies: seq<Enemy>, hidden: seq<nat>, from: nat)
    requires from <= |enemies|
    requires forall i :: i in hidden ==> i >= |enemies|
    decreases |enemies| - from
    ensures VisibleFrom(enemies, hidden, from) == enemies[from..]
  {
    if from < |enemies| {
      NothingHiddenShowsAllFrom(enemies, hidden, from + 1);
      assert enemies[from..] == [enemies[from]] + enemies[from + 1..];
    }
  }

  /** With no hidden index in range every enemy is shown. */
  lemma NothingHiddenShowsAll(enemies: seq<Enemy>, hidden: seq<nat>)
    requires forall i :: i in hidden ==> i >= |enemies|
    ensures VisibleEnemies(enemies, hidden) == enemies
  {
    NothingHiddenShowsAllFrom(enemies, hidden, 0);
  }

  /** The scoreboard entries whose team is (`same`) or is not (`!same`) the given team, in order. */
  function TeamFilter(board: seq<Scoreboard>, team: string, same: bool): (r: seq<Scoreboard>)
    ensures forall i :: 0 <= i < |r| ==> (r[i].team == team) == same
  {
    if |board| == 0 then []
    else
      var last := board[|board| - 1];
      TeamFilter(board[..|board| - 1], team, same) + (if (last.team == team) == same then [last] else [])
  }

  /** The scoreboard loop: allies share the current player's team, everyone else goes to the enemy column. */
  method PartitionScoreboard(board: seq<Scoreboard>, team: string) returns (allies: seq<Scoreboard>, enemies: seq<Scoreboard>)
    ensures allies == TeamFilter(board, team, true)
    ensures enemies == TeamFilter(board, team, false)
  {
    allies := [];
    enemies := [];
    var i := 0;
    while i < |board|
      invariant 0 <= i <= |board|
      invariant allies == TeamFilter(board[..i], team, true)
      invariant enemies == TeamFilter(board[..i], team, false)
    {
      assert board[..i + 1][..i] == board[..i];
      if board[i].team == team {
        allies := allies + [board[i]];
      } else {
        enemies := enemies + [board[i]];
      }
      i := i + 1;
    }
    assert board[..i] == board;
  }

  /** The entries of the ally and the enemy column together. */
  function BothColumns(board: seq<Scoreboard>, team: string): multiset<Scoreboard> {
    multiset(TeamFilter(board, team, true)) + multiset(TeamFilter(board, team, false))
  }

  lemma PartitionStep(board: seq<Scoreboard>, team: string)
    requires |board| > 0
    requires BothColumns(board[..|board| - 1], team) == multiset(board[..|board| - 1])
    ensures BothColumns(board, team) == multiset(board)
  {
    var init, last := board[..|board| - 1], board[|board| - 1];
    assert board == init + [last];
    var allies, enemies := TeamFilter(init, team, true), TeamFilter(init, team, false);
    if last.team == team {
      assert TeamFilter(board, team, true) == allies + [last];
      assert TeamFilter(board, team, false) == enemies;
    } else {
      assert TeamFilter(board, team, true) == allies;
      assert TeamFilter(board, team, false) == enemies + [last];
    }
  }

  /** The two columns split the scoreboard: every entry lands in exactly one of them. */
  lemma {:induction false} PartitionIsExact(board: seq<Scoreboard>, team: string)
    ensures multiset(TeamFilter(board, team, true)) + multiset(TeamFilter(board, team, false)) == multiset(board)
  {
    if |board| > 0 {
      PartitionIsExact(board[..|board| - 1], team);
      PartitionStep(board, team);
    }
  }

  /** Together the columns are exactly as long as the scoreboard. */
  lemma PartitionLengths(board: seq<Scoreboard>, team: string)
    ensures |TeamFilter(board, team, true)| + |TeamFilter(board, team, false)| == |board|
  {
    PartitionIsExact(board, team);
    assert |multiset(board)| == |board|;
  }

  /** The clock `{m}m {s:02}s`: the game time cast to i32, then truncating `/ 60` and `% 60`. */
  function GameClock(gameTime: real): (int, int) {
    var t := RealToI32(gameTime);
    (TruncDiv(t, 60), TruncRem(t, 60))
  }

  lemma GameClockSplitsSeconds(gameTime: real)
    requires 0.0 <= gameTime < I32_MAX as real
    ensures var c := GameClock(gameTime);
      0 <= c.1 < 60 && 0 <= c.0 && (c.0 * 60 + c.1) as real <= gameTime < (c.0 * 60 + c.1) as real + 1.0
  {
    TruncDivRem(RealToI32(gameTime), 60);
  }

  /** The splash image, with the uncentred fallback once the centred one failed to load. */
  function ChampionSplash(backendUrl: string, errorOccurred: bool, championId: string): (url: string)
    ensures errorOccurred ==> url == backendUrl + "/cdn/splash/" + championId + "_0.jpg"
    ensures !errorOccurred ==> url == backendUrl + "/cdn/centered/" + championId + "_0.jpg"
  {
    backendUrl + (if errorOccurred then "/cdn/splash/" else "/cdn/centered/") + championId + "_0.jpg"
  }

  /**
   * The component's state: the code prop, the interval handle, the shared
   * counter and game data, the hidden indices, and the relay calls the
   * ticks have issued (`issued`, of which `inFlight` have not settled).
   */
  class RealtimeDisplay {
    const maxFailures: nat
    const counter: Invokers.FailureCounter
    const gameData: Invokers.GameDataHandle
    var gameCode: string
    var interval: Option<Interval>
    var hidden: seq<nat>
    var issued: seq<string>
    var inFlight: nat

    ghost predicate Valid()
      reads this
    {
      maxFailures >= 1 && NoDuplicates(hidden) && inFlight <= |issued|
    }

    constructor (maxFailures: nat, gameCode: string)
      requires maxFailures >= 1
      ensures Valid()
      ensures this.maxFailures == maxFailures && this.gameCode == gameCode
      ensures interval == None && hidden == [] && issued == [] && inFlight == 0
      ensures fresh(counter) && fresh(gameData) && counter.count == 0 && gameData.data == None
    {
      this.maxFailures := maxFailures;
      this.gameCode := gameCode;
      interval := None;
      hidden := [];
      issued := [];
      inFlight := 0;
      counter := new Invokers.FailureCounter();
      gameData := new Invokers.GameDataHandle();
    }

    /**
     * The first commit runs the code effect once with the initial code. No
     * interval exists yet, so the effect as written and as intended agree,
     * and both behave like `start_game`: polling starts exactly when the code
     * has six characters.
     */
    method Mount()
      requires Valid() && interval.None?
      modifies this`interval
      ensures interval == CodeChangeAsWritten(old(interval), gameCode) && interval == CodeChangeIntended(gameCode)
      ensures interval == StartAfter(old(interval), gameCode)
      ensures interval.Some? <==> |gameCode| == CODE_LENGTH
    {
      var atRender := interval;
      interval := None;
      if atRender.None? && |gameCode| == CODE_LENGTH {
        interval := Some(Interval(gameCode));
      }
    }

    /** Every render of the component resets the failure counter. */
    method Render()
      modifies counter
      ensures counter.count == 0
    {
      counter.count := 0;
    }

    method StartGame()
      requires Valid()
      modifies this
      ensures Valid()
      ensures interval == StartAfter(old(interval), gameCode)
      ensures unchanged(this`gameCode) && unchanged(this`hidden) && unchanged(this`issued) && unchanged(this`inFlight)
    {
      if interval.None? && |gameCode| == CODE_LENGTH {
        interval := Some(Interval(gameCode));
      }
    }

    method StopGame()
      requires Valid()
      modifies this
      ensures Valid()
      ensures interval == None
      ensures unchanged(this`gameCode) && unchanged(this`hidden) && unchanged(this`issued) && unchanged(this`inFlight)
    {
      interval := None;
    }

    /** A new code prop: the re-render resets the counter, then the effect repolls (as intended, see `CodeChangeAsWritten`). */
    method CodeChanged(newCode: string)
      requires Valid()
      modifies this, counter
      ensures Valid()
      ensures gameCode == newCode && counter.count == 0
      ensures interval == CodeChangeIntended(newCode)
      ensures unchanged(this`hidden) && unchanged(this`issued) && unchanged(this`inFlight)
    {
      gameCode := newCode;
      counter.count := 0;
      interval := None;
      if |newCode| == CODE_LENGTH {
        interval := Some(Interval(newCode));
      }
    }

    /** One firing of the interval: issue a relay call for its code, then stop if the counter is at the threshold. */
    method Tick()
      requires Valid() && interval.Some?
      modifies this
      ensures Valid()
      ensures issued == old(issued) + [old(interval).value.gameCode] && inFlight == old(inFlight) + 1
      ensures interval == TickAfter(old(interval), counter.count, maxFailures)
      ensures unchanged(this`gameCode) && unchanged(this`hidden)
    {
      issued := issued + [interval.value.gameCode];
      inFlight := inFlight + 1;
      if counter.count >= maxFailures - 1 {
        interval := None;
      }
    }

    /** An issued relay call settles with outcome `o`; `code` is the number the call was made with. */
    method Settle(code: nat, o: Invokers.InvokeOutcome)
      requires Valid() && inFlight > 0
      modifies this, counter, gameData
      ensures Valid()
      ensures inFlight == old(inFlight) - 1
      ensures counter.count == Invokers.CounterAfter(Invokers.RelayEffectOf(o), maxFailures)
      ensures gameData.data == Invokers.DataAfter(Invokers.RelayEffectOf(o), old(gameData.data))
      ensures unchanged(this`gameCode) && unchanged(this`hidden) && unchanged(this`issued) && unchanged(this`interval)
    {
      var _ := Invokers.GetRealtimeGame(code, o, gameData, counter, maxFailures);
      inFlight := inFlight - 1;
    }

    method ToggleHidden(index: nat)
      requires Valid()
      modifies this
      ensures Valid()
      ensures hidden == Toggle(old(hidden), index)
      ensures unchanged(this`gameCode) && unchanged(this`interval) && unchanged(this`issued) && unchanged(this`inFlight)
    {
      ToggleFlipsOnlyItsIndex(hidden, index);
      if index in hidden {
        hidden := RemoveAll(hidden, index);
      } else {
        hidden := hidden + [index];
      }
    }
  }
}
