/**
 * `commit_game_register`: read the live game from the local client, record
 * it in the database, and ask the backend to compute the realtime view. The
 * HTTP client, the HTTP calls, JSON parsing and the SQL queries are replaced
 * by their outcomes; the queries and requests the function would issue are
 * returned as `effects`, in order. `game_started: &mut bool` is the
 * `gameStarted` argument together with the `gameStartedAfter` result.
 */
module Database {
  import opened Wrappers

  const LOCAL_GAME_URL: string := "https://127.0.0.1:2999/liveclientdata/allgamedata"
  const REALTIME_URL: string := "http://localhost:8082/api/games/realtime"

  datatype RiotPlayer = RiotPlayer(championName: string, riotId: string)

  /** The parts of the live-client JSON the function reads. */
  datatype RiotRealtime = RiotRealtime(activeRiotId: string, allPlayers: seq<RiotPlayer>, gameTime: real)

  datatype ServerResponse = ServerResponse(success: bool, message: Option<string>, data: Option<string>)

  /** The outcome of a step that either succeeds or fails with the error's text. */
  datatype Step = Done | Failed(error: string)

  /** The outcome of every external step, in program order. */
  datatype Io = Io(
    client: Step,
    send: Step,
    body: Result<string, string>,
    parse: Result<RiotRealtime, string>,
    update: Step,
    insert: Step,
    post: Step,
    decode: Result<ServerResponse, string>)

  datatype Effect =
    | FetchLiveGame(url: string)
    | UpdateGames(championName: string, summonerName: string, gameId: string)
    | InsertGameData(gameId: string, gameData: string, championName: string, gameTime: real, summonerName: string)
    | PostRealtime(url: string, code: string, simulatedItems: seq<nat>)

  /** The champion of the first player whose riot id equals `riotId`, or "" when there is none. */
  function FindChampion(players: seq<RiotPlayer>, riotId: string): (name: string)
    ensures (exists i :: 0 <= i < |players| && players[i].riotId == riotId
               && (forall j :: 0 <= j < i ==> players[j].riotId != riotId)
               && name == players[i].championName)
         || ((forall i :: 0 <= i < |players| ==> players[i].riotId != riotId) && name == "")
  {
    if |players| == 0 then ""
    else if players[0].riotId == riotId then players[0].championName
    else
      var rest := FindChampion(players[1..], riotId);
      assert forall i :: 1 <= i < |players| ==> players[i] == players[1..][i - 1];
      rest
  }

  /** The final envelope check: `success` false is an error with the message, true is the data's text, `"null"` when absent. */
  function CalculationResult(resp: ServerResponse): (r: Result<string, string>)
    ensures r.Err? <==> !resp.success
    ensures !resp.success ==> r.error == "Erro ao calcular dados: " + resp.message.UnwrapOr("")
    ensures resp.success ==> r.value == resp.data.UnwrapOr("null")
  {
    if !resp.success then Err("Erro ao calcular dados: " + resp.message.UnwrapOr(""))
    else Ok(resp.data.UnwrapOr("null"))
  }

  /** The live-game JSON was fetched, read and parsed. */
  predicate Parsed(io: Io) {
    io.client.Done? && io.send.Done? && io.body.Ok? && io.parse.Ok?
  }

  /** The `games` row was already updated on an earlier call, or is updated now. */
  predicate Registered(io: Io, gameStarted: bool) {
    Parsed(io) && (gameStarted || io.update.Done?)
  }

  /** The `game_data` row was inserted. */
  predicate Stored(io: Io, gameStarted: bool) {
    Registered(io, gameStarted) && io.insert.Done?
  }

  method CommitGameRegister(gameStarted: bool, gameCode: string, gameId: string, io: Io)
    returns (result: Result<string, string>, gameStartedAfter: bool, effects: seq<Effect>)
    // pipeline steps before the parse
    ensures io.client.Failed? ==> result == Err("Falha ao criar HTTP client: " + io.client.error) && effects == []
    ensures io.client.Done? ==> |effects| > 0 && effects[0] == FetchLiveGame(LOCAL_GAME_URL)
    ensures io.client.Done? && io.send.Failed? ==>
      result == Err("Erro na requisição: " + io.send.error) && |effects| == 1
    ensures io.client.Done? && io.send.Done? && io.body.Err? ==>
      result == Err("Erro ao ler corpo da resposta: " + io.body.error) && |effects| == 1
    ensures io.client.Done? && io.send.Done? && io.body.Ok? && io.parse.Err? ==>
      result == Err("Falha ao parsear JSON: " + io.parse.error) && |effects| == 1
    // the one-shot latch
    ensures gameStartedAfter <==> gameStarted || (Parsed(io) && io.update.Done?)
    ensures Parsed(io) && !gameStarted ==>
      |effects| > 1 && effects[1] == UpdateGames(FindChampion(io.parse.value.allPlayers, io.parse.value.activeRiotId),
                                io.parse.value.activeRiotId, gameId)
    ensures Parsed(io) && !gameStarted && io.update.Failed? ==>
      result == Err("Erro ao atualizar games: " + io.update.error) && |effects| == 2
    ensures gameStarted ==> forall k :: 0 <= k < |effects| ==> !effects[k].UpdateGames?
    // the game_data row, whatever the latch said
    ensures Registered(io, gameStarted) ==>
      |effects| > (if gameStarted then 1 else 2) &&
      effects[if gameStarted then 1 else 2] ==
        InsertGameData(gameId, io.body.value,
                       FindChampion(io.parse.value.allPlayers, io.parse.value.activeRiotId),
                       io.parse.value.gameTime, io.parse.value.activeRiotId)
    ensures Registered(io, gameStarted) && io.insert.Failed? ==>
      result == Err("Erro ao inserir game_data: " + io.insert.error) && |effects| == (if gameStarted then 2 else 3)
    // the backend computation
    ensures Stored(io, gameStarted) ==>
      |effects| == (if gameStarted then 3 else 4) && effects[|effects| - 1] == PostRealtime(REALTIME_URL, gameCode, [4645])
    ensures Stored(io, gameStarted) && io.post.Failed? ==> result == Err("Erro ao enviar dados: " + io.post.error)
    ensures Stored(io, gameStarted) && io.post.Done? && io.decode.Err? ==>
      result == Err("Erro ao parsear resposta do servidor: " + io.decode.error)
    ensures Stored(io, gameStarted) && io.post.Done? && io.decode.Ok? ==> result == CalculationResult(io.decode.value)
  {
    gameStartedAfter := gameStarted;
    effects := [];
    if io.client.Failed? {
      return Err("Falha ao criar HTTP client: " + io.client.error), gameStartedAfter, effects;
    }
    effects := effects + [FetchLiveGame(LOCAL_GAME_URL)];
    if io.send.Failed? {
      return Err("Erro na requisição: " + io.send.error), gameStartedAfter, effects;
    }
    if io.body.Err? {
      return Err("Erro ao ler corpo da resposta: " + io.body.error), gameStartedAfter, effects;
    }
    var body := io.body.value;
    if io.parse.Err? {
      return Err("Falha ao parsear JSON: " + io.parse.error), gameStartedAfter, effects;
    }
    var data := io.parse.value;
    var gameData := body;
    var gameTime := data.gameTime;
    var summonerName := data.activeRiotId;
    var championName := FindChampion(data.allPlayers, summonerName);

    if !gameStarted {
      effects := effects + [UpdateGames(championName, summonerName, gameId)];
      if io.update.Failed? {
        return Err("Erro ao atualizar games: " + io.update.error), gameStartedAfter, effects;
      }
      gameStartedAfter := true;
    }

    effects := effects + [InsertGameData(gameId, gameData, championName, gameTime, summonerName)];
    if io.insert.Failed? {
      return Err("Erro ao inserir game_data: " + io.insert.error), gameStartedAfter, effects;
    }

    effects := effects + [PostRealtime(REALTIME_URL, gameCode, [4645])];
    if io.post.Failed? {
      return Err("Erro ao enviar dados: " + io.post.error), gameStartedAfter, effects;
    }
    if io.decode.Err? {
      return Err("Erro ao parsear resposta do servidor: " + io.decode.error), gameStartedAfter, effects;
    }
    result := CalculationResult(io.decode.value);
  }

  /** The first matching player wins, and a missing match gives "". */
  lemma FindChampionExamples()
    ensures FindChampion([RiotPlayer("Ahri", "a"), RiotPlayer("Zed", "b"), RiotPlayer("Lux", "b")], "b") == "Zed"
    ensures FindChampion([RiotPlayer("Ahri", "a")], "c") == ""
  {
    assert [RiotPlayer("Ahri", "a"), RiotPlayer("Zed", "b"), RiotPlayer("Lux", "b")][1..] == [RiotPlayer("Zed", "b"), RiotPlayer("Lux", "b")];
  }
}
