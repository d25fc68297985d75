/** The calculator request types and their default values. */
module CalculatorModel {
  import opened RealtimeData

  datatype Abilities = Abilities(q: nat, w: nat, e: nat, r: nat)

  /** The player whose damage is computed. */
  datatype ActivePlayer = ActivePlayer(
    championId: string,
    championStats: Stats,
    abilities: Abilities,
    items: seq<nat>,
    runes: seq<nat>,
    level: nat,
    stacks: nat)

  /** One simulated enemy. */
  datatype EnemyPlayer = EnemyPlayer(
    championId: string,
    items: seq<nat>,
    level: nat,
    stats: BasicStats,
    stacks: nat)

  /** The `game` object posted to the calculator endpoint. */
  datatype Game = Game(
    activePlayer: ActivePlayer,
    enemyPlayers: seq<EnemyPlayer>,
    allyEarthDragons: nat,
    allyFireDragons: nat,
    enemyEarthDragons: nat)

  const DEFAULT_ITEMS: seq<nat> := [4645, 3115, 3153]

  /** `ActivePlayerX::new`. */
  function NewActivePlayer(): ActivePlayer {
    ActivePlayer("Neeko", ZERO_STATS, Abilities(5, 5, 5, 3), DEFAULT_ITEMS, [], 18, 0)
  }

  /** The champion `EnemyPlayersX::new` picks for a roster position. */
  function EnemyChampion(index: nat): string {
    match index
    case 0 => "Gwen"
    case 1 => "Nasus"
    case 2 => "Gnar"
    case 3 => "Kayn"
    case _ => "Caitlyn"
  }

  /** `EnemyPlayersX::new(index)`. */
  function NewEnemy(index: nat): EnemyPlayer {
    EnemyPlayer(EnemyChampion(index), DEFAULT_ITEMS, 14, ZERO_BASIC_STATS, 0)
  }

  lemma ActivePlayerDefaults()
    ensures var p := NewActivePlayer();
      && p.championId == "Neeko"
      && p.abilities == Abilities(5, 5, 5, 3)
      && p.items == [4645, 3115, 3153] && p.runes == []
      && p.level == 18 && p.stacks == 0
      && p.championStats == ZERO_STATS
  {
  }

  /**
   * Every default enemy has the same items, level 14, zeroed stats and no
   * stacks; only the champion depends on the position, the five first
   * positions get five different champions, and every position from 4 on
   * gets the same enemy.
   */
  lemma EnemyDefaults(index: nat)
    ensures var e := NewEnemy(index);
      && e.items == [4645, 3115, 3153] && e.level == 14 && e.stacks == 0 && e.stats == ZERO_BASIC_STATS
      && e.championId == EnemyChampion(index)
    ensures NewEnemy(index).championId ==
      if index == 0 then "Gwen" else if index == 1 then "Nasus" else if index == 2 then "Gnar"
      else if index == 3 then "Kayn" else "Caitlyn"
    ensures index >= 4 ==> NewEnemy(index) == NewEnemy(4)
    ensures forall i, j :: 0 <= i < j < 5 ==> EnemyChampion(i) != EnemyChampion(j)
  {
    assert EnemyChampion(0) == "Gwen" && EnemyChampion(1) == "Nasus" && EnemyChampion(2) == "Gnar";
    assert EnemyChampion(3) == "Kayn" && EnemyChampion(4) == "Caitlyn";
  }
}
