/** The parts of the realtime payload the front-end reads; f64 fields are reals. */
module RealtimeData {

  datatype InstanceDamage = InstanceDamage(minimumDamage: real, maximumDamage: real, damageType: string)

  datatype Damages = Damages(
    abilities: map<string, InstanceDamage>,
    items: map<string, InstanceDamage>,
    runes: map<string, InstanceDamage>)

  datatype BasicStats = BasicStats(armor: real, health: real, attackDamage: real, magicResist: real, mana: real)

  /** `BasicStats::default()`. */
  const ZERO_BASIC_STATS := BasicStats(0.0, 0.0, 0.0, 0.0, 0.0)

  /** The full stat block of a champion. */
  datatype Stats = Stats(
    abilityPower: real,
    armor: real,
    armorPenetrationFlat: real,
    armorPenetrationPercent: real,
    attackDamage: real,
    attackRange: real,
    attackSpeed: real,
    critChance: real,
    critDamage: real,
    currentHealth: real,
    magicPenetrationFlat: real,
    magicPenetrationPercent: real,
    magicResist: real,
    maxHealth: real,
    maxMana: real,
    currentMana: real)

  /** `Stats::default()`. */
  const ZERO_STATS := Stats(0.0, 0.0, 0.0, 0.0, 0.0, 0.0, 0.0, 0.0, 0.0, 0.0, 0.0, 0.0, 0.0, 0.0, 0.0, 0.0)

  datatype CurrentPlayer = CurrentPlayer(
    riotId: string,
    team: string,
    championName: string,
    championId: string,
    damagingAbilities: map<string, string>,
    damagingItems: map<string, string>,
    damagingRunes: map<string, string>)

  datatype Enemy = Enemy(
    championId: string,
    championName: string,
    team: string,
    damages: Damages,
    currentStats: BasicStats)

  datatype Scoreboard = Scoreboard(
    riotId: string,
    championId: string,
    championName: string,
    team: string,
    kills: nat,
    deaths: nat,
    assists: nat)

  datatype Realtime = Realtime(
    currentPlayer: CurrentPlayer,
    enemies: seq<Enemy>,
    gameTime: real,
    scoreboard: seq<Scoreboard>)
}
