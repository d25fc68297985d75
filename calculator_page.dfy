/**
 * The calculator page's form state: the active player, the roster of one
 * to five simulated enemies with the index of the visible one, and the
 * dragon and stack inputs, together with the edit rules its callbacks apply.
 */
module CalculatorPage {
  import opened Wrappers
  import opened Numeric
  import opened RealtimeData
  import opened CalculatorModel
  import opened Stats

  const MAX_ENEMIES: nat := 5

  /** The ability-level callback: a Q/W/E/R box whose text parses as a usize sets that one level. */
  function AbilityEdit(a: Abilities, keyname: string, input: string): Abilities {
    match ParseUsize(input)
    case None => a
    case Some(n) =>
      if keyname == "Q" then a.(q := n)
      else if keyname == "W" then a.(w := n)
      else if keyname == "E" then a.(e := n)
      else if keyname == "R" then a.(r := n)
      else a
  }

  /** The level an ability box shows (`_ => 0` for any other name). */
  function AbilityLevel(a: Abilities, keyname: string): nat {
    if keyname == "Q" then a.q
    else if keyname == "W" then a.w
    else if keyname == "E" then a.e
    else if keyname == "R" then a.r
    else 0
  }

  predicate IsAbilityKey(keyname: string) {
    keyname == "Q" || keyname == "W" || keyname == "E" || keyname == "R"
  }

  /**
   * A parsed value lands in exactly the box it was typed into, the other
   * three keep theirs; an unparsable text or another name changes nothing.
   */
  lemma AbilityEditSetsOneLevel(a: Abilities, keyname: string, input: string)
    ensures ParseUsize(input).None? || !IsAbilityKey(keyname) ==> AbilityEdit(a, keyname, input) == a
    ensures ParseUsize(input).Some? && IsAbilityKey(keyname) ==>
      AbilityLevel(AbilityEdit(a, keyname, input), keyname) == ParseUsize(input).value &&
      forall k :: IsAbilityKey(k) && k != keyname ==> AbilityLevel(AbilityEdit(a, keyname, input), k) == AbilityLevel(a, k)
  {
  }

  /** Typing a level as the box shows it sets that level. */
  lemma AbilityEditOfShownLevel(a: Abilities, keyname: string, n: nat)
    requires IsAbilityKey(keyname) && n <= WASM_USIZE_MAX
    ensures AbilityLevel(AbilityEdit(a, keyname, NatToString(n)), keyname) == n
  {
    ParseShownUsize(n);
  }

  /** The enemy stat callback: only the four stats the enemy panel shows are written, and only when the text parsed. */
  function EnemyStatEdit(e: EnemyPlayer, s: StatsValue, parsed: Option<real>): EnemyPlayer {
    match parsed
    case None => e
    case Some(x) =>
      match s
      case Level(_) => e.(level := RealToUsize(x))
      case MaxHealth(_) => e.(stats := e.stats.(health := x))
      case Armor(_) => e.(stats := e.stats.(armor := x))
      case MagicResist(_) => e.(stats := e.stats.(magicResist := x))
      case _ => e
  }

  lemma EnemyStatEditCases(e: EnemyPlayer, s: StatsValue, parsed: Option<real>)
    ensures var f := EnemyStatEdit(e, s, parsed);
      f.championId == e.championId && f.items == e.items && f.stacks == e.stacks
    ensures parsed.None? || !(s.Level? || s.MaxHealth? || s.Armor? || s.MagicResist?) ==> EnemyStatEdit(e, s, parsed) == e
    ensures parsed.Some? && s.Level? ==>
      EnemyStatEdit(e, s, parsed) == e.(level := RealToUsize(parsed.value))
    ensures parsed.Some? && s.MaxHealth? ==>
      EnemyStatEdit(e, s, parsed).stats.health == parsed.value && EnemyStatEdit(e, s, parsed).level == e.level
    ensures parsed.Some? && !s.Level? ==> EnemyStatEdit(e, s, parsed).level == e.level
  {
  }

  /** A roster edit replaces the enemy at `i` with `f(enemies[i])`; everyone else stays. */
  function UpdateAt(enemies: seq<EnemyPlayer>, i: nat, e: EnemyPlayer): (r: seq<EnemyPlayer>)
    requires i < |enemies|
    ensures |r| == |enemies| && r[i] == e
    ensures forall j :: 0 <= j < |enemies| && j != i ==> r[j] == enemies[j]
  {
    enemies[i := e]
  }

  /** The `unwrap_or_default` parse of a dragon or stack count. */
  function CountOrZero(input: string): (n: nat)
    ensures ParseUsize(input).Some? ==> n == ParseUsize(input).value
    ensures ParseUsize(input).None? ==> n == 0
  {
    ParseUsize(input).UnwrapOr(0)
  }

  /** A count typed beyond the 32-bit `usize` range does not parse, so the box sets 0. */
  lemma OversizedCountIsZero(n: nat)
    requires n > WASM_USIZE_MAX
    ensures CountOrZero(NatToString(n)) == 0
  {
    ParseRejectsAboveBound(n);
  }

  /** The items the page simulates; the component posts the same list. */
  const SIMULATED_ITEMS: seq<nat> := [3115, 3153, 4645, 3089]

  /**
   * The JSON body posted to `/api/games/calculator`: the `game`, its
   * `stack_exceptions` map when the variant sends one, and the item ids to
   * simulate. The map's contents are abstracted: the page always sends it empty.
   */
  datatype Payload = Payload(game: Game, stackExceptions: Option<map<string, nat>>, simulatedItems: seq<nat>)

  /** The body the page's effect posts for the values of its dependencies and its simulated items. */
  function PagePayload(p: ActivePlayer, enemies: seq<EnemyPlayer>, allyEarth: nat, allyFire: nat, enemyEarth: nat, simulated: seq<nat>): Payload {
    Payload(Game(p, enemies, allyEarth, allyFire, enemyEarth), Some(map[]), simulated)
  }

  /**
   * The body is a faithful image of the effect's inputs: two bodies are equal
   * exactly when the player, the roster, the three dragon counts and the
   * simulated items are.
   */
  lemma PagePayloadInjective(
    p: ActivePlayer, enemies: seq<EnemyPlayer>, allyEarth: nat, allyFire: nat, enemyEarth: nat, simulated: seq<nat>,
    p': ActivePlayer, enemies': seq<EnemyPlayer>, allyEarth': nat, allyFire': nat, enemyEarth': nat, simulated': seq<nat>)
    ensures PagePayload(p, enemies, allyEarth, allyFire, enemyEarth, simulated) ==
            PagePayload(p', enemies', allyEarth', allyFire', enemyEarth', simulated') <==>
      p == p' && enemies == enemies' && allyEarth == allyEarth' && allyFire == allyFire' &&
      enemyEarth == enemyEarth' && simulated == simulated'
  {
  }

  /** The `CalculatorDisplay` page component's state. */
  class CalculatorDisplay {
    var activePlayer: ActivePlayer
    var enemies: seq<EnemyPlayer>
    var enemyIndex: nat
    var activeStacks: nat
    var allyEarthDragons: nat
    var allyFireDragons: nat
    var enemyEarthDragons: nat
    const simulatedItems: seq<nat>

    ghost predicate Valid()
      reads this
    {
      1 <= |enemies| <= MAX_ENEMIES
    }

    /** The position of the enemy panel that is not hidden, if one is. */
    function VisiblePanel(): (r: Option<nat>)
      reads this
      ensures r.Some? <==> enemyIndex < |enemies|
      ensures r.Some? ==> r.value == enemyIndex
    {
      if enemyIndex < |enemies| then Some(enemyIndex) else None
    }

    /**
     * The body the page posts whenever the player, the roster or a dragon
     * count changes. Whatever the form holds, its stack-exception map is
     * empty and its items are the page's simulated items.
     */
    function Request(): (r: Payload)
      reads this
      ensures r.stackExceptions == Some(map[]) && r.simulatedItems == simulatedItems
    {
      PagePayload(activePlayer, enemies, allyEarthDragons, allyFireDragons, enemyEarthDragons, simulatedItems)
    }

    constructor ()
      ensures Valid()
      ensures activePlayer == NewActivePlayer() && enemies == [NewEnemy(0)] && enemyIndex == 0
      ensures activeStacks == 0 && allyEarthDragons == 0 && allyFireDragons == 0 && enemyEarthDragons == 0
      ensures simulatedItems == SIMULATED_ITEMS
      ensures VisiblePanel() == Some(0)
      ensures Request() == PagePayload(NewActivePlayer(), [NewEnemy(0)], 0, 0, 0, SIMULATED_ITEMS)
    {
      activePlayer := NewActivePlayer();
      enemies := [NewEnemy(0)];
      enemyIndex := 0;
      activeStacks := 0;
      allyEarthDragons := 0;
      allyFireDragons := 0;
      enemyEarthDragons := 0;
      simulatedItems := SIMULATED_ITEMS;
    }

    method EditAbility(keyname: string, input: string)
      modifies this`activePlayer
      ensures activePlayer == old(activePlayer).(abilities := AbilityEdit(old(activePlayer).abilities, keyname, input))
      ensures Request() == old(Request()).(game := old(Request()).game.(activePlayer := activePlayer))
    {
      var current := activePlayer;
      var n := ParseUsize(input);
      if n.Some? {
        if keyname == "Q" {
          current := current.(abilities := current.abilities.(q := n.value));
        } else if keyname == "W" {
          current := current.(abilities := current.abilities.(w := n.value));
        } else if keyname == "E" {
          current := current.(abilities := current.abilities.(e := n.value));
        } else if keyname == "R" {
          current := current.(abilities := current.abilities.(r := n.value));
        }
      }
      activePlayer := current;
    }

    /** A stat box of the active player; `parsed` is what `parse::<f64>` made of its text. */
    method EditStat(s: StatsValue, parsed: Option<real>)
      modifies this`activePlayer
      ensures activePlayer == ApplyParsedStat(old(activePlayer), s, parsed)
      ensures Request() == old(Request()).(game := old(Request()).game.(activePlayer := activePlayer))
    {
      var current := activePlayer;
      if parsed.Some? {
        current := ApplyStat(current, s, parsed.value);
      }
      activePlayer := current;
    }

    method SelectChampion(championId: string)
      modifies this`activePlayer
      ensures activePlayer == old(activePlayer).(championId := championId)
      ensures Request() == old(Request()).(game := old(Request()).game.(activePlayer := activePlayer))
    {
      activePlayer := activePlayer.(championId := championId);
    }

    method SelectItems(items: seq<nat>)
      modifies this`activePlayer
      ensures activePlayer == old(activePlayer).(items := items)
      ensures Request() == old(Request()).(game := old(Request()).game.(activePlayer := activePlayer))
    {
      activePlayer := activePlayer.(items := items);
    }

    method SelectRunes(runes: seq<nat>)
      modifies this`activePlayer
      ensures activePlayer == old(activePlayer).(runes := runes)
      ensures Request() == old(Request()).(game := old(Request()).game.(activePlayer := activePlayer))
    {
      activePlayer := activePlayer.(runes := runes);
    }

    method SetAllyEarthDragons(input: string)
      modifies this`allyEarthDragons
      ensures allyEarthDragons == CountOrZero(input)
      ensures Request() == old(Request()).(game := old(Request()).game.(allyEarthDragons := allyEarthDragons))
    {
      allyEarthDragons := ParseUsize(input).UnwrapOr(0);
    }

    method SetAllyFireDragons(input: string)
      modifies this`allyFireDragons
      ensures allyFireDragons == CountOrZero(input)
      ensures Request() == old(Request()).(game := old(Request()).game.(allyFireDragons := allyFireDragons))
    {
      allyFireDragons := ParseUsize(input).UnwrapOr(0);
    }

    method SetActiveStacks(input: string)
      modifies this`activeStacks
      ensures activeStacks == CountOrZero(input)
      ensures Request() == old(Request())
    {
      activeStacks := ParseUsize(input).UnwrapOr(0);
    }

    /** The "<" button. */
    method Prev()
      modifies this`enemyIndex
      ensures enemyIndex == if old(enemyIndex) > 0 then old(enemyIndex) - 1 else old(enemyIndex)
      ensures Request() == old(Request())
    {
      if enemyIndex > 0 {
        enemyIndex := enemyIndex - 1;
      }
    }

    /** The ">" button. */
    method Next()
      requires Valid()
      modifies this`enemyIndex
      ensures enemyIndex == if old(enemyIndex) < |enemies| - 1 then old(enemyIndex) + 1 else old(enemyIndex)
      ensures old(enemyIndex) < |enemies| ==> enemyIndex < |enemies|
      ensures Request() == old(Request())
    {
      if enemyIndex < |enemies| - 1 {
        enemyIndex := enemyIndex + 1;
      }
    }

    /** The "+" button, shown only while fewer than five enemies are listed. */
    method AddEnemy()
      requires Valid()
      modifies this`enemies
      ensures Valid()
      ensures enemies == if |old(enemies)| < MAX_ENEMIES then old(enemies) + [NewEnemy(|old(enemies)|)] else old(enemies)
      ensures Request() == old(Request()).(game := old(Request()).game.(enemyPlayers := enemies))
    {
      if |enemies| < MAX_ENEMIES {
        var length := |enemies|;
        enemies := enemies + [NewEnemy(length)];
      }
    }

    /**
     * The "-" button, shown only while more than one enemy is listed. It does
     * not move `enemyIndex`, so removing the visible last enemy leaves no
     * panel visible.
     */
    method RemoveEnemy()
      requires Valid()
      modifies this`enemies
      ensures Valid()
      ensures enemies == if |old(enemies)| > 1 then old(enemies)[..|old(enemies)| - 1] else old(enemies)
      ensures |old(enemies)| > 1 && enemyIndex == |old(enemies)| - 1 ==> VisiblePanel() == None
      ensures Request() == old(Request()).(game := old(Request()).game.(enemyPlayers := enemies))
    {
      if |enemies| > 1 {
        enemies := enemies[..|enemies| - 1];
      }
    }

    method EditEnemyStat(playerIndex: nat, s: StatsValue, parsed: Option<real>)
      requires playerIndex < |enemies|
      modifies this`enemies
      ensures enemies == UpdateAt(old(enemies), playerIndex, EnemyStatEdit(old(enemies)[playerIndex], s, parsed))
      ensures Request() == old(Request()).(game := old(Request()).game.(enemyPlayers := enemies))
    {
      var current := enemies;
      if parsed.Some? {
        var x := parsed.value;
        match s {
          case Level(_) => current := current[playerIndex := current[playerIndex].(level := RealToUsize(x))];
          case MaxHealth(_) =>
            current := current[playerIndex := current[playerIndex].(stats := current[playerIndex].stats.(health := x))];
          case Armor(_) =>
            current := current[playerIndex := current[playerIndex].(stats := current[playerIndex].stats.(armor := x))];
          case MagicResist(_) =>
            current := current[playerIndex := current[playerIndex].(stats := current[playerIndex].stats.(magicResist := x))];
          case _ =>
        }
      }
      enemies := current;
    }

    method SelectEnemyChampion(playerIndex: nat, championId: string)
      requires playerIndex < |enemies|
      modifies this`enemies
      ensures enemies == UpdateAt(old(enemies), playerIndex, old(enemies)[playerIndex].(championId := championId))
      ensures Request() == old(Request()).(game := old(Request()).game.(enemyPlayers := enemies))
    {
      enemies := enemies[playerIndex := enemies[playerIndex].(championId := championId)];
    }

    method SelectEnemyItems(playerIndex: nat, items: seq<nat>)
      requires playerIndex < |enemies|
      modifies this`enemies
      ensures enemies == UpdateAt(old(enemies), playerIndex, old(enemies)[playerIndex].(items := items))
      ensures Request() == old(Request()).(game := old(Request()).game.(enemyPlayers := enemies))
    {
      enemies := enemies[playerIndex := enemies[playerIndex].(items := items)];
    }
  }

  /** The roster, as a value: "+" while fewer than five, "-" while more than one. */
  function AddEnemyTo(enemies: seq<EnemyPlayer>): seq<EnemyPlayer> {
    if |enemies| < MAX_ENEMIES then enemies + [NewEnemy(|enemies|)] else enemies
  }

  function RemoveEnemyFrom(enemies: seq<EnemyPlayer>): seq<EnemyPlayer> {
    if |enemies| > 1 then enemies[..|enemies| - 1] else enemies
  }

  datatype RosterClick = Add | Remove

  function Roster(clicks: seq<RosterClick>): seq<EnemyPlayer> {
    if |clicks| == 0 then [NewEnemy(0)]
    else
      var before := Roster(clicks[..|clicks| - 1]);
      if clicks[|clicks| - 1].Add? then AddEnemyTo(before) else RemoveEnemyFrom(before)
  }

  /**
   * After any sequence of "+" and "-" clicks from the initial roster, the
   * roster holds between one and five enemies, and the enemy at position
   * `i` is the default enemy for `i`, whatever was added and removed before.
   */
  lemma {:induction false} RosterInvariant(clicks: seq<RosterClick>)
    ensures 1 <= |Roster(clicks)| <= MAX_ENEMIES
    ensures forall i :: 0 <= i < |Roster(clicks)| ==> Roster(clicks)[i] == NewEnemy(i)
  {
    if |clicks| > 0 {
      RosterInvariant(clicks[..|clicks| - 1]);
    }
  }

  /** A stat box: the variant with the text it shows, and its icon. */
  datatype StatEntry = StatEntry(stat: StatsValue, imageUrl: string)

  /** The text a box for the variant of `s` should show: the level as an integer, any other stat through `fmt` (`f64::to_string`). */
  function Shown(p: ActivePlayer, s: StatsValue, fmt: real -> string): string {
    if s.Level? then NatToString(p.level) else fmt(ReadStat(p, s))
  }

  /** The page's sixteen stat boxes for the active player, in display order. */
  function PageStatEntries(p: ActivePlayer, backendUrl: string, fmt: real -> string): seq<StatEntry> {
    var c := p.championStats;
    var icon := (name: string) => backendUrl + "/cdn/stats/" + name + ".png";
    [ StatEntry(Level(NatToString(p.level)), icon("Level")),
      StatEntry(AttackSpeed(fmt(c.attackSpeed)), icon("AttackSpeed")),
      StatEntry(AbilityPower(fmt(c.abilityPower)), icon("AbilityPower")),
      StatEntry(AttackDamage(fmt(c.attackDamage)), icon("AttackDamage")),
      StatEntry(ArmorPenetrationFlat(fmt(c.armorPenetrationFlat)), icon("ArmorPenetration")),
      StatEntry(ArmorPenetrationPercent(fmt(c.armorPenetrationPercent)), icon("ArmorPenetration")),
      StatEntry(MagicPenetrationFlat(fmt(c.magicPenetrationFlat)), icon("MagicPenetration")),
      StatEntry(MagicPenetrationPercent(fmt(c.magicPenetrationPercent)), icon("MagicPenetration")),
      StatEntry(CritChance(fmt(c.critChance)), icon("CriticalStrikeChance")),
      StatEntry(CritDamage(fmt(c.critDamage)), icon("CriticalStrikeDamage")),
      StatEntry(MaxHealth(fmt(c.maxHealth)), icon("Health")),
      StatEntry(CurrentHealth(fmt(c.currentHealth)), icon("Health")),
      StatEntry(Armor(fmt(c.armor)), icon("Armor")),
      StatEntry(MagicResist(fmt(c.magicResist)), icon("MagicResist")),
      StatEntry(MaxMana(fmt(c.maxMana)), icon("Mana")),
      StatEntry(CurrentMana(fmt(c.currentMana)), icon("Mana")) ]
  }

  /** The variants of the page's boxes, by `Kind`, in display order. */
  const PAGE_KINDS: seq<nat> := [0, 6, 1, 5, 3, 4, 11, 12, 7, 8, 10, 9, 2, 13, 14, 15]

  lemma PageKindsInOrder(p: ActivePlayer, backendUrl: string, fmt: real -> string)
    ensures var es := PageStatEntries(p, backendUrl, fmt);
      |es| == 16 && forall i :: 0 <= i < 16 ==> Kind(es[i].stat) == PAGE_KINDS[i]
  {
  }

  /** Every variant of `StatsValue` has exactly one box on the page. */
  lemma PageEntriesOnePerVariant(p: ActivePlayer, backendUrl: string, fmt: real -> string)
    ensures var es := PageStatEntries(p, backendUrl, fmt);
      && |es| == 16
      && (forall i, j :: 0 <= i < j < |es| ==> Kind(es[i].stat) != Kind(es[j].stat))
  {
    PageKindsInOrder(p, backendUrl, fmt);
    var es := PageStatEntries(p, backendUrl, fmt);
    forall i, j | 0 <= i < j < |es| ensures Kind(es[i].stat) != Kind(es[j].stat) {
      assert PAGE_KINDS[i] != PAGE_KINDS[j];
    }
  }

  /** Each box on the page shows the field its edits write. */
  lemma PageEntriesShowTheirField(p: ActivePlayer, backendUrl: string, fmt: real -> string)
    ensures var es := PageStatEntries(p, backendUrl, fmt);
      && |es| == 16
      && forall i :: 0 <= i < |es| ==> es[i].stat.v == Shown(p, es[i].stat, fmt)
  {
  }

  /** The enemy panel's four boxes: level, health (edited through `MaxHealth`), armor and magic resist. */
  function EnemyStatEntries(e: EnemyPlayer, backendUrl: string, fmt: real -> string): seq<StatEntry> {
    var icon := (name: string) => backendUrl + "/cdn/stats/" + name + ".png";
    [ StatEntry(Level(NatToString(e.level)), icon("Level")),
      StatEntry(MaxHealth(fmt(e.stats.health)), icon("Health")),
      StatEntry(Armor(fmt(e.stats.armor)), icon("Armor")),
      StatEntry(MagicResist(fmt(e.stats.magicResist)), icon("MagicResist")) ]
  }

  /** Each enemy box writes back the field it shows. */
  lemma EnemyBoxesEditWhatTheyShow(e: EnemyPlayer, backendUrl: string, fmt: real -> string, x: real)
    ensures var es := EnemyStatEntries(e, backendUrl, fmt);
      && EnemyStatEdit(e, es[0].stat, Some(x)).level == RealToUsize(x)
      && EnemyStatEdit(e, es[1].stat, Some(x)).stats.health == x
      && EnemyStatEdit(e, es[2].stat, Some(x)).stats.armor == x
      && EnemyStatEdit(e, es[3].stat, Some(x)).stats.magicResist == x
  {
  }
}
