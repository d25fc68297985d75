/**
 * The component variant of the calculator form: the same ability and stat
 * edit rules over the active player, a request whose dragon counts are all
 * zero, and its own list of stat boxes.
 */
module CalculatorComponent {
  import opened Wrappers
  import opened Numeric
  import opened RealtimeData
  import opened CalculatorModel
  import opened Stats
  import opened CalculatorPage

  /**
   * The body this variant posts: the form's player and roster, no dragons,
   * the fixed item list, and no `stack_exceptions` field, which this
   * variant's `GameX` does not have.
   */
  function ComponentRequest(p: ActivePlayer, enemies: seq<EnemyPlayer>): Payload {
    Payload(Game(p, enemies, 0, 0, 0), None, [3115, 3153, 4645, 3089])
  }

  /**
   * The component posts what the page would post for the same player and
   * roster exactly when the page's three dragon counts are 0 and it
   * simulates the same items, except that the component leaves out the
   * stack-exception map.
   */
  lemma ComponentPostIsPagePostWithoutDragons(
    p: ActivePlayer, enemies: seq<EnemyPlayer>, allyEarth: nat, allyFire: nat, enemyEarth: nat, simulated: seq<nat>)
    ensures ComponentRequest(p, enemies) ==
            PagePayload(p, enemies, allyEarth, allyFire, enemyEarth, simulated).(stackExceptions := None) <==>
      allyEarth == 0 && allyFire == 0 && enemyEarth == 0 && simulated == SIMULATED_ITEMS
    ensures ComponentRequest(p, enemies).game == PagePayload(p, enemies, allyEarth, allyFire, enemyEarth, simulated).game <==>
      allyEarth == 0 && allyFire == 0 && enemyEarth == 0
  {
  }

  /** The component's sixteen stat boxes, in display order; `cdn` is the image CDN prefix. */
  function ComponentStatEntries(p: ActivePlayer, cdn: string, fmt: real -> string): seq<StatEntry> {
    var c := p.championStats;
    var icon := (name: string) => cdn + "/stats/" + name + ".png";
    [ StatEntry(Level(NatToString(p.level)), icon("Level")),
      StatEntry(AbilityPower(fmt(c.abilityPower)), icon("AbilityPower")),
      StatEntry(AttackDamage(fmt(c.attackDamage)), icon("AttackDamage")),
      StatEntry(ArmorPenetrationFlat(fmt(c.armorPenetrationFlat)), icon("ArmorPenetration")),
      StatEntry(ArmorPenetrationPercent(fmt(c.armorPenetrationPercent)), icon("ArmorPenetration")),
      StatEntry(MagicPenetrationFlat(fmt(c.magicPenetrationFlat)), icon("MagicPenetration")),
      StatEntry(MagicPenetrationPercent(fmt(c.magicPenetrationPercent)), icon("MagicPenetration")),
      StatEntry(CritChance(fmt(c.critChance)), icon("CriticalStrikeChance")),
      StatEntry(CritDamage(fmt(c.critDamage)), icon("CriticalStrikeDamage")),
      StatEntry(MaxHealth(fmt(c.maxHealth)), icon("Health")),
      StatEntry(CurrentHealth(fmt(c.maxHealth)), icon("Health")),
      StatEntry(Armor(fmt(c.armor)), icon("Armor")),
      StatEntry(MagicResist(fmt(c.magicResist)), icon("MagicResist")),
      StatEntry(AttackSpeed(fmt(c.attackSpeed)), icon("AttackSpeed")),
      StatEntry(MaxMana(fmt(c.maxMana)), icon("Mana")),
      StatEntry(CurrentMana(fmt(c.currentMana)), icon("Mana")) ]
  }

  /** The variants of the component's boxes, by `Kind`, in display order. */
  const COMPONENT_KINDS: seq<nat> := [0, 1, 5, 3, 4, 11, 12, 7, 8, 10, 9, 2, 13, 6, 14, 15]

  lemma ComponentKindsInOrder(p: ActivePlayer, cdn: string, fmt: real -> string)
    ensures var es := ComponentStatEntries(p, cdn, fmt);
      |es| == 16 && forall i :: 0 <= i < 16 ==> Kind(es[i].stat) == COMPONENT_KINDS[i]
  {
  }

  /** Every variant of `StatsValue` has exactly one box. */
  lemma ComponentEntriesOnePerVariant(p: ActivePlayer, cdn: string, fmt: real -> string)
    ensures var es := ComponentStatEntries(p, cdn, fmt);
      && |es| == 16
      && (forall i, j :: 0 <= i < j < |es| ==> Kind(es[i].stat) != Kind(es[j].stat))
  {
    ComponentKindsInOrder(p, cdn, fmt);
    var es := ComponentStatEntries(p, cdn, fmt);
    forall i, j | 0 <= i < j < |es| ensures Kind(es[i].stat) != Kind(es[j].stat) {
      assert COMPONENT_KINDS[i] != COMPONENT_KINDS[j];
    }
  }

  /** Each box shows the field it edits, except the `CurrentHealth` box, which shows `max_health`. */
  lemma ComponentEntriesShowTheirField(p: ActivePlayer, cdn: string, fmt: real -> string)
    ensures var es := ComponentStatEntries(p, cdn, fmt);
      && |es| == 16
      && (forall i :: 0 <= i < |es| && !es[i].stat.CurrentHealth? ==> es[i].stat.v == Shown(p, es[i].stat, fmt))
      && es[10].stat == CurrentHealth(fmt(p.championStats.maxHealth))
  {
  }

  /** The current-health box shows what the page shows only when `fmt` cannot tell the two health fields apart. */
  lemma CurrentHealthBoxDiffersFromPage(p: ActivePlayer, backendUrl: string, cdn: string, fmt: real -> string)
    ensures ComponentStatEntries(p, cdn, fmt)[10].stat == PageStatEntries(p, backendUrl, fmt)[11].stat <==>
      fmt(p.championStats.maxHealth) == fmt(p.championStats.currentHealth)
  {
  }

  /** The component's `CalculatorDisplay` state. */
  class CalculatorForm {
    var activePlayer: ActivePlayer
    var enemies: seq<EnemyPlayer>

    /** What the form posts: the page's body for no dragons and its initial items, without stack exceptions. */
    function Request(): (r: Payload)
      reads this
      ensures r == PagePayload(activePlayer, enemies, 0, 0, 0, SIMULATED_ITEMS).(stackExceptions := None)
    {
      ComponentRequest(activePlayer, enemies)
    }

    /** The roster starts with the default enemy for position 0. */
    constructor ()
      ensures activePlayer == NewActivePlayer() && enemies == [NewEnemy(0)]
    {
      activePlayer := NewActivePlayer();
      enemies := [NewEnemy(0)];
    }

    /** `AbilityLevelSelector`'s callback. */
    method EditAbility(keyname: string, input: string)
      modifies this`activePlayer
      ensures activePlayer == old(activePlayer).(abilities := AbilityEdit(old(activePlayer).abilities, keyname, input))
      ensures Request() == old(Request()).(game := old(Request()).game.(activePlayer := activePlayer))
    {
      var current := activePlayer;
      var n := ParseUsize(input);
      if n.Some? {
        if keyname == "Q" {
          current := current.(abilities := current.abilities.(q := n.value));
        } else if keyname == "W" {
          current := current.(abilities := current.abilities.(w := n.value));
        } else if keyname == "E" {
          current := current.(abilities := current.abilities.(e := n.value));
        } else if keyname == "R" {
          current := current.(abilities := current.abilities.(r := n.value));
        }
      }
      activePlayer := current;
    }

    /** `StatSelector`'s callback; `parsed` is what `parse::<f64>` made of the text. */
    method EditStat(s: StatsValue, parsed: Option<real>)
      modifies this`activePlayer
      ensures activePlayer == ApplyParsedStat(old(activePlayer), s, parsed)
      ensures Request() == old(Request()).(game := old(Request()).game.(activePlayer := activePlayer))
    {
      var current := activePlayer;
      if parsed.Some? {
        current := ApplyStat(current, s, parsed.value);
      }
      activePlayer := current;
    }
  }
}
