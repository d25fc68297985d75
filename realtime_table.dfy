/**
 * The realtime damage table: the same header images as the base table
 * (every ability with its letter, attack ones included) and one cell per
 * instance per enemy showing the minimum damage only.
 */
module RealtimeTable {
  import opened Wrappers
  import opened RealtimeData
  import BaseTable

  /**
   * The header image of one key. The champion id is read (and unwrapped)
   * only for a non-attack ability; every ability gets its letter.
   */
  function HeaderImageOf(key: string, championId: Option<string>, instanceName: string): (h: BaseTable.HeaderImage)
    requires |key| > 0
    requires instanceName == "abilities" && !BaseTable.IsAttackRelated(key[0]) ==> championId.Some?
    ensures h.letter.Some? <==> instanceName == "abilities"
    ensures h.letter.Some? ==> h.letter.value.first == key[0]
    ensures h.letter.Some? ==> (h.letter.value.subscript.None? <==> |key| == 1)
  {
    var first := key[0];
    var remaining := key[1..];
    var path :=
      if instanceName == "abilities" then
        if BaseTable.IsAttackRelated(first) then "img/" + instanceName + "/" + [first] + ".png"
        else "img/" + instanceName + "/" + championId.value + [first] + ".png"
      else "img/" + instanceName + "/" + key + ".png";
    var letter :=
      if instanceName == "abilities" then
        Some(BaseTable.Letter(first, if |remaining| > 0 then Some(BaseTable.RemoveChar(remaining, '_')) else None))
      else None;
    BaseTable.HeaderImage(path, letter)
  }

  /**
   * The realtime header draws the same image as the base table's, and the
   * same letter except over the attack abilities, which only it labels.
   */
  lemma HeaderAgreesWithBaseTable(key: string, championId: Option<string>, instanceName: string)
    requires |key| > 0
    requires instanceName == "abilities" && !BaseTable.IsAttackRelated(key[0]) ==> championId.Some?
    ensures HeaderImageOf(key, championId, instanceName).path == BaseTable.CreateImage(key, championId, instanceName).path
    ensures !(instanceName == "abilities" && BaseTable.IsAttackRelated(key[0])) ==>
      HeaderImageOf(key, championId, instanceName) == BaseTable.CreateImage(key, championId, instanceName)
    ensures instanceName == "abilities" && BaseTable.IsAttackRelated(key[0]) ==>
      BaseTable.CreateImage(key, championId, instanceName).letter.None? &&
      HeaderImageOf(key, championId, instanceName).letter.Some?
  {
  }

  /** One body cell: the minimum damage, coloured by its damage type. */
  datatype Cell = Cell(text: string, damageType: string)

  function CellOf(value: InstanceDamage, fmt0: real -> string): Cell {
    Cell(fmt0(value.minimumDamage), value.damageType)
  }

  /** The realtime cell shows what the base table's cell shows first: the minimum damage. */
  lemma CellIsStartOfBaseText(value: InstanceDamage, fmt0: real -> string)
    ensures var base := BaseTable.CellText(
              BaseTable.DamageCell(value.minimumDamage, value.maximumDamage, value.damageType, None, None), fmt0);
            && |CellOf(value, fmt0).text| <= |base|
            && base[..|CellOf(value, fmt0).text|] == CellOf(value, fmt0).text
    ensures value.maximumDamage <= 0.0 ==>
      CellOf(value, fmt0).text == BaseTable.CellText(
        BaseTable.DamageCell(value.minimumDamage, value.maximumDamage, value.damageType, None, None), fmt0)
  {
    BaseTable.CellTextCases(BaseTable.DamageCell(value.minimumDamage, value.maximumDamage, value.damageType, None, None), fmt0);
  }

  /** The keys of a map in an iteration order: each key once. */
  ghost predicate IsOrderOf<V>(order: seq<string>, m: map<string, V>) {
    && (forall k :: k in order <==> k in m)
    && (forall i, j :: 0 <= i < j < |order| ==> order[i] != order[j])
  }

  /** `make_table_header`: an image per key, in the map's iteration order. */
  function Header(order: seq<string>, championId: Option<string>, instanceName: string): (hs: seq<BaseTable.HeaderImage>)
    requires forall k :: k in order ==> |k| > 0
    requires instanceName == "abilities" ==> championId.Some?
    ensures |hs| == |order|
    ensures forall i :: 0 <= i < |order| ==> hs[i] == HeaderImageOf(order[i], championId, instanceName)
  {
    seq(|order|, i requires 0 <= i < |order| => HeaderImageOf(order[i], championId, instanceName))
  }

  /** `make_table_body`: a cell per key in the order given, looked up in the enemy's damages. */
  function Body(order: seq<string>, damages: map<string, InstanceDamage>, fmt0: real -> string): (cs: seq<Cell>)
    requires forall k :: k in order ==> k in damages
    ensures |cs| == |order|
    ensures forall i :: 0 <= i < |order| ==> cs[i] == CellOf(damages[order[i]], fmt0)
  {
    seq(|order|, i requires 0 <= i < |order| => CellOf(damages[order[i]], fmt0))
  }

  /** One row of the table: the enemy's portrait and its cells. */
  datatype Row = Row(portrait: string, cells: seq<Cell>)

  /** The whole table: the header columns and one row per enemy. */
  datatype Table = Table(header: seq<BaseTable.HeaderImage>, rows: seq<Row>)

  /** The orders in which the player's three maps are iterated. */
  datatype Orders = Orders(abilities: seq<string>, items: seq<string>, runes: seq<string>)

  ghost predicate OrdersFit(player: CurrentPlayer, enemies: seq<Enemy>, orders: Orders) {
    && IsOrderOf(orders.abilities, player.damagingAbilities)
    && IsOrderOf(orders.items, player.damagingItems)
    && IsOrderOf(orders.runes, player.damagingRunes)
    && (forall k :: k in orders.abilities + orders.items + orders.runes ==> |k| > 0)
    && (forall e :: e in enemies ==>
          && (forall k :: k in orders.abilities ==> k in e.damages.abilities)
          && (forall k :: k in orders.items ==> k in e.damages.items)
          && (forall k :: k in orders.runes ==> k in e.damages.runes))
  }

  function RowOf(e: Enemy, orders: Orders, fmt0: real -> string): Row
    requires forall k :: k in orders.abilities ==> k in e.damages.abilities
    requires forall k :: k in orders.items ==> k in e.damages.items
    requires forall k :: k in orders.runes ==> k in e.damages.runes
  {
    Row("img/champions/" + e.championId + ".png",
        Body(orders.abilities, e.damages.abilities, fmt0)
        + Body(orders.items, e.damages.items, fmt0)
        + Body(orders.runes, e.damages.runes, fmt0))
  }

  /**
   * `realtime_display`: the abilities header carries the player's champion,
   * items and runes none; each enemy's row follows the same three orders.
   * Column `j` of every row is the damage of the instance whose image heads
   * column `j`.
   */
  function Display(player: CurrentPlayer, enemies: seq<Enemy>, orders: Orders, fmt0: real -> string): (t: Table)
    requires OrdersFit(player, enemies, orders)
    ensures |t.rows| == |enemies|
    ensures forall r :: r in t.rows ==> |r.cells| == |t.header|
    ensures |t.header| == |player.damagingAbilities| + |player.damagingItems| + |player.damagingRunes|
  {
    KeysCounted(orders.abilities, player.damagingAbilities);
    KeysCounted(orders.items, player.damagingItems);
    KeysCounted(orders.runes, player.damagingRunes);
    var header := Header(orders.abilities, Some(player.championId), "abilities")
      + Header(orders.items, None, "items")
      + Header(orders.runes, None, "runes");
    Table(header, seq(|enemies|, i requires 0 <= i < |enemies| => RowOf(enemies[i], orders, fmt0)))
  }

  /**
   * Proof step for the three column lemmas below: row `i` is the enemy's
   * three bodies side by side, under the three headers side by side.
   */
  lemma RowAndHeader(player: CurrentPlayer, enemies: seq<Enemy>, orders: Orders, fmt0: real -> string, i: nat)
    requires OrdersFit(player, enemies, orders) && i < |enemies|
    ensures enemies[i] in enemies
    ensures var ds := enemies[i].damages;
            Display(player, enemies, orders, fmt0).rows[i].cells
              == Body(orders.abilities, ds.abilities, fmt0) + Body(orders.items, ds.items, fmt0)
                 + Body(orders.runes, ds.runes, fmt0)
    ensures Display(player, enemies, orders, fmt0).header
              == Header(orders.abilities, Some(player.championId), "abilities")
                 + Header(orders.items, None, "items") + Header(orders.runes, None, "runes")
  {
    assert enemies[i] in enemies;
  }

  /** Under the header of ability `j` every enemy's row shows its damage from that ability. */
  lemma AbilityColumnsMatch(player: CurrentPlayer, enemies: seq<Enemy>, orders: Orders, fmt0: real -> string,
                            i: nat, j: nat)
    requires OrdersFit(player, enemies, orders) && i < |enemies| && j < |orders.abilities|
    ensures var t := Display(player, enemies, orders, fmt0);
            && j < |t.rows[i].cells| && j < |t.header|
            && t.rows[i].cells[j] == CellOf(enemies[i].damages.abilities[orders.abilities[j]], fmt0)
            && t.header[j] == HeaderImageOf(orders.abilities[j], Some(player.championId), "abilities")
  {
    RowAndHeader(player, enemies, orders, fmt0, i);
  }

  /** Under the header of item `j` every enemy's row shows its damage from that item. */
  lemma ItemColumnsMatch(player: CurrentPlayer, enemies: seq<Enemy>, orders: Orders, fmt0: real -> string,
                         i: nat, j: nat)
    requires OrdersFit(player, enemies, orders) && i < |enemies| && j < |orders.items|
    ensures var t := Display(player, enemies, orders, fmt0);
            var col := |orders.abilities| + j;
            && col < |t.rows[i].cells| && col < |t.header|
            && t.rows[i].cells[col] == CellOf(enemies[i].damages.items[orders.items[j]], fmt0)
            && t.header[col] == HeaderImageOf(orders.items[j], None, "items")
  {
    RowAndHeader(player, enemies, orders, fmt0, i);
  }

  /** Under the header of rune `j` every enemy's row shows its damage from that rune. */
  lemma RuneColumnsMatch(player: CurrentPlayer, enemies: seq<Enemy>, orders: Orders, fmt0: real -> string,
                         i: nat, j: nat)
    requires OrdersFit(player, enemies, orders) && i < |enemies| && j < |orders.runes|
    ensures var t := Display(player, enemies, orders, fmt0);
            var col := |orders.abilities| + |orders.items| + j;
            && col < |t.rows[i].cells| && col < |t.header|
            && t.rows[i].cells[col] == CellOf(enemies[i].damages.runes[orders.runes[j]], fmt0)
            && t.header[col] == HeaderImageOf(orders.runes[j], None, "runes")
  {
    RowAndHeader(player, enemies, orders, fmt0, i);
  }

  /** A map's iteration order lists as many keys as the map has. */
  lemma KeysCounted<V>(order: seq<string>, m: map<string, V>)
    requires IsOrderOf(order, m)
    ensures |order| == |m|
  {
    DistinctCount(order, m.Keys);
  }

  /** Proof step for `KeysCounted`: a sequence without repetitions is as long as the set of its elements. */
  lemma {:induction false} DistinctCount(order: seq<string>, keys: set<string>)
    requires forall k :: k in order <==> k in keys
    requires forall i, j :: 0 <= i < j < |order| ==> order[i] != order[j]
    ensures |order| == |keys|
  {
    if |order| == 0 {
      assert forall k :: k !in keys;
      assert keys == {};
    } else {
      var k := order[|order| - 1];
      var rest := order[..|order| - 1];
      assert order == rest + [k];
      forall x ensures x in rest <==> x in keys - {k} {
        if x in rest {
          var p :| 0 <= p < |rest| && rest[p] == x;
          assert order[p] == x;
        }
      }
      DistinctCount(rest, keys - {k});
    }
  }
}
