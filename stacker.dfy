/**
 * The damage stack: instances appended from the selector buttons, removed
 * by id from the dropper, and totalled per enemy (maximum or minimum
 * damage of each instance) into the stacker table.
 */
module Stacker {
  import opened Wrappers
  import opened RealtimeData
  import opened Ordering

  datatype StackInstance = StackInstance(id: string, keyname: string, source: string, isMaximum: bool)

  predicate DistinctIds(s: seq<StackInstance>) {
    forall i, j :: 0 <= i < j < |s| ==> s[i].id != s[j].id
  }

  predicate HasId(s: seq<StackInstance>, id: string) {
    exists i :: 0 <= i < |s| && s[i].id == id
  }

  /** What one instance adds to an enemy's total: its maximum or minimum damage, 0 for an unknown source or key. */
  function Contribution(inst: StackInstance, damages: Damages): real {
    var m: map<string, InstanceDamage> :=
      if inst.source == "abilities" then damages.abilities
      else if inst.source == "items" then damages.items
      else if inst.source == "runes" then damages.runes
      else map[];
    if inst.keyname in m then
      (if inst.isMaximum then m[inst.keyname].maximumDamage else m[inst.keyname].minimumDamage)
    else 0.0
  }

  /** The total of the stack against one enemy's damages. */
  function StackTotal(stack: seq<StackInstance>, damages: Damages): real {
    if |stack| == 0 then 0.0
    else StackTotal(stack[..|stack| - 1], damages) + Contribution(stack[|stack| - 1], damages)
  }

  lemma ContributionCases(inst: StackInstance, damages: Damages)
    ensures inst.source !in {"abilities", "items", "runes"} ==> Contribution(inst, damages) == 0.0
    ensures inst.source == "abilities" && inst.keyname in damages.abilities ==>
      Contribution(inst, damages) ==
        (if inst.isMaximum then damages.abilities[inst.keyname].maximumDamage else damages.abilities[inst.keyname].minimumDamage)
    ensures inst.source == "items" && inst.keyname in damages.items ==>
      Contribution(inst, damages) ==
        (if inst.isMaximum then damages.items[inst.keyname].maximumDamage else damages.items[inst.keyname].minimumDamage)
    ensures inst.source == "runes" && inst.keyname in damages.runes ==>
      Contribution(inst, damages) ==
        (if inst.isMaximum then damages.runes[inst.keyname].maximumDamage else damages.runes[inst.keyname].minimumDamage)
    ensures inst.source == "abilities" && inst.keyname !in damages.abilities ==> Contribution(inst, damages) == 0.0
    ensures inst.source == "items" && inst.keyname !in damages.items ==> Contribution(inst, damages) == 0.0
    ensures inst.source == "runes" && inst.keyname !in damages.runes ==> Contribution(inst, damages) == 0.0
  {
  }

  /** The total of two stacks laid end to end is the sum of their totals, so the order of the loop does not matter for a split. */
  lemma {:induction false} StackTotalAppend(s: seq<StackInstance>, t: seq<StackInstance>, damages: Damages)
    ensures StackTotal(s + t, damages) == StackTotal(s, damages) + StackTotal(t, damages)
  {
    if |t| == 0 {
      assert s + t == s;
    } else {
      assert (s + t)[..|s + t| - 1] == s + t[..|t| - 1];
      StackTotalAppend(s, t[..|t| - 1], damages);
    }
  }

  predicate NonNegative(m: map<string, InstanceDamage>) {
    forall k :: k in m ==> m[k].minimumDamage >= 0.0 && m[k].maximumDamage >= 0.0
  }

  /** With non-negative damages the total is non-negative, so the health left is never above the current health. */
  lemma {:induction false} TotalNonNegative(stack: seq<StackInstance>, damages: Damages)
    requires NonNegative(damages.abilities) && NonNegative(damages.items) && NonNegative(damages.runes)
    ensures StackTotal(stack, damages) >= 0.0
  {
    if |stack| > 0 {
      TotalNonNegative(stack[..|stack| - 1], damages);
    }
  }

  /** The accumulation loop of `stacker` for one enemy. */
  method TotalDamage(stack: seq<StackInstance>, damages: Damages) returns (total: real)
    ensures total == StackTotal(stack, damages)
  {
    total := 0.0;
    var i := 0;
    while i < |stack|
      invariant 0 <= i <= |stack|
      invariant total == StackTotal(stack[..i], damages)
    {
      assert stack[..i + 1][..i] == stack[..i];
      var inst := stack[i];
      var m: map<string, InstanceDamage> :=
        if inst.source == "abilities" then damages.abilities
        else if inst.source == "items" then damages.items
        else if inst.source == "runes" then damages.runes
        else map[];
      if inst.keyname in m {
        if inst.isMaximum {
          total := total + m[inst.keyname].maximumDamage;
        } else {
          total := total + m[inst.keyname].minimumDamage;
        }
      }
      i := i + 1;
    }
    assert stack[..i] == stack;
  }

  /** One row of the stacker table. */
  datatype StackerRow = StackerRow(championId: string, championName: string, totalDamage: real, finalHealth: real)

  /** One row per enemy, in enemy order, with the stack's total and the health it leaves. */
  method StackerRows(stack: seq<StackInstance>, enemies: seq<Enemy>) returns (rows: seq<StackerRow>)
    ensures |rows| == |enemies|
    ensures forall i :: 0 <= i < |enemies| ==>
      && rows[i].championId == enemies[i].championId
      && rows[i].championName == enemies[i].championName
      && rows[i].totalDamage == StackTotal(stack, enemies[i].damages)
      && rows[i].finalHealth + rows[i].totalDamage == enemies[i].currentStats.health
  {
    rows := [];
    var i := 0;
    while i < |enemies|
      invariant 0 <= i <= |enemies|
      invariant |rows| == i
      invariant forall k :: 0 <= k < i ==>
        && rows[k].championId == enemies[k].championId
        && rows[k].championName == enemies[k].championName
        && rows[k].totalDamage == StackTotal(stack, enemies[k].damages)
        && rows[k].finalHealth + rows[k].totalDamage == enemies[k].currentStats.health
    {
      var enemy := enemies[i];
      var total := TotalDamage(stack, enemy.damages);
      rows := rows + [StackerRow(enemy.championId, enemy.championName, total, enemy.currentStats.health - total)];
      i := i + 1;
    }
  }

  /** `iter().position(|e| e.id == id)`. */
  method Position(s: seq<StackInstance>, id: string) returns (r: Option<nat>)
    ensures r.Some? ==> r.value < |s| && s[r.value].id == id && forall j :: 0 <= j < r.value ==> s[j].id != id
    ensures r.None? ==> !HasId(s, id)
  {
    var i := 0;
    while i < |s|
      invariant 0 <= i <= |s|
      invariant forall j :: 0 <= j < i ==> s[j].id != id
    {
      if s[i].id == id {
        return Some(i);
      }
      i := i + 1;
    }
    return None;
  }

  /** The stack after the dropper click for `id`: the first instance with that id removed, if any. */
  function RemoveFirst(s: seq<StackInstance>, id: string): seq<StackInstance> {
    if |s| == 0 then []
    else if s[0].id == id then s[1..]
    else [s[0]] + RemoveFirst(s[1..], id)
  }

  lemma {:induction false} RemoveFirstAt(s: seq<StackInstance>, id: string, k: nat)
    requires k < |s| && s[k].id == id && forall j :: 0 <= j < k ==> s[j].id != id
    ensures RemoveFirst(s, id) == s[..k] + s[k + 1..]
  {
    if k > 0 {
      RemoveFirstAt(s[1..], id, k - 1);
      assert s[1..][..k - 1] == s[1..k];
      assert s[1..][k..] == s[k + 1..];
      assert s[..k] == [s[0]] + s[1..k];
    }
  }

  lemma {:induction false} RemoveFirstAbsent(s: seq<StackInstance>, id: string)
    requires !HasId(s, id)
    ensures RemoveFirst(s, id) == s
  {
    if |s| > 0 {
      assert !HasId(s[1..], id) by {
        forall j | 0 <= j < |s[1..]| ensures s[1..][j].id != id {
          assert s[1..][j] == s[j + 1];
        }
      }
      RemoveFirstAbsent(s[1..], id);
    }
  }

  /** The position of the first instance with id `id`. */
  function FirstMatch(s: seq<StackInstance>, id: string): (k: nat)
    requires HasId(s, id)
    ensures k < |s| && s[k].id == id
    ensures forall j :: 0 <= j < k ==> s[j].id != id
  {
    if s[0].id == id then 0
    else
      assert HasId(s[1..], id) by {
        var i :| 0 <= i < |s| && s[i].id == id;
        assert s[1..][i - 1] == s[i];
      }
      1 + FirstMatch(s[1..], id)
  }

  /**
   * Removing by id drops exactly the first matching instance and keeps the
   * others in order; with no match the stack is unchanged.
   */
  lemma RemoveFirstProperties(s: seq<StackInstance>, id: string)
    ensures !HasId(s, id) ==> RemoveFirst(s, id) == s
    ensures HasId(s, id) ==> |RemoveFirst(s, id)| == |s| - 1
    ensures HasId(s, id) ==> RemoveFirst(s, id) == s[..FirstMatch(s, id)] + s[FirstMatch(s, id) + 1..]
  {
    if HasId(s, id) {
      RemoveFirstAt(s, id, FirstMatch(s, id));
    } else {
      RemoveFirstAbsent(s, id);
    }
  }

  /** On a stack of distinct ids, removal keeps the ids distinct and the removed id is gone. */
  lemma RemoveFirstOnDistinctIds(s: seq<StackInstance>, id: string)
    requires DistinctIds(s)
    ensures DistinctIds(RemoveFirst(s, id)) && !HasId(RemoveFirst(s, id), id)
  {
    if HasId(s, id) {
      var k := FirstMatch(s, id);
      RemoveFirstAt(s, id, k);
      var r := s[..k] + s[k + 1..];
      forall i | 0 <= i < |r| ensures r[i] == s[if i < k then i else i + 1] {
      }
      forall i, j | 0 <= i < j < |r| ensures r[i].id != r[j].id {
        assert r[i] == s[if i < k then i else i + 1];
        assert r[j] == s[if j < k then j else j + 1];
      }
      forall i | 0 <= i < |r| ensures r[i].id != id {
        assert r[i] == s[if i < k then i else i + 1];
      }
    } else {
      RemoveFirstAbsent(s, id);
    }
  }

  /** The dropper's "Stack" heading, shown iff the stack is non-empty. */
  function StackHeading(stack: seq<StackInstance>): (heading: Option<string>)
    ensures heading.Some? <==> |stack| > 0
    ensures heading.Some? ==> heading.value == "Stack"
  {
    if |stack| > 0 then Some("Stack") else None
  }

  /** The `abilities`, `items` or `runes` buttons of `make_stack_event`: the map's entries sorted by key. */
  method SelectorButtons(entries: seq<(string, string)>) returns (sorted: seq<(string, string)>)
    ensures multiset(sorted) == multiset(entries)
    ensures forall i, j :: 0 <= i < j < |sorted| ==> LexLe(sorted[i].0, sorted[j].0)
  {
    sorted := SortByKey(entries);
  }

  /** The stack the selector and dropper buttons edit. */
  class StackState {
    var stack: seq<StackInstance>

    ghost predicate Valid()
      reads this
    {
      DistinctIds(stack)
    }

    constructor ()
      ensures Valid() && stack == []
    {
      stack := [];
    }

    /** A selector click: append an instance with the fresh id `freshId` (a new v4 uuid), not at maximum. */
    method Push(keyname: string, source: string, freshId: string)
      requires Valid() && !HasId(stack, freshId)
      modifies this
      ensures Valid()
      ensures stack == old(stack) + [StackInstance(freshId, keyname, source, false)]
    {
      stack := stack + [StackInstance(freshId, keyname, source, false)];
    }

    /** A dropper click on the instance with id `id`. */
    method Drop(id: string)
      requires Valid()
      modifies this
      ensures Valid()
      ensures stack == RemoveFirst(old(stack), id)
    {
      RemoveFirstOnDistinctIds(stack, id);
      var index := Position(stack, id);
      if index.Some? {
        RemoveFirstAt(stack, id, index.value);
        stack := stack[..index.value] + stack[index.value + 1..];
      } else {
        RemoveFirstAbsent(stack, id);
      }
    }
  }
}
