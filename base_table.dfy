/**
 * The damage table of the base view: a header image and letter per damaging
 * ability, item or rune, and one cell per instance per enemy showing the
 * damage range and, beneath it, the change against the previous build.
 */
module BaseTable {
  import opened Wrappers

  /** The letter over an ability icon and its optional subscript (`Q` with `MAX`, say). */
  datatype Letter = Letter(first: char, subscript: Option<string>)

  /** What `create_image` draws: the image path and the letter, if any. */
  datatype HeaderImage = HeaderImage(path: string, letter: Option<Letter>)

  /** The basic attack (`A`) and critical strike (`C`) share one icon and carry no letter. */
  predicate IsAttackRelated(c: char) {
    c == 'C' || c == 'A'
  }

  /** `str::replace(c, "")`: every occurrence of `c` removed, the rest in order. */
  function RemoveChar(s: string, c: char): (r: string)
    ensures c !in r
    ensures |r| <= |s|
  {
    if |s| == 0 then ""
    else
      assert s == [s[0]] + s[1..];
      if s[0] == c then RemoveChar(s[1..], c)
      else [s[0]] + RemoveChar(s[1..], c)
  }

  lemma {:induction false} RemoveCharAbsent(s: string, c: char)
    requires c !in s
    ensures RemoveChar(s, c) == s
  {
    if |s| > 0 {
      RemoveCharAbsent(s[1..], c);
    }
  }

  lemma {:induction false} RemoveCharConcat(s: string, t: string, c: char)
    ensures RemoveChar(s + t, c) == RemoveChar(s, c) + RemoveChar(t, c)
  {
    if |s| == 0 {
      assert s + t == t;
    } else {
      assert (s + t)[1..] == s[1..] + t;
      RemoveCharConcat(s[1..], t, c);
    }
  }

  /** Removing is idempotent: the subscript of an already clean key is the key itself. */
  lemma RemoveCharIdempotent(s: string, c: char)
    ensures RemoveChar(RemoveChar(s, c), c) == RemoveChar(s, c)
  {
    RemoveCharAbsent(RemoveChar(s, c), c);
  }

  /**
   * `create_image`: abilities are drawn from `img/abilities/`, the attack
   * related ones under their own letter and the others under the champion id
   * (empty when there is none) followed by the letter; items and runes under
   * their own key. Only non-attack abilities get a letter, with the rest of
   * the key, underscores removed, as subscript when there is a rest.
   */
  function CreateImage(keyname: string, championId: Option<string>, instanceName: string): (h: HeaderImage)
    requires |keyname| > 0
    ensures h.letter.Some? <==> instanceName == "abilities" && !IsAttackRelated(keyname[0])
    ensures h.letter.Some? ==> h.letter.value.first == keyname[0]
    ensures h.letter.Some? ==> (h.letter.value.subscript.None? <==> |keyname| == 1)
  {
    var first := keyname[0];
    var remaining := keyname[1..];
    var path :=
      if instanceName == "abilities" then
        if IsAttackRelated(first) then "img/" + instanceName + "/" + [first] + ".png"
        else "img/" + instanceName + "/" + championId.UnwrapOr("") + [first] + ".png"
      else "img/" + instanceName + "/" + keyname + ".png";
    var letter :=
      if instanceName == "abilities" && !IsAttackRelated(first) then
        Some(Letter(first, if |remaining| > 0 then Some(RemoveChar(remaining, '_')) else None))
      else None;
    HeaderImage(path, letter)
  }

  /** The subscript is the key after its first letter, without underscores. */
  lemma SubscriptIsRestOfKey(keyname: string, championId: Option<string>)
    requires |keyname| > 1 && !IsAttackRelated(keyname[0])
    ensures CreateImage(keyname, championId, "abilities").letter
         == Some(Letter(keyname[0], Some(RemoveChar(keyname[1..], '_'))))
  {
  }

  /** Every rank of one ability (`Q`, `Q_MAX`, `Q1`, ...) shares the icon of its letter. */
  lemma AbilityIconIsByLetter(k1: string, k2: string, championId: Option<string>)
    requires |k1| > 0 && |k2| > 0 && k1[0] == k2[0]
    ensures CreateImage(k1, championId, "abilities").path == CreateImage(k2, championId, "abilities").path
  {
  }

  /** Items and runes are drawn under their own key, so distinct keys get distinct images. */
  lemma OtherIconsAreDistinct(k1: string, k2: string, instanceName: string)
    requires |k1| > 0 && |k2| > 0 && instanceName != "abilities"
    requires CreateImage(k1, None, instanceName).path == CreateImage(k2, None, instanceName).path
    ensures k1 == k2
  {
    var prefix := "img/" + instanceName + "/";
    var p1 := CreateImage(k1, None, instanceName).path;
    assert p1 == prefix + k1 + ".png";
    assert |k1| == |k2|;
    assert k1 == p1[|prefix|..|prefix| + |k1|];
  }

  lemma SubscriptExample()
    ensures CreateImage("Q_MAX", Some("Neeko"), "abilities")
         == HeaderImage("img/abilities/NeekoQ.png", Some(Letter('Q', Some("MAX"))))
  {
    assert "Q_MAX"[1..] == "_MAX";
    assert "_MAX"[1..] == "MAX";
    RemoveCharAbsent("MAX", '_');
    assert "img/" + "abilities" + "/" + "Neeko" + ['Q'] + ".png" == "img/abilities/NeekoQ.png";
  }

  lemma AttackExample()
    ensures CreateImage("A", Some("Neeko"), "abilities") == HeaderImage("img/abilities/A.png", None)
  {
    assert "img/" + "abilities" + "/" + ['A'] + ".png" == "img/abilities/A.png";
  }

  lemma ItemExample()
    ensures CreateImage("3089", None, "items") == HeaderImage("img/items/3089.png", None)
  {
    assert "img/" + "items" + "/" + "3089" + ".png" == "img/items/3089.png";
  }

  /** One instance's damage against one enemy, with the change a compared build would make. */
  datatype DamageCell = DamageCell(
    minimumDamage: real,
    maximumDamage: real,
    damageType: string,
    minDmgChange: Option<real>,
    maxDmgChange: Option<real>)

  /** What a body cell shows: the damage and the change line (empty: no second line). */
  datatype Cell = Cell(text: string, subtext: string, damageType: string)

  /** The damage: a range when there is a positive maximum, the minimum alone otherwise. */
  function CellText(value: DamageCell, fmt0: real -> string): string {
    if value.maximumDamage > 0.0 then fmt0(value.minimumDamage) + " - " + fmt0(value.maximumDamage)
    else fmt0(value.minimumDamage)
  }

  /** The change line: the minimum change if any, then ` - ` and the maximum change if positive. */
  function Subtext(value: DamageCell, fmt0: real -> string): string {
    (if value.minDmgChange.Some? then fmt0(value.minDmgChange.value) else "")
    + (if value.maxDmgChange.Some? && value.maxDmgChange.value > 0.0 then " - " + fmt0(value.maxDmgChange.value) else "")
  }

  /** The cell has a change line exactly when there is a minimum change or a positive maximum change. */
  lemma SubtextCases(value: DamageCell, fmt0: real -> string)
    requires forall x :: |fmt0(x)| > 0
    ensures Subtext(value, fmt0) == "" <==>
      value.minDmgChange.None? && !(value.maxDmgChange.Some? && value.maxDmgChange.value > 0.0)
    ensures value.minDmgChange.None? && value.maxDmgChange.Some? && value.maxDmgChange.value > 0.0 ==>
      Subtext(value, fmt0) == " - " + fmt0(value.maxDmgChange.value)
  {
    if value.minDmgChange.Some? {
      var m: real := value.minDmgChange.value;
      assert |fmt0(m)| > 0;
    }
  }

  /** The text is the minimum first, and is a range exactly when the maximum is positive. */
  lemma CellTextCases(value: DamageCell, fmt0: real -> string)
    ensures |fmt0(value.minimumDamage)| <= |CellText(value, fmt0)|
    ensures CellText(value, fmt0)[..|fmt0(value.minimumDamage)|] == fmt0(value.minimumDamage)
    ensures value.maximumDamage > 0.0 ==>
      CellText(value, fmt0)[|fmt0(value.minimumDamage)|..] == " - " + fmt0(value.maximumDamage)
    ensures value.maximumDamage <= 0.0 ==> CellText(value, fmt0) == fmt0(value.minimumDamage)
  {
  }

  /** The change line built by two conditional `push_str`s on an empty string. */
  method MakeSubtext(value: DamageCell, fmt0: real -> string) returns (subtext: string)
    ensures subtext == Subtext(value, fmt0)
  {
    subtext := "";
    if value.minDmgChange.Some? {
      subtext := subtext + fmt0(value.minDmgChange.value);
    }
    if value.maxDmgChange.Some? {
      if value.maxDmgChange.value > 0.0 {
        subtext := subtext + (" - " + fmt0(value.maxDmgChange.value));
      }
    }
  }

  /**
   * `make_table_body`: one cell per key in the order given, each showing the
   * damage the enemy takes from that instance.
   */
  method MakeTableBody(orderedInstances: seq<string>, damages: map<string, DamageCell>, fmt0: real -> string)
    returns (cells: seq<Cell>)
    requires forall k :: k in orderedInstances ==> k in damages
    ensures |cells| == |orderedInstances|
    ensures forall i :: 0 <= i < |cells| ==>
      var value := damages[orderedInstances[i]];
      cells[i] == Cell(CellText(value, fmt0), Subtext(value, fmt0), value.damageType)
  {
    cells := [];
    var i := 0;
    while i < |orderedInstances|
      invariant 0 <= i <= |orderedInstances|
      invariant |cells| == i
      invariant forall j :: 0 <= j < i ==>
        var value := damages[orderedInstances[j]];
        cells[j] == Cell(CellText(value, fmt0), Subtext(value, fmt0), value.damageType)
    {
      var value := damages[orderedInstances[i]];
      var subtext := MakeSubtext(value, fmt0);
      cells := cells + [Cell(CellText(value, fmt0), subtext, value.damageType)];
      i := i + 1;
    }
  }
}
