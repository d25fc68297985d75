/**
 * The header of an item comparison: the item's icon, name and gold cost,
 * then its prettified stats sorted by name, each with the icon named after
 * the stat without spaces and the value without trailing `.0`.
 */
module ComparisonHeader {
  import opened Ordering
  import BaseTable

  /** `str::split(sep)`: the pieces between the separators, none of which holds one. */
  function Split(s: string, sep: char): (parts: seq<string>)
    ensures forall i :: 0 <= i < |parts| ==> sep !in parts[i]
  {
    if |s| == 0 then [""]
    else
      assert s == [s[0]] + s[1..];
      var rest := Split(s[1..], sep);
      if s[0] == sep then [""] + rest
      else [[s[0]] + rest[0]] + rest[1..]
  }

  /** `join("")`: the pieces concatenated. */
  function Concat(parts: seq<string>): string {
    if |parts| == 0 then "" else parts[0] + Concat(parts[1..])
  }

  /** Splitting at a character and joining with nothing removes that character. */
  lemma {:induction false} ConcatSplitRemoves(s: string, sep: char)
    ensures Concat(Split(s, sep)) == BaseTable.RemoveChar(s, sep)
  {
    if |s| > 0 {
      ConcatSplitRemoves(s[1..], sep);
      var rest := Split(s[1..], sep);
      if s[0] == sep {
        assert ([""] + rest)[1..] == rest;
      } else {
        var parts := [[s[0]] + rest[0]] + rest[1..];
        assert parts[1..] == rest[1..];
        assert Concat(rest) == rest[0] + Concat(rest[1..]);
      }
    }
  }

  /** The stat icon's file name: the stat name without its spaces. */
  function StatImageName(statName: string): (r: string)
    ensures r == BaseTable.RemoveChar(statName, ' ')
    ensures ' ' !in r
  {
    ConcatSplitRemoves(statName, ' ');
    Concat(Split(statName, ' '))
  }

  predicate EndsWith(s: string, suffix: string) {
    |suffix| <= |s| && s[|s| - |suffix|..] == suffix
  }

  /** `k` copies of `p`. */
  function Repeat(p: string, k: nat): string {
    if k == 0 then "" else Repeat(p, k - 1) + p
  }

  /** `str::trim_end_matches(pat)`: strip `pat` from the end for as long as it is there. */
  function TrimEndMatches(s: string, pat: string): (r: string)
    requires |pat| > 0
    ensures !EndsWith(r, pat)
    ensures |r| <= |s| && s[..|r|] == r
    decreases |s|
  {
    if EndsWith(s, pat) then TrimEndMatches(s[..|s| - |pat|], pat) else s
  }

  /** How many copies of the pattern `trim_end_matches` cuts off. */
  function TrimCount(s: string, pat: string): nat
    requires |pat| > 0
    decreases |s|
  {
    if EndsWith(s, pat) then TrimCount(s[..|s| - |pat|], pat) + 1 else 0
  }

  /** Proof step for `TrimmedTailIsCopies`: regrouping a concatenation of three strings. */
  lemma Associative(a: string, b: string, c: string)
    ensures (a + b) + c == a + (b + c)
  {
  }

  /** What `trim_end_matches` cut off is a run of whole copies of the pattern. */
  lemma {:induction false} TrimmedTailIsCopies(s: string, pat: string)
    requires |pat| > 0
    ensures s == TrimEndMatches(s, pat) + Repeat(pat, TrimCount(s, pat))
    decreases |s|
  {
    if EndsWith(s, pat) {
      var shorter := s[..|s| - |pat|];
      TrimmedTailIsCopies(shorter, pat);
      var trimmed, n := TrimEndMatches(shorter, pat), TrimCount(shorter, pat);
      assert TrimEndMatches(s, pat) == trimmed && TrimCount(s, pat) == n + 1;
      assert shorter == trimmed + Repeat(pat, n);
      assert s == shorter + pat by {
        assert s[|s| - |pat|..] == pat;
        assert s == s[..|s| - |pat|] + s[|s| - |pat|..];
      }
      Associative(trimmed, Repeat(pat, n), pat);
    } else {
      assert s == s + "";
    }
  }

  /** A value written without a trailing `.0` is shown as it is. */
  lemma TrimKeepsCleanValue(s: string)
    requires !EndsWith(s, ".0")
    ensures TrimEndMatches(s, ".0") == s
  {
  }

  /** One stat of the header: its name, icon and the text beside it. */
  datatype StatRow = StatRow(name: string, icon: string, text: string)

  function StatRowOf(backendUrl: string, stat: (string, string)): StatRow {
    StatRow(stat.0, backendUrl + "/cdn/stats/" + StatImageName(stat.0) + ".png",
            TrimEndMatches(stat.1, ".0") + " " + stat.0)
  }

  /** A two-word stat name (`Max Health`) names the icon of the two words run together (`MaxHealth`). */
  lemma StatImageJoinsWords(first: string, second: string)
    requires ' ' !in first && ' ' !in second
    ensures StatImageName(first + " " + second) == first + second
  {
    BaseTable.RemoveCharConcat(first + " ", second, ' ');
    BaseTable.RemoveCharConcat(first, " ", ' ');
    BaseTable.RemoveCharAbsent(first, ' ');
    BaseTable.RemoveCharAbsent(second, ' ');
    assert BaseTable.RemoveChar(" ", ' ') == "";
  }

  lemma TrimExamples()
    ensures TrimEndMatches("80.0", ".0") == "80"
    ensures TrimEndMatches("2.5", ".0") == "2.5"
  {
    assert "80.0"[..2] == "80";
    assert EndsWith("80.0", ".0");
    assert !EndsWith("80", ".0");
    assert !EndsWith("2.5", ".0");
  }

  /** What the header shows. */
  datatype Header = Header(itemIcon: string, name: string, goldIcon: string, goldCost: nat, stats: seq<StatRow>)

  /**
   * `comparison_header`: the stats are the item's prettified stats, each
   * once, in ascending order of name.
   */
  method MakeHeader(backendUrl: string, name: string, goldCost: nat, prettifiedStats: seq<(string, string)>,
                    itemId: string)
    returns (h: Header)
    ensures h.itemIcon == backendUrl + "/cdn/items/" + itemId + ".png"
    ensures h.name == name && h.goldCost == goldCost
    ensures h.goldIcon == backendUrl + "/cdn/stats/GoldPer10Seconds.png"
    ensures |h.stats| == |prettifiedStats|
    ensures forall i, j :: 0 <= i < j < |h.stats| ==> LexLe(h.stats[i].name, h.stats[j].name)
    ensures forall st :: st in prettifiedStats ==> StatRowOf(backendUrl, st) in h.stats
    ensures forall r :: r in h.stats ==> exists st :: st in prettifiedStats && r == StatRowOf(backendUrl, st)
  {
    var sorted := SortByKey(prettifiedStats);
    assert |sorted| == |prettifiedStats| by {
      assert |multiset(sorted)| == |multiset(prettifiedStats)|;
    }
    var rows := seq(|sorted|, i requires 0 <= i < |sorted| => StatRowOf(backendUrl, sorted[i]));
    forall st | st in prettifiedStats ensures StatRowOf(backendUrl, st) in rows {
      assert st in multiset(sorted);
      var i :| 0 <= i < |sorted| && sorted[i] == st;
      assert rows[i] == StatRowOf(backendUrl, st);
    }
    forall r | r in rows ensures exists st :: st in prettifiedStats && r == StatRowOf(backendUrl, st) {
      var i :| 0 <= i < |rows| && rows[i] == r;
      assert sorted[i] in multiset(prettifiedStats);
    }
    h := Header(backendUrl + "/cdn/items/" + itemId + ".png", name,
                backendUrl + "/cdn/stats/GoldPer10Seconds.png", goldCost, rows);
  }
}
