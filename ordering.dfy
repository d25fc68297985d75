/**
 * The orders the front-end sorts by (`String::cmp`, `usize::cmp`) and the
 * in-place `sort_by` it applies to a vector.
 */
module Ordering {

  /** `a <= b` in `String::cmp`: lexicographic by code point, a prefix first. */
  predicate LexLe(a: string, b: string) {
    if |a| == 0 then true
    else if |b| == 0 then false
    else if a[0] != b[0] then a[0] < b[0]
    else LexLe(a[1..], b[1..])
  }

  lemma {:induction false} LexLeTotal(a: string, b: string)
    ensures LexLe(a, b) || LexLe(b, a)
  {
    if |a| > 0 && |b| > 0 && a[0] == b[0] {
      LexLeTotal(a[1..], b[1..]);
    }
  }

  lemma {:induction false} LexLeTransitive(a: string, b: string, c: string)
    requires LexLe(a, b) && LexLe(b, c)
    ensures LexLe(a, c)
  {
    if |a| > 0 && |b| > 0 && |c| > 0 && a[0] == b[0] && b[0] == c[0] {
      LexLeTransitive(a[1..], b[1..], c[1..]);
    }
  }

  /** Two strings each at most the other are equal, so sorting by a string key orders distinct keys strictly. */
  lemma {:induction false} LexLeAntisymmetric(a: string, b: string)
    requires LexLe(a, b) && LexLe(b, a)
    ensures a == b
  {
    if |a| > 0 && |b| > 0 {
      LexLeAntisymmetric(a[1..], b[1..]);
      assert a == [a[0]] + a[1..] && b == [b[0]] + b[1..];
    }
  }

  /** `le` is total and transitive: what `sort_by` needs of its comparison to sort. */
  ghost predicate TotalPreorder<T(!new)>(le: (T, T) -> bool) {
    && (forall x, y :: le(x, y) || le(y, x))
    && (forall x, y, z :: le(x, y) && le(y, z) ==> le(x, z))
  }

  predicate SortedBy<T>(s: seq<T>, le: (T, T) -> bool) {
    forall i, j :: 0 <= i < j < |s| ==> le(s[i], s[j])
  }

  lemma LexLeIsTotalPreorder()
    ensures TotalPreorder(LexLe)
  {
    forall x, y ensures LexLe(x, y) || LexLe(y, x) {
      LexLeTotal(x, y);
    }
    forall x, y, z | LexLe(x, y) && LexLe(y, z) ensures LexLe(x, z) {
      LexLeTransitive(x, y, z);
    }
  }

  /** Comparing pairs by one component keeps the order total and transitive. */
  lemma ByFirstIsTotalPreorder<A(!new), B(!new)>(le: (A, A) -> bool)
    requires TotalPreorder(le)
    ensures TotalPreorder((x: (A, B), y: (A, B)) => le(x.0, y.0))
  {
    var cmp := (x: (A, B), y: (A, B)) => le(x.0, y.0);
    forall x: (A, B), y: (A, B) ensures cmp(x, y) || cmp(y, x) {
      assert le(x.0, y.0) || le(y.0, x.0);
    }
    forall x: (A, B), y: (A, B), z: (A, B) | cmp(x, y) && cmp(y, z) ensures cmp(x, z) {
      assert le(x.0, y.0) && le(y.0, z.0);
    }
  }

  lemma BySecondIsTotalPreorder<A(!new), B(!new)>(le: (B, B) -> bool)
    requires TotalPreorder(le)
    ensures TotalPreorder((x: (A, B), y: (A, B)) => le(x.1, y.1))
  {
    var cmp := (x: (A, B), y: (A, B)) => le(x.1, y.1);
    forall x: (A, B), y: (A, B) ensures cmp(x, y) || cmp(y, x) {
      assert le(x.1, y.1) || le(y.1, x.1);
    }
    forall x: (A, B), y: (A, B), z: (A, B) | cmp(x, y) && cmp(y, z) ensures cmp(x, z) {
      assert le(x.1, y.1) && le(y.1, z.1);
    }
  }

  /** One step of the insertion: swap the adjacent pair at `j - 1`, `j`. */
  method SwapAdjacent<T>(a: array<T>, j: nat)
    requires 0 < j < a.Length
    modifies a
    ensures a[..] == old(a[..])[j - 1 := old(a[j])][j := old(a[j - 1])]
    ensures multiset(a[..]) == multiset(old(a[..]))
  {
    a[j - 1], a[j] := a[j], a[j - 1];
  }

  /** `sort_by(le)`, in place: afterwards `a` is sorted and holds the same elements. */
  method SortBy<T(!new)>(a: array<T>, le: (T, T) -> bool)
    requires TotalPreorder(le)
    modifies a
    ensures SortedBy(a[..], le)
    ensures multiset(a[..]) == multiset(old(a[..]))
  {
    var i := 1;
    while i < a.Length
      invariant a.Length == 0 || 1 <= i <= a.Length
      invariant SortedBy(a[..if a.Length == 0 then 0 else i], le)
      invariant multiset(a[..]) == multiset(old(a[..]))
    {
      var j := i;
      while j > 0 && !le(a[j - 1], a[j])
        invariant 0 <= j <= i
        invariant forall k, l :: 0 <= k < l <= i && k != j && l != j ==> le(a[k], a[l])
        invariant forall l :: j < l <= i ==> le(a[j], a[l])
        invariant multiset(a[..]) == multiset(old(a[..]))
      {
        SwapAdjacent(a, j);
        j := j - 1;
      }
      i := i + 1;
    }
  }

  /**
   * Collect the entries of a map into a vector and `sort_by` the key with
   * `String::cmp`: the same entries, keys ascending.
   */
  method SortByKey<V(!new)>(entries: seq<(string, V)>) returns (sorted: seq<(string, V)>)
    ensures multiset(sorted) == multiset(entries)
    ensures forall i, j :: 0 <= i < j < |sorted| ==> LexLe(sorted[i].0, sorted[j].0)
  {
    var a := new (string, V)[|entries|](i requires 0 <= i < |entries| => entries[i]);
    assert a[..] == entries;
    LexLeIsTotalPreorder();
    ByFirstIsTotalPreorder<string, V>(LexLe);
    SortBy(a, (x: (string, V), y: (string, V)) => LexLe(x.0, y.0));
    sorted := a[..];
  }
}
