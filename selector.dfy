/**
 * The dropdown selector: its options sorted by key (single choice) or by
 * label (multiple choice), the open/closed flag, and what each click emits
 * to the parent.
 */
module Selector {
  import opened Wrappers
  import opened Ordering

  datatype SelectionMode = Single | Multiple

  /** What a click hands to the parent's callback. */
  datatype Emission<T> = Picked(key: T) | PickedAll(keys: seq<T>)

  /** The options, in the order the dropdown lists them: by key for a single choice, by label for a multiple one. */
  method SortOptions<T(!new)>(entries: seq<(T, string)>, mode: SelectionMode, keyLe: (T, T) -> bool)
    returns (options: seq<(T, string)>)
    requires TotalPreorder(keyLe)
    ensures multiset(options) == multiset(entries)
    ensures mode.Single? ==> forall i, j :: 0 <= i < j < |options| ==> keyLe(options[i].0, options[j].0)
    ensures mode.Multiple? ==> forall i, j :: 0 <= i < j < |options| ==> LexLe(options[i].1, options[j].1)
  {
    var a := new (T, string)[|entries|](i requires 0 <= i < |entries| => entries[i]);
    assert a[..] == entries;
    if mode.Single? {
      var byKey := (x: (T, string), y: (T, string)) => keyLe(x.0, y.0);
      ByFirstIsTotalPreorder<T, string>(keyLe);
      SortBy(a, byKey);
    } else {
      var byLabel := (x: (T, string), y: (T, string)) => LexLe(x.1, y.1);
      LexLeIsTotalPreorder();
      BySecondIsTotalPreorder<T, string>(LexLe);
      SortBy(a, byLabel);
    }
    options := a[..];
  }

  predicate NoDuplicates<T(==)>(s: seq<T>) {
    forall i, j :: 0 <= i < j < |s| ==> s[i] != s[j]
  }

  /** A multiple-choice click on `key`: the selection grows by `key` if absent, and only then is the new list emitted. */
  function MultipleClick<T(==)>(selected: seq<T>, key: T): (seq<T>, Option<seq<T>>) {
    if key !in selected then (selected + [key], Some(selected + [key])) else (selected, None)
  }

  /**
   * The selection never shrinks (the old one is a prefix of the new one),
   * stays free of duplicates, always contains the clicked key afterwards, and
   * a list is emitted exactly when the click added a key, namely the new
   * selection.
   */
  lemma MultipleClickProperties<T>(selected: seq<T>, key: T)
    requires NoDuplicates(selected)
    ensures var (after, emitted) := MultipleClick(selected, key);
      && selected <= after
      && |after| <= |selected| + 1
      && NoDuplicates(after)
      && key in after
      && (emitted.Some? <==> key !in selected)
      && (emitted.Some? ==> emitted.value == after)
  {
  }

  /** Clicks in any order select each key at most once: the selection is the clicked keys without repeats. */
  function ClickAll<T(==)>(selected: seq<T>, keys: seq<T>): seq<T>
    decreases |keys|
  {
    if |keys| == 0 then selected else ClickAll(MultipleClick(selected, keys[0]).0, keys[1..])
  }

  lemma {:induction false} ClickAllKeepsAndCovers<T>(selected: seq<T>, keys: seq<T>)
    requires NoDuplicates(selected)
    decreases |keys|
    ensures NoDuplicates(ClickAll(selected, keys))
    ensures selected <= ClickAll(selected, keys)
    ensures forall k :: k in ClickAll(selected, keys) <==> k in selected || k in keys
  {
    if |keys| > 0 {
      MultipleClickProperties(selected, keys[0]);
      var next := MultipleClick(selected, keys[0]).0;
      ClickAllKeepsAndCovers(next, keys[1..]);
      assert keys == [keys[0]] + keys[1..];
    }
  }

  /** A selector's state: open or not, the multiple-choice selection, and the emissions so far. */
  class SelectorState<T(==)> {
    const mode: SelectionMode
    var isOpen: bool
    var selected: seq<T>
    var emitted: seq<Emission<T>>

    ghost predicate Valid()
      reads this
    {
      NoDuplicates(selected)
    }

    constructor (mode: SelectionMode)
      ensures Valid()
      ensures this.mode == mode && !isOpen && selected == [] && emitted == []
    {
      this.mode := mode;
      isOpen := false;
      selected := [];
      emitted := [];
    }

    /** The title button inverts the open flag. */
    method ToggleOpen()
      modifies this`isOpen
      ensures isOpen == !old(isOpen)
    {
      isOpen := !isOpen;
    }

    /** A mouse-down outside the dropdown closes it. */
    method ClickOutside()
      modifies this`isOpen
      ensures !isOpen
    {
      isOpen := false;
    }

    /** A single-choice click emits exactly the clicked key. */
    method ClickSingle(key: T)
      requires mode.Single?
      modifies this`emitted
      ensures emitted == old(emitted) + [Picked(key)]
    {
      emitted := emitted + [Picked(key)];
    }

    method ClickMultiple(key: T)
      requires Valid() && mode.Multiple?
      modifies this`selected, this`emitted
      ensures Valid()
      ensures selected == MultipleClick(old(selected), key).0
      ensures emitted == old(emitted) +
        (if MultipleClick(old(selected), key).1.Some? then [PickedAll(MultipleClick(old(selected), key).1.value)] else [])
    {
      MultipleClickProperties(selected, key);
      var current := selected;
      if key !in current {
        current := current + [key];
        selected := current;
        emitted := emitted + [PickedAll(current)];
      }
    }
  }
}
