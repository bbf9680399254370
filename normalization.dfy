/**
 * The shape both fetch loops share: walk the entries in feed order, drop an
 * entry whose date does not parse, turn every other one into an item.
 */
module Normalization {
  import opened Wrappers
  import opened Models
  import opened Entries

  /** The items a fetch loop appends, for a date reader and an entry-to-item mapping. */
  function KeepDated(entries: seq<Entry>, dateOf: Entry -> Option<int>, itemOf: (Entry, int) -> NormalizedItem): (r: seq<NormalizedItem>)
    ensures |r| <= |entries|
  {
    if entries == [] then []
    else
      var init := KeepDated(entries[..|entries| - 1], dateOf, itemOf);
      var last := entries[|entries| - 1];
      match dateOf(last)
      case None => init
      case Some(t) => init + [itemOf(last, t)]
  }

  /** Entries are processed independently and in feed order. */
  lemma {:induction false} KeepDatedAppend(a: seq<Entry>, b: seq<Entry>, dateOf: Entry -> Option<int>, itemOf: (Entry, int) -> NormalizedItem)
    ensures KeepDated(a + b, dateOf, itemOf) == KeepDated(a, dateOf, itemOf) + KeepDated(b, dateOf, itemOf)
  {
    if b == [] {
      assert a + b == a;
    } else {
      var b' := b[..|b| - 1];
      assert (a + b)[..|a + b| - 1] == a + b';
      assert (a + b)[|a + b| - 1] == b[|b| - 1];
      KeepDatedAppend(a, b', dateOf, itemOf);
    }
  }

  /** Nothing is dropped exactly when every entry has a date. */
  lemma {:induction false} KeepDatedKeepsAll(entries: seq<Entry>, dateOf: Entry -> Option<int>, itemOf: (Entry, int) -> NormalizedItem)
    ensures |KeepDated(entries, dateOf, itemOf)| == |entries| <==> forall e :: e in entries ==> dateOf(e).Some?
  {
    if entries != [] {
      var init := entries[..|entries| - 1];
      var last := entries[|entries| - 1];
      KeepDatedKeepsAll(init, dateOf, itemOf);
      assert entries == init + [last];
      assert forall e :: e in entries <==> e in init || e == last;
    }
  }

  /** Every item comes from a dated entry and carries that entry's date. */
  lemma {:induction false} KeepDatedSound(entries: seq<Entry>, dateOf: Entry -> Option<int>, itemOf: (Entry, int) -> NormalizedItem)
    ensures forall x :: x in KeepDated(entries, dateOf, itemOf) ==>
      exists e :: e in entries && dateOf(e).Some? && x == itemOf(e, dateOf(e).value)
  {
    if entries != [] {
      var init := entries[..|entries| - 1];
      var last := entries[|entries| - 1];
      KeepDatedSound(init, dateOf, itemOf);
      assert entries == init + [last];
      forall x | x in KeepDated(entries, dateOf, itemOf)
        ensures exists e :: e in entries && dateOf(e).Some? && x == itemOf(e, dateOf(e).value)
      {
        if x in KeepDated(init, dateOf, itemOf) {
          var e :| e in init && dateOf(e).Some? && x == itemOf(e, dateOf(e).value);
          assert e in entries;
        } else {
          assert last in entries;
        }
      }
    }
  }

  /** Every dated entry yields its item. */
  lemma {:induction false} KeepDatedComplete(entries: seq<Entry>, dateOf: Entry -> Option<int>, itemOf: (Entry, int) -> NormalizedItem)
    ensures forall e :: e in entries && dateOf(e).Some? ==> itemOf(e, dateOf(e).value) in KeepDated(entries, dateOf, itemOf)
  {
    if entries != [] {
      var init := entries[..|entries| - 1];
      var last := entries[|entries| - 1];
      KeepDatedComplete(init, dateOf, itemOf);
      assert entries == init + [last];
      forall e | e in entries && dateOf(e).Some?
        ensures itemOf(e, dateOf(e).value) in KeepDated(entries, dateOf, itemOf)
      {
        if e != last {
          assert e in init;
        }
      }
    }
  }
}
