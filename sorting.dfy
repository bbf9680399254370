/**
 * sorted(items, key=published_at, reverse=True) as a stable insertion sort:
 * newest first, and items published at the same instant keep their order.
 */
module Sorting {
  import opened Models

  /** Non-increasing publication instants. */
  ghost predicate NewestFirst(s: seq<NormalizedItem>) {
    forall i, j :: 0 <= i < j < |s| ==> s[i].publishedAt >= s[j].publishedAt
  }

  /** The items of s published at instant t, in their order in s. */
  function PublishedAt(s: seq<NormalizedItem>, t: int): (r: seq<NormalizedItem>)
    ensures |r| <= |s|
  {
    if s == [] then []
    else (if s[0].publishedAt == t then [s[0]] else []) + PublishedAt(s[1..], t)
  }

  /** Place x in front of the first item that is not newer than it. */
  function Insert(x: NormalizedItem, s: seq<NormalizedItem>): (r: seq<NormalizedItem>)
    ensures multiset(r) == multiset(s) + multiset{x}
  {
    if s == [] || x.publishedAt >= s[0].publishedAt then [x] + s
    else
      assert s == [s[0]] + s[1..];
      [s[0]] + Insert(x, s[1..])
  }

  function SortNewestFirst(s: seq<NormalizedItem>): (r: seq<NormalizedItem>)
    ensures multiset(r) == multiset(s)
    ensures |r| == |s|
  {
    if s == [] then []
    else
      assert s == [s[0]] + s[1..];
      Insert(s[0], SortNewestFirst(s[1..]))
  }

  lemma {:induction false} PublishedAtAppend(a: seq<NormalizedItem>, b: seq<NormalizedItem>, t: int)
    ensures PublishedAt(a + b, t) == PublishedAt(a, t) + PublishedAt(b, t)
  {
    if a == [] {
      assert a + b == b;
    } else {
      var head := if a[0].publishedAt == t then [a[0]] else [];
      assert (a + b)[0] == a[0];
      assert (a + b)[1..] == a[1..] + b;
      assert PublishedAt(a + b, t) == head + PublishedAt(a[1..] + b, t);
      PublishedAtAppend(a[1..], b, t);
      assert PublishedAt(a, t) == head + PublishedAt(a[1..], t);
    }
  }

  /** Inserting keeps every instant at or below a bound that x and s respect. */
  lemma {:induction false} InsertBounded(x: NormalizedItem, s: seq<NormalizedItem>, bound: int)
    requires x.publishedAt <= bound
    requires forall k :: 0 <= k < |s| ==> s[k].publishedAt <= bound
    ensures forall k :: 0 <= k < |Insert(x, s)| ==> Insert(x, s)[k].publishedAt <= bound
  {
    if s != [] && x.publishedAt < s[0].publishedAt {
      InsertBounded(x, s[1..], bound);
      var rest := Insert(x, s[1..]);
      assert Insert(x, s) == [s[0]] + rest;
      forall k | 0 <= k < |Insert(x, s)|
        ensures Insert(x, s)[k].publishedAt <= bound
      {
        if k > 0 {
          assert Insert(x, s)[k] == rest[k - 1];
        }
      }
    }
  }

  lemma {:induction false} InsertNewestFirst(x: NormalizedItem, s: seq<NormalizedItem>)
    requires NewestFirst(s)
    ensures NewestFirst(Insert(x, s))
  {
    if s != [] && x.publishedAt < s[0].publishedAt {
      var rest := Insert(x, s[1..]);
      InsertNewestFirst(x, s[1..]);
      InsertBounded(x, s[1..], s[0].publishedAt);
      var r := [s[0]] + rest;
      forall i, j | 0 <= i < j < |r|
        ensures r[i].publishedAt >= r[j].publishedAt
      {
        if i == 0 {
          assert r[j] == rest[j - 1];
        } else {
          assert r[i] == rest[i - 1] && r[j] == rest[j - 1];
        }
      }
    }
  }

  /** The sort orders items newest first. */
  lemma {:induction false} SortIsNewestFirst(s: seq<NormalizedItem>)
    ensures NewestFirst(SortNewestFirst(s))
  {
    if s != [] {
      SortIsNewestFirst(s[1..]);
      InsertNewestFirst(s[0], SortNewestFirst(s[1..]));
    }
  }

  /** Inserting an earlier item keeps it ahead of the items published at the same instant. */
  lemma {:induction false} InsertStable(x: NormalizedItem, s: seq<NormalizedItem>, t: int)
    requires NewestFirst(s)
    ensures PublishedAt(Insert(x, s), t) == PublishedAt([x] + s, t)
  {
    if s != [] && x.publishedAt < s[0].publishedAt {
      var s' := s[1..];
      assert NewestFirst(s');
      InsertStable(x, s', t);
      PublishedAtAppend([s[0]], Insert(x, s'), t);
      PublishedAtAppend([x], s', t);
      PublishedAtAppend([x], s, t);
      assert s == [s[0]] + s';
      PublishedAtAppend([s[0]], s', t);
    }
  }

  /** The sort is stable: the items of any one instant appear in their input order. */
  lemma {:induction false} SortIsStable(s: seq<NormalizedItem>, t: int)
    ensures PublishedAt(SortNewestFirst(s), t) == PublishedAt(s, t)
  {
    if s != [] {
      var sorted := SortNewestFirst(s[1..]);
      SortIsStable(s[1..], t);
      SortIsNewestFirst(s[1..]);
      InsertStable(s[0], sorted, t);
      PublishedAtAppend([s[0]], sorted, t);
    }
  }

  /** Items of one instant within a prefix are a prefix of those of the whole sequence. */
  lemma PublishedAtPrefix(s: seq<NormalizedItem>, n: nat, t: int)
    requires n <= |s|
    ensures PublishedAt(s[..n], t) <= PublishedAt(s, t)
  {
    assert s == s[..n] + s[n..];
    PublishedAtAppend(s[..n], s[n..], t);
  }
}
