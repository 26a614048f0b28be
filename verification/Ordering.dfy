/**
 Orders used by the Python code: string comparison by code point, and the stable
 library sort. Whatever follows about determinism rests on two facts: a sort returns a
 sorted rearrangement, and a rearrangement that is sorted by an order which separates
 its elements is unique.
 */
module Ordering {

  function Max(a: nat, b: nat): nat {
    if a < b then b else a
  }

  /** Code-point order on strings, as Python compares `str` values. */
  predicate StringLe(a: string, b: string) {
    a == [] || (b != [] && (a[0] < b[0] || (a[0] == b[0] && StringLe(a[1..], b[1..]))))
  }

  lemma {:induction false} StringLeTotal(a: string, b: string)
    ensures StringLe(a, b) || StringLe(b, a)
    ensures StringLe(a, b) && StringLe(b, a) ==> a == b
  {
    if a != [] && b != [] {
      StringLeTotal(a[1..], b[1..]);
      assert a == [a[0]] + a[1..] && b == [b[0]] + b[1..];
    }
  }

  lemma {:induction false} StringLeTransitive(a: string, b: string, c: string)
    requires StringLe(a, b) && StringLe(b, c)
    ensures StringLe(a, c)
  {
    if a != [] && a[0] == b[0] == c[0] {
      StringLeTransitive(a[1..], b[1..], c[1..]);
    }
  }

  /** A key comparison that is total and transitive; distinct values may share a key. */
  ghost predicate KeyOrder<T(!new)>(le: (T, T) -> bool) {
    && (forall x, y :: le(x, y) || le(y, x))
    && (forall x, y, z :: le(x, y) && le(y, z) ==> le(x, z))
  }

  /** No two different elements of `s` share a key. */
  ghost predicate Separates<T(!new)>(le: (T, T) -> bool, s: seq<T>) {
    forall x, y :: x in s && y in s && le(x, y) && le(y, x) ==> x == y
  }

  ghost predicate SortedBy<T>(le: (T, T) -> bool, s: seq<T>) {
    forall i, j :: 0 <= i < j < |s| ==> le(s[i], s[j])
  }

  /** Put `x` after every element whose key is not above its own. */
  function InsertSorted<T>(le: (T, T) -> bool, s: seq<T>, x: T): (r: seq<T>)
    ensures multiset(r) == multiset(s) + multiset{x}
    ensures |r| == |s| + 1
  {
    if s == [] then [x]
    else
      var last := |s| - 1;
      assert s == s[..last] + [s[last]];
      if le(s[last], x) then s + [x] else InsertSorted(le, s[..last], x) + [s[last]]
  }

  /** Python's `sorted(s, key=...)`, with the key comparison as `le`. */
  function SortBy<T>(le: (T, T) -> bool, s: seq<T>): (r: seq<T>)
    ensures multiset(r) == multiset(s)
    ensures |r| == |s|
  {
    if s == [] then []
    else
      assert s == s[..|s| - 1] + [s[|s| - 1]];
      InsertSorted(le, SortBy(le, s[..|s| - 1]), s[|s| - 1])
  }

  lemma SameElements<T>(a: seq<T>, b: seq<T>)
    requires multiset(a) == multiset(b)
    ensures forall x :: x in a <==> x in b
    ensures |a| == |b|
  {
    forall x ensures x in a <==> x in b {
      assert x in a <==> x in multiset(a);
      assert x in b <==> x in multiset(b);
    }
    assert |a| == |multiset(a)| == |multiset(b)| == |b|;
  }

  lemma InsertSortedMembers<T>(le: (T, T) -> bool, s: seq<T>, x: T)
    ensures forall y :: y in InsertSorted(le, s, x) <==> y in s || y == x
  {
    SameElements(InsertSorted(le, s, x), s + [x]);
  }

  lemma SortByMembers<T>(le: (T, T) -> bool, s: seq<T>)
    ensures forall x :: x in SortBy(le, s) <==> x in s
  {
    SameElements(SortBy(le, s), s);
  }

  lemma {:induction false} InsertSortedSorts<T(!new)>(le: (T, T) -> bool, s: seq<T>, x: T)
    requires KeyOrder(le) && SortedBy(le, s)
    ensures SortedBy(le, InsertSorted(le, s, x))
  {
    if s != [] && !le(s[|s| - 1], x) {
      var last := |s| - 1;
      var front := InsertSorted(le, s[..last], x);
      InsertSortedSorts(le, s[..last], x);
      InsertSortedMembers(le, s[..last], x);
      forall i | 0 <= i < |front| ensures le(front[i], s[last]) {
        assert front[i] in front;
      }
    }
  }

  lemma {:induction false} SortBySorts<T(!new)>(le: (T, T) -> bool, s: seq<T>)
    requires KeyOrder(le)
    ensures SortedBy(le, SortBy(le, s))
  {
    if s != [] {
      SortBySorts(le, s[..|s| - 1]);
      InsertSortedSorts(le, SortBy(le, s[..|s| - 1]), s[|s| - 1]);
    }
  }

  lemma SortedHeadsAgree<T(!new)>(le: (T, T) -> bool, a: seq<T>, b: seq<T>)
    requires SortedBy(le, a) && SortedBy(le, b)
    requires multiset(a) == multiset(b) && Separates(le, a) && a != []
    ensures b != [] && a[0] == b[0]
  {
    SameElements(a, b);
    assert a[0] in a && b[0] in b;
    var i :| 0 <= i < |b| && b[i] == a[0];
    var j :| 0 <= j < |a| && a[j] == b[0];
    assert i == 0 || le(b[0], b[i]);
    assert j == 0 || le(a[0], a[j]);
  }

  lemma TailKeepsOrder<T(!new)>(le: (T, T) -> bool, s: seq<T>)
    requires s != []
    ensures SortedBy(le, s) ==> SortedBy(le, s[1..])
    ensures Separates(le, s) ==> Separates(le, s[1..])
  {
    assert forall y :: y in s[1..] ==> y in s;
  }

  lemma TailsAgree<T>(a: seq<T>, b: seq<T>)
    requires a != [] && b != [] && a[0] == b[0] && multiset(a) == multiset(b)
    ensures multiset(a[1..]) == multiset(b[1..])
  {
    assert a == [a[0]] + a[1..] && b == [b[0]] + b[1..];
    assert multiset(a[1..]) == multiset(a) - multiset{a[0]};
    assert multiset(b[1..]) == multiset(b) - multiset{b[0]};
  }

  /** Two sorted rearrangements of the same elements are the same sequence. */
  lemma {:induction false} SortedIsUnique<T(!new)>(le: (T, T) -> bool, a: seq<T>, b: seq<T>)
    requires SortedBy(le, a) && SortedBy(le, b)
    requires multiset(a) == multiset(b) && Separates(le, a)
    ensures a == b
  {
    if a == [] {
      SameElements(a, b);
    } else {
      SortedHeadsAgree(le, a, b);
      TailsAgree(a, b);
      TailKeepsOrder(le, a);
      TailKeepsOrder(le, b);
      SortedIsUnique(le, a[1..], b[1..]);
      assert a == [a[0]] + a[1..] && b == [b[0]] + b[1..];
    }
  }

  /** Sorting forgets the arrival order when the key separates the elements. */
  lemma SortIgnoresOrder<T(!new)>(le: (T, T) -> bool, a: seq<T>, b: seq<T>)
    requires KeyOrder(le) && multiset(a) == multiset(b) && Separates(le, a)
    ensures SortBy(le, a) == SortBy(le, b)
  {
    SortBySorts(le, a);
    SortBySorts(le, b);
    SortByMembers(le, a);
    SortedIsUnique(le, SortBy(le, a), SortBy(le, b));
  }
}
