/** A stable sort by a comparison, standing for the `sorted(..., key=...)` and
    `list.sort(key=...)` calls that the modelled programs make. */
module Sorting {

  ghost predicate TotalPreorder<T(!new)>(le: (T, T) -> bool) {
    && (forall a, b :: le(a, b) || le(b, a))
    && (forall a, b, c :: le(a, b) && le(b, c) ==> le(a, c))
  }

  ghost predicate Sorted<T>(s: seq<T>, le: (T, T) -> bool) {
    forall i, j :: 0 <= i < j < |s| ==> le(s[i], s[j])
  }

  /** Puts `x` in front of the first element that is not below it. */
  function Insert<T>(x: T, s: seq<T>, le: (T, T) -> bool): seq<T> {
    if s == [] || le(x, s[0]) then [x] + s else [s[0]] + Insert(x, s[1..], le)
  }

  function StableSort<T>(s: seq<T>, le: (T, T) -> bool): seq<T> {
    if s == [] then [] else Insert(s[0], StableSort(s[1..], le), le)
  }

  lemma {:induction false} InsertHolds<T(!new)>(x: T, s: seq<T>, le: (T, T) -> bool)
    ensures multiset(Insert(x, s, le)) == multiset(s) + multiset{x}
    ensures forall y :: y in Insert(x, s, le) ==> y == x || y in s
  {
    if s == [] || le(x, s[0]) {
    } else {
      InsertHolds(x, s[1..], le);
      assert s == [s[0]] + s[1..];
    }
  }

  lemma SortedCons<T(!new)>(x: T, s: seq<T>, le: (T, T) -> bool)
    requires Sorted(s, le) && forall y :: y in s ==> le(x, y)
    ensures Sorted([x] + s, le)
  {
  }

  lemma {:induction false} InsertSorts<T(!new)>(x: T, s: seq<T>, le: (T, T) -> bool)
    requires TotalPreorder(le) && Sorted(s, le)
    ensures Sorted(Insert(x, s, le), le)
  {
    if s == [] {
    } else if le(x, s[0]) {
      forall y | y in s ensures le(x, y) {
        assert s[0] == y || le(s[0], y);
      }
      SortedCons(x, s, le);
    } else {
      InsertSorts(x, s[1..], le);
      InsertHolds(x, s[1..], le);
      SortedCons(s[0], Insert(x, s[1..], le), le);
    }
  }

  lemma {:induction false} StableSortSorts<T(!new)>(s: seq<T>, le: (T, T) -> bool)
    requires TotalPreorder(le)
    ensures Sorted(StableSort(s, le), le)
    ensures multiset(StableSort(s, le)) == multiset(s)
    ensures |StableSort(s, le)| == |s|
    ensures forall x :: x in StableSort(s, le) <==> x in s
  {
    if s == [] {
    } else {
      StableSortSorts(s[1..], le);
      InsertSorts(s[0], StableSort(s[1..], le), le);
      InsertHolds(s[0], StableSort(s[1..], le), le);
      assert s == [s[0]] + s[1..];
    }
    SameMultiset(StableSort(s, le), s);
  }

  lemma SameMultiset<T(!new)>(a: seq<T>, b: seq<T>)
    requires multiset(a) == multiset(b)
    ensures |a| == |b| && forall x :: x in a <==> x in b
  {
    assert |multiset(a)| == |a| && |multiset(b)| == |b|;
    forall x ensures x in a <==> x in b {
      assert x in a <==> x in multiset(a);
    }
  }

  /** Sorting something already in order changes nothing. */
  lemma {:induction false} SortedIsFixed<T>(s: seq<T>, le: (T, T) -> bool)
    requires Sorted(s, le)
    ensures StableSort(s, le) == s
  {
    if s == [] {
    } else {
      SortedIsFixed(s[1..], le);
      assert s == [s[0]] + s[1..];
    }
  }

  /** Appending elements that are all at least as large sorts the two parts separately. */
  lemma {:induction false} SortAppend<T(!new)>(a: seq<T>, b: seq<T>, le: (T, T) -> bool)
    requires TotalPreorder(le)
    requires forall x, y :: x in a && y in b ==> le(x, y)
    ensures StableSort(a + b, le) == StableSort(a, le) + StableSort(b, le)
  {
    if a == [] {
      assert a + b == b;
    } else {
      assert (a + b)[1..] == a[1..] + b;
      SortAppend(a[1..], b, le);
      StableSortSorts(b, le);
      InsertAppend(a[0], StableSort(a[1..], le), StableSort(b, le), le);
    }
  }

  lemma {:induction false} InsertAppend<T>(x: T, a: seq<T>, b: seq<T>, le: (T, T) -> bool)
    requires forall y :: y in b ==> le(x, y)
    ensures Insert(x, a + b, le) == Insert(x, a, le) + b
  {
    if a == [] {
      assert a + b == b;
    } else if le(x, a[0]) {
      assert [x] + (a + b) == ([x] + a) + b;
    } else {
      assert (a + b)[1..] == a[1..] + b;
      InsertAppend(x, a[1..], b, le);
    }
  }
}
