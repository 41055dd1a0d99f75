/** The stable sort that `sort` with a comparison is, as an insertion sort. */
module Sorting {
  function Insert<T>(atMost: (T, T) -> bool, x: T, s: seq<T>): seq<T> {
    if s == [] || atMost(x, s[0]) then [x] + s else [s[0]] + Insert(atMost, x, s[1..])
  }

  function Sort<T>(atMost: (T, T) -> bool, s: seq<T>): seq<T> {
    if s == [] then [] else Insert(atMost, s[0], Sort(atMost, s[1..]))
  }

  predicate Ascends<T>(atMost: (T, T) -> bool, s: seq<T>) {
    forall i, j | 0 <= i < j < |s| :: atMost(s[i], s[j])
  }

  predicate Distinct<T(==)>(s: seq<T>) { forall i, j | 0 <= i < j < |s| :: s[i] != s[j] }

  ghost predicate IsOrder<T(!new)>(atMost: (T, T) -> bool) {
    && (forall x, y :: atMost(x, y) || atMost(y, x))
    && (forall x, y, z :: atMost(x, y) && atMost(y, z) ==> atMost(x, z))
  }

  lemma HeadIsLeast<T>(atMost: (T, T) -> bool, s: seq<T>)
    requires Ascends(atMost, s) && s != []
    ensures Ascends(atMost, s[1..]) && forall y | y in s[1..] :: atMost(s[0], y)
  {
    forall y | y in s[1..]
      ensures atMost(s[0], y)
    {
      var i :| 0 <= i < |s| - 1 && s[1..][i] == y;
      assert s[i + 1] == y;
    }
  }

  lemma ConsAscends<T>(atMost: (T, T) -> bool, x: T, s: seq<T>)
    requires Ascends(atMost, s) && forall y | y in s :: atMost(x, y)
    ensures Ascends(atMost, [x] + s)
  {
    var r := [x] + s;
    forall i, j | 0 <= i < j < |r|
      ensures atMost(r[i], r[j])
    {
      assert r[j] == s[j - 1] && s[j - 1] in s;
      assert i > 0 ==> r[i] == s[i - 1];
    }
  }

  lemma {:induction false} InsertSorts<T(!new)>(atMost: (T, T) -> bool, x: T, s: seq<T>)
    requires IsOrder(atMost) && Ascends(atMost, s)
    ensures Ascends(atMost, Insert(atMost, x, s))
    ensures multiset(Insert(atMost, x, s)) == multiset{x} + multiset(s)
  {
    hide Ascends;
    if s == [] {
      ConsAscends(atMost, x, s) by {
        NothingAscends(atMost, s);
      }
    } else {
      HeadIsLeast(atMost, s);
      assert s == [s[0]] + s[1..];
      if atMost(x, s[0]) {
        ConsAscends(atMost, x, s);
      } else {
        InsertSorts(atMost, x, s[1..]);
        var rest := Insert(atMost, x, s[1..]);
        forall y | y in rest
          ensures atMost(s[0], y)
        {
          assert y in multiset(rest);
          assert y == x || y in s[1..];
        }
        ConsAscends(atMost, s[0], rest);
      }
    }
  }

  lemma NothingAscends<T>(atMost: (T, T) -> bool, s: seq<T>)
    requires s == []
    ensures Ascends(atMost, s)
  {
  }

  /** Sorting keeps every element as often as it was there, and puts them in order. */
  lemma {:induction false} SortSorts<T(!new)>(atMost: (T, T) -> bool, s: seq<T>)
    requires IsOrder(atMost)
    ensures Ascends(atMost, Sort(atMost, s)) && multiset(Sort(atMost, s)) == multiset(s)
  {
    hide Insert, Ascends, IsOrder;
    if s == [] {
      NothingAscends(atMost, s);
    } else {
      SortSorts(atMost, s[1..]);
      InsertSorts(atMost, s[0], Sort(atMost, s[1..]));
      assert s == [s[0]] + s[1..];
    }
  }

  lemma {:induction false} DistinctIff<T>(s: seq<T>)
    ensures Distinct(s) <==> forall x :: multiset(s)[x] <= 1
  {
    if s != [] {
      var rest := s[1..];
      DistinctIff(rest);
      assert s == [s[0]] + rest;
      assert multiset(s)[s[0]] == 1 + multiset(rest)[s[0]];
      if Distinct(s) {
        assert s[0] !in rest;
      }
      if forall x :: multiset(s)[x] <= 1 {
        assert forall x :: multiset(rest)[x] <= multiset(s)[x];
        assert s[0] !in multiset(rest);
      }
    }
  }

  /** Distinct elements stay distinct, and are the same ones. */
  lemma SortKeeps<T(!new)>(atMost: (T, T) -> bool, s: seq<T>)
    requires IsOrder(atMost)
    ensures Ascends(atMost, Sort(atMost, s)) && (Distinct(s) ==> Distinct(Sort(atMost, s)))
    ensures forall x :: x in Sort(atMost, s) <==> x in s
  {
    hide Ascends, Distinct, IsOrder, Sort;
    SortSorts(atMost, s);
    DistinctIff(s);
    DistinctIff(Sort(atMost, s));
    assert forall x :: x in Sort(atMost, s) <==> x in multiset(Sort(atMost, s));
  }
}
