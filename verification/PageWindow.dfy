/** The page numbers a pager offers, long runs elided. */
module PageWindow {
  import opened Sorting

  const PAGE_SPAN := 2

  /** A gap stands for the pages between its neighbours. */
  datatype Entry = Page(number: int) | Gap

  /** A set in order of insertion, as the program keeps it. */
  function Add(want: seq<int>, p: int): seq<int> { if p in want then want else want + [p] }

  predicate IsAtMost(p: int, q: int) { p <= q }

  function Sorted(ps: seq<int>): seq<int> { Sort(IsAtMost, ps) }

  /** What stands between two pages that are offered. */
  function Between(prev: int, p: int): seq<Entry> {
    if p - prev <= 1 then [] else if p - prev == 2 then [Page(p - 1)] else [Gap]
  }

  function After(prev: int, ps: seq<int>): seq<Entry>
    decreases |ps|
  {
    if ps == [] then [] else Between(prev, ps[0]) + [Page(ps[0])] + After(ps[0], ps[1..])
  }

  /** The pages wanted, before sorting: those near `current` from `p` on. */
  function Near(want: seq<int>, p: int, current: int, last: int): seq<int>
    decreases current + PAGE_SPAN - p
  {
    if p > current + PAGE_SPAN then want
    else Near(if 1 <= p <= last then Add(want, p) else want, p + 1, current, last)
  }

  function Wanted(current: int, last: int): seq<int> {
    Near(Add([1], last), current - PAGE_SPAN, current, last)
  }

  function Window(current: int, last: int): seq<Entry> {
    var ps := Sorted(Wanted(current, last));
    if ps == [] then [] else [Page(ps[0])] + After(ps[0], ps[1..])
  }

  method PageWindow(current: int, last: int) returns (out: seq<Entry>)
    ensures out == Window(current, last)
  {
    hide Sorted;
    var want := Add([1], last);
    var p := current - PAGE_SPAN;
    while p <= current + PAGE_SPAN
      invariant current - PAGE_SPAN <= p
      invariant Near(want, p, current, last) == Wanted(current, last)
    {
      if p >= 1 && p <= last {
        want := Add(want, p);
      }
      p := p + 1;
    }
    out := Elide(Sorted(want));
  }

  method Elide(ps: seq<int>) returns (out: seq<Entry>)
    ensures out == if ps == [] then [] else [Page(ps[0])] + After(ps[0], ps[1..])
  {
    out := [];
    for k := 0 to |ps|
      invariant k == 0 <==> out == []
      invariant k > 0 ==> out[|out| - 1] == Page(ps[k - 1])
      invariant k > 0 ==> out + After(ps[k - 1], ps[k..]) == [Page(ps[0])] + After(ps[0], ps[1..])
    {
      var p := ps[k];
      ghost var before := out;
      if out != [] {
        var prev := out[|out| - 1];
        if prev.Page? && p - prev.number > 1 {
          out := out + if p - prev.number == 2 then [Page(p - 1)] else [Gap];
        }
        assert ps[k..][1..] == ps[k + 1..];
        assert out == before + Between(ps[k - 1], p);
        Assoc(before, Between(ps[k - 1], p), [Page(p)], After(p, ps[k + 1..]));
      }
      out := out + [Page(p)];
    }
    assert out + [] == out;
  }

  lemma Assoc(a: seq<Entry>, b: seq<Entry>, c: seq<Entry>, d: seq<Entry>)
    ensures a + b + c + d == a + (b + c + d)
  {
  }

  // ---- What is wanted ----

  predicate Ascending(ps: seq<int>) { forall i, j | 0 <= i < j < |ps| :: ps[i] < ps[j] }

  predicate IsWanted(current: int, last: int, p: int) {
    p == 1 || p == last || (current - 2 <= p <= current + 2 && 1 <= p <= last)
  }

  lemma AddIs(want: seq<int>, p: int, q: int)
    requires Distinct(want)
    ensures Distinct(Add(want, p)) && (q in Add(want, p) <==> q == p || q in want)
  {
  }

  lemma {:induction false} NearIs(want: seq<int>, p: int, current: int, last: int, q: int)
    requires Distinct(want)
    ensures var r := Near(want, p, current, last);
            Distinct(r) && (q in r <==> q in want || (p <= q <= current + PAGE_SPAN && 1 <= q <= last))
    decreases current + PAGE_SPAN - p
  {
    hide Add, Distinct;
    AddIs(want, p, q);
    if p <= current + PAGE_SPAN {
      NearIs(if 1 <= p <= last then Add(want, p) else want, p + 1, current, last, q);
    }
  }

  lemma HeadIsFirst(ps: seq<int>)
    requires Ascending(ps) && ps != []
    ensures ps == [ps[0]] + ps[1..] && Ascending(ps[1..]) && forall x | x in ps[1..] :: ps[0] < x
  {
  }

  lemma SortedIs(ps: seq<int>, q: int)
    requires Distinct(ps)
    ensures Ascending(Sorted(ps)) && (q in Sorted(ps) <==> q in ps)
  {
    hide Sort;
    SortKeeps(IsAtMost, ps);
  }

  function Range(a: int, b: int): seq<int>
    decreases b - a
  {
    if a > b then [] else [a] + Range(a + 1, b)
  }

  lemma {:induction false} RangeIs(a: int, b: int)
    ensures |Range(a, b)| == (if a > b then 0 else b - a + 1)
    ensures forall k | 0 <= k < |Range(a, b)| :: Range(a, b)[k] == a + k
    decreases b - a
  {
    if a <= b {
      RangeIs(a + 1, b);
    }
  }

  /** The pages wanted, in order: the ends, and those around the current one. */
  function Pages(current: int, last: int): seq<int> {
    var lo, hi := if current > 3 then current - 2 else 1, if current + 2 < last then current + 2 else last;
    (if lo > 1 then [1] else []) + Range(lo, hi) + (if hi < last then [last] else [])
  }

  lemma PagesAre(current: int, last: int, q: int)
    requires 1 <= current <= last
    ensures Ascending(Pages(current, last)) && |Pages(current, last)| <= 7
    ensures q in Pages(current, last) <==> IsWanted(current, last, q)
  {
    hide Range;
    var lo, hi := if current > 3 then current - 2 else 1, if current + 2 < last then current + 2 else last;
    RangeIs(lo, hi);
    var range := Range(lo, hi);
    assert lo <= q <= hi ==> range[q - lo] == q;
  }

  lemma {:induction false} SameAscending(a: seq<int>, b: seq<int>)
    requires Ascending(a) && Ascending(b) && forall q :: q in a <==> q in b
    ensures a == b
  {
    FirstIsIn(a);
    FirstIsIn(b);
    if a != [] {
      assert a == [a[0]] + a[1..] && b == [b[0]] + b[1..];
      forall q
        ensures q in a[1..] <==> q in b[1..]
      {
        assert q in a[1..] <==> q in a && q != a[0] by {
          HeadOnce(a, q);
        }
        assert q in b[1..] <==> q in b && q != b[0] by {
          HeadOnce(b, q);
        }
      }
      SameAscending(a[1..], b[1..]);
    }
  }

  lemma FirstIsIn(a: seq<int>)
    ensures a != [] ==> a[0] in a
  {
  }

  lemma HeadOnce(a: seq<int>, q: int)
    requires Ascending(a) && a != []
    ensures q in a[1..] <==> q in a && q != a[0]
  {
    assert a == [a[0]] + a[1..];
  }

  lemma SortedIsPages(current: int, last: int)
    requires 1 <= current <= last
    ensures Sorted(Wanted(current, last)) == Pages(current, last)
  {
    hide Near, Pages, Sorted;
    var start := Add([1], last);
    var want := Wanted(current, last);
    forall q
      ensures q in Sorted(want) <==> q in Pages(current, last)
    {
      NearIs(start, current - PAGE_SPAN, current, last, q);
      SortedIs(want, q);
      PagesAre(current, last, q);
    }
    NearIs(start, current - PAGE_SPAN, current, last, 1);
    SortedIs(want, 1);
    PagesAre(current, last, 1);
    SameAscending(Sorted(want), Pages(current, last));
  }

  // ---- What is offered ----

  /** The pages a list of entries stands for, from after `prev` on. */
  function Expanded(es: seq<Entry>, prev: int): seq<int> {
    if es == [] then []
    else match es[0]
      case Page(n) => [n] + Expanded(es[1..], n)
      case Gap =>
        if |es| > 1 && es[1].Page? then Range(prev + 1, es[1].number - 1) + Expanded(es[1..], es[1].number - 1) else []
  }

  lemma {:induction false} RangeSplit(a: int, b: int, c: int)
    requires a <= b + 1 <= c + 1
    ensures Range(a, b) + Range(b + 1, c) == Range(a, c)
    decreases b - a
  {
    if a <= b {
      RangeSplit(a + 1, b, c);
      assert [a] + Range(a + 1, b) + Range(b + 1, c) == [a] + (Range(a + 1, b) + Range(b + 1, c));
    } else {
      assert [] + Range(b + 1, c) == Range(b + 1, c);
    }
  }

  /** Putting the gaps back gives every page up to the last one, once and in order. */
  lemma {:induction false} AfterExpands(prev: int, ps: seq<int>)
    requires Ascending([prev] + ps) && ps != []
    ensures Expanded(After(prev, ps), prev) == Range(prev + 1, ps[|ps| - 1])
    decreases |ps|
  {
    hide Range, Ascending, Expanded, Between;
    var p, rest := ps[0], ps[1..];
    assert ([prev] + ps)[1..] == ps && ps == [p] + rest;
    HeadIsFirst([prev] + ps);
    assert p in ps;
    var tail := [Page(p)] + After(p, rest);
    assert tail[1..] == After(p, rest);
    var last := ps[|ps| - 1];
    LastIsLater(ps);
    RangeStarts(p, last);
    if rest != [] {
      AfterExpands(p, rest);
      assert rest[|rest| - 1] == last;
    } else {
      NoneAfter(p);
      RangeEmpty(p + 1, p);
    }
    ExpandedPage(p, After(p, rest), p - 1);
    BetweenExpands(prev, p, After(p, rest));
    RangeSplit(prev + 1, p - 1, ps[|ps| - 1]);
    assert After(prev, ps) == Between(prev, p) + tail;
  }

  lemma LastIsLater(ps: seq<int>)
    requires Ascending(ps) && ps != []
    ensures ps[0] <= ps[|ps| - 1]
  {
  }

  lemma RangeStarts(a: int, b: int)
    requires a <= b
    ensures Range(a, b) == [a] + Range(a + 1, b)
  {
  }

  lemma RangeEmpty(a: int, b: int)
    requires a > b
    ensures Range(a, b) == []
  {
  }

  lemma BetweenExpands(prev: int, p: int, es: seq<Entry>)
    requires prev < p
    ensures Expanded(Between(prev, p) + ([Page(p)] + es), prev)
            == Range(prev + 1, p - 1) + Expanded([Page(p)] + es, p - 1)
  {
    var tail := [Page(p)] + es;
    assert tail[1..] == es;
    if p - prev <= 1 {
      assert Between(prev, p) + tail == tail;
      assert [] + Expanded(tail, p - 1) == Expanded(tail, p - 1);
    } else if p - prev == 2 {
      assert ([Page(p - 1)] + tail)[1..] == tail;
      assert Range(p - 1, p - 1) == [p - 1] + Range(p, p - 1);
    } else {
      assert ([Gap] + tail)[1..] == tail && ([Gap] + tail)[1] == Page(p);
    }
  }

  /** A gap has a page on either side of it, and hides at least two. */
  predicate GapsAreWorthIt(es: seq<Entry>) {
    forall k | 0 <= k < |es| && es[k].Gap? ::
      0 < k < |es| - 1 && es[k - 1].Page? && es[k + 1].Page? && es[k + 1].number - es[k - 1].number > 2
  }

  lemma {:induction false} AfterGaps(prev: int, ps: seq<int>)
    ensures GapsAreWorthIt([Page(prev)] + After(prev, ps))
    decreases |ps|
  {
    if ps != [] {
      var p := ps[0];
      AfterGaps(p, ps[1..]);
      var rest := [Page(p)] + After(p, ps[1..]);
      var es := [Page(prev)] + After(prev, ps);
      assert es == [Page(prev)] + Between(prev, p) + rest;
      GapBefore(prev, p, rest);
    }
  }

  lemma GapBefore(prev: int, p: int, rest: seq<Entry>)
    requires GapsAreWorthIt(rest) && rest != [] && rest[0] == Page(p)
    ensures GapsAreWorthIt([Page(prev)] + Between(prev, p) + rest)
  {
    var front := [Page(prev)] + Between(prev, p);
    var es := front + rest;
    var n := |front|;
    forall k | 0 <= k < |es| && es[k].Gap?
      ensures 0 < k < |es| - 1 && es[k - 1].Page? && es[k + 1].Page? && es[k + 1].number - es[k - 1].number > 2
    {
      if k >= n {
        assert es[k] == rest[k - n] && es[k + 1] == rest[k + 1 - n] && es[k - 1] == rest[k - 1 - n];
      } else {
        assert es[n] == rest[0];
      }
    }
  }

  lemma {:induction false} PagesAreShown(prev: int, ps: seq<int>)
    ensures forall p | p in ps :: Page(p) in After(prev, ps)
    decreases |ps|
  {
    if ps != [] {
      PagesAreShown(ps[0], ps[1..]);
      assert ps == [ps[0]] + ps[1..];
    }
  }

  /** Each step beyond one page adds one entry. */
  function Jumps(prev: int, ps: seq<int>): nat
    decreases |ps|
  {
    if ps == [] then 0 else (if ps[0] - prev > 1 then 1 else 0) + Jumps(ps[0], ps[1..])
  }

  lemma {:induction false} AfterLength(prev: int, ps: seq<int>)
    ensures |After(prev, ps)| == |ps| + Jumps(prev, ps)
    decreases |ps|
  {
    if ps != [] {
      AfterLength(ps[0], ps[1..]);
    }
  }

  lemma {:induction false} RunJumps(prev: int, hi: int, rest: seq<int>)
    requires prev <= hi
    ensures Jumps(prev, Range(prev + 1, hi) + rest) == Jumps(hi, rest)
    decreases hi - prev
  {
    var ps := Range(prev + 1, hi) + rest;
    if prev < hi {
      assert ps[0] == prev + 1 && ps[1..] == Range(prev + 2, hi) + rest;
      RunJumps(prev + 1, hi, rest);
    } else {
      assert ps == rest;
    }
  }

  lemma PageJumps(current: int, last: int)
    requires 1 <= current <= last
    ensures var ps := Pages(current, last); ps != [] && ps[0] == 1 && Jumps(1, ps[1..]) <= 2 && ps[|ps| - 1] == last
  {
    hide Range;
    var lo, hi := if current > 3 then current - 2 else 1, if current + 2 < last then current + 2 else last;
    var ps := Pages(current, last);
    var end := if hi < last then [last] else [];
    RangeStarts(lo, hi);
    RangeIs(lo, hi);
    RunJumps(lo, hi, end);
    OneJump(hi, end);
    if lo > 1 {
      assert ps[1..] == [lo] + (Range(lo + 1, hi) + end);
      JumpStep(1, lo, Range(lo + 1, hi) + end);
    } else {
      assert ps[1..] == Range(lo + 1, hi) + end;
    }
  }

  lemma OneJump(hi: int, end: seq<int>)
    requires |end| <= 1
    ensures Jumps(hi, end) <= 1
  {
    if end != [] {
      assert end[1..] == [];
    }
  }

  lemma JumpStep(prev: int, p: int, rest: seq<int>)
    ensures Jumps(prev, [p] + rest) <= 1 + Jumps(p, rest)
  {
    assert ([p] + rest)[1..] == rest;
  }

  /**
   * For every page of every range: the entries stand for exactly the pages from first to last; every gap
   * hides at least two pages; the ends and every page within two of the current one are offered; and
   * there are at most nine entries.
   */
  lemma WindowIsRight(current: int, last: int)
    requires 1 <= current <= last
    ensures var out := Window(current, last);
            && Expanded(out, 0) == Range(1, last)
            && GapsAreWorthIt(out)
            && (forall p | IsWanted(current, last, p) :: Page(p) in out)
            && (forall p | Page(p) in out ::
                  IsWanted(current, last, p) || (IsWanted(current, last, p - 1) && IsWanted(current, last, p + 1)))
            && |out| <= 9
  {
    hide Sorted, Wanted, Pages, After, Expanded, Range, Jumps, GapsAreWorthIt, IsWanted;
    var ps := Pages(current, last);
    SortedIsPages(current, last);
    PageJumps(current, last);
    PagesAre(current, last, 1);
    var rest := ps[1..];
    assert ps == [1] + rest;
    var out := [Page(1)] + After(1, rest);
    AfterGaps(1, rest);
    AfterLength(1, rest);
    PagesAreShown(1, rest);
    forall p | IsWanted(current, last, p)
      ensures Page(p) in out
    {
      PagesAre(current, last, p);
    }
    forall p | Page(p) in out
      ensures IsWanted(current, last, p) || (IsWanted(current, last, p - 1) && IsWanted(current, last, p + 1))
    {
      if p != 1 {
        OnlyWanted(1, rest, p);
        PagesAre(current, last, p - 1);
        PagesAre(current, last, p + 1);
      }
      PagesAre(current, last, p);
    }
    ExpandedPage(1, After(1, rest), 0);
    if rest == [] {
      NoneAfter(1);
      RangeStarts(1, last);
      RangeEmpty(2, 1);
    } else {
      AfterExpands(1, rest);
      RangeStarts(1, last);
    }
  }

  lemma ExpandedPage(p: int, es: seq<Entry>, prev: int)
    ensures Expanded([Page(p)] + es, prev) == [p] + Expanded(es, p)
  {
    assert ([Page(p)] + es)[1..] == es;
  }

  lemma NoneAfter(p: int)
    ensures After(p, []) == [] && Expanded([], p) == []
  {
  }

  /** A page is shown because it is wanted, or because it alone is between two that are. */
  lemma {:induction false} OnlyWanted(prev: int, ps: seq<int>, p: int)
    requires Page(p) in After(prev, ps)
    ensures p in ps || (p + 1 in ps && (p - 1 == prev || p - 1 in ps))
    decreases |ps|
  {
    if Page(p) in After(ps[0], ps[1..]) {
      OnlyWanted(ps[0], ps[1..], p);
      assert ps == [ps[0]] + ps[1..];
    } else {
      assert Page(p) in Between(prev, ps[0]) + [Page(ps[0])];
    }
  }
}
