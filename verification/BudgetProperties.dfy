/** What fitting keeps: the most skills, the longest run of messages, every tool pair. */
module BudgetProperties {
  import opened Budget
  import opened Sorting

  // ---- Skills ----

  predicate Ascending(ss: seq<Skill>) {
    forall i, j | 0 <= i < j < |ss| :: |ss[i].body| <= |ss[j].body|
  }

  lemma HeadIsShortest(ss: seq<Skill>)
    requires Ascending(ss) && ss != []
    ensures Ascending(ss[1..]) && forall t | t in ss :: |ss[0].body| <= |t.body|
  {
    forall t | t in ss
      ensures |ss[0].body| <= |t.body|
    {
      var i :| 0 <= i < |ss| && ss[i] == t;
      assert i > 0 ==> |ss[0].body| <= |ss[i].body|;
    }
  }

  lemma SortedAscends(ss: seq<Skill>)
    ensures Ascending(Sorted(ss)) && multiset(Sorted(ss)) == multiset(ss)
  {
    hide Sort;
    SortSorts(IsNoLonger, ss);
  }

  lemma {:induction false} SkillCostSplit(a: seq<Skill>, b: seq<Skill>)
    ensures SkillCost(a + b) == SkillCost(a) + SkillCost(b)
  {
    hide EstimateTokens;
    if a == [] {
      assert a + b == b;
    } else {
      assert (a + b)[1..] == a[1..] + b;
      SkillCostSplit(a[1..], b);
    }
  }

  lemma SkillCostOne(s: Skill)
    ensures SkillCost([s]) == EstimateTokens(s.body)
  {
    assert [s][1..] == [];
  }

  /** With nothing left, nothing is taken. */
  lemma {:induction false} GreedyStops(ss: seq<Skill>, used: nat, available: int)
    requires forall i | 0 <= i < |ss| :: used + EstimateTokens(ss[i].body) > available
    ensures Greedy(ss, used, available) == [] && Left(ss, used, available) == ss
  {
    hide EstimateTokens;
    if ss != [] {
      GreedyStops(ss[1..], used, available);
    }
  }

  /** Shortest first, the fill takes a prefix: as many as fit, and not one more would. */
  lemma {:induction false} GreedyIsPrefix(ss: seq<Skill>, used: nat, available: int)
    requires Ascending(ss)
    ensures var kept := Greedy(ss, used, available);
            && kept + Left(ss, used, available) == ss
            && (kept != [] ==> used + SkillCost(kept) <= available)
            && (|kept| < |ss| ==> used + SkillCost(kept) + EstimateTokens(ss[|kept|].body) > available)
    decreases |ss|
  {
    hide Ascending, EstimateTokens;
    if ss == [] {
      NothingCosts();
    } else {
      HeadIsShortest(ss);
      NothingCosts();
      var t := EstimateTokens(ss[0].body);
      if used + t <= available {
        GreedyIsPrefix(ss[1..], used + t, available);
        PrefixStep(ss[0], Greedy(ss[1..], used + t, available), Left(ss[1..], used + t, available));
      } else {
        TooLong(ss, used, available);
      }
    }
  }

  lemma TooLong(ss: seq<Skill>, used: nat, available: int)
    requires ss != [] && Ascending(ss) && used + EstimateTokens(ss[0].body) > available
    ensures Greedy(ss, used, available) == [] && Left(ss, used, available) == ss
  {
    hide Greedy, Left, Ascending;
    HeadIsShortest(ss);
    forall i | 0 <= i < |ss|
      ensures used + EstimateTokens(ss[i].body) > available
    {
      assert ss[i] in ss;
    }
    GreedyStops(ss, used, available);
  }

  lemma PrefixStep(s: Skill, kept: seq<Skill>, left: seq<Skill>)
    ensures [s] + kept + left == [s] + (kept + left)
    ensures SkillCost([s] + kept) == EstimateTokens(s.body) + SkillCost(kept)
  {
    assert ([s] + kept)[1..] == kept;
  }

  /** No choice of skills of a given size costs less than the shortest ones. */
  lemma {:induction false} ShortestAreCheapest(ss: seq<Skill>, chosen: seq<Skill>)
    requires Ascending(ss) && multiset(chosen) <= multiset(ss)
    ensures |chosen| <= |ss| && SkillCost(ss[..|chosen|]) <= SkillCost(chosen)
    decreases |ss|
  {
    hide SkillCost, Ascending;
    if ss == [] {
      assert |multiset(chosen)| == 0;
      assert chosen == ss[..|chosen|];
    } else {
      var last := |ss| - 1;
      var x, rest := ss[last], ss[..last];
      FrontAscends(ss);
      assert ss == rest + [x];
      if x in chosen {
        var others := Without(chosen, x, rest);
        ShortestAreCheapest(rest, others);
        NextCosts(ss, |others|);
      } else {
        assert multiset(chosen) <= multiset(rest);
        ShortestAreCheapest(rest, chosen);
        assert rest[..|chosen|] == ss[..|chosen|];
      }
    }
  }

  /** One occurrence of `x` taken away. */
  lemma Without(chosen: seq<Skill>, x: Skill, rest: seq<Skill>) returns (others: seq<Skill>)
    requires x in chosen && multiset(chosen) <= multiset(rest + [x])
    ensures |others| == |chosen| - 1 && multiset(others) <= multiset(rest)
    ensures SkillCost(chosen) == SkillCost(others) + EstimateTokens(x.body)
  {
    hide SkillCost;
    var i :| 0 <= i < |chosen| && chosen[i] == x;
    others := chosen[..i] + chosen[i + 1..];
    WithoutOne(chosen, i);
    Cancel(multiset(others), multiset(rest), x);
  }

  lemma Cancel<T>(a: multiset<T>, b: multiset<T>, x: T)
    requires a + multiset{x} <= b + multiset{x}
    ensures a <= b
  {
    forall y
      ensures a[y] <= b[y]
    {
      assert (a + multiset{x})[y] <= (b + multiset{x})[y];
    }
  }

  lemma FrontAscends(ss: seq<Skill>)
    requires Ascending(ss) && ss != []
    ensures Ascending(ss[..|ss| - 1])
  {
  }

  lemma NextCosts(ss: seq<Skill>, n: nat)
    requires Ascending(ss) && n < |ss|
    ensures SkillCost(ss[..n + 1]) <= SkillCost(ss[..|ss| - 1][..n]) + EstimateTokens(ss[|ss| - 1].body)
  {
    hide SkillCost;
    assert ss[..|ss| - 1][..n] == ss[..n] && ss[..n + 1] == ss[..n] + [ss[n]];
    SkillCostSplit(ss[..n], [ss[n]]);
    SkillCostOne(ss[n]);
  }

  lemma WithoutOne(chosen: seq<Skill>, i: nat)
    requires i < |chosen|
    ensures var others := chosen[..i] + chosen[i + 1..];
            && multiset(chosen) == multiset(others) + multiset{chosen[i]}
            && SkillCost(chosen) == SkillCost(others) + EstimateTokens(chosen[i].body)
  {
    hide SkillCost;
    var a, x, b := chosen[..i], chosen[i], chosen[i + 1..];
    assert chosen == a + ([x] + b);
    SkillCostSplit(a, [x] + b);
    SkillCostSplit([x], b);
    SkillCostSplit(a, b);
    SkillCostOne(x);
  }

  /**
   * The greedy fill keeps as many matched skills as any choice of them that fits could, never spends
   * more than there is, and loses none: a skill is kept or dropped, once for each time it was offered.
   */
  lemma FillIsOptimal(skills: seq<Skill>, used: nat, available: int, chosen: seq<Skill>)
    requires multiset(chosen) <= multiset(skills) && used + SkillCost(chosen) <= available
    ensures var kept := Greedy(Sorted(skills), used, available);
            |chosen| <= |kept| && used + SkillCost(kept) <= available
  {
    hide Sorted, SkillCost, Greedy, Left;
    var ss := Sorted(skills);
    var kept := Greedy(ss, used, available);
    SortedAscends(skills);
    GreedyIsPrefix(ss, used, available);
    NothingCosts();
    ShortestAreCheapest(ss, chosen);
    var n := |kept|;
    if n < |chosen| {
      assert kept == ss[..n];
      OneMore(ss, n, |chosen|);
    }
  }

  lemma NothingCosts()
    ensures SkillCost([]) == 0
  {
  }

  lemma OneMore(ss: seq<Skill>, n: nat, m: nat)
    requires n < m <= |ss|
    ensures SkillCost(ss[..n]) + EstimateTokens(ss[n].body) <= SkillCost(ss[..m])
  {
    hide SkillCost;
    assert ss[..m] == ss[..n] + ([ss[n]] + ss[n + 1..m]);
    SkillCostSplit(ss[..n], [ss[n]] + ss[n + 1..m]);
    SkillCostSplit([ss[n]], ss[n + 1..m]);
    SkillCostOne(ss[n]);
  }

  /** Kept and dropped matched skills together are the ones offered. */
  lemma NoSkillIsLost(skills: seq<Skill>, used: nat, available: int)
    ensures var kept, left := Greedy(Sorted(skills), used, available), Left(Sorted(skills), used, available);
            multiset(kept) + multiset(left) == multiset(skills) && |kept| + |left| == |skills|
  {
    hide Sorted, Greedy, Left;
    SortedAscends(skills);
    GreedyIsPrefix(Sorted(skills), used, available);
    assert |multiset(Sorted(skills))| == |multiset(skills)|;
  }

  lemma {:induction false} SplitIsComplete(skills: seq<Skill>)
    ensures multiset(Always(skills)) + multiset(Matched(skills)) == multiset(skills)
    ensures forall s | s in Always(skills) :: s.always
    ensures forall s | s in Matched(skills) :: !s.always
  {
    if skills != [] {
      SplitIsComplete(skills[1..]);
      assert skills == [skills[0]] + skills[1..];
    }
  }

  // ---- The run of messages ----

  lemma {:induction false} FillFits(h: seq<Message>, end: nat, room: int)
    requires 1 <= end <= |h|
    ensures var k := FillFrom(h, end, room); k < end ==> Cost(h[k..end]) <= room
    decreases end
  {
    hide EstimateMessage, Cost;
    if end > 1 && EstimateMessage(h[end - 1]) <= room {
      var t := EstimateMessage(h[end - 1]);
      var k := FillFrom(h, end - 1, room - t);
      FillFits(h, end - 1, room - t);
      LastCosts(h, k, end);
      if k == end - 1 {
        assert h[k..end - 1] == [];
        NoMessagesCost();
      }
    }
  }

  lemma {:induction false} FillStops(h: seq<Message>, end: nat, room: int, j: nat)
    requires 1 <= end <= |h| && 1 <= j < FillFrom(h, end, room)
    ensures Cost(h[j..end]) > room
    decreases end
  {
    hide EstimateMessage, Cost;
    LastCosts(h, j, end);
    if end > 1 && EstimateMessage(h[end - 1]) <= room {
      FillStops(h, end - 1, room - EstimateMessage(h[end - 1]), j);
    }
  }

  /** The middle is the longest run up to the pinned end that fits what the pins leave. */
  lemma FillIsLongest(h: seq<Message>, end: nat, room: int, j: nat)
    requires 1 <= end <= |h| && 1 <= j <= end
    ensures var k := FillFrom(h, end, room);
            && (k < end ==> Cost(h[k..end]) <= room)
            && (j < k ==> Cost(h[j..end]) > room)
  {
    hide FillFrom, Cost;
    FillFits(h, end, room);
    if j < FillFrom(h, end, room) {
      FillStops(h, end, room, j);
    }
  }

  lemma LastCosts(h: seq<Message>, i: nat, end: nat)
    requires i < end <= |h|
    ensures Cost(h[i..end]) == Cost(h[i..end - 1]) + EstimateMessage(h[end - 1])
  {
    assert h[i..end] == h[i..end - 1] + [h[end - 1]];
    CostSplit(h[i..end - 1], [h[end - 1]]);
    CostOfOne(h[end - 1]);
  }

  /** Skipping leading results stops before the pinned end. */
  lemma {:induction false} CleanStopsAtPins(h: seq<Message>, k: nat)
    requires h != [] && k <= Max(1, PinFrom(h))
    ensures CleanFrom(h, k) <= Max(1, PinFrom(h))
    decreases |h| - k
  {
    if k + 1 < |h| && CarriesToolResult(h[k]) {
      PinIsNoResult(h);
      CleanStopsAtPins(h, k + 1);
    }
  }

  lemma PinIsNoResult(h: seq<Message>)
    requires h != []
    ensures PinFrom(h) + 1 < |h| ==> !CarriesToolResult(h[PinFrom(h)])
    ensures PinFrom(h) + 1 == |h| || PinFrom(h) + 2 == |h|
  {
  }

  /** Fitting returns the opening message and an end of the history that holds every pinned message. */
  lemma OpeningAndSuffix(h: seq<Message>, reserved: nat, available: int)
    requires h != []
    ensures exists k ::
              && 1 <= k <= Max(1, PinFrom(h)) && MiddleFrom(h, reserved, available) <= k
              && FitHistory(h, reserved, available) == [h[0]] + h[k..]
    ensures var out := FitHistory(h, reserved, available);
            out[0] == h[0] && out[|out| - 1] == h[|h| - 1] && |out| <= |h|
  {
    hide FillFrom, Carries, Cost;
    var k := CleanFrom(h, MiddleFrom(h, reserved, available));
    CleanStopsAtPins(h, MiddleFrom(h, reserved, available));
    assert FitHistory(h, reserved, available) == [h[0]] + h[k..];
  }

  /** Matched skills cannot cost a message. */
  lemma SkillsCostNoEvidence(h: seq<Message>, some: seq<Skill>, other: seq<Skill>, available: int)
    requires Always(some) == Always(other)
    ensures var a, b := Fitted(h, some, available), Fitted(h, other, available);
            a.history == b.history && a.messagesDropped == b.messagesDropped
    ensures var a := Fitted(h, some, available); a.messagesDropped >= 0 && |a.history| + a.messagesDropped == |h|
  {
    hide Sorted, Greedy, Left, Names, Cost, SkillCost, Always, FillFrom, CleanFrom, Carries;
    if h != [] {
      OpeningAndSuffix(h, SkillCost(Always(some)), available);
    }
  }

  // ---- What is spent ----

  lemma {:induction false} SuffixCosts(h: seq<Message>, i: nat, j: nat)
    requires i <= j <= |h|
    ensures Cost(h[j..]) <= Cost(h[i..])
  {
    assert h[i..] == h[i..j] + h[j..];
    CostSplit(h[i..j], h[j..]);
  }

  lemma WindowCost(h: seq<Message>, k: nat, end: nat)
    requires h != [] && 1 <= k <= end <= |h|
    ensures Cost([h[0]] + h[k..]) == Cost([h[0]] + h[end..]) + Cost(h[k..end])
  {
    hide Cost;
    CostSplit([h[0]], h[k..]);
    CostSplit([h[0]], h[end..]);
    CostSplit(h[k..end], h[end..]);
    assert h[k..] == h[k..end] + h[end..];
  }

  lemma HistoryCosts(h: seq<Message>, reserved: nat, available: int)
    ensures reserved + Cost(FitHistory(h, reserved, available)) <= UsedByHistory(h, reserved, available)
  {
    hide Cost, FillFrom, Carries, CleanFrom;
    if h == [] {
      NoMessagesCost();
    } else {
      var m := MiddleFrom(h, reserved, available);
      var k := CleanFrom(h, m);
      CleanStopsAtPins(h, m);
      WindowCost(h, m, Max(1, PinFrom(h)));
      CostSplit([h[0]], h[m..]);
      CostSplit([h[0]], h[k..]);
      SuffixCosts(h, m, k);
    }
  }

  lemma NoMessagesCost()
    ensures Cost([]) == 0
  {
  }

  /** What must be sent whatever the budget says. */
  function Must(h: seq<Message>, skills: seq<Skill>): nat {
    SkillCost(Always(skills)) + (if h == [] then 0 else Cost(Pins(h)))
  }

  lemma MiddleFits(h: seq<Message>, reserved: nat, available: int)
    requires h != []
    ensures var end := Max(1, PinFrom(h));
            var m := MiddleFrom(h, reserved, available);
            && (reserved + Cost(Pins(h)) <= available ==> UsedByHistory(h, reserved, available) <= available)
            && (reserved + Cost(Pins(h)) > available ==> m == end)
  {
    hide Cost, Carries;
    var end := Max(1, PinFrom(h));
    var room := available - reserved - Cost(Pins(h));
    FillIsLongest(h, end, room, end);
    var m := MiddleFrom(h, reserved, available);
    NoMessagesCost();
    if m == end {
      assert h[m..end] == [];
    }
  }

  /**
   * What is sent fits what is available if and only if what must be sent does; when it does not,
   * nothing else is sent.
   */
  lemma FitsIff(h: seq<Message>, skills: seq<Skill>, available: int)
    ensures var fit := Fitted(h, skills, available);
            && (Must(h, skills) <= available <==> SkillCost(fit.skills) + Cost(fit.history) <= available)
            && (Must(h, skills) > available ==>
                  SkillCost(fit.skills) + Cost(fit.history) == Must(h, skills))
  {
    hide Sorted, Greedy, Left, Names, Cost, SkillCost, Always, Matched, FitHistory, UsedByHistory, Pins;
    var fit := Fitted(h, skills, available);
    var always, matched := Always(skills), Sorted(Matched(skills));
    var reserved := SkillCost(always);
    var used := UsedByHistory(h, reserved, available);
    var kept := Greedy(matched, used, available);
    SkillCostSplit(always, kept);
    NothingCosts();
    HistoryCosts(h, reserved, available);
    SortedAscends(Matched(skills));
    GreedyIsPrefix(matched, used, available);
    HistoryFits(h, reserved, available);
    if Must(h, skills) > available {
      assert kept == [];
    }
  }

  lemma HistoryFits(h: seq<Message>, reserved: nat, available: int)
    ensures var must := reserved + (if h == [] then 0 else Cost(Pins(h)));
            && (must <= available ==> UsedByHistory(h, reserved, available) <= available)
            && (must > available ==>
                  && UsedByHistory(h, reserved, available) == must
                  && reserved + Cost(FitHistory(h, reserved, available)) == must)
  {
    hide Cost, Carries, FillFrom, CleanFrom;
    NoMessagesCost();
    if h != [] {
      MiddleFits(h, reserved, available);
      var end := Max(1, PinFrom(h));
      assert h[end..end] == [];
      PinsAreClean(h);
    }
  }

  lemma PinsAreClean(h: seq<Message>)
    requires h != []
    ensures CleanFrom(h, Max(1, PinFrom(h))) == Max(1, PinFrom(h))
  {
    hide Carries;
    PinIsNoResult(h);
  }

  // ---- What exactly is sent ----

  /** What is spent when the opening message and those from `j` on are sent beside `reserved` tokens. */
  function Spent(h: seq<Message>, reserved: nat, j: nat): nat
    requires h != [] && j <= |h|
  {
    reserved + Cost([h[0]] + h[j..])
  }

  /** The last message; the last two when that is a tool result and its tool use; never the first. */
  predicate IsPinned(h: seq<Message>, pin: nat) {
    if |h| <= 1 then pin == 1
    else if |h| > 2 && CarriesToolResult(h[|h| - 1]) && CarriesToolUse(h[|h| - 2]) then pin == |h| - 2
    else pin == |h| - 1
  }

  /** `n` is the first message from `m` on that is no tool result, or the last one. */
  predicate IsClean(h: seq<Message>, m: nat, n: nat) {
    && m <= n <= |h| && (m < |h| ==> n < |h|)
    && (forall k | m <= k < n :: CarriesToolResult(h[k]))
    && (n + 1 < |h| ==> !CarriesToolResult(h[n]))
  }

  lemma {:induction false} CleanIs(h: seq<Message>, k: nat)
    requires k <= |h|
    ensures IsClean(h, k, CleanFrom(h, k))
    decreases |h| - k
  {
    hide Carries;
    if k + 1 < |h| && CarriesToolResult(h[k]) {
      CleanIs(h, k + 1);
    }
  }

  lemma PinIs(h: seq<Message>)
    requires h != []
    ensures IsPinned(h, Max(1, PinFrom(h)))
  {
    hide Carries;
  }

  /**
   * The messages sent are the opening and those from `n` on. `m` is the earliest start up to the pinned end
   * that fits, or the pinned end; `n` is the first one from there that is no tool result.
   */
  lemma WhatIsSent(h: seq<Message>, skills: seq<Skill>, available: int) returns (pin: nat, m: nat, n: nat)
    requires h != []
    ensures IsPinned(h, pin) && 1 <= m <= pin <= |h|
    ensures m == pin || Spent(h, SkillCost(Always(skills)), m) <= available
    ensures forall j | 1 <= j < m :: Spent(h, SkillCost(Always(skills)), j) > available
    ensures IsClean(h, m, n)
    ensures Fitted(h, skills, available).history == [h[0]] + h[n..]
    ensures Fitted(h, skills, available).messagesDropped == n - 1
  {
    hide Cost, Carries, FillFrom, CleanFrom, SkillCost, Always, Sorted, Greedy, Left, Names, IsPinned, IsClean;
    var reserved := SkillCost(Always(skills));
    var room := available - reserved - Cost(Pins(h));
    pin := Max(1, PinFrom(h));
    m := MiddleFrom(h, reserved, available);
    n := CleanFrom(h, m);
    PinIs(h);
    CleanIs(h, m);
    FillIsLongest(h, pin, room, pin);
    WindowCost(h, m, pin);
    forall j | 1 <= j < m
      ensures Spent(h, reserved, j) > available
    {
      FillIsLongest(h, pin, room, j);
      WindowCost(h, j, pin);
    }
  }

  /** When everything fits nothing is dropped, unless the second message is a tool result. */
  lemma AllIsSent(h: seq<Message>, skills: seq<Skill>, available: int)
    requires SkillCost(Always(skills)) + Cost(h) <= available
    requires |h| > 2 ==> !CarriesToolResult(h[1])
    ensures Fitted(h, skills, available).history == h && Fitted(h, skills, available).messagesDropped == 0
  {
    hide Cost, Carries, SkillCost, Always, Sorted, Greedy, Left, Names, FitHistory, UsedByHistory;
    if h == [] {
      assert FitHistory(h, SkillCost(Always(skills)), available) == [] by {
        NothingFits(h, SkillCost(Always(skills)), available);
      }
    } else {
      var pin, m, n := WhatIsSent(h, skills, available);
      assert [h[0]] + h[1..] == h;
      assert Spent(h, SkillCost(Always(skills)), 1) <= available;
      if |h| > 1 {
        assert CarriesToolResult(h[1]) || n == 1;
      }
    }
  }

  lemma NothingFits(h: seq<Message>, reserved: nat, available: int)
    requires h == []
    ensures FitHistory(h, reserved, available) == []
  {
  }

  /**
   * Without tool results the messages sent are the opening and the longest end that fits beside it, the last
   * message whatever it costs.
   */
  lemma LongestEndIsSent(h: seq<Message>, skills: seq<Skill>, available: int) returns (n: nat)
    requires h != [] && forall k | 0 <= k < |h| :: !CarriesToolResult(h[k])
    ensures 1 <= n <= |h| && (|h| > 1 ==> n < |h|) && Fitted(h, skills, available).history == [h[0]] + h[n..]
    ensures n >= |h| - 1 || Spent(h, SkillCost(Always(skills)), n) <= available
    ensures forall j | 1 <= j < n :: Spent(h, SkillCost(Always(skills)), j) > available
  {
    hide Cost, Carries, SkillCost, Always, Fitted, Spent;
    var pin, m, k := WhatIsSent(h, skills, available);
    n := k;
    if m < |h| {
      assert !CarriesToolResult(h[m]);
    }
  }

  // ---- What an estimate counts ----

  /** All the characters of a block. */
  function BlockChars(b: Block): nat { |b.text| + |b.content| + |b.name| + |b.input| }

  function BlocksChars(bs: seq<Block>): nat { if bs == [] then 0 else BlockChars(bs[0]) + BlocksChars(bs[1..]) }

  /** An estimate is a third of all characters, each block rounded up. */
  lemma {:induction false} EstimateCounts(bs: seq<Block>)
    ensures BlocksChars(bs) <= 3 * EstimateBlocks(bs) <= BlocksChars(bs) + 2 * |bs|
  {
    if bs != [] {
      EstimateCounts(bs[1..]);
    }
  }

  lemma MessageCounts(m: Message)
    ensures match m.content
            case Plain(text) => |text| <= 3 * EstimateMessage(m) <= |text| + 2
            case Blocks(blocks) => BlocksChars(blocks) <= 3 * EstimateMessage(m) <= BlocksChars(blocks) + 2 * |blocks|
  {
    match m.content
    case Plain(text) =>
    case Blocks(blocks) => EstimateCounts(blocks);
  }

  lemma {:induction false} NamesCount(ss: seq<Skill>)
    ensures |Names(ss)| == |ss|
  {
    if ss != [] {
      NamesCount(ss[1..]);
    }
  }

  lemma {:induction false} SplitCounts(skills: seq<Skill>)
    ensures |Always(skills)| + |Matched(skills)| == |skills|
  {
    if skills != [] {
      SplitCounts(skills[1..]);
    }
  }

  /**
   * Of the fitted request: every always-skill is in it, followed by as many matched ones as any choice
   * that fits beside the kept history has; and each skill offered is kept or named as dropped.
   */
  lemma FitKeepsMostSkills(h: seq<Message>, skills: seq<Skill>, available: int, chosen: seq<Skill>)
    requires multiset(chosen) <= multiset(Matched(skills))
    requires UsedByHistory(h, SkillCost(Always(skills)), available) + SkillCost(chosen) <= available
    ensures var fit := Fitted(h, skills, available);
            && Always(skills) <= fit.skills
            && |Always(skills)| + |chosen| <= |fit.skills|
            && |fit.skills| + |fit.skillsDropped| == |skills|
            && exists left :: multiset(fit.skills) + multiset(left) == multiset(skills) &&
                 fit.skillsDropped == Names(left)
  {
    hide Sorted, Greedy, Left, Names, SkillCost, Always, Matched, FitHistory, UsedByHistory;
    var used := UsedByHistory(h, SkillCost(Always(skills)), available);
    FillIsOptimal(Matched(skills), used, available, chosen);
    NoSkillIsLost(Matched(skills), used, available);
    NamesCount(Left(Sorted(Matched(skills)), used, available));
    SplitCounts(skills);
    SplitIsComplete(skills);
    assert multiset(Fitted(h, skills, available).skills) + multiset(Left(Sorted(Matched(skills)), used, available))
        == multiset(skills);
  }

  // ---- Tool pairs ----

  function Ids(bs: seq<Block>, kind: Kind): set<string> {
    set b | b in bs && b.kind == kind :: b.id
  }

  /** `result` answers exactly the calls of `call`. */
  predicate Answers(call: Message, result: Message) {
    && CarriesToolUse(call) && CarriesToolResult(result)
    && Ids(call.content.blocks, ToolUse) == Ids(result.content.blocks, ToolResult)
  }

  predicate ResultsFollow(h: seq<Message>) {
    forall i | 0 <= i < |h| && CarriesToolResult(h[i]) :: i > 0 && Answers(h[i - 1], h[i])
  }

  predicate CallsAreAnswered(h: seq<Message>) {
    forall i | 0 <= i < |h| && CarriesToolUse(h[i]) :: i + 1 < |h| && Answers(h[i], h[i + 1])
  }

  predicate PlainOpening(h: seq<Message>) {
    h != [] ==> !CarriesToolResult(h[0]) && !CarriesToolUse(h[0])
  }

  /** A conversation whose opening is plain and in which no result is without its call. */
  predicate Paired(h: seq<Message>) { PlainOpening(h) && ResultsFollow(h) }

  lemma WindowKeepsPairs(h: seq<Message>, k: nat)
    requires h != [] && 1 <= k <= |h| && Paired(h)
    requires k < |h| ==> !CarriesToolResult(h[k])
    ensures var out := [h[0]] + h[k..];
            Paired(out) && (CallsAreAnswered(h) ==> CallsAreAnswered(out))
  {
    hide Carries, Answers;
    var out := [h[0]] + h[k..];
    assert forall i | 1 <= i < |out| :: out[i] == h[k + i - 1];
    assert k < |h| ==> out[1] == h[k];
  }

  lemma {:induction false} CleanIsNoResult(h: seq<Message>, k: nat)
    requires k <= |h|
    ensures var n := CleanFrom(h, k); n + 1 < |h| ==> !CarriesToolResult(h[n])
    decreases |h| - k
  {
    hide Carries;
    if k + 1 < |h| && CarriesToolResult(h[k]) {
      CleanIsNoResult(h, k + 1);
    }
  }

  lemma LastResultIsPinned(h: seq<Message>)
    requires h != [] && Paired(h) && CarriesToolResult(h[|h| - 1])
    ensures 1 <= PinFrom(h) == |h| - 2
  {
    hide Carries;
    assert Answers(h[|h| - 2], h[|h| - 1]);
  }

  /** Fitting leaves no result without its call and no call without its result. */
  lemma FitKeepsPairs(h: seq<Message>, reserved: nat, available: int)
    requires Paired(h)
    ensures var out := FitHistory(h, reserved, available);
            Paired(out) && (CallsAreAnswered(h) ==> CallsAreAnswered(out))
  {
    hide Carries, Paired, CallsAreAnswered, FillFrom, CleanFrom;
    if h != [] {
      var m := MiddleFrom(h, reserved, available);
      CleanStopsAtPins(h, m);
      CleanIsNoResult(h, m);
      if CarriesToolResult(h[|h| - 1]) {
        LastResultIsPinned(h);
      }
      WindowKeepsPairs(h, CleanFrom(h, m));
    }
  }
}
