/** Exactly when every request fits the window of whichever backend it lands in. */
module RequestBound {
  import opened Budget
  import opened BudgetProperties
  import opened ResolveBudget
  import opened RequestAssembly

  /** What backend `b` has to spare beyond the smallest window and the largest output. */
  function Slack(w: BackendSpec, o: BackendSpec, b: BackendSpec, maxTokens: int): int {
    (WindowOf(b) - OutputOf(b, maxTokens)) - (WindowOf(w) - OutputOf(o, maxTokens))
  }

  /** The request and the longest answer of `b` fit its window together. */
  predicate Fits(request: Request, b: BackendSpec, maxTokens: int) {
    request.estimatedTokens + OutputOf(b, maxTokens) <= WindowOf(b)
  }

  predicate IsAffordable(ss: seq<Skill>, margin: int) { SentCost(ss) <= SkillCost(ss) + margin }

  lemma SlackIsThere(specs: seq<BackendSpec>, maxTokens: int, w: BackendSpec, o: BackendSpec, b: BackendSpec)
    requires IsSmallest(specs, w) && IsLoudest(specs, maxTokens, o) && b in specs
    ensures Slack(w, o, b, maxTokens) >= 0
  {
    hide IsSmallest, IsLoudest, WindowOf, OutputOf;
    BudgetSuitsEveryBackend(specs, maxTokens, w, o, b);
  }

  /** What is left of a window is what was available, the margin and the slack. */
  lemma FitsInTokens(h: seq<Message>, systemPrompt: string, tools: string, skills: seq<Skill>, maxTokens: int,
      w: BackendSpec, o: BackendSpec, b: BackendSpec)
    ensures var budget := BudgetOf(w, o, maxTokens);
            var request := AssembleRequest(h, systemPrompt, tools, skills, budget);
            Fits(request, b, maxTokens) <==>
            Cost(request.messages)
            <= Available(systemPrompt, tools, budget) + BUDGET_SAFETY_MARGIN + Slack(w, o, b, maxTokens)
  {
    hide Fitted, Overhead, Cost, InjectSkills, WindowOf, OutputOf, Names;
  }

  /** One request fits when what its own skills cost as sent is covered. */
  lemma RequestFits(h: seq<Message>, systemPrompt: string, tools: string, skills: seq<Skill>, maxTokens: int,
      w: BackendSpec, o: BackendSpec, b: BackendSpec)
    requires Slack(w, o, b, maxTokens) >= 0
    requires var available := Available(systemPrompt, tools, BudgetOf(w, o, maxTokens));
             && Must(h, skills) <= available
             && IsAffordable(Fitted(h, skills, available).skills, BUDGET_SAFETY_MARGIN + Slack(w, o, b, maxTokens))
    ensures Fits(AssembleRequest(h, systemPrompt, tools, skills, BudgetOf(w, o, maxTokens)), b, maxTokens)
  {
    hide Fitted, Available, Cost, SkillCost, InjectSkills, Must, SentCost, Slack, Fits, BudgetOf;
    var available := Available(systemPrompt, tools, BudgetOf(w, o, maxTokens));
    var fit := Fitted(h, skills, available);
    FitsIff(h, skills, available);
    InjectionCosts(fit.history, fit.skills);
    FitsInTokens(h, systemPrompt, tools, skills, maxTokens, w, o, b);
  }

  // ---- The skills a request can keep ----

  /** The matched skills in the order they are taken. */
  function Queue(skills: seq<Skill>): seq<Skill> { Sorted(Matched(skills)) }

  function Kept(skills: seq<Skill>, n: nat): seq<Skill>
    requires n <= |Queue(skills)|
  {
    Always(skills) + Queue(skills)[..n]
  }

  /** `n` matched skills can be the ones kept: they fit, and the next one is not there for nothing. */
  predicate IsReachable(skills: seq<Skill>, n: nat, available: int) {
    && n <= |Queue(skills)|
    && SkillCost(Kept(skills, n)) <= available
    && (n < |Queue(skills)| ==> EstimateTokens(Queue(skills)[n].body) > 0)
  }

  lemma KeptIsReachable(h: seq<Message>, skills: seq<Skill>, available: int) returns (n: nat)
    requires Must(h, skills) <= available
    ensures IsReachable(skills, n, available) && Fitted(h, skills, available).skills == Kept(skills, n)
  {
    hide Sorted, Greedy, Left, Names, Cost, SkillCost, Always, Matched, FitHistory, UsedByHistory, EstimateTokens, Must,
      Ascending;
    var used := UsedByHistory(h, SkillCost(Always(skills)), available);
    var queue := Queue(skills);
    SortedAscends(Matched(skills));
    UsedFits(h, skills, available);
    n := Taken(queue, used, available);
    FitsIff(h, skills, available);
  }

  /** How many the fill takes, from less than all there is. */
  lemma Taken(queue: seq<Skill>, used: nat, available: int) returns (n: nat)
    requires Ascending(queue) && used <= available
    ensures n <= |queue| && Greedy(queue, used, available) == queue[..n]
    ensures n < |queue| ==> EstimateTokens(queue[n].body) > 0
  {
    hide Greedy, Left, SkillCost, Ascending, EstimateTokens;
    GreedyIsPrefix(queue, used, available);
    var kept := Greedy(queue, used, available);
    n := |kept|;
    assert kept == queue[..n];
    NothingCosts();
  }

  lemma UsedFits(h: seq<Message>, skills: seq<Skill>, available: int)
    requires Must(h, skills) <= available
    ensures UsedByHistory(h, SkillCost(Always(skills)), available) <= available
  {
    hide UsedByHistory, SkillCost, Always, Cost;
    HistoryFits(h, SkillCost(Always(skills)), available);
  }

  /** A fill that leaves room for exactly the first `n` takes those. */
  lemma GreedyTakes(queue: seq<Skill>, used: nat, available: int, n: nat)
    requires Ascending(queue) && n <= |queue| && used + SkillCost(queue[..n]) == available
    requires n < |queue| ==> EstimateTokens(queue[n].body) > 0
    ensures Greedy(queue, used, available) == queue[..n]
  {
    hide Greedy, Left, SkillCost, Ascending, EstimateTokens;
    GreedyIsPrefix(queue, used, available);
    var kept := Greedy(queue, used, available);
    var k := |kept|;
    assert kept == queue[..k];
    NothingCosts();
    if k < n {
      OneMore(queue, k, n);
    } else if n < k {
      OneMore(queue, n, k);
    }
  }

  /** A conversation of one plain message. */
  function Opening(text: string): seq<Message> { [Message(User, Plain(text))] }

  lemma OpeningFits(text: string, skills: seq<Skill>, available: int, n: nat)
    requires IsReachable(skills, n, available)
    requires EstimateTokens(text) == available - SkillCost(Kept(skills, n))
    ensures Must(Opening(text), skills) <= available
    ensures var fit := Fitted(Opening(text), skills, available);
            fit.history == Opening(text) && fit.skills == Kept(skills, n)
  {
    hide Sorted, Greedy, Left, Names, SkillCost, Always, Matched, EstimateTokens, Ascending;
    var h := Opening(text);
    var reserved := SkillCost(Always(skills));
    SkillCostSplit(Always(skills), Queue(skills)[..n]);
    OpeningIsAll(text, reserved, available);
    SortedAscends(Matched(skills));
    GreedyTakes(Queue(skills), UsedByHistory(h, reserved, available), available, n);
  }

  lemma OpeningIsAll(text: string, reserved: nat, available: int)
    ensures var h := Opening(text);
            && Cost(Pins(h)) == EstimateTokens(text)
            && FitHistory(h, reserved, available) == h
            && UsedByHistory(h, reserved, available) == reserved + EstimateTokens(text)
  {
    hide EstimateTokens, Carries;
    var h := Opening(text);
    assert PinFrom(h) == 0 && h[1..] == [] && Pins(h) == h;
    CostOfOne(h[0]);
    assert MiddleFrom(h, reserved, available) == 1;
    assert h[1..1] == [];
    NoMessagesCost();
  }

  /** Text of a number of whole tokens. */
  function Whole(tokens: nat): (text: string)
    ensures |text| == CHARS_PER_TOKEN * tokens
  {
    if tokens == 0 then "" else "xxx" + Whole(tokens - 1)
  }

  lemma WholeTokens(a: nat, tokens: nat)
    ensures Tokens(CHARS_PER_TOKEN * tokens) == tokens
    ensures Tokens(a + CHARS_PER_TOKEN * tokens) == Tokens(a) + tokens
  {
  }

  /** In front of whole tokens, skills cost what they cost as sent. */
  lemma OpeningCosts(tokens: nat, skills: seq<Skill>)
    ensures Cost(InjectSkills(Opening(Whole(tokens)), skills)) == SentCost(skills) + tokens
  {
    hide Tokens, SkillBlock, Whole, Delimiters, Bodies;
    var text := Whole(tokens);
    var h := Opening(text);
    if skills == [] {
      NoSkillsCost();
      CostOfOne(h[0]);
      WholeTokens(0, tokens);
    } else {
      var m := Message(User, Plain(SkillBlock(skills) + "\n\n" + text));
      assert h[1..] == [];
      assert InjectSkills(h, skills) == [m] + h[1..];
      assert [m] + h[1..] == [m];
      CostOfOne(m);
      BlockLength(skills);
      WholeTokens(Delimiters(skills) + Bodies(skills), tokens);
    }
  }

  lemma NoSkillsCost()
    ensures SentCost([]) == 0 && SkillCost([]) == 0
  {
  }

  /** With `n` matched skills kept and the room filled, whether the request fits is whether they are covered. */
  lemma FilledRequestFitsIff(systemPrompt: string, tools: string, skills: seq<Skill>, maxTokens: int,
      w: BackendSpec, o: BackendSpec, b: BackendSpec, n: nat)
    requires IsReachable(skills, n, Available(systemPrompt, tools, BudgetOf(w, o, maxTokens)))
    ensures var budget := BudgetOf(w, o, maxTokens);
            var available := Available(systemPrompt, tools, budget);
            var h := Opening(Whole(available - SkillCost(Kept(skills, n))));
            && Must(h, skills) <= available
            && (Fits(AssembleRequest(h, systemPrompt, tools, skills, budget), b, maxTokens) <==>
                IsAffordable(Kept(skills, n), BUDGET_SAFETY_MARGIN + Slack(w, o, b, maxTokens)))
  {
    hide Available, BudgetOf, Slack, Fits, Kept, SkillCost, SentCost, Whole, Must, Fitted, Cost, Opening, InjectSkills;
    var budget := BudgetOf(w, o, maxTokens);
    var available := Available(systemPrompt, tools, budget);
    var tokens := available - SkillCost(Kept(skills, n));
    var text := Whole(tokens);
    WholeTokens(0, tokens);
    OpeningFits(text, skills, available, n);
    OpeningCosts(tokens, Kept(skills, n));
    FitsInTokens(Opening(text), systemPrompt, tools, skills, maxTokens, w, o, b);
  }

  /** Every conversation whose pins and always-skills fit gives a request that fits backend `b`. */
  ghost predicate AlwaysFits(systemPrompt: string, tools: string, skills: seq<Skill>, maxTokens: int,
      w: BackendSpec, o: BackendSpec, b: BackendSpec)
  {
    forall h :: Must(h, skills) <= Available(systemPrompt, tools, BudgetOf(w, o, maxTokens)) ==>
      Fits(AssembleRequest(h, systemPrompt, tools, skills, BudgetOf(w, o, maxTokens)), b, maxTokens)
  }

  /** Every list of skills that a request can keep costs, as sent, no more than was counted and is spare. */
  ghost predicate AlwaysAffordable(skills: seq<Skill>, available: int, spare: int) {
    forall n: nat | IsReachable(skills, n, available) :: IsAffordable(Kept(skills, n), spare)
  }

  /**
   * The bound holds of every conversation, whatever is kept of it, if and only if each list of skills that
   * can be kept is covered by the margin and by what the backend has to spare.
   */
  lemma AlwaysFitsIff(specs: seq<BackendSpec>, systemPrompt: string, tools: string, skills: seq<Skill>, maxTokens: int,
      w: BackendSpec, o: BackendSpec, b: BackendSpec)
    requires IsSmallest(specs, w) && IsLoudest(specs, maxTokens, o) && b in specs
    ensures AlwaysFits(systemPrompt, tools, skills, maxTokens, w, o, b) <==>
            AlwaysAffordable(skills, Available(systemPrompt, tools, BudgetOf(w, o, maxTokens)),
                             BUDGET_SAFETY_MARGIN + Slack(w, o, b, maxTokens))
  {
    hide Available, BudgetOf, Slack, Fits, Kept, IsAffordable, Must, AssembleRequest, IsSmallest, IsLoudest, Fitted,
      SkillCost, EstimateTokens, Sorted, Matched;
    var available := Available(systemPrompt, tools, BudgetOf(w, o, maxTokens));
    var spare := BUDGET_SAFETY_MARGIN + Slack(w, o, b, maxTokens);
    SlackIsThere(specs, maxTokens, w, o, b);
    forall n: nat | AlwaysFits(systemPrompt, tools, skills, maxTokens, w, o, b) && IsReachable(skills, n, available)
      ensures IsAffordable(Kept(skills, n), spare)
    {
      FilledRequestFitsIff(systemPrompt, tools, skills, maxTokens, w, o, b, n);
    }
    forall h | AlwaysAffordable(skills, available, spare) && Must(h, skills) <= available
      ensures Fits(AssembleRequest(h, systemPrompt, tools, skills, BudgetOf(w, o, maxTokens)), b, maxTokens)
    {
      var n := KeptIsReachable(h, skills, available);
      RequestFits(h, systemPrompt, tools, skills, maxTokens, w, o, b);
    }
  }

  // ---- What follows ----

  lemma MarginCovers(ss: seq<Skill>)
    requires Delimiters(ss) <= CHARS_PER_TOKEN * BUDGET_SAFETY_MARGIN
    ensures IsAffordable(ss, BUDGET_SAFETY_MARGIN)
  {
    hide SentCost, SkillCost, Delimiters;
    DelimitersCost(ss);
  }

  /**
   * Whichever registered backend the request lands in, what it is estimated to cost and that backend's
   * longest answer fit its window together, when what must be sent fits and the delimiters of the kept
   * skills stay within the safety margin.
   */
  lemma RequestFitsEveryWindow(registry: seq<BackendSpec>, provider: string, maxTokens: int,
                               w: BackendSpec, o: BackendSpec, b: BackendSpec,
                               h: seq<Message>, systemPrompt: string, tools: string, skills: seq<Skill>)
    requires var specs := Specs(registry, provider);
             IsSmallest(specs, w) && IsLoudest(specs, maxTokens, o) && b in specs
    requires var available := Available(systemPrompt, tools, BudgetOf(w, o, maxTokens));
             && Must(h, skills) <= available
             && Delimiters(Fitted(h, skills, available).skills) <= CHARS_PER_TOKEN * BUDGET_SAFETY_MARGIN
    ensures var request := AssembleRequest(h, systemPrompt, tools, skills, BudgetOf(w, o, maxTokens));
            request.estimatedTokens + OutputOf(b, maxTokens) <= WindowOf(b)
  {
    hide Fitted, Available, Must, Delimiters, SentCost, SkillCost, Slack, BudgetOf, AssembleRequest, IsSmallest,
        IsLoudest, WindowOf, OutputOf;
    SlackIsThere(Specs(registry, provider), maxTokens, w, o, b);
    MarginCovers(Fitted(h, skills, Available(systemPrompt, tools, BudgetOf(w, o, maxTokens))).skills);
    RequestFits(h, systemPrompt, tools, skills, maxTokens, w, o, b);
  }

  /** All of them are part of every request. */
  predicate AreAlways(ss: seq<Skill>) { forall s | s in ss :: s.always }

  lemma {:induction false} AlwaysAreAll(ss: seq<Skill>)
    requires AreAlways(ss)
    ensures Always(ss) == ss && Matched(ss) == []
  {
    if ss != [] {
      assert ss[0] in ss;
      AlwaysAreAll(ss[1..]);
    }
  }

  /**
   * With always-skills only and one backend: every conversation fits if and only if the skills as sent
   * cost at most the margin more than they were counted.
   */
  lemma AlwaysSkillsFitIff(systemPrompt: string, tools: string, skills: seq<Skill>, maxTokens: int, w: BackendSpec)
    requires AreAlways(skills) && SkillCost(skills) <= Available(systemPrompt, tools, BudgetOf(w, w, maxTokens))
    ensures AlwaysFits(systemPrompt, tools, skills, maxTokens, w, w, w) <==> IsAffordable(skills, BUDGET_SAFETY_MARGIN)
  {
    hide AlwaysFits, SkillCost, SentCost, Available, BudgetOf, Always, Matched, Sorted;
    OnlyBackend(w, maxTokens);
    AlwaysFitsIff([w], systemPrompt, tools, skills, maxTokens, w, w, w);
    AlwaysAreAll(skills);
    assert Queue(skills) == [] by {
      NothingQueues(skills);
    }
    assert skills + [] == skills && Queue(skills)[..0] == [];
    assert IsReachable(skills, 0, Available(systemPrompt, tools, BudgetOf(w, w, maxTokens)));
    assert Kept(skills, 0) == skills;
  }

  lemma NothingQueues(skills: seq<Skill>)
    requires Matched(skills) == []
    ensures Queue(skills) == []
  {
  }

  lemma OnlyBackend(w: BackendSpec, maxTokens: int)
    ensures IsSmallest([w], w) && IsLoudest([w], maxTokens, w)
  {
    assert [w][0] == w;
  }

  /** One skill without a body overflows some conversation exactly when its name is too long for the margin. */
  lemma LongNameOverflowsIff(name: string, systemPrompt: string, tools: string, maxTokens: int, w: BackendSpec)
    requires Available(systemPrompt, tools, BudgetOf(w, w, maxTokens)) >= 0
    ensures AlwaysFits(systemPrompt, tools, [Skill(name, "", true)], maxTokens, w, w, w) <==> |name| <= 1517
  {
    hide AlwaysFits, Available, BudgetOf;
    var s := Skill(name, "", true);
    assert [s][1..] == [];
    assert SkillCost([s]) == 0;
    assert Delimiters([s]) == 38 + 2 * |name| && Bodies([s]) == 0;
    AlwaysSkillsFitIff(systemPrompt, tools, [s], maxTokens, w);
  }
}
