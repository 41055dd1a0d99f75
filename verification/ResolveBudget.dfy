/** One budget for the whole process, whichever backend a request lands in. */
module ResolveBudget {
  import opened Text
  import opened Budget

  datatype BackendSpec = BackendSpec(name: string, kind: string, contextTokens: Option<int>, maxTokens: Option<int>)

  datatype TokenBudget = TokenBudget(contextTokens: int, reserveTokens: int)

  /** The error names the backends that left no room. */
  datatype Resolution = Resolved(budget: TokenBudget) | NoRoom(smallest: BackendSpec, loudest: BackendSpec)

  function DefaultWindow(kind: string): int {
    if kind == "claude" then 200_000 else if kind == "openai-compatible" then 128_000 else 32_000
  }

  function WindowOf(b: BackendSpec): int {
    if b.contextTokens.Some? then b.contextTokens.value else DefaultWindow(b.kind)
  }

  function OutputOf(b: BackendSpec, fallback: int): int {
    if b.maxTokens.Some? then b.maxTokens.value else fallback
  }

  /** The registered backends, or the configured provider alone. */
  function Specs(registry: seq<BackendSpec>, provider: string): (specs: seq<BackendSpec>)
    ensures specs != []
  {
    if registry != [] then registry else [BackendSpec(provider, provider, None, None)]
  }

  /** The first of the smallest windows. */
  ghost predicate IsSmallest(specs: seq<BackendSpec>, b: BackendSpec) {
    exists i | 0 <= i < |specs| && specs[i] == b ::
      && (forall j | 0 <= j < |specs| :: WindowOf(b) <= WindowOf(specs[j]))
      && (forall j | 0 <= j < i :: WindowOf(b) < WindowOf(specs[j]))
  }

  /** The first of the largest output ceilings. */
  ghost predicate IsLoudest(specs: seq<BackendSpec>, fallback: int, b: BackendSpec) {
    exists i | 0 <= i < |specs| && specs[i] == b ::
      && (forall j | 0 <= j < |specs| :: OutputOf(specs[j], fallback) <= OutputOf(b, fallback))
      && (forall j | 0 <= j < i :: OutputOf(specs[j], fallback) < OutputOf(b, fallback))
  }

  function BudgetOf(smallest: BackendSpec, loudest: BackendSpec, maxTokens: int): TokenBudget {
    TokenBudget(WindowOf(smallest), OutputOf(loudest, maxTokens) + BUDGET_SAFETY_MARGIN)
  }

  method Smallest(specs: seq<BackendSpec>) returns (smallest: BackendSpec)
    requires specs != []
    ensures IsSmallest(specs, smallest)
  {
    smallest := specs[0];
    ghost var at := 0;
    for i := 0 to |specs|
      invariant 0 <= at < |specs| && specs[at] == smallest && at <= i
      invariant forall j | 0 <= j < i :: WindowOf(smallest) <= WindowOf(specs[j])
      invariant forall j | 0 <= j < at :: WindowOf(smallest) < WindowOf(specs[j])
    {
      if WindowOf(specs[i]) < WindowOf(smallest) {
        smallest, at := specs[i], i;
      }
    }
  }

  method Loudest(specs: seq<BackendSpec>, maxTokens: int) returns (loudest: BackendSpec)
    requires specs != []
    ensures IsLoudest(specs, maxTokens, loudest)
  {
    loudest := specs[0];
    ghost var at := 0;
    for i := 0 to |specs|
      invariant 0 <= at < |specs| && specs[at] == loudest && at <= i
      invariant forall j | 0 <= j < i :: OutputOf(specs[j], maxTokens) <= OutputOf(loudest, maxTokens)
      invariant forall j | 0 <= j < at :: OutputOf(specs[j], maxTokens) < OutputOf(loudest, maxTokens)
    {
      if OutputOf(specs[i], maxTokens) > OutputOf(loudest, maxTokens) {
        loudest, at := specs[i], i;
      }
    }
  }

  /** What is left of the smallest window once the loudest answer and the overhead have their share. */
  ghost predicate LeavesRoom(specs: seq<BackendSpec>, maxTokens: int, overheadTokens: int) {
    forall w, o | w in specs && o in specs ::
      WindowOf(w) - OutputOf(o, maxTokens) > BUDGET_SAFETY_MARGIN + overheadTokens
  }

  method Resolve(registry: seq<BackendSpec>, provider: string, maxTokens: int, overheadTokens: int)
    returns (r: Resolution)
    ensures var specs := Specs(registry, provider);
            && (r.Resolved? <==> LeavesRoom(specs, maxTokens, overheadTokens))
            && (r.NoRoom? ==> IsSmallest(specs, r.smallest) && IsLoudest(specs, maxTokens, r.loudest))
            && (r.Resolved? ==> exists w, o :: IsSmallest(specs, w) && IsLoudest(specs, maxTokens, o)
                                            && r.budget == BudgetOf(w, o, maxTokens))
  {
    var specs := Specs(registry, provider);
    var smallest := Smallest(specs);
    var loudest := Loudest(specs, maxTokens);
    var budget := BudgetOf(smallest, loudest, maxTokens);
    RoomIsWorstCase(specs, maxTokens, overheadTokens, smallest, loudest);
    if budget.contextTokens - budget.reserveTokens - overheadTokens <= 0 {
      return NoRoom(smallest, loudest);
    }
    r := Resolved(budget);
  }

  lemma RoomIsWorstCase(specs: seq<BackendSpec>, maxTokens: int, overheadTokens: int, w: BackendSpec, o: BackendSpec)
    requires IsSmallest(specs, w) && IsLoudest(specs, maxTokens, o)
    ensures WindowOf(w) - OutputOf(o, maxTokens) - BUDGET_SAFETY_MARGIN - overheadTokens > 0
            <==> LeavesRoom(specs, maxTokens, overheadTokens)
  {
    hide WindowOf, OutputOf;
    forall v, p | v in specs && p in specs
      ensures WindowOf(w) <= WindowOf(v) && OutputOf(p, maxTokens) <= OutputOf(o, maxTokens)
      ensures w in specs && o in specs
    {
      var i :| 0 <= i < |specs| && specs[i] == v;
      var j :| 0 <= j < |specs| && specs[j] == p;
      assert WindowOf(w) <= WindowOf(specs[i]) && OutputOf(specs[j], maxTokens) <= OutputOf(o, maxTokens);
    }
    assert w in specs && o in specs;
  }

  /** Any backend's answer fits in what the budget keeps clear of its window. */
  lemma BudgetSuitsEveryBackend(specs: seq<BackendSpec>, maxTokens: int, w: BackendSpec, o: BackendSpec, b: BackendSpec)
    requires IsSmallest(specs, w) && IsLoudest(specs, maxTokens, o) && b in specs
    ensures var budget := BudgetOf(w, o, maxTokens);
            && budget.contextTokens <= WindowOf(b)
            && OutputOf(b, maxTokens) + BUDGET_SAFETY_MARGIN <= budget.reserveTokens
  {
    hide WindowOf, OutputOf;
    var i :| 0 <= i < |specs| && specs[i] == b;
    assert WindowOf(w) <= WindowOf(specs[i]) && OutputOf(specs[i], maxTokens) <= OutputOf(o, maxTokens);
  }

  /** What a backend declares is what counts; a kind nobody knows gets the smallest window there is. */
  lemma DeclaredCounts(b: BackendSpec, kind: string, maxTokens: int)
    ensures forall n: int :: WindowOf(b.(contextTokens := Some(n))) == n
    ensures forall n: int :: OutputOf(b.(maxTokens := Some(n)), maxTokens) == n
    ensures OutputOf(b.(maxTokens := None), maxTokens) == maxTokens
    ensures WindowOf(b.(contextTokens := None)) == WindowOf(BackendSpec("", b.kind, None, None))
    ensures kind !in {"claude", "openai-compatible", "private-llm"} ==>
              DefaultWindow(kind) == DefaultWindow("private-llm") < DefaultWindow("openai-compatible")
              < DefaultWindow("claude")
  {
  }
}
