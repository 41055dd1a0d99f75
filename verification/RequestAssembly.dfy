/** What goes into a request, and what it is estimated to cost. */
module RequestAssembly {
  import opened Text
  import opened Budget
  import opened BudgetProperties
  import opened ResolveBudget

  // ---- The storage cap ----

  /** The first message from `k` on that is no tool result, or the end. */
  function SkipResults(ms: seq<Message>, k: nat): (n: nat)
    requires k <= |ms|
    ensures k <= n <= |ms| && (n < |ms| ==> !CarriesToolResult(ms[n]))
    decreases |ms| - k
  {
    if k < |ms| && CarriesToolResult(ms[k]) then SkipResults(ms, k + 1) else k
  }

  function Trimmed(ms: seq<Message>, maxMessages: nat): seq<Message> {
    if |ms| <= maxMessages then ms
    else [ms[0]] + ms[SkipResults(ms, Min(|ms| + 1 - maxMessages, |ms|))..]
  }

  method TrimToWindow(ms: seq<Message>, maxMessages: nat) returns (out: seq<Message>)
    ensures out == Trimmed(ms, maxMessages)
  {
    hide Carries;
    if |ms| <= maxMessages {
      return ms;
    }
    var first := ms[0];
    var start: int := |ms| - (maxMessages - 1);
    while start < |ms| && CarriesToolResult(ms[start])
      invariant start <= |ms| + 1 && |ms| - (maxMessages - 1) <= start
      invariant Trimmed(ms, maxMessages) == [first] + ms[SkipResults(ms, Min(start, |ms|))..]
    {
      start := start + 1;
    }
    // A slice that starts past the end is empty.
    out := [first] + ms[Min(start, |ms|)..];
  }

  /**
   * Under the cap everything is kept; past it, the first message and all from the first one on that is no
   * tool result among the last `maxMessages - 1`: only tool results are left out besides.
   */
  lemma WhatIsKept(ms: seq<Message>, maxMessages: nat)
    ensures |ms| <= maxMessages ==> Trimmed(ms, maxMessages) == ms
    ensures |ms| > maxMessages ==>
              exists k: nat :: k <= |ms| && Trimmed(ms, maxMessages) == [ms[0]] + ms[k..]
                               && IsFirstClean(ms, |ms| + 1 - maxMessages, k)
  {
    if |ms| > maxMessages {
      var start := Min(|ms| + 1 - maxMessages, |ms|);
      var k := SkipResults(ms, start);
      OnlyResultsAreSkipped(ms, start);
      assert Trimmed(ms, maxMessages) == [ms[0]] + ms[k..] && IsFirstClean(ms, |ms| + 1 - maxMessages, k);
    }
  }

  /** `k` is the first index from `start` on, within the list, whose message carries no tool result. */
  predicate IsFirstClean(ms: seq<Message>, start: nat, k: nat)
    requires k <= |ms|
  {
    && (start <= k || k == |ms|)
    && (k < |ms| ==> !CarriesToolResult(ms[k]))
    && forall j | start <= j < k :: CarriesToolResult(ms[j])
  }

  lemma {:induction false} OnlyResultsAreSkipped(ms: seq<Message>, k: nat)
    requires k <= |ms|
    ensures forall j | k <= j < SkipResults(ms, k) :: CarriesToolResult(ms[j])
    decreases |ms| - k
  {
    if k < |ms| && CarriesToolResult(ms[k]) {
      OnlyResultsAreSkipped(ms, k + 1);
    }
  }

  /** Without tool results exactly the first message and the last `maxMessages - 1` are kept. */
  lemma LastOnesAreKept(ms: seq<Message>, maxMessages: nat)
    requires 1 <= maxMessages < |ms| && forall m | m in ms :: !CarriesToolResult(m)
    ensures Trimmed(ms, maxMessages) == [ms[0]] + ms[|ms| + 1 - maxMessages..]
  {
    hide Carries;
    assert ms[Min(|ms| + 1 - maxMessages, |ms|)..] == ms[|ms| + 1 - maxMessages..];
  }

  /** Trimming leaves no result without its call, no call without its result, and at most the cap. */
  lemma TrimKeepsPairs(ms: seq<Message>, maxMessages: nat)
    requires Paired(ms)
    ensures var out := Trimmed(ms, maxMessages);
            && Paired(out) && (CallsAreAnswered(ms) ==> CallsAreAnswered(out))
            && |out| <= Max(1, maxMessages)
  {
    hide Carries, Paired, CallsAreAnswered, SkipResults;
    if |ms| > maxMessages {
      var k := SkipResults(ms, Min(|ms| + 1 - maxMessages, |ms|));
      WindowKeepsPairs(ms, Max(1, k));
    }
  }

  /** Stored under the cap and then fitted to the window, or the other way round: still paired. */
  lemma ComposedKeepsPairs(ms: seq<Message>, maxMessages: nat, reserved: nat, available: int)
    requires Paired(ms)
    ensures var out := FitHistory(Trimmed(ms, maxMessages), reserved, available);
            Paired(out) && (CallsAreAnswered(ms) ==> CallsAreAnswered(out))
    ensures var out := Trimmed(FitHistory(ms, reserved, available), maxMessages);
            Paired(out) && (CallsAreAnswered(ms) ==> CallsAreAnswered(out))
  {
    hide Carries, Paired, CallsAreAnswered, Trimmed, FitHistory;
    TrimKeepsPairs(ms, maxMessages);
    FitKeepsPairs(Trimmed(ms, maxMessages), reserved, available);
    FitKeepsPairs(ms, reserved, available);
    TrimKeepsPairs(FitHistory(ms, reserved, available), maxMessages);
  }

  // ---- Skills in the first user message ----

  function SkillOpen(name: string): string { "--- skill: " + name + " ---" }

  function SkillClose(name: string): string { "--- end skill: " + name + " ---" }

  function Delimited(s: Skill): string {
    SkillOpen(s.name) + "\n" + s.body + "\n" + SkillClose(s.name)
  }

  function SkillBlock(ss: seq<Skill>): string
    requires ss != []
  {
    if |ss| == 1 then Delimited(ss[0]) else Delimited(ss[0]) + "\n\n" + SkillBlock(ss[1..])
  }

  function TextOf(text: string): Block { Block(TextBlock, text, "", "", "", "") }

  function InjectSkills(ms: seq<Message>, skills: seq<Skill>): seq<Message> {
    if skills == [] || ms == [] then ms
    else
      var block := SkillBlock(skills);
      if ms[0].role != User then [Message(User, Plain(block))] + ms
      else
        var content :=
          match ms[0].content
          case Plain(text) => Plain(block + "\n\n" + text)
          case Blocks(blocks) => Blocks([TextOf(block)] + blocks);
        [Message(User, content)] + ms[1..]
  }

  datatype Request = Request(
    messages: seq<Message>, systemPrompt: string, skillsUsed: seq<string>, skillsDropped: seq<string>,
    messagesDropped: int, estimatedTokens: int)

  /** `tools` is the JSON text of the tool definitions, "" when there are none. */
  function Overhead(systemPrompt: string, tools: string): nat {
    EstimateTokens(systemPrompt) + (if tools != "" then EstimateTokens(tools) else 0)
  }

  function Available(systemPrompt: string, tools: string, budget: TokenBudget): int {
    budget.contextTokens - budget.reserveTokens - Overhead(systemPrompt, tools)
  }

  function AssembleRequest(h: seq<Message>, systemPrompt: string, tools: string, skills: seq<Skill>,
      budget: TokenBudget): Request {
    var fit := Fitted(h, skills, Available(systemPrompt, tools, budget));
    var messages := InjectSkills(fit.history, fit.skills);
    Request(messages, systemPrompt, Names(fit.skills), fit.skillsDropped, fit.messagesDropped,
            Overhead(systemPrompt, tools) + Cost(messages))
  }

  /** The estimate counts the characters of the system prompt and of the tools beside those of the messages. */
  lemma RequestCounts(h: seq<Message>, systemPrompt: string, tools: string, skills: seq<Skill>, budget: TokenBudget)
    ensures var request := AssembleRequest(h, systemPrompt, tools, skills, budget);
            var beside := request.estimatedTokens - Cost(request.messages);
            |systemPrompt| + |tools| <= 3 * beside <= |systemPrompt| + |tools| + 4
  {
    hide Fitted, Cost, InjectSkills, Names;
  }

  // ---- The bound ----

  /** The characters around the bodies: two delimiters, their line breaks, and a blank line each. */
  function Delimiters(ss: seq<Skill>): nat {
    if ss == [] then 0 else 38 + 2 * |ss[0].name| + Delimiters(ss[1..])
  }

  function Bodies(ss: seq<Skill>): nat {
    if ss == [] then 0 else |ss[0].body| + Bodies(ss[1..])
  }

  lemma DelimitedLength(s: Skill)
    ensures |Delimited(s)| == 36 + 2 * |s.name| + |s.body|
  {
  }

  lemma {:induction false} BlockLength(ss: seq<Skill>)
    requires ss != []
    ensures |SkillBlock(ss)| + 2 == Delimiters(ss) + Bodies(ss)
  {
    hide Delimited;
    DelimitedLength(ss[0]);
    if |ss| > 1 {
      BlockLength(ss[1..]);
    }
  }

  /** Rounding up a sum costs no more than rounding up its parts. */
  lemma TokensOfSum(a: nat, b: nat)
    ensures Tokens(a + b) <= Tokens(a) + Tokens(b)
    ensures a <= b ==> Tokens(a) <= Tokens(b)
  {
  }

  lemma {:induction false} BodiesAreCounted(ss: seq<Skill>)
    ensures Tokens(Bodies(ss)) <= SkillCost(ss)
  {
    if ss != [] {
      BodiesAreCounted(ss[1..]);
      TokensOfSum(|ss[0].body|, Bodies(ss[1..]));
    }
  }

  /** What a list of skills costs as it is sent. */
  function SentCost(ss: seq<Skill>): nat { Tokens(Delimiters(ss) + Bodies(ss)) }

  /** Delimiters cost at most their own rounded-up length on top of the estimate. */
  lemma DelimitersCost(ss: seq<Skill>)
    ensures SentCost(ss) <= Tokens(Delimiters(ss)) + SkillCost(ss)
  {
    hide Tokens;
    BodiesAreCounted(ss);
    TokensOfSum(Delimiters(ss), Bodies(ss));
  }

  lemma BlockCosts(ss: seq<Skill>, extra: nat)
    requires ss != []
    ensures Tokens(|SkillBlock(ss)| + 2 + extra) <= SentCost(ss) + Tokens(extra)
  {
    hide Tokens;
    BlockLength(ss);
    TokensOfSum(Delimiters(ss) + Bodies(ss), extra);
  }

  lemma FirstCosts(m: Message, rest: seq<Message>)
    ensures Cost([m] + rest) == EstimateMessage(m) + Cost(rest)
  {
    hide EstimateMessage;
    assert ([m] + rest)[1..] == rest;
  }

  lemma BlocksCost(b: Block, bs: seq<Block>)
    ensures EstimateBlocks([b] + bs) == EstimateTokens(BlockText(b)) + EstimateBlocks(bs)
  {
    hide EstimateTokens, BlockText;
    assert ([b] + bs)[1..] == bs;
  }

  /** Carrying the skills costs their bodies and delimiters, rounded up together, and nothing else. */
  lemma InjectionCosts(ms: seq<Message>, skills: seq<Skill>)
    ensures Cost(InjectSkills(ms, skills)) <= Cost(ms) + SentCost(skills)
  {
    hide Tokens, Cost, SkillBlock, SkillCost, SentCost, EstimateBlocks;
    if skills != [] && ms != [] {
      var block := SkillBlock(skills);
      var m, rest := ms[0], ms[1..];
      assert ms == [m] + rest;
      FirstCosts(m, rest);
      TokensOfSum(|block|, |block| + 2);
      BlockCosts(skills, 0);
      NoTokens();
      if m.role != User {
        FirstCosts(Message(User, Plain(block)), ms);
      } else {
        match m.content {
          case Plain(text) =>
            BlockCosts(skills, |text|);
            FirstCosts(Message(User, Plain(block + "\n\n" + text)), rest);
          case Blocks(blocks) =>
            BlocksCost(TextOf(block), blocks);
            FirstCosts(Message(User, Blocks([TextOf(block)] + blocks)), rest);
        }
      }
    }
  }

  lemma NoTokens()
    ensures Tokens(0) == 0
  {
  }

  // ---- What carries the skills ----

  /** The first message begins with the skills' block. */
  predicate CarriesSkills(ms: seq<Message>, skills: seq<Skill>) {
    skills == [] ||
    (ms != [] &&
     match ms[0].content
     case Plain(text) => SkillBlock(skills) <= text
     case Blocks(blocks) => blocks != [] && blocks[0] == TextOf(SkillBlock(skills)))
  }

  /** Between the lines that name it, a skill's body stands alone. */
  lemma OneSkill(s: Skill)
    ensures SkillBlock([s]) ==
            "--- skill: " + s.name + " ---" + "\n" + s.body + "\n" + ("--- end skill: " + s.name + " ---")
  {
  }

  /** Skills follow each other in the block as they do in the list, a blank line between them. */
  lemma {:induction false} MoreSkills(a: seq<Skill>, b: seq<Skill>)
    requires a != [] && b != []
    ensures SkillBlock(a + b) == SkillBlock(a) + ("\n\n" + SkillBlock(b))
  {
    hide Delimited;
    assert (a + b)[0] == a[0] && (a + b)[1..] == a[1..] + b;
    if |a| > 1 {
      MoreSkills(a[1..], b);
      assert Delimited(a[0]) + "\n\n" + (SkillBlock(a[1..]) + ("\n\n" + SkillBlock(b)))
          == Delimited(a[0]) + "\n\n" + SkillBlock(a[1..]) + ("\n\n" + SkillBlock(b));
    } else {
      assert a[1..] + b == b;
    }
  }

  /** What the user's first message said follows the skills' block. */
  predicate Opens(m: Message, was: Message, block: string) {
    m.role == was.role &&
    match was.content
    case Plain(text) => m.content == Plain(block + "\n\n" + text)
    case Blocks(blocks) => m.content == Blocks([TextOf(block)] + blocks)
  }

  /** Carrying the skills loses nothing: every message stays, the user's first one behind the block. */
  lemma NothingIsOverwritten(ms: seq<Message>, skills: seq<Skill>)
    ensures var out := InjectSkills(ms, skills);
            if skills == [] || ms == [] then out == ms
            else if ms[0].role == User then
              |out| == |ms| && out[1..] == ms[1..] && Opens(out[0], ms[0], SkillBlock(skills))
            else |out| == |ms| + 1 && out[1..] == ms && out[0] == Message(User, Plain(SkillBlock(skills)))
  {
    hide SkillBlock;
  }

  lemma InjectionCarries(ms: seq<Message>, skills: seq<Skill>)
    ensures CarriesSkills(InjectSkills(ms, skills), skills) <==> ms != [] || skills == []
  {
    hide SkillBlock;
  }

  /**
   * Skills ride in the first message: those a request names as used are carried by it if and only if
   * there is some history, or none is named.
   */
  lemma NamedSkillsAreCarriedIff(h: seq<Message>, systemPrompt: string, tools: string, skills: seq<Skill>,
      budget: TokenBudget)
    ensures var request := AssembleRequest(h, systemPrompt, tools, skills, budget);
            var fit := Fitted(h, skills, Available(systemPrompt, tools, budget));
            && request.skillsUsed == Names(fit.skills)
            && (CarriesSkills(request.messages, fit.skills) <==> h != [] || request.skillsUsed == [])
            && (h == [] ==> request.messages == [])
  {
    hide Greedy, Sorted, Left, Always, Matched, SkillCost, Overhead, InjectSkills, CarriesSkills, CleanFrom, FillFrom,
        Names;
    var fit := Fitted(h, skills, Available(systemPrompt, tools, budget));
    NamesCount(fit.skills);
    InjectionCarries(fit.history, fit.skills);
    NothingInjected(fit.skills);
  }

  lemma NothingInjected(skills: seq<Skill>)
    ensures InjectSkills([], skills) == []
  {
  }

  // ---- The request that is sent ----

  /** The request as sent has no result without its call and no call without its result. */
  lemma RequestKeepsPairs(h: seq<Message>, systemPrompt: string, tools: string, skills: seq<Skill>, budget: TokenBudget)
    requires Paired(h)
    ensures var ms := AssembleRequest(h, systemPrompt, tools, skills, budget).messages;
            Paired(ms) && (CallsAreAnswered(h) ==> CallsAreAnswered(ms))
  {
    hide Paired, CallsAreAnswered, FitHistory, InjectSkills, Greedy, Sorted, Left, Always, Matched, SkillCost,
        Overhead, Cost, UsedByHistory;
    var available := Available(systemPrompt, tools, budget);
    var fit := Fitted(h, skills, available);
    FitKeepsPairs(h, SkillCost(Always(skills)), available);
    InjectionKeepsPairs(fit.history, fit.skills);
  }

  lemma InjectionKeepsPairs(ms: seq<Message>, skills: seq<Skill>)
    requires Paired(ms)
    ensures Paired(InjectSkills(ms, skills)) && (CallsAreAnswered(ms) ==> CallsAreAnswered(InjectSkills(ms, skills)))
  {
    hide SkillBlock, Answers, Paired, CallsAreAnswered, Carries;
    if skills != [] && ms != [] {
      var out := InjectSkills(ms, skills);
      OpeningStaysPlain(ms, skills);
      if ms[0].role != User {
        BehindANewOpening(ms, out[0]);
      } else {
        NewOpening(ms, out[0]);
      }
    }
  }

  predicate IsPlain(m: Message) { !CarriesToolResult(m) && !CarriesToolUse(m) }

  lemma OpeningStaysPlain(ms: seq<Message>, skills: seq<Skill>)
    requires Paired(ms) && skills != [] && ms != []
    ensures IsPlain(InjectSkills(ms, skills)[0])
  {
    hide SkillBlock, ResultsFollow;
  }

  lemma BehindANewOpening(ms: seq<Message>, m: Message)
    requires Paired(ms) && IsPlain(m)
    ensures Paired([m] + ms) && (CallsAreAnswered(ms) ==> CallsAreAnswered([m] + ms))
  {
    hide Answers, Carries;
    var out := [m] + ms;
    assert forall i | 1 <= i < |out| :: out[i] == ms[i - 1];
  }

  lemma NewOpening(ms: seq<Message>, m: Message)
    requires Paired(ms) && IsPlain(m) && ms != []
    ensures Paired([m] + ms[1..]) && (CallsAreAnswered(ms) ==> CallsAreAnswered([m] + ms[1..]))
  {
    hide Carries;
    var out := [m] + ms[1..];
    assert forall i | 1 <= i < |out| :: out[i] == ms[i];
  }
}
