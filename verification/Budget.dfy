/** Fitting a conversation and its skills into a token window. */
module Budget {
  import opened Sorting

  const CHARS_PER_TOKEN := 3
  const BUDGET_SAFETY_MARGIN := 1024

  datatype Role = User | Assistant

  datatype Kind = TextBlock | ToolUse | ToolResult | Thinking

  /**
   * A content block. An absent field is "". `input` is the JSON text of a call's arguments; `id` is
   * the call's id on a `ToolUse` and the id of the call it answers on a `ToolResult`.
   */
  datatype Block = Block(kind: Kind, text: string, content: string, name: string, input: string, id: string)

  datatype Content = Plain(text: string) | Blocks(blocks: seq<Block>)

  datatype Message = Message(role: Role, content: Content)

  /** `always`: part of every request; the others were matched to the conversation. */
  datatype Skill = Skill(name: string, body: string, always: bool)

  datatype Fit = Fit(history: seq<Message>, skills: seq<Skill>, skillsDropped: seq<string>, messagesDropped: int)

  // ---- Estimates ----

  /** Characters to tokens, rounded up. */
  function Tokens(chars: nat): nat { (chars + CHARS_PER_TOKEN - 1) / CHARS_PER_TOKEN }

  function EstimateTokens(text: string): nat { Tokens(|text|) }

  function BlockText(b: Block): string { b.text + b.content + b.name + b.input }

  function EstimateBlocks(bs: seq<Block>): nat {
    if bs == [] then 0 else EstimateTokens(BlockText(bs[0])) + EstimateBlocks(bs[1..])
  }

  function EstimateMessage(m: Message): nat {
    match m.content
    case Plain(text) => EstimateTokens(text)
    case Blocks(blocks) => EstimateBlocks(blocks)
  }

  function Cost(ms: seq<Message>): nat {
    if ms == [] then 0 else EstimateMessage(ms[0]) + Cost(ms[1..])
  }

  function SkillCost(ss: seq<Skill>): nat {
    if ss == [] then 0 else EstimateTokens(ss[0].body) + SkillCost(ss[1..])
  }

  predicate Carries(m: Message, role: Role, kind: Kind) {
    m.role == role && m.content.Blocks? && exists b | b in m.content.blocks :: b.kind == kind
  }

  predicate CarriesToolResult(m: Message) { Carries(m, User, ToolResult) }

  predicate CarriesToolUse(m: Message) { Carries(m, Assistant, ToolUse) }

  // ---- Which messages are kept ----

  /** The first message of the pinned end: a trailing tool result takes its tool use along. */
  function PinFrom(h: seq<Message>): nat
    requires h != []
    ensures PinFrom(h) < |h|
  {
    var last := |h| - 1;
    if last > 0 && CarriesToolResult(h[last]) && CarriesToolUse(h[last - 1]) then last - 1 else last
  }

  function Max(a: nat, b: nat): nat { if a < b then b else a }

  /** The opening message and the pinned end. */
  function Pins(h: seq<Message>): seq<Message>
    requires h != []
  {
    [h[0]] + h[Max(1, PinFrom(h))..]
  }

  /** Where the run of messages that ends before `end` and costs at most `room` begins, newest first. */
  function FillFrom(h: seq<Message>, end: nat, room: int): (k: nat)
    requires 1 <= end <= |h|
    ensures 1 <= k <= end
  {
    if end > 1 && EstimateMessage(h[end - 1]) <= room
    then FillFrom(h, end - 1, room - EstimateMessage(h[end - 1]))
    else end
  }

  /** The first message from `k` on that is no tool result, or the last message. */
  function CleanFrom(h: seq<Message>, k: nat): (n: nat)
    requires k <= |h|
    ensures k <= n <= |h| && (k < |h| ==> n < |h|)
    decreases |h| - k
  {
    if k + 1 < |h| && CarriesToolResult(h[k]) then CleanFrom(h, k + 1) else k
  }

  function MiddleFrom(h: seq<Message>, reserved: nat, available: int): nat
    requires h != []
    ensures 1 <= MiddleFrom(h, reserved, available) <= |h|
  {
    FillFrom(h, Max(1, PinFrom(h)), available - reserved - Cost(Pins(h)))
  }

  function FitHistory(h: seq<Message>, reserved: nat, available: int): seq<Message> {
    if h == [] then [] else [h[0]] + h[CleanFrom(h, MiddleFrom(h, reserved, available))..]
  }

  /** What the kept messages cost before a leading tool result is skipped. */
  function UsedByHistory(h: seq<Message>, reserved: nat, available: int): nat {
    if h == [] then reserved
    else reserved + Cost(Pins(h)) + Cost(h[MiddleFrom(h, reserved, available)..Max(1, PinFrom(h))])
  }

  // ---- Which skills are kept ----

  function Always(ss: seq<Skill>): seq<Skill> {
    if ss == [] then [] else (if ss[0].always then [ss[0]] else []) + Always(ss[1..])
  }

  function Matched(ss: seq<Skill>): seq<Skill> {
    if ss == [] then [] else (if ss[0].always then [] else [ss[0]]) + Matched(ss[1..])
  }

  predicate IsNoLonger(a: Skill, b: Skill) { |a.body| <= |b.body| }

  /** The stable sort by body length. */
  function Sorted(ss: seq<Skill>): seq<Skill> { Sort(IsNoLonger, ss) }

  /** The greedy fill: a skill that does not fit is skipped and the next one tried. */
  function Greedy(ss: seq<Skill>, used: nat, available: int): seq<Skill> {
    if ss == [] then []
    else
      var t := EstimateTokens(ss[0].body);
      if used + t <= available then [ss[0]] + Greedy(ss[1..], used + t, available) else Greedy(ss[1..], used, available)
  }

  function Left(ss: seq<Skill>, used: nat, available: int): seq<Skill> {
    if ss == [] then []
    else
      var t := EstimateTokens(ss[0].body);
      if used + t <= available then Left(ss[1..], used + t, available) else [ss[0]] + Left(ss[1..], used, available)
  }

  function Names(ss: seq<Skill>): seq<string> {
    if ss == [] then [] else [ss[0].name] + Names(ss[1..])
  }

  function Fitted(h: seq<Message>, skills: seq<Skill>, available: int): Fit {
    var reserved := SkillCost(Always(skills));
    var used := UsedByHistory(h, reserved, available);
    var matched := Sorted(Matched(skills));
    var history := FitHistory(h, reserved, available);
    Fit(history, Always(skills) + Greedy(matched, used, available),
        Names(Left(matched, used, available)), |h| - |history|)
  }

  // ---- The code ----

  method FitSkills(skills: seq<Skill>, used0: nat, available: int) returns (kept: seq<Skill>, dropped: seq<string>)
    ensures kept == Greedy(Sorted(skills), used0, available)
    ensures dropped == Names(Left(Sorted(skills), used0, available))
  {
    hide Sorted, Greedy, Left, EstimateTokens;
    kept, dropped := [], [];
    var used: nat := used0;
    var sorted := Sorted(skills);
    for i := 0 to |sorted|
      invariant Greedy(sorted, used0, available) == kept + Greedy(sorted[i..], used, available)
      invariant Names(Left(sorted, used0, available)) == dropped + Names(Left(sorted[i..], used, available))
    {
      var s := sorted[i];
      FillStep(sorted, i, used, available);
      var t := EstimateTokens(s.body);
      if used + t <= available {
        Concat(kept, [s], Greedy(sorted[i + 1..], used + t, available));
        used := used + t;
        kept := kept + [s];
      } else {
        Concat(dropped, [s.name], Names(Left(sorted[i + 1..], used, available)));
        dropped := dropped + [s.name];
      }
    }
    assert sorted[|sorted|..] == [];
    NothingToFit(used, available);
  }

  lemma NothingToFit(used: nat, available: int)
    ensures Greedy([], used, available) == [] && Names(Left([], used, available)) == []
  {
  }

  lemma Concat<T>(a: seq<T>, b: seq<T>, c: seq<T>)
    ensures a + b + c == a + (b + c)
  {
  }

  lemma FillStep(ss: seq<Skill>, i: nat, used: nat, available: int)
    requires i < |ss|
    ensures var t := EstimateTokens(ss[i].body);
            && Greedy(ss[i..], used, available) ==
               (if used + t <= available then [ss[i]] + Greedy(ss[i + 1..], used + t, available)
                else Greedy(ss[i + 1..], used, available))
            && Names(Left(ss[i..], used, available)) ==
               (if used + t <= available then Names(Left(ss[i + 1..], used + t, available))
                else [ss[i].name] + Names(Left(ss[i + 1..], used, available)))
  {
    hide EstimateTokens;
    assert ss[i..][1..] == ss[i + 1..];
    var rest := Left(ss[i + 1..], used, available);
    assert ([ss[i]] + rest)[1..] == rest;
  }

  lemma {:induction false} CostSplit(a: seq<Message>, b: seq<Message>)
    ensures Cost(a + b) == Cost(a) + Cost(b)
  {
    hide EstimateMessage;
    if a == [] {
      assert a + b == b;
    } else {
      assert (a + b)[1..] == a[1..] + b;
      CostSplit(a[1..], b);
    }
  }

  lemma CostOfOne(m: Message)
    ensures Cost([m]) == EstimateMessage(m)
  {
    hide EstimateMessage;
    assert [m][1..] == [];
  }

  /** One more message at the front of a run. */
  lemma CostGrows(h: seq<Message>, i: nat, j: nat)
    requires i < j <= |h|
    ensures Cost(h[i..j]) == EstimateMessage(h[i]) + Cost(h[i + 1..j])
  {
    hide EstimateMessage;
    assert h[i..j][1..] == h[i + 1..j];
  }

  method FitToBudget(h: seq<Message>, skills: seq<Skill>, available: int) returns (fit: Fit)
    ensures fit == Fitted(h, skills, available)
  {
    hide Sorted, Greedy, Left, Names, EstimateMessage, Carries, SkillCost, Always, Matched, Cost, FillFrom, CleanFrom;
    var always, matched := Always(skills), Matched(skills);
    var reserved := SkillCost(always);
    if |h| == 0 {
      var kept, dropped := FitSkills(matched, reserved, available);
      return Fit([], always + kept, dropped, 0);
    }
    var last := |h| - 1;
    var pinFrom := if last > 0 && CarriesToolResult(h[last]) && CarriesToolUse(h[last - 1]) then last - 1 else last;
    var tailFrom := if pinFrom > 0 then pinFrom else 1;
    var pinned := reserved + Cost([h[0]] + h[tailFrom..]);
    var middle, used := FillMiddle(h, tailFrom, pinned, available);
    var kept, dropped := FitSkills(matched, used, available);
    var from := MiddleFrom(h, reserved, available);
    Halves(h, from, tailFrom);
    var out := SkipLeadingResults(h, from, [h[0]] + (middle + h[tailFrom..]));
    fit := Fit(out, always + kept, dropped, |h| - |out|);
  }

  lemma Halves<T>(s: seq<T>, i: nat, j: nat)
    requires i <= j <= |s|
    ensures s[i..j] + s[j..] == s[i..]
  {
  }

  /** The messages before `end` that fit, newest first, until one does not. */
  method FillMiddle(h: seq<Message>, end: nat, pinned: nat, available: int) returns (middle: seq<Message>, used: nat)
    requires 1 <= end <= |h|
    ensures middle == h[FillFrom(h, end, available - pinned)..end]
    ensures used == pinned + Cost(middle)
  {
    hide EstimateMessage;
    middle, used := [], pinned;
    var i := end;
    while i > 1
      invariant 1 <= i <= end && middle == h[i..end]
      invariant used == pinned + Cost(middle)
      invariant FillFrom(h, end, available - pinned) == FillFrom(h, i, available - used)
    {
      var t := EstimateMessage(h[i - 1]);
      if used + t > available {
        break;
      }
      CostGrows(h, i - 1, end);
      used := used + t;
      middle := [h[i - 1]] + middle;
      i := i - 1;
    }
  }

  method SkipLeadingResults(h: seq<Message>, k: nat, out0: seq<Message>) returns (out: seq<Message>)
    requires 1 <= k <= |h| && out0 == [h[0]] + h[k..]
    ensures out == [h[0]] + h[CleanFrom(h, k)..]
  {
    hide Carries;
    out := out0;
    var start := 1;
    while start < |out| - 1 && CarriesToolResult(out[start])
      invariant out == out0 && 1 <= start && k + start - 1 <= |h|
      invariant CleanFrom(h, k) == CleanFrom(h, k + start - 1)
    {
      assert out[start] == h[k + start - 1];
      start := start + 1;
    }
    var n := k + start - 1;
    assert start < |out| ==> out[start] == h[n];
    assert out[start..] == h[n..];
    if start > 1 {
      out := [out[0]] + out[start..];
    }
  }
}
