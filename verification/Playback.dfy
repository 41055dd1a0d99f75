/** A recorded run played back: the model's answers and the tools' results, by queue. */
module Playback {
  import opened Text

  datatype Phase = Investigate | Proposal

  datatype Kind = Start | Llm | Tool | Other

  datatype ToolResult = ToolResult(result: Option<string>, error: Option<string>)

  /** A row of the trace; only the fields of its kind mean anything. */
  datatype Event = Event(
    kind: Kind, thread: string, run: string, phase: Phase,
    reply: string, name: string, input: string, outcome: ToolResult)

  /** A run's phase, from the newest of its start rows. */
  function PhaseOf(es: seq<Event>, run: string): Phase {
    if es == [] then Investigate
    else
      var e := es[|es| - 1];
      if e.kind.Start? && e.run == run then e.phase else PhaseOf(es[..|es| - 1], run)
  }

  // ---- Queues ----

  function QueueAt<K, V>(queues: map<K, seq<V>>, k: K): seq<V> { if k in queues then queues[k] else [] }

  function CountAt<K>(served: map<K, nat>, k: K): nat { if k in served then served[k] else 0 }

  /** What `es` adds to each queue, in order: `item` says where a row goes and what it holds. */
  function Recorded<K(==), V>(es: seq<Event>, item: Event -> Option<(K, V)>, k: K): seq<V> {
    if es == [] then []
    else
      var i := item(es[|es| - 1]);
      Recorded(es[..|es| - 1], item, k) + if i.Some? && i.value.0 == k then [i.value.1] else []
  }

  method Fill<K(==), V>(es: seq<Event>, item: Event -> Option<(K, V)>) returns (queues: map<K, seq<V>>)
    ensures forall k :: QueueAt(queues, k) == Recorded(es, item, k)
  {
    queues := map[];
    for n := 0 to |es|
      invariant forall k :: QueueAt(queues, k) == Recorded(es[..n], item, k)
    {
      assert es[..n + 1][..n] == es[..n];
      var i := item(es[n]);
      if i.Some? {
        queues := queues[i.value.0 := QueueAt(queues, i.value.0) + [i.value.1]];
      }
    }
    assert es[..|es|] == es;
  }

  // ---- The model ----

  /** One queue per phase and thread. The program joins the parts with bars; `KeysAreApart`. */
  datatype ChatKey = ChatKey(phase: Phase, thread: string)

  datatype Answer = Replied(reply: string) | Diverged | PassedOn

  /** The call that the recording does not have: which one of its queue, and how many there are. */
  datatype Divergence = Divergence(key: ChatKey, call: nat, have: nat)

  datatype ChatState = ChatState(queues: map<ChatKey, seq<string>>, served: map<ChatKey, nat>,
      divergedAt: Option<Divergence>)

  function ChatItem(es: seq<Event>, e: Event): Option<(ChatKey, string)> {
    if e.kind.Llm? then Some((ChatKey(PhaseOf(es, e.run), e.thread), e.reply)) else None
  }

  function ChatAnswer(l: ChatState, k: ChatKey): Answer {
    var n, queue := CountAt(l.served, k), QueueAt(l.queues, k);
    if n < |queue| then Replied(queue[n]) else Diverged
  }

  function Chatted(l: ChatState, k: ChatKey): ChatState {
    var n, have := CountAt(l.served, k), |QueueAt(l.queues, k)|;
    ChatState(l.queues, l.served[k := n + 1],
        if n >= have && l.divergedAt.None? then Some(Divergence(k, n + 1, have)) else l.divergedAt)
  }

  /** Which calls go to a live model instead: none, all, or those of some phases. */
  datatype Live = Recording | Always | Only(phases: set<Phase>)

  class ReplayLLM {
    const live: Live
    var phase: Phase
    var divergedAt: Option<Divergence>
    var queues: map<ChatKey, seq<string>>
    var served: map<ChatKey, nat>

    constructor (es: seq<Event>, live: Live)
      ensures this.live == live && phase == Investigate && divergedAt == None && served == map[]
      ensures forall k :: QueueAt(queues, k) == Recorded(es, (e: Event) => ChatItem(es, e), k)
    {
      var filled := Fill(es, (e: Event) => ChatItem(es, e));
      this.live := live;
      phase, divergedAt, queues, served := Investigate, None, filled, map[];
    }

    function View(): ChatState
      reads this
    {
      ChatState(queues, served, divergedAt)
    }

    predicate IsLive()
      reads this
    {
      live.Always? || (live.Only? && phase in live.phases)
    }

    method Chat(thread: string) returns (answer: Answer)
      modifies this
      ensures phase == old(phase) && queues == old(queues)
      ensures old(IsLive()) ==> answer == PassedOn && View() == old(View())
      ensures !old(IsLive()) ==>
                && answer == ChatAnswer(old(View()), ChatKey(phase, thread))
                && View() == Chatted(old(View()), ChatKey(phase, thread))
    {
      if live.Always? || (live.Only? && phase in live.phases) {
        return PassedOn;
      }
      var k := ChatKey(phase, thread);
      var n := CountAt(served, k);
      served := served[k := n + 1];
      var queue := QueueAt(queues, k);
      if n >= |queue| {
        if divergedAt == None {
          divergedAt := Some(Divergence(k, n + 1, |queue|));
        }
        return Diverged;
      }
      answer := Replied(queue[n]);
    }
  }

  // ---- The cluster ----

  /** One queue per phase, thread and tool call, time windows aside. */
  datatype ToolKey = ToolKey(phase: Phase, thread: string, call: string)

  /** What a caller sees of a recorded result, or a text that says that nothing was recorded. */
  datatype Outcome = Returned(text: string) | Threw(error: string)

  datatype ToolState = ToolState(results: map<ToolKey, seq<ToolResult>>, served: map<ToolKey, nat>,
      divergedAt: Option<ToolKey>)

  function ToolItem(es: seq<Event>, toolCallKey: (string, string) -> string, e: Event): Option<(ToolKey, ToolResult)> {
    if e.kind.Tool?
    then Some((ToolKey(PhaseOf(es, e.run), e.thread, toolCallKey(e.name, e.input)), e.outcome))
    else None
  }

  function Shown(r: ToolResult): Outcome {
    if r.error.Some? then Threw(r.error.value) else Returned(if r.result.Some? then r.result.value else "")
  }

  function NotRecorded(name: string): Outcome { Returned("Error: not recorded in this trace (" + name + ")") }

  function ToolOutcome(m: ToolState, k: ToolKey, name: string): Outcome {
    var recorded := QueueAt(m.results, k);
    if recorded == [] then NotRecorded(name) else Shown(recorded[Min(CountAt(m.served, k), |recorded| - 1)])
  }

  function Called(m: ToolState, k: ToolKey, gates: bool): ToolState {
    var recorded := QueueAt(m.results, k);
    if recorded == [] then
      m.(divergedAt := if gates && m.divergedAt.None? then Some(k) else m.divergedAt)
    else
      m.(served := m.served[k := Min(CountAt(m.served, k), |recorded| - 1) + 1])
  }

  class ReplayMCP {
    /** Whether a call that was never recorded counts as a divergence. */
    const gates: bool
    const toolCallKey: (string, string) -> string
    var phase: Phase
    var divergedAt: Option<ToolKey>
    var results: map<ToolKey, seq<ToolResult>>
    var served: map<ToolKey, nat>

    constructor (es: seq<Event>, gates: bool, toolCallKey: (string, string) -> string)
      ensures this.gates == gates && this.toolCallKey == toolCallKey
      ensures phase == Investigate && divergedAt == None && served == map[]
      ensures forall k :: QueueAt(results, k) == Recorded(es, (e: Event) => ToolItem(es, toolCallKey, e), k)
    {
      var filled := Fill(es, (e: Event) => ToolItem(es, toolCallKey, e));
      this.gates, this.toolCallKey := gates, toolCallKey;
      phase, divergedAt, results, served := Investigate, None, filled, map[];
    }

    function View(): ToolState
      reads this
    {
      ToolState(results, served, divergedAt)
    }

    method CallTool(thread: string, name: string, input: string) returns (outcome: Outcome)
      modifies this
      ensures phase == old(phase) && results == old(results)
      ensures var k := ToolKey(phase, thread, toolCallKey(name, input));
              outcome == ToolOutcome(old(View()), k, name) && View() == Called(old(View()), k, gates)
    {
      var k := ToolKey(phase, thread, toolCallKey(name, input));
      var recorded := QueueAt(results, k);
      if |recorded| == 0 {
        if gates && divergedAt == None {
          divergedAt := Some(k);
        }
        return NotRecorded(name);
      }
      var i := Min(CountAt(served, k), |recorded| - 1);
      served := served[k := i + 1];
      var r := recorded[i];
      if r.error.Some? {
        return Threw(r.error.value);
      }
      outcome := Returned(if r.result.Some? then r.result.value else "");
    }
  }

  // ---- Schedules of the model's calls ----

  function Count<K(==)>(calls: seq<K>, k: K): nat {
    if calls == [] then 0 else (if calls[0] == k then 1 else 0) + Count(calls[1..], k)
  }

  function AfterChats(l: ChatState, calls: seq<ChatKey>): ChatState
    decreases |calls|
  {
    if calls == [] then l else AfterChats(Chatted(l, calls[0]), calls[1..])
  }

  /** The answers the calls of one queue get, in order. */
  function AnswersTo(l: ChatState, calls: seq<ChatKey>, k: ChatKey): seq<Answer>
    decreases |calls|
  {
    if calls == [] then []
    else (if calls[0] == k then [ChatAnswer(l, k)] else []) + AnswersTo(Chatted(l, calls[0]), calls[1..], k)
  }

  /** The answers of calls `from` to `from + n` of a queue. */
  function Played(queue: seq<string>, from: nat, n: nat): seq<Answer>
    decreases n
  {
    if n == 0 then [] else [if from < |queue| then Replied(queue[from]) else Diverged] + Played(queue, from + 1, n - 1)
  }

  /** The n-th call of a queue gets its n-th recorded reply, and diverges exactly when there is none. */
  lemma {:induction false} PlayedAt(queue: seq<string>, from: nat, n: nat, i: nat)
    requires i < n
    ensures |Played(queue, from, n)| == n
    ensures Played(queue, from, n)[i] == if from + i < |queue| then Replied(queue[from + i]) else Diverged
    decreases n
  {
    if n > 1 {
      PlayedAt(queue, from + 1, n - 1, if i > 0 then i - 1 else 0);
    }
  }

  lemma {:induction false} AnswersArePlayed(l: ChatState, calls: seq<ChatKey>, k: ChatKey)
    ensures AnswersTo(l, calls, k) == Played(QueueAt(l.queues, k), CountAt(l.served, k), Count(calls, k))
    decreases |calls|
  {
    if calls != [] {
      AnswersArePlayed(Chatted(l, calls[0]), calls[1..], k);
    }
  }

  /** Some call in `calls` finds its queue exhausted. */
  ghost predicate RunsOut(l: ChatState, calls: seq<ChatKey>) {
    exists k :: k in calls && CountAt(l.served, k) + Count(calls, k) > |QueueAt(l.queues, k)|
  }

  lemma {:induction false} CountIsPositive<K>(calls: seq<K>, k: K)
    ensures k in calls <==> Count(calls, k) > 0
  {
    if calls != [] {
      CountIsPositive(calls[1..], k);
      assert calls == [calls[0]] + calls[1..];
    }
  }

  lemma {:induction false} DivergesIff(l: ChatState, calls: seq<ChatKey>)
    ensures AfterChats(l, calls).divergedAt.Some? <==> l.divergedAt.Some? || RunsOut(l, calls)
    decreases |calls|
  {
    if calls != [] {
      var c, l2 := calls[0], Chatted(l, calls[0]);
      DivergesIff(l2, calls[1..]);
      RunsOutStep(l, calls);
    }
  }

  lemma RunsOutStep(l: ChatState, calls: seq<ChatKey>)
    requires calls != []
    ensures RunsOut(l, calls) <==> ChatAnswer(l, calls[0]) == Diverged || RunsOut(Chatted(l, calls[0]), calls[1..])
  {
    hide Count;
    var c, l2, rest := calls[0], Chatted(l, calls[0]), calls[1..];
    if ChatAnswer(l, c) == Diverged {
      CountStep(calls, c);
      assert c in calls;
    }
    if k :| k in rest && CountAt(l2.served, k) + Count(rest, k) > |QueueAt(l2.queues, k)| {
      CountStep(calls, k);
      assert k in calls;
    }
    if k :| k in calls && CountAt(l.served, k) + Count(calls, k) > |QueueAt(l.queues, k)| {
      CountStep(calls, k);
      CountIsPositive(rest, k);
      assert k in rest ==> CountAt(l2.served, k) + Count(rest, k) > |QueueAt(l2.queues, k)|;
    }
  }

  lemma CountStep<K>(calls: seq<K>, k: K)
    requires calls != []
    ensures Count(calls, k) == (if calls[0] == k then 1 else 0) + Count(calls[1..], k)
  {
  }

  /**
   * However the calls interleave, as long as every queue gets as many: every caller gets the same
   * answers in the same order, and the run diverges in the one schedule if it does in the other.
   */
  lemma ScheduleDoesNotMatter(l: ChatState, some: seq<ChatKey>, other: seq<ChatKey>)
    requires forall k :: Count(some, k) == Count(other, k)
    ensures forall k :: AnswersTo(l, some, k) == AnswersTo(l, other, k)
    ensures AfterChats(l, some).divergedAt.Some? <==> AfterChats(l, other).divergedAt.Some?
  {
    hide Count, AnswersTo, AfterChats;
    forall k
      ensures AnswersTo(l, some, k) == AnswersTo(l, other, k)
    {
      AnswersArePlayed(l, some, k);
      AnswersArePlayed(l, other, k);
    }
    DivergesIff(l, some);
    DivergesIff(l, other);
    SameCallsRunOut(l, some, other);
    SameCallsRunOut(l, other, some);
  }

  lemma SameCallsRunOut(l: ChatState, some: seq<ChatKey>, other: seq<ChatKey>)
    requires forall k :: Count(some, k) == Count(other, k)
    ensures RunsOut(l, some) ==> RunsOut(l, other)
  {
    hide Count;
    if k :| k in some && CountAt(l.served, k) + Count(some, k) > |QueueAt(l.queues, k)| {
      CountIsPositive(some, k);
      CountIsPositive(other, k);
      assert k in other && CountAt(l.served, k) + Count(other, k) > |QueueAt(l.queues, k)|;
    }
  }

  // ---- Schedules of the tool calls ----

  datatype ToolCall = ToolCall(key: ToolKey, name: string)

  function AfterCalls(m: ToolState, calls: seq<ToolCall>, gates: bool): ToolState
    decreases |calls|
  {
    if calls == [] then m else AfterCalls(Called(m, calls[0].key, gates), calls[1..], gates)
  }

  function OutcomesTo(m: ToolState, calls: seq<ToolCall>, gates: bool, k: ToolKey): seq<Outcome>
    decreases |calls|
  {
    if calls == [] then []
    else
      (if calls[0].key == k then [ToolOutcome(m, k, calls[0].name)] else [])
      + OutcomesTo(Called(m, calls[0].key, gates), calls[1..], gates, k)
  }

  /** The calls of one queue, in order. */
  function CallsOf(calls: seq<ToolCall>, k: ToolKey): seq<ToolCall> {
    if calls == [] then [] else (if calls[0].key == k then [calls[0]] else []) + CallsOf(calls[1..], k)
  }

  /** The outcomes of a queue's calls from its `from`-th on, the last recorded one repeating. */
  function Repeating(recorded: seq<ToolResult>, from: nat, calls: seq<ToolCall>): seq<Outcome>
    decreases |calls|
  {
    if calls == [] then []
    else
      [if recorded == [] then NotRecorded(calls[0].name) else Shown(recorded[Min(from, |recorded| - 1)])]
      + Repeating(recorded, from + 1, calls[1..])
  }

  /** The n-th call of a recorded queue gets the n-th result, or the last one. */
  lemma {:induction false} RepeatingAt(recorded: seq<ToolResult>, from: nat, calls: seq<ToolCall>, n: nat)
    requires n < |calls| && recorded != []
    ensures |Repeating(recorded, from, calls)| == |calls|
    ensures Repeating(recorded, from, calls)[n] == Shown(recorded[Min(from + n, |recorded| - 1)])
    decreases |calls|
  {
    if |calls| > 1 {
      RepeatingAt(recorded, from + 1, calls[1..], if n > 0 then n - 1 else 0);
    } else {
      assert calls[1..] == [];
    }
  }

  /** Counting stops at the last result, which does not change what is served. */
  lemma {:induction false} RepeatingCaps(recorded: seq<ToolResult>, from: nat, calls: seq<ToolCall>)
    requires recorded == [] || from >= |recorded|
    ensures Repeating(recorded, from + 1, calls) == Repeating(recorded, from, calls)
    decreases |calls|
  {
    if calls != [] {
      RepeatingCaps(recorded, from + 1, calls[1..]);
    }
  }

  lemma {:induction false} OutcomesRepeat(m: ToolState, calls: seq<ToolCall>, gates: bool, k: ToolKey)
    requires CountAt(m.served, k) <= |QueueAt(m.results, k)|
    ensures OutcomesTo(m, calls, gates, k) == Repeating(QueueAt(m.results, k), CountAt(m.served, k), CallsOf(calls, k))
    decreases |calls|
  {
    hide Repeating, Called, ToolOutcome, CountAt, QueueAt;
    if calls == [] {
      NothingRepeats(QueueAt(m.results, k), CountAt(m.served, k));
    } else {
      var c := calls[0];
      OtherQueueStays(m, c.key, gates, k);
      OutcomesRepeat(Called(m, c.key, gates), calls[1..], gates, k);
      if c.key == k {
        OneOutcome(m, c, gates, CallsOf(calls[1..], k));
      } else {
        assert CallsOf(calls, k) == CallsOf(calls[1..], k);
      }
    }
  }

  lemma OtherQueueStays(m: ToolState, called: ToolKey, gates: bool, k: ToolKey)
    requires CountAt(m.served, k) <= |QueueAt(m.results, k)|
    ensures var after := Called(m, called, gates);
            && QueueAt(after.results, k) == QueueAt(m.results, k)
            && CountAt(after.served, k) <= |QueueAt(m.results, k)|
            && (called != k ==> CountAt(after.served, k) == CountAt(m.served, k))
  {
  }

  lemma NothingRepeats(recorded: seq<ToolResult>, from: nat)
    ensures Repeating(recorded, from, []) == []
  {
  }

  lemma OneOutcome(m: ToolState, c: ToolCall, gates: bool, rest: seq<ToolCall>)
    requires CountAt(m.served, c.key) <= |QueueAt(m.results, c.key)|
    ensures var m2, recorded := Called(m, c.key, gates), QueueAt(m.results, c.key);
            Repeating(recorded, CountAt(m.served, c.key), [c] + rest) ==
            [ToolOutcome(m, c.key, c.name)] + Repeating(recorded, CountAt(m2.served, c.key), rest)
  {
    var recorded, n := QueueAt(m.results, c.key), CountAt(m.served, c.key);
    assert ([c] + rest)[1..] == rest;
    if recorded == [] || n == |recorded| {
      RepeatingCaps(recorded, n, rest);
    }
  }

  /** However tool calls interleave, as long as each queue's own calls are the same: so are their outcomes. */
  lemma ToolScheduleDoesNotMatter(m: ToolState, some: seq<ToolCall>, other: seq<ToolCall>, gates: bool, k: ToolKey)
    requires CallsOf(some, k) == CallsOf(other, k) && CountAt(m.served, k) <= |QueueAt(m.results, k)|
    ensures OutcomesTo(m, some, gates, k) == OutcomesTo(m, other, gates, k)
  {
    hide OutcomesTo, CallsOf;
    OutcomesRepeat(m, some, gates, k);
    OutcomesRepeat(m, other, gates, k);
  }

  /** A run is marked as diverged if and only if gates are replayed and some call was never recorded. */
  lemma {:induction false} MarkedIff(m: ToolState, calls: seq<ToolCall>, gates: bool)
    ensures AfterCalls(m, calls, gates).divergedAt.Some? <==>
            m.divergedAt.Some? || (gates && exists c :: c in calls && QueueAt(m.results, c.key) == [])
    decreases |calls|
  {
    if calls != [] {
      assert calls == [calls[0]] + calls[1..];
      MarkedIff(Called(m, calls[0].key, gates), calls[1..], gates);
    }
  }

  // ---- The keys as the program writes them ----

  function PhaseName(p: Phase): string { if p.Investigate? then "investigate" else "proposal" }

  function Joined(p: Phase, rest: string): string { PhaseName(p) + ("|" + rest) }

  lemma JoinedIsApart(p: Phase, rest: string, q: Phase, other: string)
    ensures Joined(p, rest) == Joined(q, other) <==> p == q && rest == other
  {
    var a, b := Joined(p, rest), Joined(q, other);
    assert a[0] == PhaseName(p)[0] && b[0] == PhaseName(q)[0];
    if a == b {
      assert rest == a[|PhaseName(p)| + 1..] == other;
    }
  }

  lemma BarsAreApart(a: string, x: string, b: string, y: string)
    requires '|' !in a && '|' !in b
    ensures a + ("|" + x) == b + ("|" + y) <==> a == b && x == y
  {
    var s, t := a + ("|" + x), b + ("|" + y);
    FindUnique('|', s, |a|);
    FindUnique('|', t, |b|);
    if s == t {
      assert a == s[..|a|] == b;
      assert x == s[|a| + 1..] == y;
    }
  }

  /** Two queues have the same joined key only when they are the same queue, bars in threads aside. */
  lemma KeysAreApart(a: ToolKey, b: ToolKey)
    requires '|' !in a.thread && '|' !in b.thread
    ensures Joined(a.phase, a.thread) == Joined(b.phase, b.thread) <==>
              ChatKey(a.phase, a.thread) == ChatKey(b.phase, b.thread)
    ensures Joined(a.phase, a.thread + ("|" + a.call)) == Joined(b.phase, b.thread + ("|" + b.call)) <==> a == b
  {
    hide Joined;
    JoinedIsApart(a.phase, a.thread, b.phase, b.thread);
    JoinedIsApart(a.phase, a.thread + ("|" + a.call), b.phase, b.thread + ("|" + b.call));
    BarsAreApart(a.thread, a.call, b.thread, b.call);
  }
}
