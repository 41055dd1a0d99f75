/** A recording played back in the order it was made gives what was recorded. */
module PlaybackRoundTrip {
  import opened Text
  import opened Playback

  // ---- What is recorded of a call ----

  const MAX_RESULT_CHARS := 512 * 1024

  const NUL := '\U{0000}'

  function WithoutNul(s: string): (r: string)
    ensures NUL !in r && |r| <= |s|
  {
    if s == "" then "" else (if s[0] == NUL then "" else [s[0]]) + WithoutNul(s[1..])
  }

  lemma {:induction false} UnchangedWithoutNul(s: string)
    ensures WithoutNul(s) == s <==> NUL !in s
  {
    if s != "" {
      UnchangedWithoutNul(s[1..]);
      assert s == [s[0]] + s[1..];
    }
  }

  /** How a tool's outcome is written down: the beginning of its text, or its error. */
  function Written(o: Outcome): ToolResult {
    match o
    case Returned(text) => ToolResult(Some(WithoutNul(text[..Min(|text|, MAX_RESULT_CHARS)])), None)
    case Threw(error) => ToolResult(None, Some(WithoutNul(error)))
  }

  function TextOf(o: Outcome): string { match o case Returned(text) => text case Threw(error) => error }

  /** An outcome that was written down is shown again as it was, but for zero characters and texts too long. */
  lemma WrittenIsShownIff(o: Outcome)
    ensures Shown(Written(o)) == o <==> NUL !in TextOf(o) && (o.Returned? ==> |o.text| <= MAX_RESULT_CHARS)
  {
    hide WithoutNul;
    UnchangedWithoutNul(TextOf(o));
    if o.Returned? {
      assert |o.text| <= MAX_RESULT_CHARS ==> o.text[..|o.text|] == o.text;
    }
  }

  // ---- The phase of a run ----

  predicate Starts(e: Event, run: string) { e.kind.Start? && e.run == run }

  ghost predicate IsLastStart(es: seq<Event>, run: string, n: nat) {
    n < |es| && Starts(es[n], run) && forall m | n < m < |es| :: !Starts(es[m], run)
  }

  /** A run has the phase of the last of its start rows. */
  lemma {:induction false} PhaseIs(es: seq<Event>, run: string, n: nat)
    requires IsLastStart(es, run, n)
    ensures PhaseOf(es, run) == es[n].phase
  {
    if n < |es| - 1 {
      var front := es[..|es| - 1];
      assert front[n] == es[n] && forall m | n < m < |front| :: front[m] == es[m];
      PhaseIs(front, run, n);
    }
  }

  /** A run without a start row counts as an investigation. */
  lemma {:induction false} NoPhase(es: seq<Event>, run: string)
    requires forall e | e in es :: !Starts(e, run)
    ensures PhaseOf(es, run) == Investigate
  {
    if es != [] {
      assert es == es[..|es| - 1] + [es[|es| - 1]] && !Starts(es[|es| - 1], run);
      NoPhase(es[..|es| - 1], run);
    }
  }

  // ---- The calls of a recording, in order ----

  function KeysOf<K, V>(es: seq<Event>, item: Event -> Option<(K, V)>): seq<K> {
    if es == [] then []
    else
      var i := item(es[|es| - 1]);
      KeysOf(es[..|es| - 1], item) + if i.Some? then [i.value.0] else []
  }

  lemma {:induction false} CountSplit<K>(a: seq<K>, b: seq<K>, k: K)
    ensures Count(a + b, k) == Count(a, k) + Count(b, k)
  {
    if a == [] {
      assert a + b == b;
    } else {
      assert (a + b)[0] == a[0] && (a + b)[1..] == a[1..] + b;
      CountSplit(a[1..], b, k);
    }
  }

  lemma CountOne<K>(c: K, k: K)
    ensures Count([c], k) == (if c == k then 1 else 0) && Count([], k) == 0
  {
    assert [c][1..] == [];
  }

  lemma {:induction false} AsManyCalls<K, V>(es: seq<Event>, item: Event -> Option<(K, V)>, k: K)
    ensures Count(KeysOf(es, item), k) == |Recorded(es, item, k)|
  {
    hide Count;
    if es == [] {
      NoCalls(k);
    } else {
      var front := es[..|es| - 1];
      var i := item(es[|es| - 1]);
      AsManyCalls(front, item, k);
      CountSplit(KeysOf(front, item), if i.Some? then [i.value.0] else [], k);
      NoCalls(k);
      if i.Some? {
        CountOne(i.value.0, k);
      }
    }
  }

  lemma NoCalls<K>(k: K)
    ensures Count([], k) == 0
  {
  }

  function AllReplied(replies: seq<string>): seq<Answer> {
    if replies == [] then [] else [Replied(replies[0])] + AllReplied(replies[1..])
  }

  lemma {:induction false} PlayedFromStart(queue: seq<string>, from: nat)
    requires from <= |queue|
    ensures Played(queue, from, |queue| - from) == AllReplied(queue[from..])
    decreases |queue| - from
  {
    if from < |queue| {
      PlayedFromStart(queue, from + 1);
      assert queue[from..][1..] == queue[from + 1..];
    }
  }

  /** A player that has been made from a recording and has not been called. */
  predicate IsFresh(l: ChatState) { l.served == map[] && l.divergedAt == None }

  /**
   * The model's calls of a recording, made again in any interleaving: each queue gives the replies that were
   * recorded for it, all of them and in order, and the run does not diverge.
   */
  lemma RecordingReplaysItself(es: seq<Event>, l: ChatState, calls: seq<ChatKey>)
    requires IsFresh(l) && forall k :: QueueAt(l.queues, k) == Recorded(es, (e: Event) => ChatItem(es, e), k)
    requires forall k :: Count(calls, k) == Count(KeysOf(es, (e: Event) => ChatItem(es, e)), k)
    ensures forall k :: AnswersTo(l, calls, k) == AllReplied(Recorded(es, (e: Event) => ChatItem(es, e), k))
    ensures AfterChats(l, calls).divergedAt.None?
  {
    hide Count, AnswersTo, AfterChats, Recorded, KeysOf, Played, AllReplied;
    var item := (e: Event) => ChatItem(es, e);
    forall k
      ensures AnswersTo(l, calls, k) == AllReplied(Recorded(es, item, k))
      ensures Count(calls, k) <= |QueueAt(l.queues, k)|
    {
      var queue := QueueAt(l.queues, k);
      AnswersArePlayed(l, calls, k);
      AsManyCalls(es, item, k);
      PlayedFromStart(queue, 0);
      assert queue[0..] == queue;
    }
    DivergesIff(l, calls);
  }

  // ---- The tools' calls ----

  function AllShown(rs: seq<ToolResult>): seq<Outcome> {
    if rs == [] then [] else [Shown(rs[0])] + AllShown(rs[1..])
  }

  lemma {:induction false} ShownFromStart(rs: seq<ToolResult>, from: nat, calls: seq<ToolCall>)
    requires from + |calls| == |rs|
    ensures Repeating(rs, from, calls) == AllShown(rs[from..])
    decreases |calls|
  {
    if calls != [] {
      ShownFromStart(rs, from + 1, calls[1..]);
      assert rs[from..][1..] == rs[from + 1..];
    }
  }

  predicate IsFreshTools(m: ToolState) { m.served == map[] && m.divergedAt == None }

  lemma {:induction false} CallIsOf(calls: seq<ToolCall>, c: ToolCall)
    requires c in calls
    ensures CallsOf(calls, c.key) != []
  {
    if calls[0] != c {
      assert calls == [calls[0]] + calls[1..];
      CallIsOf(calls[1..], c);
    }
  }

  /**
   * The tool calls of a recording, made again in any interleaving: each queue gives the results that were
   * recorded for it, each once and in order, and the run is not marked.
   */
  lemma ToolRecordingReplaysItself(es: seq<Event>, toolCallKey: (string, string) -> string, m: ToolState,
      calls: seq<ToolCall>, gates: bool)
    requires IsFreshTools(m)
    requires forall k :: QueueAt(m.results, k) == Recorded(es, (e: Event) => ToolItem(es, toolCallKey, e), k)
    requires forall k :: |CallsOf(calls, k)| == Count(KeysOf(es, (e: Event) => ToolItem(es, toolCallKey, e)), k)
    ensures forall k :: OutcomesTo(m, calls, gates, k)
                        == AllShown(Recorded(es, (e: Event) => ToolItem(es, toolCallKey, e), k))
    ensures AfterCalls(m, calls, gates).divergedAt.None?
  {
    hide Count, OutcomesTo, AfterCalls, Recorded, KeysOf, Repeating, AllShown, CallsOf;
    var item := (e: Event) => ToolItem(es, toolCallKey, e);
    forall k
      ensures OutcomesTo(m, calls, gates, k) == AllShown(Recorded(es, item, k))
      ensures |CallsOf(calls, k)| == |QueueAt(m.results, k)|
    {
      var queue := QueueAt(m.results, k);
      OutcomesRepeat(m, calls, gates, k);
      AsManyCalls(es, item, k);
      ShownFromStart(queue, 0, CallsOf(calls, k));
      assert queue[0..] == queue;
    }
    MarkedIff(m, calls, gates);
    forall c | c in calls
      ensures QueueAt(m.results, c.key) != []
    {
      CallIsOf(calls, c);
    }
  }
}
