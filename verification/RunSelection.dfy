/** Recovering one investigation from a thread's log: the run, its delegates' runs and its proposal. */
module RunSelection {
  import opened Text

  datatype Phase = Investigate | Proposal

  /** A row of the log. `run` is "" on a row that belongs to no run; `row` is whatever else it holds. */
  datatype Event = Event(thread: string, starts: bool, phase: Phase, run: string, row: string)

  datatype Selection = Found(thread: string, events: seq<Event>) | NoSuchRun

  predicate StartsAt(s: string, i: nat, part: string) { i + |part| <= |s| && s[i..i + |part|] == part }

  predicate HasPart(s: string, part: string, i: nat)
    requires i <= |s|
    decreases |s| - i
  {
    StartsAt(s, i, part) || (i < |s| && HasPart(s, part, i + 1))
  }

  /** A delegate's thread. */
  predicate IsSub(thread: string) { HasPart(thread, "/sub-", 0) }

  predicate IsParentStart(e: Event) { e.starts && !IsSub(e.thread) && e.phase.Investigate? }

  function FirstStart(es: seq<Event>, run: string): Option<Event> {
    if es == [] then None
    else if IsParentStart(es[0]) && es[0].run == run then Some(es[0]) else FirstStart(es[1..], run)
  }

  function LastStart(es: seq<Event>): Option<Event> {
    if es == [] then None
    else if IsParentStart(es[|es| - 1]) then Some(es[|es| - 1]) else LastStart(es[..|es| - 1])
  }

  function Chosen(es: seq<Event>, runId: string): Option<Event> {
    if runId != "" then FirstStart(es, runId) else LastStart(es)
  }

  /** The first and the last row of a run. */
  function FirstOf(es: seq<Event>, run: string): (n: nat)
    ensures n <= |es|
  {
    if es == [] || es[0].run == run then 0 else 1 + FirstOf(es[1..], run)
  }

  function LastOf(es: seq<Event>, run: string): (n: int)
    ensures -1 <= n < |es|
  {
    if es == [] then -1 else if es[|es| - 1].run == run then |es| - 1 else LastOf(es[..|es| - 1], run)
  }

  /** A row of another run that is no delegate's. */
  predicate Stops(e: Event, run: string) { !IsSub(e.thread) && e.run != "" && e.run != run }

  /** One past the last row before `i` that stops the search for delegates. */
  function AfterFloor(es: seq<Event>, i: nat, run: string): (n: nat)
    requires i <= |es|
    ensures n <= i
  {
    if i == 0 || Stops(es[i - 1], run) then i else AfterFloor(es, i - 1, run)
  }

  function DelegateRuns(es: seq<Event>): set<string> {
    set e | e in es && IsSub(e.thread) && e.run != "" :: e.run
  }

  /** The next run that is no delegate's, by its start. */
  function NextStart(es: seq<Event>): Option<Event> {
    if es == [] then None else if es[0].starts && !IsSub(es[0].thread) then Some(es[0]) else NextStart(es[1..])
  }

  function ProposalRuns(es: seq<Event>): set<string> {
    var next := NextStart(es);
    if next.Some? && next.value.phase.Proposal? then {next.value.run} else {}
  }

  function Kept(es: seq<Event>, keep: set<string>): seq<Event> {
    if es == [] then []
    else (if es[0].run != "" && es[0].run in keep then [es[0]] else []) + Kept(es[1..], keep)
  }

  function KeepFor(es: seq<Event>, run: string): set<string> {
    var first, last := FirstOf(es, run), LastOf(es, run);
    {run} + DelegateRuns(es[AfterFloor(es, first, run)..first]) + ProposalRuns(es[last + 1..])
  }

  function Selected(es: seq<Event>, runId: string): Selection {
    var chosen := Chosen(es, runId);
    if chosen.None? then NoSuchRun else Found(chosen.value.thread, Kept(es, KeepFor(es, chosen.value.run)))
  }

  method SelectRun(events: seq<Event>, runId: string) returns (r: Selection)
    ensures r == Selected(events, runId)
  {
    hide IsSub, FirstStart, LastStart, NextStart, Kept;
    var chosen := Chosen(events, runId);
    if chosen.None? {
      return NoSuchRun;
    }
    var run := chosen.value.run;
    var first, last := FirstOf(events, run), LastOf(events, run);
    var floor: int := -1;
    var i := (first as int) - 1;
    while i >= 0
      invariant -1 <= i < first && floor == -1
      invariant AfterFloor(events, first, run) == AfterFloor(events, i + 1, run)
    {
      if Stops(events[i], run) {
        floor := i;
        break;
      }
      i := i - 1;
    }
    var keep := GrowKeep({run}, events[floor + 1..first]);
    var next := NextStart(events[last + 1..]);
    if next.Some? && next.value.phase.Proposal? {
      keep := keep + {next.value.run};
    }
    assert keep == KeepFor(events, run);
    r := Found(chosen.value.thread, Kept(events, keep));
  }

  method GrowKeep(keep0: set<string>, es: seq<Event>) returns (keep: set<string>)
    ensures keep == keep0 + DelegateRuns(es)
  {
    hide IsSub;
    keep := keep0;
    for i := 0 to |es|
      invariant keep == keep0 + DelegateRuns(es[..i])
    {
      var e := es[i];
      assert es[..i + 1] == es[..i] + [e];
      if IsSub(e.thread) && e.run != "" {
        keep := keep + {e.run};
      }
    }
    assert es[..|es|] == es;
  }

  // ---- The log as the recorder writes it ----

  /** Rows that belong to no run are recorded at any time, and may stand anywhere. */
  predicate IsLoose(e: Event) { e.run == "" && !e.starts }

  /** Delegates run side by side: their rows stand in any order, with loose rows among them. */
  predicate AreDelegates(es: seq<Event>) { forall e | e in es :: IsLoose(e) || (e.run != "" && IsSub(e.thread)) }

  /** A run's rows and the loose rows among and after them; its first row, alone, is its start. */
  datatype Block = Block(run: string, rows: seq<Event>)

  datatype Turn = Turn(delegates: seq<Event>, parent: Block, proposal: Option<Block>)

  predicate IsRowOf(e: Event, run: string) { e.run == run && run != "" && !IsSub(e.thread) }

  predicate IsBlock(b: Block) {
    && b.rows != [] && IsRowOf(b.rows[0], b.run) && b.rows[0].starts
    && forall e | e in b.rows[1..] :: IsLoose(e) || (IsRowOf(e, b.run) && !e.starts)
  }

  function ProposalRows(t: Turn): seq<Event> { if t.proposal.Some? then t.proposal.value.rows else [] }

  predicate IsTurn(t: Turn) {
    && AreDelegates(t.delegates) && t.parent.run !in RunSet(t.delegates)
    && IsBlock(t.parent) && t.parent.rows[0].phase.Investigate?
    && (t.proposal.Some? ==>
          && IsBlock(t.proposal.value) && t.proposal.value.rows[0].phase.Proposal?
          && t.proposal.value.run != t.parent.run)
  }

  function WriteTurn(t: Turn): seq<Event> { t.delegates + (t.parent.rows + ProposalRows(t)) }

  function WriteTurns(ts: seq<Turn>): seq<Event> {
    if ts == [] then [] else WriteTurn(ts[0]) + WriteTurns(ts[1..])
  }

  /** A log: turns, and what delegates of a turn that is not written, or not yet, have left at its end. */
  function Log(ts: seq<Turn>, rest: seq<Event>): seq<Event> { WriteTurns(ts) + rest }

  function RunSet(es: seq<Event>): set<string> { set e | e in es && e.run != "" :: e.run }

  function TurnRuns(t: Turn): set<string> { RunSet(WriteTurn(t)) }

  /** Every turn is one, and no run is shared between turns or with what is left at the end. */
  ghost predicate IsLog(ts: seq<Turn>, rest: seq<Event>) {
    && AreDelegates(rest)
    && (forall t | t in ts :: IsTurn(t) && TurnRuns(t) !! RunSet(rest))
    && (forall i, j | 0 <= i < j < |ts| :: TurnRuns(ts[i]) !! TurnRuns(ts[j]))
  }

  function ThreadOf(t: Turn): string { if t.parent.rows == [] then "" else t.parent.rows[0].thread }

  function WithRun(es: seq<Event>): seq<Event> {
    if es == [] then [] else (if es[0].run != "" then [es[0]] else []) + WithRun(es[1..])
  }

  /** A turn's rows as a replay wants them: its delegates', its own and its proposal's. */
  function Recording(t: Turn): seq<Event> { WithRun(WriteTurn(t)) }

  // ---- The rows of a run in the log ----

  lemma {:induction false} KeptSplit(a: seq<Event>, b: seq<Event>, keep: set<string>)
    ensures Kept(a + b, keep) == Kept(a, keep) + Kept(b, keep)
  {
    if a == [] {
      assert a + b == b;
    } else {
      assert (a + b)[1..] == a[1..] + b;
      KeptSplit(a[1..], b, keep);
    }
  }

  lemma {:induction false} KeptNone(es: seq<Event>, keep: set<string>)
    requires RunSet(es) !! keep
    ensures Kept(es, keep) == []
  {
    if es != [] {
      assert es[0].run != "" ==> es[0].run in RunSet(es);
      assert RunSet(es[1..]) <= RunSet(es);
      KeptNone(es[1..], keep);
    }
  }

  lemma {:induction false} KeptAll(es: seq<Event>, keep: set<string>)
    requires RunSet(es) <= keep
    ensures Kept(es, keep) == WithRun(es)
  {
    if es != [] {
      assert es[0].run != "" ==> es[0].run in RunSet(es);
      assert RunSet(es[1..]) <= RunSet(es);
      KeptAll(es[1..], keep);
    }
  }

  lemma {:induction false} WithRunSplit(a: seq<Event>, b: seq<Event>)
    ensures WithRun(a + b) == WithRun(a) + WithRun(b)
  {
    if a == [] {
      assert a + b == b;
    } else {
      assert (a + b)[1..] == a[1..] + b;
      WithRunSplit(a[1..], b);
    }
  }

  lemma RunSetSplit(a: seq<Event>, b: seq<Event>)
    ensures RunSet(a + b) == RunSet(a) + RunSet(b)
  {
  }

  lemma BlockRuns(b: Block)
    requires IsBlock(b)
    ensures RunSet(b.rows) == {b.run}
  {
    hide IsSub;
    assert b.rows == [b.rows[0]] + b.rows[1..];
    assert b.rows[0] in b.rows;
  }

  /** A block ends with its last own row, and loose rows after that. */
  lemma BlockEnds(b: Block) returns (n: nat)
    requires IsBlock(b)
    ensures n < |b.rows| && IsRowOf(b.rows[n], b.run)
    ensures forall e | e in b.rows[n + 1..] :: IsLoose(e)
  {
    hide IsSub;
    n := |b.rows| - 1;
    while n > 0 && IsLoose(b.rows[n])
      invariant n < |b.rows|
      invariant forall e | e in b.rows[n + 1..] :: IsLoose(e)
    {
      assert b.rows[n..] == [b.rows[n]] + b.rows[n + 1..];
      n := n - 1;
    }
    assert n > 0 ==> b.rows[n] == b.rows[1..][n - 1];
  }

  lemma {:induction false} TurnsRunSet(ts: seq<Turn>)
    ensures forall r | r in RunSet(WriteTurns(ts)) :: exists t :: t in ts && r in TurnRuns(t)
  {
    hide WriteTurn, RunSet;
    if ts == [] {
      NothingRuns();
    } else {
      TurnsRunSet(ts[1..]);
      RunSetSplit(WriteTurn(ts[0]), WriteTurns(ts[1..]));
      forall r | r in RunSet(WriteTurns(ts))
        ensures exists t :: t in ts && r in TurnRuns(t)
      {
        if r in RunSet(WriteTurn(ts[0])) {
          assert ts[0] in ts && r in TurnRuns(ts[0]);
        } else {
          var t :| t in ts[1..] && r in TurnRuns(t);
          assert t in ts;
        }
      }
    }
  }

  // ---- Where a run is ----

  lemma {:induction false} FirstIsAt(a: seq<Event>, b: seq<Event>, run: string)
    requires run !in RunSet(a) && run != "" && b != [] && b[0].run == run
    ensures FirstOf(a + b, run) == |a|
  {
    if a == [] {
      assert a + b == b;
    } else {
      assert a[0] in a && RunSet(a[1..]) <= RunSet(a);
      assert (a + b)[1..] == a[1..] + b;
      FirstIsAt(a[1..], b, run);
    }
  }

  lemma {:induction false} LastIsAt(a: seq<Event>, b: seq<Event>, run: string)
    requires run !in RunSet(b) && run != "" && a != [] && a[|a| - 1].run == run
    ensures LastOf(a + b, run) == |a| - 1
    decreases |b|
  {
    if b == [] {
      assert a + b == a;
    } else {
      var n := |b| - 1;
      assert b[n] in b && RunSet(b[..n]) <= RunSet(b);
      assert (a + b)[..|a| + n] == a + b[..n];
      LastIsAt(a, b[..n], run);
    }
  }

  /** Going back from the end, a row of a run that is no delegate's comes before any delegate's. */
  predicate Closed(es: seq<Event>) {
    es == [] || (if es[|es| - 1].run == "" then Closed(es[..|es| - 1]) else !IsSub(es[|es| - 1].thread))
  }

  lemma {:induction false} ClosedLoose(a: seq<Event>, loose: seq<Event>)
    requires Closed(a) && forall e | e in loose :: IsLoose(e)
    ensures Closed(a + loose)
    decreases |loose|
  {
    hide IsSub;
    if loose == [] {
      assert a + loose == a;
    } else {
      var n := |loose| - 1;
      assert loose[n] in loose;
      assert (a + loose)[..|a| + n] == a + loose[..n];
      ClosedLoose(a, loose[..n]);
    }
  }

  lemma ClosedBlock(a: seq<Event>, b: Block)
    requires IsBlock(b)
    ensures Closed(a + b.rows)
  {
    hide IsSub;
    var n := BlockEnds(b);
    var own, loose := b.rows[..n + 1], b.rows[n + 1..];
    assert Closed(a + own);
    ClosedLoose(a + own, loose);
    assert a + own + loose == a + b.rows;
  }

  lemma ClosedTurn(a: seq<Event>, t: Turn)
    requires IsTurn(t)
    ensures Closed(a + WriteTurn(t))
  {
    hide IsBlock, Closed;
    if t.proposal.None? {
      ClosedBlock(a + t.delegates, t.parent);
      assert a + WriteTurn(t) == a + t.delegates + t.parent.rows;
    } else {
      ClosedBlock(a + t.delegates + t.parent.rows, t.proposal.value);
      assert a + WriteTurn(t) == a + t.delegates + t.parent.rows + t.proposal.value.rows;
    }
  }

  lemma {:induction false} ClosedTurns(a: seq<Event>, ts: seq<Turn>)
    requires Closed(a) && forall t | t in ts :: IsTurn(t)
    ensures Closed(a + WriteTurns(ts))
    decreases |ts|
  {
    hide Closed, IsTurn, WriteTurn;
    if ts == [] {
      assert a + WriteTurns(ts) == a;
    } else {
      ClosedTurn(a, ts[0]);
      ClosedTurns(a + WriteTurn(ts[0]), ts[1..]);
      assert a + WriteTurns(ts) == a + WriteTurn(ts[0]) + WriteTurns(ts[1..]);
    }
  }

  /** Delegates' rows and loose rows do not stop the search; the rows before them do. */
  lemma {:induction false} FloorSkips(es: seq<Event>, i: nat, j: nat, run: string)
    requires i <= j <= |es| && forall k | i <= k < j :: !Stops(es[k], run)
    ensures AfterFloor(es, j, run) == AfterFloor(es, i, run)
    decreases j
  {
    hide Stops;
    if i < j {
      FloorSkips(es, i, j - 1, run);
    }
  }

  lemma {:induction false} FloorIsClosed(es: seq<Event>, i: nat, run: string)
    requires i <= |es| && Closed(es[..i]) && run !in RunSet(es[..i])
    ensures RunSet(es[AfterFloor(es, i, run)..i]) == {}
    decreases i
  {
    hide IsSub;
    if i > 0 {
      var e := es[i - 1];
      assert e == es[..i][i - 1] && e in es[..i];
      if e.run == "" {
        assert es[..i][..i - 1] == es[..i - 1];
        assert RunSet(es[..i - 1]) <= RunSet(es[..i]);
        FloorIsClosed(es, i - 1, run);
        var n := AfterFloor(es, i - 1, run);
        assert es[n..i] == es[n..i - 1] + [e];
      }
    }
  }

  /** The delegates found before a run at the end of `a + d` are those of `d`. */
  lemma DelegatesAre(a: seq<Event>, d: seq<Event>, b: seq<Event>, run: string)
    requires Closed(a) && run !in RunSet(a) && AreDelegates(d)
    ensures var es, n := a + d + b, |a| + |d|;
            DelegateRuns(es[AfterFloor(es, n, run)..n]) == RunSet(d)
  {
    hide IsSub, Closed, AfterFloor, DelegateRuns, RunSet;
    var es, n := a + d + b, |a| + |d|;
    forall k | |a| <= k < n
      ensures !Stops(es[k], run)
    {
      assert es[k] == d[k - |a|] && es[k] in d;
    }
    FloorSkips(es, |a|, n, run);
    assert es[..|a|] == a;
    FloorIsClosed(es, |a|, run);
    var k := AfterFloor(es, |a|, run);
    assert es[k..n] == es[k..|a|] + d;
    OnlyDelegates(es[k..|a|], d);
  }

  lemma OnlyDelegates(loose: seq<Event>, d: seq<Event>)
    requires RunSet(loose) == {} && AreDelegates(d)
    ensures DelegateRuns(loose + d) == RunSet(d)
  {
    hide IsSub;
    assert forall e | e in loose && e.run != "" :: e.run in RunSet(loose);
  }

  // ---- The run after ----

  lemma {:induction false} NextSkips(a: seq<Event>, b: seq<Event>)
    requires forall e | e in a :: !(e.starts && !IsSub(e.thread))
    ensures NextStart(a + b) == NextStart(b)
  {
    hide IsSub;
    if a == [] {
      assert a + b == b;
    } else {
      assert a[0] in a && (a + b)[1..] == a[1..] + b;
      NextSkips(a[1..], b);
    }
  }

  lemma BlockIsNext(b: Block, rest: seq<Event>)
    requires IsBlock(b)
    ensures NextStart(b.rows + rest) == Some(b.rows[0]) && b.rows[0].run == b.run
  {
    hide IsSub;
    assert (b.rows + rest)[0] == b.rows[0];
  }

  lemma DelegatesAreNoStarts(d: seq<Event>)
    requires AreDelegates(d)
    ensures forall e | e in d :: !(e.starts && !IsSub(e.thread)) && !IsParentStart(e)
  {
    hide IsSub;
  }

  /** What follows a turn's rows does not begin with a proposal. */
  lemma NextTurnIsNoProposal(ts: seq<Turn>, rest: seq<Event>)
    requires (forall t | t in ts :: IsTurn(t)) && AreDelegates(rest)
    ensures ProposalRuns(Log(ts, rest)) == {}
  {
    hide IsSub, IsBlock, NextStart, AreDelegates;
    if ts == [] {
      DelegatesAreNoStarts(rest);
      NextSkips(rest, []);
      NoNext();
      assert Log(ts, rest) == rest + [];
    } else {
      var t := ts[0];
      assert t in ts;
      var after := ProposalRows(t) + WriteTurns(ts[1..]) + rest;
      DelegatesAreNoStarts(t.delegates);
      NextSkips(t.delegates, t.parent.rows + after);
      BlockIsNext(t.parent, after);
      assert Log(ts, rest) == t.delegates + (t.parent.rows + after);
    }
  }

  lemma NoNext()
    ensures NextStart([]) == None
  {
  }

  /** What follows a turn's own last row begins with its proposal, if it has one. */
  lemma ProposalIs(t: Turn, loose: seq<Event>, later: seq<Event>)
    requires IsTurn(t) && ProposalRuns(later) == {} && forall e | e in loose :: IsLoose(e)
    ensures ProposalRuns(loose + (ProposalRows(t) + later)) == RunSet(ProposalRows(t))
  {
    hide IsSub, IsBlock, NextStart, RunSet;
    NextSkips(loose, ProposalRows(t) + later);
    if t.proposal.None? {
      NothingRuns();
      assert ProposalRows(t) + later == later;
    } else {
      BlockIsNext(t.proposal.value, later);
      BlockRuns(t.proposal.value);
    }
  }

  lemma NothingRuns()
    ensures RunSet([]) == {}
  {
  }

  // ---- The selected turn ----

  /** `t` at its place in a log: what was written before it and after it. */
  ghost predicate IsPlaced(before: seq<Event>, t: Turn, later: seq<Event>) {
    && IsTurn(t) && Closed(before) && RunSet(before) !! TurnRuns(t)
    && RunSet(later) !! TurnRuns(t) && ProposalRuns(later) == {}
  }

  function Placed(before: seq<Event>, t: Turn, later: seq<Event>): seq<Event> { before + WriteTurn(t) + later }

  lemma RunsOfTurn(t: Turn)
    requires IsTurn(t)
    ensures TurnRuns(t) == RunSet(t.delegates) + {t.parent.run} + RunSet(ProposalRows(t))
    ensures t.parent.run !in RunSet(t.delegates) && t.parent.run !in RunSet(ProposalRows(t)) && t.parent.run != ""
    ensures RunSet(t.parent.rows) == {t.parent.run}
  {
    hide RunSet, IsSub;
    RunSetSplit(t.delegates, t.parent.rows + ProposalRows(t));
    RunSetSplit(t.parent.rows, ProposalRows(t));
    BlockRuns(t.parent);
    if t.proposal.Some? {
      BlockRuns(t.proposal.value);
    } else {
      NothingRuns();
    }
  }

  lemma KeepIs(before: seq<Event>, t: Turn, later: seq<Event>)
    requires IsPlaced(before, t, later)
    ensures KeepFor(Placed(before, t, later), t.parent.run) == TurnRuns(t)
  {
    hide IsSub, Closed, RunSet, FirstOf, LastOf, AfterFloor, DelegateRuns, ProposalRuns, AreDelegates, TurnRuns;
    var es, run := Placed(before, t, later), t.parent.run;
    var d, p, q := t.delegates, t.parent.rows, ProposalRows(t);
    RunsOfTurn(t);
    RunSetSplit(before, d);
    var n := BlockEnds(t.parent);
    var own, loose := p[..n + 1], p[n + 1..];
    FirstIsAt(before + d, p + (q + later), run);
    assert es == before + d + (p + (q + later));
    LooseRuns(loose);
    RunSetSplit(loose, q + later);
    RunSetSplit(q, later);
    LastIsAt(before + d + own, loose + (q + later), run);
    assert es == before + d + own + (loose + (q + later));
    assert es[|before + d + own|..] == loose + (q + later);
    DelegatesAre(before, d, p + (q + later), run);
    ProposalIs(t, loose, later);
  }

  lemma LooseRuns(loose: seq<Event>)
    requires forall e | e in loose :: IsLoose(e)
    ensures RunSet(loose) == {}
  {
  }

  lemma KeptIs(before: seq<Event>, t: Turn, later: seq<Event>)
    requires IsPlaced(before, t, later)
    ensures Kept(Placed(before, t, later), TurnRuns(t)) == Recording(t)
  {
    hide IsTurn, WriteTurn, Closed, RunSet, Kept, WithRun;
    var keep := TurnRuns(t);
    KeptNone(before, keep);
    KeptNone(later, keep);
    KeptAll(WriteTurn(t), keep);
    KeptSplit(before + WriteTurn(t), later, keep);
    KeptSplit(before, WriteTurn(t), keep);
  }

  lemma {:induction false} FirstStartSkips(a: seq<Event>, b: seq<Event>, run: string)
    requires run !in RunSet(a) && run != ""
    ensures FirstStart(a + b, run) == FirstStart(b, run)
  {
    hide IsSub;
    if a == [] {
      assert a + b == b;
    } else {
      assert a[0] in a && RunSet(a[1..]) <= RunSet(a);
      assert (a + b)[1..] == a[1..] + b;
      FirstStartSkips(a[1..], b, run);
    }
  }

  lemma {:induction false} LastStartSkips(a: seq<Event>, b: seq<Event>)
    requires forall e | e in b :: !IsParentStart(e)
    ensures LastStart(a + b) == LastStart(a)
    decreases |b|
  {
    hide IsParentStart;
    if b == [] {
      assert a + b == a;
    } else {
      var n := |b| - 1;
      assert b[n] in b && (a + b)[..|a| + n] == a + b[..n];
      LastStartSkips(a, b[..n]);
    }
  }

  lemma ParentOpens(t: Turn)
    requires IsTurn(t)
    ensures t.parent.rows == [t.parent.rows[0]] + t.parent.rows[1..]
    ensures IsParentStart(t.parent.rows[0]) && t.parent.rows[0].run == t.parent.run
    ensures forall e | e in t.parent.rows[1..] + ProposalRows(t) :: !IsParentStart(e)
  {
    hide IsSub;
    if t.proposal.Some? {
      var q := t.proposal.value.rows;
      assert q == [q[0]] + q[1..];
    }
  }

  lemma ChosenIs(before: seq<Event>, t: Turn, later: seq<Event>)
    requires IsPlaced(before, t, later)
    ensures Chosen(Placed(before, t, later), t.parent.run) == Some(t.parent.rows[0])
  {
    hide IsSub, IsBlock, Closed, RunSet, FirstStart, IsParentStart, AreDelegates, ProposalRuns, TurnRuns;
    var es, run := Placed(before, t, later), t.parent.run;
    var d, p, after := t.delegates, t.parent.rows, ProposalRows(t) + later;
    RunsOfTurn(t);
    ParentOpens(t);
    RunSetSplit(before, d);
    FirstStartSkips(before + d, p + after, run);
    assert es == before + d + (p + after);
    assert p + after == [p[0]] + (p[1..] + after);
    StartIsFirst(p[0], p[1..] + after, run);
  }

  lemma StartIsFirst(e: Event, rest: seq<Event>, run: string)
    requires IsParentStart(e) && e.run == run
    ensures FirstStart([e] + rest, run) == Some(e)
  {
  }

  lemma LastStartIs(a: seq<Event>, e: Event)
    requires IsParentStart(e)
    ensures LastStart(a + [e]) == Some(e)
  {
  }

  lemma LatestIs(before: seq<Event>, t: Turn, rest: seq<Event>)
    requires IsTurn(t) && AreDelegates(rest)
    ensures Chosen(before + WriteTurn(t) + rest, "") == Some(t.parent.rows[0])
  {
    hide IsBlock, LastStart, IsSub, IsParentStart, AreDelegates;
    ParentOpens(t);
    var d, p := t.delegates, t.parent.rows;
    var after := p[1..] + ProposalRows(t);
    DelegatesAreNoStarts(rest);
    LastStartIs(before + d, p[0]);
    LastStartSkips(before + d + [p[0]], after + rest);
    assert before + WriteTurn(t) + rest == before + d + [p[0]] + (after + rest);
  }

  // ---- Turns in a log ----

  lemma {:induction false} WriteSplit(a: seq<Turn>, b: seq<Turn>)
    ensures WriteTurns(a + b) == WriteTurns(a) + WriteTurns(b)
  {
    hide WriteTurn;
    if a == [] {
      assert a + b == b;
    } else {
      assert (a + b)[1..] == a[1..] + b;
      WriteSplit(a[1..], b);
    }
  }

  lemma OneTurn(t: Turn)
    ensures WriteTurns([t]) == WriteTurn(t)
  {
    hide WriteTurn;
    assert [t][1..] == [];
  }

  lemma LogIsPlaced(ts: seq<Turn>, rest: seq<Event>, k: nat)
    requires k < |ts|
    ensures Log(ts, rest) == Placed(WriteTurns(ts[..k]), ts[k], Log(ts[k + 1..], rest))
  {
    hide WriteTurn, WriteTurns;
    var a, b := ts[..k], ts[k + 1..];
    assert ts == a + [ts[k]] + b;
    OneTurn(ts[k]);
    WriteSplit(a + [ts[k]], b);
    WriteSplit(a, [ts[k]]);
  }

  lemma OthersRun(ts: seq<Turn>, us: seq<Turn>, t: Turn)
    requires forall u | u in us :: u in ts && TurnRuns(u) !! TurnRuns(t)
    ensures RunSet(WriteTurns(us)) !! TurnRuns(t)
  {
    hide TurnRuns, RunSet, WriteTurns;
    TurnsRunSet(us);
  }

  lemma TurnIsPlaced(ts: seq<Turn>, rest: seq<Event>, k: nat)
    requires IsLog(ts, rest) && k < |ts|
    ensures IsPlaced(WriteTurns(ts[..k]), ts[k], Log(ts[k + 1..], rest))
    ensures Log(ts, rest) == Placed(WriteTurns(ts[..k]), ts[k], Log(ts[k + 1..], rest))
  {
    hide IsTurn, TurnRuns, WriteTurns, RunSet, Closed, Placed, ProposalRuns, AreDelegates;
    LogIsPlaced(ts, rest, k);
    var a, b := ts[..k], ts[k + 1..];
    ClosedNothing();
    ClosedTurns([], a);
    assert [] + WriteTurns(a) == WriteTurns(a);
    NextTurnIsNoProposal(b, rest);
    forall u | u in a || u in b
      ensures TurnRuns(u) !! TurnRuns(ts[k])
    {
      var i :| 0 <= i < |ts| && i != k && ts[i] == u;
    }
    OthersRun(ts, a, ts[k]);
    OthersRun(ts, b, ts[k]);
    RunSetSplit(WriteTurns(b), rest);
  }

  lemma ClosedNothing()
    ensures Closed([])
  {
  }

  /**
   * Whatever turns a log holds, however their delegates' rows are interleaved, wherever loose rows stand and
   * whatever delegates have left at its end: selecting a turn by its run returns exactly its delegates' rows,
   * its own and its proposal's, in order.
   */
  lemma RecoversTurn(ts: seq<Turn>, rest: seq<Event>, k: nat)
    requires IsLog(ts, rest) && k < |ts|
    ensures Selected(Log(ts, rest), ts[k].parent.run) == Found(ThreadOf(ts[k]), Recording(ts[k]))
  {
    hide IsTurn, Placed, KeepFor, Kept, Recording, TurnRuns, Chosen, Log, WriteTurns, IsPlaced;
    var before, t, later := WriteTurns(ts[..k]), ts[k], Log(ts[k + 1..], rest);
    TurnIsPlaced(ts, rest, k);
    ChosenIs(before, t, later);
    ParentIsThere(t);
    KeepIs(before, t, later);
    KeptIs(before, t, later);
  }

  lemma ParentIsThere(t: Turn)
    requires IsTurn(t)
    ensures t.parent.rows != [] && t.parent.rows[0].run == t.parent.run != ""
  {
    hide IsSub;
  }

  /** Without a run id, the newest turn is selected. */
  lemma RecoversLatest(ts: seq<Turn>, rest: seq<Event>)
    requires IsLog(ts, rest) && ts != []
    ensures Selected(Log(ts, rest), "") == Selected(Log(ts, rest), ts[|ts| - 1].parent.run)
  {
    hide IsTurn, KeepFor, Kept, TurnRuns, Chosen, IsPlaced, WriteTurns, AreDelegates, RunSet;
    var k := |ts| - 1;
    var before, t := WriteTurns(ts[..k]), ts[k];
    TurnIsPlaced(ts, rest, k);
    LatestIs(before, t, rest);
    assert ts[k + 1..] == [];
    NothingWritten();
    assert Log([], rest) == rest;
    ChosenIs(before, t, rest);
  }

  lemma NothingWritten()
    ensures WriteTurns([]) == []
  {
  }

  /** A run id that no turn's own run has, a delegate's or a proposal's say, is an error. */
  lemma FoundIff(ts: seq<Turn>, rest: seq<Event>, runId: string)
    requires IsLog(ts, rest)
    ensures Selected(Log(ts, rest), runId).Found? <==>
            if runId == "" then ts != [] else exists t :: t in ts && t.parent.run == runId
  {
    hide IsLog, Kept, KeepFor, Log, Selected;
    var es := Log(ts, rest);
    StartsAreParents(ts, rest);
    ChosenIsThere(es, runId);
    if runId == "" {
      if ts != [] {
        RecoversLatest(ts, rest);
        RecoversTurn(ts, rest, |ts| - 1);
      }
    } else {
      if t :| t in ts && t.parent.run == runId {
        var k :| 0 <= k < |ts| && ts[k] == t;
        RecoversTurn(ts, rest, k);
      }
    }
  }

  lemma {:induction false} FirstStartIsThere(es: seq<Event>, run: string)
    ensures var s := FirstStart(es, run); s.Some? ==> s.value in es && IsParentStart(s.value) && s.value.run == run
  {
    hide IsParentStart;
    if es != [] {
      FirstStartIsThere(es[1..], run);
    }
  }

  lemma {:induction false} LastStartIsThere(es: seq<Event>)
    ensures var s := LastStart(es); s.Some? ==> s.value in es && IsParentStart(s.value)
    decreases |es|
  {
    hide IsParentStart;
    if es != [] {
      LastStartIsThere(es[..|es| - 1]);
    }
  }

  lemma ChosenIsThere(es: seq<Event>, runId: string)
    ensures Selected(es, runId).Found? ==>
              exists e :: e in es && IsParentStart(e) && (runId != "" ==> e.run == runId)
  {
    hide IsParentStart, Kept, KeepFor;
    FirstStartIsThere(es, runId);
    LastStartIsThere(es);
  }

  lemma TurnStarts(t: Turn)
    requires IsTurn(t)
    ensures forall e | e in WriteTurn(t) && IsParentStart(e) :: e.run == t.parent.run
  {
    hide IsParentStart, IsBlock, AreDelegates;
    ParentOpens(t);
    DelegatesAreNoStarts(t.delegates);
    var p := t.parent.rows;
    assert WriteTurn(t) == t.delegates + [p[0]] + (p[1..] + ProposalRows(t));
  }

  lemma {:induction false} TurnsStart(ts: seq<Turn>)
    requires forall t | t in ts :: IsTurn(t)
    ensures forall e | e in WriteTurns(ts) && IsParentStart(e) :: exists t :: t in ts && t.parent.run == e.run
  {
    hide IsTurn, WriteTurn, IsParentStart;
    if ts != [] {
      assert ts[0] in ts;
      TurnStarts(ts[0]);
      TurnsStart(ts[1..]);
    }
  }

  lemma StartsAreParents(ts: seq<Turn>, rest: seq<Event>)
    requires IsLog(ts, rest)
    ensures forall e | e in Log(ts, rest) && IsParentStart(e) :: exists t :: t in ts && t.parent.run == e.run
  {
    hide IsTurn, WriteTurns, TurnRuns, IsParentStart, AreDelegates, RunSet;
    TurnsStart(ts);
    DelegatesAreNoStarts(rest);
  }

  // ---- A turn that was never written ----

  /** A turn as the log shows it, the lost delegates in front of its own. */
  function Joined(lost: seq<Event>, t: Turn): Turn { t.(delegates := lost + t.delegates) }

  /**
   * A log in which a turn lost everything but its delegates, between `before` and the turn `t`. A turn of
   * `before` or `after` that follows such delegates too is one that has them among its own.
   */
  function LogWithLost(before: seq<Turn>, lost: seq<Event>, t: Turn, after: seq<Turn>, rest: seq<Event>): seq<Event> {
    WriteTurns(before) + lost + WriteTurn(t) + Log(after, rest)
  }

  /** Delegates' rows that share no run with any turn, nor with what is left at the end. */
  ghost predicate AreLost(lost: seq<Event>, ts: seq<Turn>, rest: seq<Event>) {
    AreDelegates(lost) && RunSet(lost) !! RunSet(rest) && forall t | t in ts :: RunSet(lost) !! TurnRuns(t)
  }

  lemma JoinedIsTurn(lost: seq<Event>, t: Turn)
    requires IsTurn(t) && AreDelegates(lost) && RunSet(lost) !! TurnRuns(t)
    ensures IsTurn(Joined(lost, t)) && TurnRuns(Joined(lost, t)) == RunSet(lost) + TurnRuns(t)
  {
    hide IsBlock, RunSet, IsSub;
    RunsOfTurn(t);
    RunSetSplit(lost, t.delegates);
    RunSetSplit(lost, WriteTurn(t));
    assert WriteTurn(Joined(lost, t)) == lost + WriteTurn(t);
  }

  lemma JoinedAreTurns(before: seq<Turn>, lost: seq<Event>, t: Turn, after: seq<Turn>, rest: seq<Event>)
    requires IsLog(before + [t] + after, rest) && AreLost(lost, before + [t] + after, rest)
    ensures IsLog(before + [Joined(lost, t)] + after, rest)
  {
    hide IsTurn, TurnRuns, Joined, AreDelegates, RunSet;
    var ts, us, k := before + [t] + after, before + [Joined(lost, t)] + after, |before|;
    assert t == ts[k];
    JoinedIsTurn(lost, t);
    assert forall i | 0 <= i < |us| && i != k :: us[i] == ts[i];
    assert us[k] == Joined(lost, t);
    forall i, j | 0 <= i < j < |us|
      ensures TurnRuns(us[i]) !! TurnRuns(us[j])
    {
      assert TurnRuns(ts[i]) !! TurnRuns(ts[j]);
      assert ts[i] in ts && ts[j] in ts;
    }
    forall u | u in us
      ensures IsTurn(u) && TurnRuns(u) !! RunSet(rest)
    {
      var i :| 0 <= i < |us| && us[i] == u;
      assert ts[i] in ts;
    }
  }

  lemma JoinedIsWritten(before: seq<Turn>, lost: seq<Event>, t: Turn, after: seq<Turn>, rest: seq<Event>)
    ensures LogWithLost(before, lost, t, after, rest) == Log(before + [Joined(lost, t)] + after, rest)
    ensures Recording(Joined(lost, t)) == WithRun(lost) + Recording(t)
  {
    hide WithRun, WriteTurns;
    var joined := Joined(lost, t);
    OneTurn(joined);
    WriteSplit(before + [joined], after);
    WriteSplit(before, [joined]);
    assert WriteTurn(joined) == lost + WriteTurn(t);
    WithRunSplit(lost, WriteTurn(t));
  }

  /**
   * Write order is all there is to go by: wherever delegates stand whose own turn was never written, they
   * are taken for the next turn's. The next turn is recovered as it was if and only if they have no rows.
   */
  lemma LostTurnLeavesItsDelegates(before: seq<Turn>, lost: seq<Event>, t: Turn, after: seq<Turn>, rest: seq<Event>)
    requires IsLog(before + [t] + after, rest) && AreLost(lost, before + [t] + after, rest)
    ensures var r := Selected(LogWithLost(before, lost, t, after, rest), t.parent.run);
            && r == Found(ThreadOf(t), WithRun(lost) + Recording(t))
            && (r == Found(ThreadOf(t), Recording(t)) <==> WithRun(lost) == [])
  {
    hide Selected, WithRun, IsLog, WriteTurns, Recording, LogWithLost, Log, AreLost;
    var joined := Joined(lost, t);
    var ts := before + [joined] + after;
    JoinedAreTurns(before, lost, t, after, rest);
    JoinedIsWritten(before, lost, t, after, rest);
    assert ts[|before|] == joined;
    RecoversTurn(ts, rest, |before|);
  }
}
