/**
 * The registry of accepted work beside the turns it stands for, through a shutdown. Work is registered
 * as its turn is submitted. It is taken off as the turn's promise settles: that callback comes right
 * after the one that settles the turn's tail, and before anything that waits for the tail.
 */
module AcceptedWork {
  import opened TurnQueue
  import opened Scheduler

  datatype Kind = Mention | Alert

  /**
   * An accepted turn: where it is told, were it to be cut, and whether it needs a slot, which a postmortem
   * does not. Turns of one `thread` are run one at a time.
   */
  datatype Accepted = Accepted(channel: string, thread: string, kind: Kind, needsSlot: bool)

  /** `names` is the work the drain waits for, `cut` what it returned when it ended. */
  datatype Drain = NotAsked | Draining(names: set<TurnId>)
    | Drained(names: set<TurnId>, cut: map<TurnId, Accepted>, timedOut: bool)

  datatype Pod = Pod(core: State, work: map<TurnId, Accepted>, drain: Drain)

  datatype Step = Accept(w: Accepted) | Move(e: Event) | AskDrain | EndDrain(timedOut: bool)

  function Fresh(limit: nat): Pod { Pod(Initial(limit), map[], NotAsked) }

  predicate HasSettled(s: State, t: TurnId) { t < |s.turns| && IsOver(s.turns[t].phase) }

  predicate CanStep(p: Pod, step: Step) {
    match step
    case Accept(_) => true
    case Move(e) => !e.Submit? && IsEnabled(p.core, e)
    case AskDrain => p.drain.NotAsked?
    case EndDrain(timedOut) => p.drain.Draining? && (timedOut || forall t | t in p.drain.names :: HasSettled(p.core, t))
  }

  /** The event in which the promise of a turn settles. */
  predicate Settles(e: Event) { e.Settle? || e.Leave? }

  function Next(p: Pod, step: Step): Pod
    requires CanStep(p, step)
  {
    match step
    case Accept(w) =>
      p.(core := Apply(p.core, Submit(w.thread, w.needsSlot)), work := Registered(p.work, |p.core.turns|, w))
    case Move(e) =>
      p.(core := Apply(p.core, e), work := if Settles(e) then Deregistered(p.work, e.t) else p.work)
    case AskDrain => p.(drain := if p.work == map[] then Drained({}, map[], false) else Draining(p.work.Keys))
    case EndDrain(timedOut) => p.(drain := Drained(p.drain.names, p.work, timedOut))
  }

  predicate IsPath(p: Pod, steps: seq<Step>)
    decreases |steps|
  {
    steps != [] ==> CanStep(p, steps[0]) && IsPath(Next(p, steps[0]), steps[1..])
  }

  function Reached(p: Pod, steps: seq<Step>): Pod
    requires IsPath(p, steps)
    decreases |steps|
  {
    if steps == [] then p else Reached(Next(p, steps[0]), steps[1..])
  }

  // ---- The registry is the unfinished turns ----

  function Unfinished(turns: seq<Turn>): set<TurnId> {
    set t: TurnId | 0 <= t < |turns| && !IsOver(turns[t].phase) :: t
  }

  predicate IsTurnOf(w: Accepted, t: Turn) { w.thread == t.key && w.needsSlot == t.needsSlot }

  ghost predicate WorkIsUnfinished(p: Pod) {
    && p.work.Keys == Unfinished(p.core.turns)
    && forall t | t in p.work :: IsTurnOf(p.work[t], p.core.turns[t])
  }

  ghost predicate NamesAreTurns(p: Pod) {
    !p.drain.NotAsked? ==> forall t | t in p.drain.names :: t < |p.core.turns|
  }

  ghost predicate PodInv(p: Pod) { Inv(p.core) && WorkIsUnfinished(p) && NamesAreTurns(p) }

  /** A turn is over once it was, or once its promise settles. */
  lemma OverAfter(s: State, e: Event, t: TurnId)
    requires QueueIsWaiting(s) && IsEnabled(s, e) && !e.Submit? && t < |s.turns|
    ensures |Apply(s, e).turns| == |s.turns|
    ensures Apply(s, e).turns[t].key == s.turns[t].key && Apply(s, e).turns[t].needsSlot == s.turns[t].needsSlot
    ensures IsOver(Apply(s, e).turns[t].phase) <==> IsOver(s.turns[t].phase) || (Settles(e) && e.t == t)
  {
  }

  lemma WorkAfterMove(p: Pod, e: Event)
    requires PodInv(p) && CanStep(p, Move(e))
    ensures WorkIsUnfinished(Next(p, Move(e))) && |Next(p, Move(e)).core.turns| == |p.core.turns|
  {
    hide PreviousIsEarlier, Linked, Serial, TailsAreNewest, SlotsAddUp, FirstComeFirstServed, IsEnabled, Apply;
    var q := Next(p, Move(e));
    SameLength(p.core, e);
    forall t: TurnId
      ensures t in q.work <==> t in Unfinished(q.core.turns)
      ensures t in q.work ==> IsTurnOf(q.work[t], q.core.turns[t])
    {
      if t < |p.core.turns| {
        OverAfter(p.core, e, t);
      }
      assert t in p.work <==> t in Unfinished(p.core.turns);
      assert t in Unfinished(q.core.turns) <==> t < |q.core.turns| && !IsOver(q.core.turns[t].phase);
    }
  }

  lemma SameLength(s: State, e: Event)
    requires IsEnabled(s, e) && !e.Submit?
    ensures |Apply(s, e).turns| == |s.turns|
  {
  }

  lemma WorkAfterAccept(p: Pod, w: Accepted)
    requires WorkIsUnfinished(p)
    ensures WorkIsUnfinished(Next(p, Accept(w)))
  {
    var q := Next(p, Accept(w));
    forall t: TurnId
      ensures t in q.work <==> t in Unfinished(q.core.turns)
    {
      assert t in p.work <==> t in Unfinished(p.core.turns);
      assert t in Unfinished(q.core.turns) <==> t < |q.core.turns| && !IsOver(q.core.turns[t].phase);
    }
  }

  lemma PodInvSurvives(p: Pod, step: Step)
    requires PodInv(p) && CanStep(p, step)
    ensures PodInv(Next(p, step))
  {
    hide Inv, WorkIsUnfinished;
    match step
    case Accept(w) =>
      InvSurvives(p.core, Submit(w.thread, w.needsSlot));
      WorkAfterAccept(p, w);
    case Move(e) =>
      InvSurvives(p.core, e);
      WorkAfterMove(p, e);
    case AskDrain => DrainChangesNoWork(p, step);
    case EndDrain(_) => DrainChangesNoWork(p, step);
  }

  lemma DrainChangesNoWork(p: Pod, step: Step)
    requires WorkIsUnfinished(p) && CanStep(p, step) && (step.AskDrain? || step.EndDrain?)
    ensures WorkIsUnfinished(Next(p, step))
    ensures step.AskDrain? ==> forall t | t in p.work :: t < |p.core.turns|
  {
    assert forall t | t in p.work :: t in Unfinished(p.core.turns);
  }

  lemma {:induction false} PodInvAlways(p: Pod, steps: seq<Step>)
    requires PodInv(p) && IsPath(p, steps)
    ensures PodInv(Reached(p, steps))
    decreases |steps|
  {
    hide PodInv, Next, CanStep;
    if steps != [] {
      PodInvSurvives(p, steps[0]);
      PodInvAlways(Next(p, steps[0]), steps[1..]);
    }
  }

  /** The turns of a pod are those of the scheduler: every result about its runs is about the pod's. */
  function Events(steps: seq<Step>): seq<Event> {
    if steps == [] then []
    else
      (match steps[0]
       case Accept(w) => [Submit(w.thread, w.needsSlot)]
       case Move(e) => [e]
       case _ => []) + Events(steps[1..])
  }

  lemma {:induction false} PodRunsTheScheduler(p: Pod, steps: seq<Step>)
    requires IsPath(p, steps)
    ensures IsRun(p.core, Events(steps)) && After(p.core, Events(steps)) == Reached(p, steps).core
    decreases |steps|
  {
    hide Apply, IsEnabled;
    if steps != [] {
      PodRunsTheScheduler(Next(p, steps[0]), steps[1..]);
      var rest := Events(steps[1..]);
      if steps[0].AskDrain? || steps[0].EndDrain? {
        assert Events(steps) == rest;
      } else {
        assert Events(steps)[1..] == rest;
        StepBack(p.core, Events(steps), Next(p, steps[0]).core);
      }
    }
  }

  /** At every moment of every run the registry holds exactly the turns accepted and not over. */
  lemma RegistryIsUnfinished(limit: nat, steps: seq<Step>)
    requires IsPath(Fresh(limit), steps)
    ensures var p := Reached(Fresh(limit), steps);
            && IsRun(Initial(limit), Events(steps)) && p.core == After(Initial(limit), Events(steps))
            && p.work.Keys == Unfinished(p.core.turns)
            && forall t | t in p.work :: IsTurnOf(p.work[t], p.core.turns[t])
  {
    hide Inv, Apply, IsEnabled, IsPath, Reached, Events;
    FreshIsSound(limit);
    PodInvAlways(Fresh(limit), steps);
    PodRunsTheScheduler(Fresh(limit), steps);
  }

  lemma FreshIsSound(limit: nat)
    ensures PodInv(Fresh(limit))
  {
    InvHoldsInitially(limit);
    assert Unfinished([]) == {};
  }

  // ---- A shutdown ----

  /** What the registry lists, in the order the work was accepted. */
  function Listed(work: map<TurnId, Accepted>, n: nat): seq<Accepted> {
    if n == 0 then [] else Listed(work, n - 1) + (if n - 1 in work then [work[n - 1]] else [])
  }

  predicate SameThread(a: Accepted, b: Accepted) { a.channel == b.channel && a.thread == b.thread }

  /** A thread's notice keeps its place, and speaks of the last piece of work put there. */
  function Put(notices: seq<Accepted>, w: Accepted): seq<Accepted> {
    if notices == [] then [w]
    else if notices[0].channel == w.channel && notices[0].thread == w.thread then [w] + notices[1..]
    else [notices[0]] + Put(notices[1..], w)
  }

  /** One notice per thread. */
  function Notices(cut: seq<Accepted>): seq<Accepted> {
    if cut == [] then [] else Put(Notices(cut[..|cut| - 1]), cut[|cut| - 1])
  }

  ghost predicate OnePerThread(notices: seq<Accepted>) {
    forall i, j | 0 <= i < j < |notices| :: !SameThread(notices[i], notices[j])
  }

  /** `w` is the last piece of work of its thread. */
  ghost predicate IsLast(cut: seq<Accepted>, w: Accepted) {
    exists i | 0 <= i < |cut| :: cut[i] == w && forall j | i < j < |cut| :: !SameThread(cut[j], w)
  }

  lemma {:induction false} PutKeepsOne(notices: seq<Accepted>, w: Accepted)
    requires OnePerThread(notices)
    ensures OnePerThread(Put(notices, w))
    ensures forall v :: v in Put(notices, w) <==> v == w || (v in notices && !SameThread(v, w))
  {
    if notices != [] && !SameThread(notices[0], w) {
      PutKeepsOne(notices[1..], w);
      var rest := Put(notices[1..], w);
      forall j | 0 <= j < |rest|
        ensures !SameThread(notices[0], rest[j])
      {
        assert rest[j] in rest;
      }
      assert notices == [notices[0]] + notices[1..];
    } else if notices != [] {
      assert notices == [notices[0]] + notices[1..];
      assert forall v | v in notices[1..] :: !SameThread(v, w);
    }
  }

  /** Every thread with work that is cut is told once, and of the newest piece of it. */
  lemma {:induction false} ToldOnce(cut: seq<Accepted>)
    ensures OnePerThread(Notices(cut))
    ensures forall w :: w in Notices(cut) <==> IsLast(cut, w)
  {
    if cut != [] {
      var rest, last := cut[..|cut| - 1], cut[|cut| - 1];
      ToldOnce(rest);
      PutKeepsOne(Notices(rest), last);
      forall w: Accepted
        ensures IsLast(cut, w) <==> w == last || (IsLast(rest, w) && !SameThread(w, last))
      {
        LastOfMore(rest, last, w);
        assert cut == rest + [last];
      }
    }
  }

  lemma LastOfMore(rest: seq<Accepted>, last: Accepted, w: Accepted)
    ensures IsLast(rest + [last], w) <==> w == last || (IsLast(rest, w) && !SameThread(w, last))
  {
    var cut := rest + [last];
    assert cut[|rest|] == last;
    if IsLast(cut, w) && w != last {
      var i :| 0 <= i < |cut| && cut[i] == w && forall j | i < j < |cut| :: !SameThread(cut[j], w);
      assert rest[i] == w && forall j | i < j < |rest| :: rest[j] == cut[j];
    }
    if IsLast(rest, w) && !SameThread(w, last) {
      var i :| 0 <= i < |rest| && rest[i] == w && forall j | i < j < |rest| :: !SameThread(rest[j], w);
      assert cut[i] == w && forall j | i < j < |rest| :: rest[j] == cut[j];
    }
  }

  lemma {:induction false} ListedIff(work: map<TurnId, Accepted>, n: nat, w: Accepted)
    ensures w in Listed(work, n) <==> exists t | t in work && t < n :: work[t] == w
  {
    if n > 0 {
      ListedIff(work, n - 1, w);
    }
  }

  /** Once asked for, a drain keeps what it waits for, and once over it stays as it ended. */
  lemma {:induction false} DrainKeepsItsNames(p: Pod, steps: seq<Step>)
    requires IsPath(p, steps) && !p.drain.NotAsked?
    ensures !Reached(p, steps).drain.NotAsked? && Reached(p, steps).drain.names == p.drain.names
    ensures p.drain.Drained? ==> Reached(p, steps).drain == p.drain
    decreases |steps|
  {
    hide Apply, IsEnabled;
    if steps != [] {
      DrainKeepsItsNames(Next(p, steps[0]), steps[1..]);
    }
  }

  lemma {:induction false} OverStaysOver(p: Pod, steps: seq<Step>, t: TurnId)
    requires PodInv(p) && IsPath(p, steps) && HasSettled(p.core, t)
    ensures HasSettled(Reached(p, steps).core, t)
    decreases |steps|
  {
    hide PodInv, Next, CanStep;
    if steps != [] {
      PodInvSurvives(p, steps[0]);
      StepKeepsOver(p, steps[0], t);
      OverStaysOver(Next(p, steps[0]), steps[1..], t);
    }
  }

  lemma StepKeepsOver(p: Pod, step: Step, t: TurnId)
    requires PodInv(p) && CanStep(p, step) && HasSettled(p.core, t)
    ensures HasSettled(Next(p, step).core, t)
  {
    hide PreviousIsEarlier, Linked, Serial, TailsAreNewest, SlotsAddUp, FirstComeFirstServed, WorkIsUnfinished;
    match step
    case Move(e) => OverAfter(p.core, e, t);
    case _ =>
  }

  predicate NobodyArrives(steps: seq<Step>) { forall k | 0 <= k < |steps| :: !steps[k].Accept? }

  lemma {:induction false} SameTurns(p: Pod, steps: seq<Step>)
    requires IsPath(p, steps) && NobodyArrives(steps)
    ensures |Reached(p, steps).core.turns| == |p.core.turns|
    decreases |steps|
  {
    hide Apply, IsEnabled;
    if steps != [] {
      if steps[0].Move? {
        SameLength(p.core, steps[0].e);
      }
      SameTurns(Next(p, steps[0]), steps[1..]);
    }
  }

  /** A drain is over at once exactly when no turn is unfinished. */
  lemma IdlePodDrainsAtOnce(limit: nat, before: seq<Step>)
    requires IsPath(Fresh(limit), before) && Reached(Fresh(limit), before).drain.NotAsked?
    ensures var p := Reached(Fresh(limit), before);
            Next(p, AskDrain).drain.Drained? <==> !IsUnfinished(p.core)
  {
    hide Inv, Apply, IsEnabled, IsPath, Reached;
    RegistryIsUnfinished(limit, before);
    var p := Reached(Fresh(limit), before);
    assert p.work == map[] <==> Unfinished(p.core.turns) == {};
    if IsUnfinished(p.core) {
      var t :| 0 <= t < |p.core.turns| && !IsOver(p.core.turns[t].phase);
      assert t in Unfinished(p.core.turns);
    }
  }

  lemma {:induction false} LastExists(cut: seq<Accepted>, v: Accepted) returns (w: Accepted)
    requires v in cut
    ensures IsLast(cut, w) && SameThread(w, v)
  {
    var rest, last := cut[..|cut| - 1], cut[|cut| - 1];
    assert cut == rest + [last];
    if SameThread(last, v) {
      w := last;
    } else {
      w := LastExists(rest, v);
    }
    LastOfMore(rest, last, w);
  }

  /** Who is told of what was cut. */
  function Told(work: map<TurnId, Accepted>, n: nat): seq<Accepted> { Notices(Listed(work, n)) }

  lemma ToldIsCut(work: map<TurnId, Accepted>, n: nat)
    requires forall t | t in work :: t < n
    ensures OnePerThread(Told(work, n))
    ensures forall w | w in Told(work, n) :: w in work.Values
    ensures forall v | v in work.Values :: exists w :: w in Told(work, n) && SameThread(w, v)
  {
    hide OnePerThread, Notices, Listed;
    ToldOnce(Listed(work, n));
    forall w | w in Told(work, n)
      ensures w in work.Values
    {
      ListedIff(work, n, w);
    }
    forall v | v in work.Values
      ensures exists w :: w in Told(work, n) && SameThread(w, v)
    {
      ListedIff(work, n, v);
      var w := LastExists(Listed(work, n), v);
    }
  }

  /** What a drain returns is what is unfinished when it ends. */
  lemma CutIsUnfinished(q: Pod, timedOut: bool)
    requires PodInv(q) && CanStep(q, EndDrain(timedOut))
    ensures var cut := Next(q, EndDrain(timedOut)).drain.cut;
            && cut == q.work && cut.Keys == Unfinished(q.core.turns)
            && (forall t | t in cut :: t < |q.core.turns| && IsTurnOf(cut[t], q.core.turns[t]))
  {
    hide Inv;
    assert forall t | t in q.work :: t in Unfinished(q.core.turns);
  }

  /** Every turn a drain waits for is over when it ends without a timeout, or is named. */
  lemma NamesAreOverOrCut(p: Pod, during: seq<Step>, timedOut: bool)
    requires PodInv(p) && CanStep(p, AskDrain) && p.work != map[]
    requires IsPath(Next(p, AskDrain), during)
    requires CanStep(Reached(Next(p, AskDrain), during), EndDrain(timedOut))
    ensures var q := Reached(Next(p, AskDrain), during);
            && PodInv(q)
            && (forall t | t in Unfinished(p.core.turns) :: HasSettled(q.core, t) || t in q.work)
            && (!timedOut ==> forall t | t in Unfinished(p.core.turns) :: HasSettled(q.core, t))
  {
    hide Inv, IsPath, Reached, Apply, IsEnabled;
    var start := Next(p, AskDrain);
    var q := Reached(start, during);
    PodInvSurvives(p, AskDrain);
    PodInvAlways(start, during);
    DrainKeepsItsNames(start, during);
    assert q.drain.names == p.work.Keys;
    forall t | t in Unfinished(p.core.turns)
      ensures HasSettled(q.core, t) || t in q.work
    {
      assert t in q.drain.names && t < |q.core.turns|;
      assert t in q.work <==> t in Unfinished(q.core.turns);
    }
  }

  lemma NothingNewIsCut(p: Pod, during: seq<Step>)
    requires PodInv(p) && CanStep(p, AskDrain) && p.work != map[]
    requires IsPath(Next(p, AskDrain), during) && NobodyArrives(during)
    requires CanStep(Reached(Next(p, AskDrain), during), EndDrain(false))
    ensures Reached(Next(p, AskDrain), during).work == map[]
  {
    hide Inv, IsPath, Reached, Apply, IsEnabled;
    var start := Next(p, AskDrain);
    var q := Reached(start, during);
    NamesAreOverOrCut(p, during, false);
    PodInvSurvives(p, AskDrain);
    SameTurns(start, during);
    forall t: TurnId
      ensures t !in q.work
    {
      assert t in q.work <==> t in Unfinished(q.core.turns);
      if t < |p.core.turns| && t !in Unfinished(p.core.turns) {
        OverStaysOver(start, during, t);
      }
    }
  }

  /**
   * A shutdown forgets nobody: a drain that starts in `p` and ends in `q` returns exactly the turns
   * unfinished then, and one notice goes to each of their threads and to no other. Every turn it was
   * asked to wait for is over or has its thread told; without a timeout they are all over, and if
   * nothing arrived meanwhile nobody is told anything.
   */
  lemma ShutdownForgetsNobody(p: Pod, during: seq<Step>, timedOut: bool)
    requires PodInv(p) && CanStep(p, AskDrain) && p.work != map[]
    requires IsPath(Next(p, AskDrain), during)
    requires CanStep(Reached(Next(p, AskDrain), during), EndDrain(timedOut))
    ensures var q := Reached(Next(p, AskDrain), during);
            var cut := Next(q, EndDrain(timedOut)).drain.cut;
            var told := Told(cut, |q.core.turns|);
            && cut.Keys == Unfinished(q.core.turns)
            && OnePerThread(told)
            && (forall w | w in told :: w in cut.Values)
            && (forall t | t in Unfinished(p.core.turns) ::
                  HasSettled(q.core, t) || (t in cut && exists w :: w in told && SameThread(w, cut[t])))
            && (!timedOut ==> forall t | t in Unfinished(p.core.turns) :: HasSettled(q.core, t))
            && (!timedOut && NobodyArrives(during) ==> cut == map[] && told == [])
  {
    hide PodInv, Next, CanStep, IsPath, Reached, Notices, Listed, OnePerThread, HasSettled, Unfinished, SameThread;
    var q := Reached(Next(p, AskDrain), during);
    NamesAreOverOrCut(p, during, timedOut);
    CutIsUnfinished(q, timedOut);
    var cut := q.work;
    ToldIsCut(cut, |q.core.turns|);
    if !timedOut && NobodyArrives(during) {
      NothingNewIsCut(p, during);
      NobodyIsTold(cut, |q.core.turns|);
    }
    assert forall t | t in cut :: cut[t] in cut.Values;
  }

  lemma {:induction false} NobodyIsTold(work: map<TurnId, Accepted>, n: nat)
    requires work == map[]
    ensures Listed(work, n) == [] && Told(work, n) == []
  {
    if n > 0 {
      NobodyIsTold(work, n - 1);
    }
  }

  // ---- When a drain needs its timer ----

  /** In some run the drain ends without a timeout. */
  ghost predicate CanEndInTime(p: Pod) {
    exists steps: seq<Step> :: IsPath(p, steps) && NobodyArrives(steps) && CanStep(Reached(p, steps), EndDrain(false))
  }

  function Moves(es: seq<Event>): seq<Step> {
    if es == [] then [] else [Move(es[0])] + Moves(es[1..])
  }

  lemma {:induction false} PodFollows(p: Pod, es: seq<Event>)
    requires IsRun(p.core, es) && NoArrivals(es)
    ensures IsPath(p, Moves(es)) && NobodyArrives(Moves(es))
    ensures Reached(p, Moves(es)).core == After(p.core, es) && Reached(p, Moves(es)).drain == p.drain
    decreases |es|
  {
    hide Apply, IsEnabled;
    if es != [] {
      PodFollows(Next(p, Move(es[0])), es[1..]);
      assert Moves(es)[1..] == Moves(es[1..]);
    }
  }

  /**
   * A drain can end before its timer exactly when a slot is left that no turn has lost, or no turn it waits
   * for lacks one or is behind one of its thread that does.
   */
  lemma EndsInTimeIff(p: Pod)
    requires PodInv(p) && p.drain.Draining?
    ensures CanEndInTime(p) <==>
              p.core.leaked < p.core.slots.limit || forall t | t in p.drain.names :: !IsBehindSlot(p.core.turns, t)
  {
    hide Inv, WorkIsUnfinished, Apply, IsEnabled, IsRun, After, IsPath, Reached, Events, Moves, IsBehindSlot;
    if p.core.leaked < p.core.slots.limit {
      var es := FinishAll(p.core);
      PodFollows(p, es);
      assert CanStep(Reached(p, Moves(es)), EndDrain(false));
    } else {
      if forall t | t in p.drain.names :: !IsBehindSlot(p.core.turns, t) {
        var es := FinishUnblocked(p.core);
        PodFollows(p, es);
        assert CanStep(Reached(p, Moves(es)), EndDrain(false));
      }
      forall steps, t | IsPath(p, steps) && CanStep(Reached(p, steps), EndDrain(false)) && t in p.drain.names
        ensures !IsBehindSlot(p.core.turns, t)
      {
        NameIsNotBehindSlot(p, steps, t);
      }
    }
  }

  lemma NameIsNotBehindSlot(p: Pod, steps: seq<Step>, t: TurnId)
    requires PodInv(p) && p.drain.Draining? && p.core.leaked >= p.core.slots.limit && t in p.drain.names
    requires IsPath(p, steps) && CanStep(Reached(p, steps), EndDrain(false))
    ensures !IsBehindSlot(p.core.turns, t)
  {
    hide Inv, WorkIsUnfinished, Apply, IsEnabled, IsRun, After, IsPath, Reached, Events, IsBehindSlot;
    PodRunsTheScheduler(p, steps);
    DrainKeepsItsNames(p, steps);
    if IsBehindSlot(p.core.turns, t) {
      BehindSlotForGood(p.core, Events(steps), t);
    }
  }
}
