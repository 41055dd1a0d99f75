/**
 * Turns under the thread queue and the semaphore, as a transition system. An event is a promise
 * settling or a callback running; any enabled event may come next, so what holds of every run holds
 * of every interleaving.
 */
module Scheduler {
  import opened Text
  import opened TurnQueue

  /**
   * `Queued`: its predecessor's tail has not settled, or it has not been looked at since.
   * `Waiting`: it asked for a slot. `Holding`: it has one. `Freed`: it gave it back, or runs without one,
   * and is not over.
   * `Settled`: its tail settled. `Done`: the callback on its tail has run.
   */
  datatype Phase = Queued | Waiting | Holding | Freed | Settled | Done

  /** An investigation needs a slot; a postmortem runs without. */
  datatype Turn = Turn(key: string, needsSlot: bool, previous: Option<TurnId>, phase: Phase)

  /** `asked` and `granted` record the order in which turns asked for a slot and got one. */
  datatype State = State(
    slots: Slots,
    tails: map<string, TurnId>,
    turns: seq<Turn>,
    leaked: nat,
    asked: seq<TurnId>,
    granted: seq<TurnId>)

  /**
   * `Leave` is a turn that throws after taking its slot and before the block whose `finally` gives the
   * slot back: its promise settles and the slot is lost.
   */
  datatype Event =
    | Submit(key: string, needsSlot: bool) | Start(t: TurnId) | Return(t: TurnId) | Leave(t: TurnId)
    | Settle(t: TurnId, failed: bool) | Clean(t: TurnId)

  function Initial(limit: nat): State { State(Slots(limit, 0, []), map[], [], 0, [], []) }

  predicate IsOver(p: Phase) { p.Settled? || p.Done? }

  predicate IsEnabled(s: State, e: Event) {
    match e
    case Submit(_, _) => true
    case Start(t) =>
      && t < |s.turns| && s.turns[t].phase.Queued?
      && (s.turns[t].previous.Some? ==>
            s.turns[t].previous.value < |s.turns| && IsOver(s.turns[s.turns[t].previous.value].phase))
    case Return(t) => t < |s.turns| && s.turns[t].phase.Holding?
    case Leave(t) => t < |s.turns| && s.turns[t].phase.Holding?
    case Settle(t, _) => t < |s.turns| && s.turns[t].phase.Freed?
    case Clean(t) => t < |s.turns| && s.turns[t].phase.Settled?
  }

  function Enter(turns: seq<Turn>, t: TurnId, p: Phase): seq<Turn>
    requires t < |turns|
  {
    turns[t := turns[t].(phase := p)]
  }

  /** The waiter a released slot goes to takes it at once. */
  function HandOver(s: State): State {
    if s.slots.queue == [] then s.(slots := Release(s.slots))
    else
      var next := s.slots.queue[0];
      s.(slots := Release(s.slots),
         turns := if next < |s.turns| then Enter(s.turns, next, Holding) else s.turns,
         granted := s.granted + [next])
  }

  /** A turn whose predecessors are over asks for a slot. */
  function Ask(s: State, t: TurnId): State
    requires t < |s.turns|
  {
    var granted := s.slots.running < s.slots.limit;
    s.(slots := Acquire(s.slots, t),
       turns := Enter(s.turns, t, if granted then Holding else Waiting),
       asked := s.asked + [t],
       granted := if granted then s.granted + [t] else s.granted)
  }

  function Apply(s: State, e: Event): State
    requires IsEnabled(s, e)
  {
    match e
    case Submit(key, needsSlot) =>
      var t := |s.turns|;
      s.(tails := Link(s.tails, key, t),
         turns := s.turns + [Turn(key, needsSlot, if key in s.tails then Some(s.tails[key]) else None, Queued)])
    case Start(t) => if s.turns[t].needsSlot then Ask(s, t) else s.(turns := Enter(s.turns, t, Freed))
    case Return(t) => HandOver(s.(turns := Enter(s.turns, t, Freed)))
    case Leave(t) => s.(turns := Enter(s.turns, t, Settled), leaked := s.leaked + 1)
    case Settle(t, _) => s.(turns := Enter(s.turns, t, Settled))
    case Clean(t) => s.(turns := Enter(s.turns, t, Done), tails := Unlink(s.tails, s.turns[t].key, t))
  }

  /** The states a list of events passes through. */
  predicate IsRun(s: State, es: seq<Event>)
    decreases |es|
  {
    es != [] ==> IsEnabled(s, es[0]) && IsRun(Apply(s, es[0]), es[1..])
  }

  function After(s: State, es: seq<Event>): State
    requires IsRun(s, es)
    decreases |es|
  {
    if es == [] then s else After(Apply(s, es[0]), es[1..])
  }

  // ---- What every state keeps ----

  predicate IsLater(turns: seq<Turn>, i: int, j: int) {
    0 <= i < j < |turns| && turns[i].key == turns[j].key
  }

  /** A turn waits for the newest earlier turn of its thread, unless all of those are over. */
  ghost predicate Linked(turns: seq<Turn>) {
    forall i, j | IsLater(turns, i, j) ::
      match turns[j].previous
      case None => IsOver(turns[i].phase)
      case Some(p) => i <= p && IsLater(turns, p, j)
  }

  ghost predicate PreviousIsEarlier(turns: seq<Turn>) {
    forall j | 0 <= j < |turns| && turns[j].previous.Some? :: IsLater(turns, turns[j].previous.value, j)
  }

  /** A turn that has started has every earlier turn of its thread behind it. */
  ghost predicate Serial(turns: seq<Turn>) {
    forall i, j | IsLater(turns, i, j) :: !turns[j].phase.Queued? ==> IsOver(turns[i].phase)
  }

  ghost predicate IsNewest(turns: seq<Turn>, t: TurnId) {
    t < |turns| && forall j | t < j < |turns| :: turns[j].key != turns[t].key
  }

  /** The entry of a thread is its newest turn, and is there until that turn is done. */
  ghost predicate TailsAreNewest(s: State) {
    && (forall k | k in s.tails ::
          IsNewest(s.turns, s.tails[k]) && s.turns[s.tails[k]].key == k && !s.turns[s.tails[k]].phase.Done?)
    && (forall t | 0 <= t < |s.turns| && IsNewest(s.turns, t) && !s.turns[t].phase.Done? ::
          s.turns[t].key in s.tails && s.tails[s.turns[t].key] == t)
  }

  function Holders(turns: seq<Turn>): set<TurnId> {
    set t: TurnId | 0 <= t < |turns| && turns[t].phase.Holding? :: t
  }

  /** Slots in use are held or lost; the queue is exactly the waiting turns. */
  ghost predicate SlotsAddUp(s: State) {
    && s.slots.running == |Holders(s.turns)| + s.leaked
    && s.slots.running <= s.slots.limit
    && (s.slots.queue != [] ==> s.slots.running == s.slots.limit)
  }

  ghost predicate QueueIsWaiting(s: State) {
    && (forall i | 0 <= i < |s.slots.queue| ::
          s.slots.queue[i] < |s.turns| && s.turns[s.slots.queue[i]].phase.Waiting?)
    && (forall i, j | 0 <= i < j < |s.slots.queue| :: s.slots.queue[i] != s.slots.queue[j])
    && (forall t | 0 <= t < |s.turns| && s.turns[t].phase.Waiting? :: t in s.slots.queue)
  }

  ghost predicate WaitersNeedSlots(turns: seq<Turn>) {
    forall t | 0 <= t < |turns| && turns[t].phase.Waiting? :: turns[t].needsSlot
  }

  /** Slots are granted in the order they were asked for. */
  ghost predicate FirstComeFirstServed(s: State) {
    s.asked == s.granted + s.slots.queue
  }

  ghost predicate Inv(s: State) {
    && PreviousIsEarlier(s.turns) && Linked(s.turns) && Serial(s.turns)
    && TailsAreNewest(s)
    && SlotsAddUp(s) && QueueIsWaiting(s) && FirstComeFirstServed(s)
    && WaitersNeedSlots(s.turns)
  }

  // ---- Phases only ----

  /** The order of the phases; a turn only moves forward. */
  function Rank(p: Phase): nat {
    match p
    case Queued => 5
    case Waiting => 4
    case Holding => 3
    case Freed => 2
    case Settled => 1
    case Done => 0
  }

  /** `ts` differs from `us` only in phases, and only moves forward. */
  ghost predicate MovesOn(ts: seq<Turn>, us: seq<Turn>) {
    && |ts| == |us|
    && forall t | 0 <= t < |ts| ::
         && us[t].key == ts[t].key && us[t].needsSlot == ts[t].needsSlot && us[t].previous == ts[t].previous
         && Rank(us[t].phase) <= Rank(ts[t].phase)
  }

  lemma EnterMovesOn(turns: seq<Turn>, t: TurnId, p: Phase)
    requires t < |turns| && Rank(p) <= Rank(turns[t].phase)
    ensures MovesOn(turns, Enter(turns, t, p))
  {
  }

  lemma LinksSurvive(ts: seq<Turn>, us: seq<Turn>)
    requires MovesOn(ts, us) && PreviousIsEarlier(ts) && Linked(ts)
    ensures PreviousIsEarlier(us) && Linked(us)
  {
    forall i, j | IsLater(us, i, j)
      ensures match us[j].previous
              case None => IsOver(us[i].phase)
              case Some(p) => i <= p && IsLater(us, p, j)
    {
      assert IsLater(ts, i, j);
    }
  }

  /** Serialisation survives while no turn but `t` starts, and `t` only with its predecessors over. */
  lemma SerialSurvives(ts: seq<Turn>, us: seq<Turn>, t: TurnId)
    requires MovesOn(ts, us) && Serial(ts)
    requires forall j | 0 <= j < |ts| && j != t && ts[j].phase.Queued? :: us[j].phase.Queued?
    requires forall i | IsLater(ts, i, t) :: IsOver(ts[i].phase) || us[t].phase.Queued?
    ensures Serial(us)
  {
    forall i, j | IsLater(us, i, j) && !us[j].phase.Queued?
      ensures IsOver(us[i].phase)
    {
      assert IsLater(ts, i, j);
    }
  }

  lemma ReadyIsClear(turns: seq<Turn>, t: TurnId)
    requires PreviousIsEarlier(turns) && Linked(turns) && Serial(turns)
    requires t < |turns|
    requires turns[t].previous.Some? ==>
               turns[t].previous.value < |turns| && IsOver(turns[turns[t].previous.value].phase)
    ensures forall i | IsLater(turns, i, t) :: IsOver(turns[i].phase)
  {
    forall i | IsLater(turns, i, t)
      ensures IsOver(turns[i].phase)
    {
      if turns[t].previous.Some? && i != turns[t].previous.value {
        assert IsLater(turns, i, turns[t].previous.value);
      }
    }
  }

  lemma NewestSurvives(ts: seq<Turn>, us: seq<Turn>)
    requires MovesOn(ts, us)
    ensures forall t | 0 <= t < |us| :: IsNewest(us, t) <==> IsNewest(ts, t)
  {
  }

  lemma TailsSurvive(s: State, us: seq<Turn>)
    requires TailsAreNewest(s) && MovesOn(s.turns, us)
    requires forall t | 0 <= t < |us| :: us[t].phase.Done? ==> s.turns[t].phase.Done?
    ensures TailsAreNewest(s.(turns := us))
  {
    NewestSurvives(s.turns, us);
  }

  lemma TailsAfterClean(s: State, t: TurnId)
    requires TailsAreNewest(s) && IsEnabled(s, Clean(t))
    ensures TailsAreNewest(Apply(s, Clean(t)))
  {
    var us := Apply(s, Clean(t)).turns;
    var tails := Apply(s, Clean(t)).tails;
    EnterMovesOn(s.turns, t, Done);
    NewestSurvives(s.turns, us);
    forall u | 0 <= u < |us| && IsNewest(us, u) && !us[u].phase.Done?
      ensures us[u].key in tails && tails[us[u].key] == u
    {
      assert us[u] == s.turns[u];
      assert s.turns[u].key in s.tails && s.tails[s.turns[u].key] == u;
    }
  }

  lemma TailsAfterSubmit(s: State, key: string, needsSlot: bool)
    requires TailsAreNewest(s)
    ensures TailsAreNewest(Apply(s, Submit(key, needsSlot)))
  {
    var r := Apply(s, Submit(key, needsSlot));
    var n := |s.turns|;
    forall t | 0 <= t < n
      ensures IsNewest(r.turns, t) <==> IsNewest(s.turns, t) && s.turns[t].key != key
    {
      assert r.turns[t] == s.turns[t] && r.turns[n].key == key;
      if IsNewest(r.turns, t) {
        assert forall j | t < j < n :: r.turns[j] == s.turns[j];
      }
    }
    assert IsNewest(r.turns, n);
    forall k | k in r.tails
      ensures IsNewest(r.turns, r.tails[k]) && r.turns[r.tails[k]].key == k && !r.turns[r.tails[k]].phase.Done?
    {
      if k != key {
        assert k in s.tails && r.tails[k] == s.tails[k];
      }
    }
  }

  lemma LinksAfterSubmit(s: State, key: string, needsSlot: bool)
    requires PreviousIsEarlier(s.turns) && Linked(s.turns) && Serial(s.turns) && TailsAreNewest(s)
    ensures var us := Apply(s, Submit(key, needsSlot)).turns;
            PreviousIsEarlier(us) && Linked(us) && Serial(us)
  {
    var us := Apply(s, Submit(key, needsSlot)).turns;
    var n := |s.turns|;
    forall i, j | IsLater(us, i, j)
      ensures match us[j].previous
              case None => IsOver(us[i].phase)
              case Some(p) => i <= p && IsLater(us, p, j)
      ensures !us[j].phase.Queued? ==> IsOver(us[i].phase)
    {
      if j < n {
        assert IsLater(s.turns, i, j);
      } else {
        EarlierOfNewest(s, key, i);
      }
    }
    forall j | 0 <= j < |us| && us[j].previous.Some?
      ensures IsLater(us, us[j].previous.value, j)
    {
      if j < n {
        assert IsLater(s.turns, s.turns[j].previous.value, j);
      }
    }
  }

  /** Every turn of a thread is at or before its entry; without an entry they are all over. */
  lemma EarlierOfNewest(s: State, key: string, i: TurnId)
    requires Serial(s.turns) && TailsAreNewest(s)
    requires i < |s.turns| && s.turns[i].key == key
    ensures if key in s.tails then i <= s.tails[key] else IsOver(s.turns[i].phase)
  {
    if key !in s.tails {
      var n := Newest(s.turns, i);
      assert s.turns[n].phase.Done?;
      assert i != n ==> IsLater(s.turns, i, n);
    }
  }

  /** The newest turn of the thread of turn `i`. */
  lemma Newest(turns: seq<Turn>, i: TurnId) returns (n: TurnId)
    requires i < |turns|
    ensures i <= n && IsNewest(turns, n) && turns[n].key == turns[i].key
    decreases |turns| - i
  {
    if IsNewest(turns, i) {
      n := i;
    } else {
      var j :| i < j < |turns| && turns[j].key == turns[i].key;
      n := Newest(turns, j);
    }
  }

  // ---- Slots ----

  lemma HoldersAfterEnter(turns: seq<Turn>, t: TurnId, p: Phase)
    requires t < |turns|
    ensures Holders(Enter(turns, t, p)) == if p.Holding? then Holders(turns) + {t} else Holders(turns) - {t}
  {
    var us := Enter(turns, t, p);
    forall u: TurnId
      ensures u in Holders(us) <==> if u == t then p.Holding? else u in Holders(turns)
    {
      assert u in Holders(us) <==> u < |us| && us[u].phase.Holding?;
      assert u in Holders(turns) <==> u < |turns| && turns[u].phase.Holding?;
    }
  }

  /** Entering a phase that is not `Holding`, from one that is. */
  lemma FewerHolders(turns: seq<Turn>, t: TurnId, p: Phase)
    requires t < |turns| && turns[t].phase.Holding? && !p.Holding?
    ensures |Holders(Enter(turns, t, p))| == |Holders(turns)| - 1
  {
    HoldersAfterEnter(turns, t, p);
    assert t in Holders(turns);
  }

  lemma OneMoreHolder(turns: seq<Turn>, t: TurnId)
    requires t < |turns| && !turns[t].phase.Holding?
    ensures |Holders(Enter(turns, t, Holding))| == |Holders(turns)| + 1
  {
    HoldersAfterEnter(turns, t, Holding);
    assert t !in Holders(turns);
  }

  lemma SameHolders(turns: seq<Turn>, t: TurnId, p: Phase)
    requires t < |turns| && !turns[t].phase.Holding? && !p.Holding?
    ensures Holders(Enter(turns, t, p)) == Holders(turns)
  {
    HoldersAfterEnter(turns, t, p);
    assert t !in Holders(turns);
  }

  /** What the slots keep. */
  ghost predicate SlotInv(s: State) {
    SlotsAddUp(s) && QueueIsWaiting(s) && FirstComeFirstServed(s) && WaitersNeedSlots(s.turns)
  }

  /** A turn that is not waiting changes phase outside the semaphore. */
  lemma QueueSurvives(s: State, t: TurnId, p: Phase)
    requires QueueIsWaiting(s) && t < |s.turns| && !s.turns[t].phase.Waiting? && !p.Waiting?
    ensures QueueIsWaiting(s.(turns := Enter(s.turns, t, p)))
  {
  }

  lemma SlotsAfterStart(s: State, t: TurnId)
    requires SlotInv(s) && IsEnabled(s, Start(t))
    ensures SlotInv(Apply(s, Start(t)))
  {
    if !s.turns[t].needsSlot {
      SameHolders(s.turns, t, Freed);
      QueueSurvives(s, t, Freed);
    } else if s.slots.running < s.slots.limit {
      OneMoreHolder(s.turns, t);
      QueueSurvives(s, t, Holding);
      assert s.asked + [t] == s.granted + [t] + s.slots.queue;
    } else {
      SameHolders(s.turns, t, Waiting);
      assert s.asked + [t] == s.granted + (s.slots.queue + [t]);
    }
  }

  lemma SlotsAfterHandOver(s: State)
    requires QueueIsWaiting(s) && FirstComeFirstServed(s) && WaitersNeedSlots(s.turns)
    requires s.slots.running == |Holders(s.turns)| + s.leaked + 1
    requires s.slots.running <= s.slots.limit
    requires s.slots.queue != [] ==> s.slots.running == s.slots.limit
    ensures SlotInv(HandOver(s))
  {
    var queue := s.slots.queue;
    if queue != [] {
      var next := queue[0];
      OneMoreHolder(s.turns, next);
      assert s.granted + queue == s.granted + [next] + queue[1..];
      QueueAfterHandOver(s);
    }
  }

  lemma QueueAfterHandOver(s: State)
    requires QueueIsWaiting(s) && s.slots.queue != []
    ensures QueueIsWaiting(HandOver(s))
  {
    var queue := s.slots.queue;
    var us := HandOver(s).turns;
    forall t | 0 <= t < |us| && us[t].phase.Waiting?
      ensures t in queue[1..]
    {
      assert t in queue && t != queue[0];
    }
    forall i | 0 <= i < |queue[1..]|
      ensures queue[1..][i] < |us| && us[queue[1..][i]].phase.Waiting?
    {
      assert queue[1..][i] == queue[i + 1];
    }
  }

  lemma SlotsAfterReturn(s: State, t: TurnId)
    requires SlotInv(s) && IsEnabled(s, Return(t))
    ensures SlotInv(Apply(s, Return(t)))
  {
    FewerHolders(s.turns, t, Freed);
    QueueSurvives(s, t, Freed);
    SlotsAfterHandOver(s.(turns := Enter(s.turns, t, Freed)));
  }

  lemma SlotsAfterSubmit(s: State, key: string, needsSlot: bool)
    requires SlotInv(s)
    ensures SlotInv(Apply(s, Submit(key, needsSlot)))
  {
    var us := Apply(s, Submit(key, needsSlot)).turns;
    forall t: TurnId
      ensures t in Holders(us) <==> t in Holders(s.turns)
    {
      assert t in Holders(us) <==> t < |us| && us[t].phase.Holding?;
      assert t in Holders(s.turns) <==> t < |s.turns| && s.turns[t].phase.Holding?;
    }
    assert Holders(us) == Holders(s.turns);
  }

  lemma SlotsSurvive(s: State, e: Event)
    requires SlotInv(s) && IsEnabled(s, e)
    ensures SlotInv(Apply(s, e))
  {
    match e
    case Submit(key, needsSlot) => SlotsAfterSubmit(s, key, needsSlot);
    case Start(t) => SlotsAfterStart(s, t);
    case Return(t) => SlotsAfterReturn(s, t);
    case Leave(t) =>
      FewerHolders(s.turns, t, Settled);
      QueueSurvives(s, t, Settled);
    case Settle(t, _) =>
      SameHolders(s.turns, t, Settled);
      QueueSurvives(s, t, Settled);
    case Clean(t) =>
      SameHolders(s.turns, t, Done);
      QueueSurvives(s, t, Done);
  }

  // ---- Turns ----

  ghost predicate TurnInv(s: State) {
    PreviousIsEarlier(s.turns) && Linked(s.turns) && Serial(s.turns) && TailsAreNewest(s)
  }

  lemma HandOverMovesOn(s: State)
    requires QueueIsWaiting(s)
    ensures MovesOn(s.turns, HandOver(s).turns)
    ensures forall j | 0 <= j < |s.turns| && s.turns[j].phase.Queued? :: HandOver(s).turns[j].phase.Queued?
    ensures forall j | 0 <= j < |s.turns| :: HandOver(s).turns[j].phase.Done? ==> s.turns[j].phase.Done?
  {
  }

  lemma MovesOnTwice(a: seq<Turn>, b: seq<Turn>, c: seq<Turn>)
    requires MovesOn(a, b) && MovesOn(b, c)
    ensures MovesOn(a, c)
  {
  }

  /** Every event but a submission only moves turns forward. */
  lemma ApplyMovesOn(s: State, e: Event)
    requires IsEnabled(s, e) && !e.Submit? && QueueIsWaiting(s)
    ensures MovesOn(s.turns, Apply(s, e).turns)
    ensures forall j | 0 <= j < |s.turns| && s.turns[j].phase.Queued? && e != Start(j) ::
              Apply(s, e).turns[j].phase.Queued?
    ensures forall j | 0 <= j < |s.turns| && e != Clean(j) ::
              Apply(s, e).turns[j].phase.Done? ==> s.turns[j].phase.Done?
  {
    match e
    case Return(t) =>
      EnterMovesOn(s.turns, t, Freed);
      QueueSurvives(s, t, Freed);
      var mid := s.(turns := Enter(s.turns, t, Freed));
      HandOverMovesOn(mid);
      MovesOnTwice(s.turns, mid.turns, Apply(s, e).turns);
    case _ =>
  }

  lemma TurnsSurvive(s: State, e: Event)
    requires TurnInv(s) && QueueIsWaiting(s) && IsEnabled(s, e)
    ensures TurnInv(Apply(s, e))
  {
    hide IsNewest;
    if e.Submit? {
      LinksAfterSubmit(s, e.key, e.needsSlot);
      TailsAfterSubmit(s, e.key, e.needsSlot);
    } else {
      var us := Apply(s, e).turns;
      ApplyMovesOn(s, e);
      LinksSurvive(s.turns, us);
      if e.Start? {
        ReadyIsClear(s.turns, e.t);
        SerialSurvives(s.turns, us, e.t);
      } else {
        SerialSurvives(s.turns, us, |s.turns|);
      }
      if e.Clean? {
        TailsAfterClean(s, e.t);
      } else {
        TailsSurvive(s, us);
      }
    }
  }

  lemma NobodyHolds(turns: seq<Turn>)
    requires turns == []
    ensures |Holders(turns)| == 0
  {
    assert Holders(turns) == {};
  }

  lemma InvHoldsInitially(limit: nat)
    ensures Inv(Initial(limit))
  {
    NobodyHolds(Initial(limit).turns);
  }

  lemma InvSurvives(s: State, e: Event)
    requires Inv(s) && IsEnabled(s, e)
    ensures Inv(Apply(s, e))
  {
    hide PreviousIsEarlier, Linked, Serial, TailsAreNewest, SlotsAddUp, FirstComeFirstServed, Apply;
    SlotsSurvive(s, e);
    TurnsSurvive(s, e);
  }

  /** Every state of every interleaving, whatever fails and whatever is still to come. */
  lemma {:induction false} InvAlways(s: State, es: seq<Event>)
    requires Inv(s) && IsRun(s, es)
    ensures Inv(After(s, es))
    decreases |es|
  {
    hide Inv, Apply, IsEnabled;
    if es != [] {
      InvSurvives(s, es[0]);
      InvAlways(Apply(s, es[0]), es[1..]);
    }
  }

  // ---- Main results over all interleavings ----

  predicate IsRunning(p: Phase) { p.Waiting? || p.Holding? || p.Freed? }

  /**
   * At every moment of every run: one turn per thread at most is started and not over, and a turn
   * starts only after every earlier turn of its thread is over, however those ended.
   */
  lemma OneTurnPerThread(limit: nat, es: seq<Event>, i: TurnId, j: TurnId)
    requires IsRun(Initial(limit), es)
    requires i < j < |After(Initial(limit), es).turns|
    requires After(Initial(limit), es).turns[i].key == After(Initial(limit), es).turns[j].key
    ensures var turns := After(Initial(limit), es).turns;
            && !(IsRunning(turns[i].phase) && IsRunning(turns[j].phase))
            && (!turns[j].phase.Queued? ==> IsOver(turns[i].phase))
  {
    hide Apply, IsEnabled, IsRun, After, SlotsAddUp, QueueIsWaiting, TailsAreNewest, Linked, PreviousIsEarlier;
    InvHoldsInitially(limit);
    InvAlways(Initial(limit), es);
    assert IsLater(After(Initial(limit), es).turns, i, j);
  }

  /** At every moment of every run a thread's entry is its newest turn, until that one is done. */
  lemma EntryIsNewestTurn(limit: nat, es: seq<Event>, key: string)
    requires IsRun(Initial(limit), es)
    ensures var s := After(Initial(limit), es);
            && (key in s.tails ==> IsNewest(s.turns, s.tails[key]) && s.turns[s.tails[key]].key == key)
            && (key in s.tails <==> exists t | 0 <= t < |s.turns| ::
                  s.turns[t].key == key && IsNewest(s.turns, t) && !s.turns[t].phase.Done?)
            && ((forall t | 0 <= t < |s.turns| && s.turns[t].key == key :: s.turns[t].phase.Done?) ==> key !in s.tails)
  {
    hide Apply, IsEnabled, IsRun, After, SlotsAddUp, QueueIsWaiting, Linked, PreviousIsEarlier, Serial,
        FirstComeFirstServed;
    InvHoldsInitially(limit);
    InvAlways(Initial(limit), es);
    var s := After(Initial(limit), es);
    if key in s.tails {
      assert s.turns[s.tails[key]].key == key;
    }
  }

  /** Never more turns hold a slot than there are slots, and slots are granted in the order asked. */
  lemma SlotsAreBounded(limit: nat, es: seq<Event>)
    requires IsRun(Initial(limit), es)
    ensures var s := After(Initial(limit), es);
            && |Holders(s.turns)| + s.leaked <= limit
            && s.granted <= s.asked
            && s.slots.queue == s.asked[|s.granted|..]
  {
    hide Apply, IsEnabled, QueueIsWaiting, TailsAreNewest, Linked, PreviousIsEarlier, Serial, Holders;
    InvHoldsInitially(limit);
    InvAlways(Initial(limit), es);
    LimitIsFixed(Initial(limit), es);
  }

  lemma {:induction false} LimitIsFixed(s: State, es: seq<Event>)
    requires IsRun(s, es)
    ensures After(s, es).slots.limit == s.slots.limit
    decreases |es|
  {
    if es != [] {
      LimitIsFixed(Apply(s, es[0]), es[1..]);
    }
  }

  // ---- Progress ----

  predicate IsUnfinished(s: State) { exists t | 0 <= t < |s.turns| :: !IsOver(s.turns[t].phase) }

  /** The oldest unfinished turn, in a state where none has started, can start. */
  lemma OldestCanStart(s: State, t: TurnId)
    requires PreviousIsEarlier(s.turns)
    requires t < |s.turns| && s.turns[t].phase.Queued?
    requires forall i | 0 <= i < t :: IsOver(s.turns[i].phase)
    ensures IsEnabled(s, Start(t))
  {
  }

  /** The oldest unfinished turn, at or before `u`. */
  lemma Oldest(s: State, u: TurnId) returns (t: TurnId)
    requires u < |s.turns| && !IsOver(s.turns[u].phase)
    ensures t < |s.turns| && !IsOver(s.turns[t].phase)
    ensures forall i | 0 <= i < t :: IsOver(s.turns[i].phase)
    decreases u
  {
    if i :| 0 <= i < u && !IsOver(s.turns[i].phase) {
      t := Oldest(s, i);
    } else {
      t := u;
    }
  }

  lemma NoHolderNoWaiter(s: State)
    requires SlotInv(s) && s.leaked < s.slots.limit
    requires forall t | 0 <= t < |s.turns| :: !s.turns[t].phase.Holding?
    ensures forall t | 0 <= t < |s.turns| :: !s.turns[t].phase.Waiting?
  {
    assert Holders(s.turns) == {};
    assert s.slots.queue == [];
  }

  /**
   * No deadlock: while a slot is left and a turn is unfinished, some turn can move on - and not by
   * losing its slot.
   */
  lemma SomethingCanMove(s: State) returns (e: Event)
    requires Inv(s) && s.leaked < s.slots.limit && IsUnfinished(s)
    ensures IsEnabled(s, e) && !e.Submit? && !e.Leave?
  {
    hide PreviousIsEarlier, Linked, Serial, TailsAreNewest, SlotsAddUp, FirstComeFirstServed, QueueIsWaiting;
    if t :| 0 <= t < |s.turns| && s.turns[t].phase.Holding? {
      e := Return(t);
    } else if t :| 0 <= t < |s.turns| && s.turns[t].phase.Freed? {
      e := Settle(t, false);
    } else {
      NoHolderNoWaiter(s);
      var u :| 0 <= u < |s.turns| && !IsOver(s.turns[u].phase);
      var t := Oldest(s, u);
      OldestCanStart(s, t);
      e := Start(t);
    }
  }

  /** How far all turns together still have to go. */
  function Measure(turns: seq<Turn>): nat {
    if turns == [] then 0 else Rank(turns[0].phase) + Measure(turns[1..])
  }

  lemma {:induction false} MeasureFalls(ts: seq<Turn>, us: seq<Turn>)
    requires MovesOn(ts, us)
    ensures Measure(us) <= Measure(ts)
    ensures (exists t | 0 <= t < |ts| :: Rank(us[t].phase) < Rank(ts[t].phase)) ==> Measure(us) < Measure(ts)
  {
    if ts != [] {
      assert forall t | 0 <= t < |ts[1..]| :: ts[1..][t] == ts[t + 1] && us[1..][t] == us[t + 1];
      MeasureFalls(ts[1..], us[1..]);
      if t :| 0 < t < |ts| && Rank(us[t].phase) < Rank(ts[t].phase) {
        assert Rank(us[1..][t - 1].phase) < Rank(ts[1..][t - 1].phase);
      }
    }
  }

  /** Every event but a submission takes the turns closer to their end. */
  lemma EventsMakeProgress(s: State, e: Event)
    requires Inv(s) && IsEnabled(s, e) && !e.Submit?
    ensures Measure(Apply(s, e).turns) < Measure(s.turns)
  {
    hide PreviousIsEarlier, Linked, Serial, TailsAreNewest, SlotsAddUp, FirstComeFirstServed, Measure;
    ApplyMovesOn(s, e);
    TurnMoves(s, e);
    MeasureFalls(s.turns, Apply(s, e).turns);
  }

  lemma TurnMoves(s: State, e: Event)
    requires QueueIsWaiting(s) && IsEnabled(s, e) && !e.Submit?
    ensures e.t < |s.turns| == |Apply(s, e).turns|
    ensures Rank(Apply(s, e).turns[e.t].phase) < Rank(s.turns[e.t].phase)
  {
  }

  predicate NoArrivals(es: seq<Event>) { forall k | 0 <= k < |es| :: !es[k].Submit? }

  /** Without new arrivals no run is longer than the work that is left. */
  lemma {:induction false} RunsEnd(s: State, es: seq<Event>)
    requires Inv(s) && IsRun(s, es) && NoArrivals(es)
    ensures |es| + Measure(After(s, es).turns) <= Measure(s.turns)
    decreases |es|
  {
    hide Inv, Apply, IsEnabled, Measure;
    if es != [] {
      EventsMakeProgress(s, es[0]);
      InvSurvives(s, es[0]);
      RunsEnd(Apply(s, es[0]), es[1..]);
    }
  }

  /** A run to the end that loses no slot. */
  lemma {:induction false} FinishAll(s: State) returns (es: seq<Event>)
    requires Inv(s) && s.leaked < s.slots.limit
    ensures IsRun(s, es) && NoArrivals(es) && !IsUnfinished(After(s, es))
    ensures |After(s, es).turns| == |s.turns|
    decreases Measure(s.turns)
  {
    hide Inv, IsEnabled, Measure, IsUnfinished;
    if !IsUnfinished(s) {
      es := [];
    } else {
      var e := SomethingCanMove(s);
      InvSurvives(s, e);
      EventsMakeProgress(s, e);
      LeakIsKept(s, e);
      var rest := FinishAll(Apply(s, e));
      es := [e] + rest;
      assert es[1..] == rest;
    }
  }

  lemma LeakIsKept(s: State, e: Event)
    requires IsEnabled(s, e) && !e.Leave? && !e.Submit?
    ensures Apply(s, e).leaked == s.leaked && Apply(s, e).slots.limit == s.slots.limit
    ensures |Apply(s, e).turns| == |s.turns|
  {
  }

  /** A turn that needs a slot and has not had one. */
  predicate LacksSlot(t: Turn) { t.needsSlot && (t.phase.Queued? || t.phase.Waiting?) }

  lemma NobodyHoldsALostSlot(s: State)
    requires SlotsAddUp(s) && s.leaked >= s.slots.limit
    ensures forall t | 0 <= t < |s.turns| :: !s.turns[t].phase.Holding?
  {
    forall t | 0 <= t < |s.turns|
      ensures !s.turns[t].phase.Holding?
    {
      assert t !in Holders(s.turns);
    }
  }

  lemma LostSlotsStayLost(s: State, e: Event)
    requires Inv(s) && s.leaked >= s.slots.limit && IsEnabled(s, e)
    ensures Apply(s, e).leaked == s.leaked && Apply(s, e).slots.limit == s.slots.limit
    ensures |s.turns| <= |Apply(s, e).turns|
    ensures forall t | 0 <= t < |s.turns| ::
              && Apply(s, e).turns[t].key == s.turns[t].key
              && (LacksSlot(Apply(s, e).turns[t]) <==> LacksSlot(s.turns[t]))
  {
    hide PreviousIsEarlier, Linked, Serial, TailsAreNewest, FirstComeFirstServed, QueueIsWaiting;
    NobodyHoldsALostSlot(s);
  }

  /** Once every slot is lost, no turn that needs one and has had none ever gets one, whatever happens next. */
  lemma {:induction false} AllSlotsLost(s: State, es: seq<Event>)
    requires Inv(s) && s.leaked >= s.slots.limit && IsRun(s, es)
    ensures |s.turns| <= |After(s, es).turns|
    ensures forall t | 0 <= t < |s.turns| ::
              && After(s, es).turns[t].key == s.turns[t].key
              && (LacksSlot(After(s, es).turns[t]) <==> LacksSlot(s.turns[t]))
    decreases |es|
  {
    hide Inv, Apply, IsEnabled;
    if es != [] {
      LostSlotsStayLost(s, es[0]);
      InvSurvives(s, es[0]);
      AllSlotsLost(Apply(s, es[0]), es[1..]);
    }
  }

  /** A turn or an earlier one of its thread lacks a slot. */
  predicate IsBehindSlot(turns: seq<Turn>, t: TurnId) {
    exists i | 0 <= i <= t < |turns| :: turns[i].key == turns[t].key && LacksSlot(turns[i])
  }

  lemma BehindSlotIsUnfinished(turns: seq<Turn>, t: TurnId)
    requires Serial(turns) && IsBehindSlot(turns, t)
    ensures !IsOver(turns[t].phase)
  {
    var i :| 0 <= i <= t && turns[i].key == turns[t].key && LacksSlot(turns[i]);
    assert i < t ==> IsLater(turns, i, t);
  }

  /** With every slot lost, the first unfinished turn of a thread that lacks none can take its next step. */
  lemma UnblockedCanMove(s: State, t: TurnId) returns (e: Event)
    requires Inv(s) && s.leaked >= s.slots.limit
    requires t < |s.turns| && !IsOver(s.turns[t].phase) && !IsBehindSlot(s.turns, t)
    ensures IsEnabled(s, e) && !e.Submit? && !e.Leave?
    decreases t
  {
    hide Linked, Serial, TailsAreNewest, SlotsAddUp, FirstComeFirstServed, QueueIsWaiting;
    NobodyHoldsALostSlot(s);
    if i :| 0 <= i < t && s.turns[i].key == s.turns[t].key && !IsOver(s.turns[i].phase) {
      e := UnblockedCanMove(s, i);
    } else if s.turns[t].phase.Freed? {
      e := Settle(t, false);
    } else {
      e := Start(t);
    }
  }

  /** With every slot lost, all turns that are behind none that lacks one can still finish. */
  lemma {:induction false} FinishUnblocked(s: State) returns (es: seq<Event>)
    requires Inv(s) && s.leaked >= s.slots.limit
    ensures IsRun(s, es) && NoArrivals(es) && |After(s, es).turns| == |s.turns|
    ensures forall t | 0 <= t < |s.turns| && !IsBehindSlot(s.turns, t) :: IsOver(After(s, es).turns[t].phase)
    decreases Measure(s.turns)
  {
    hide Inv, IsEnabled, Measure, Apply;
    if t :| 0 <= t < |s.turns| && !IsOver(s.turns[t].phase) && !IsBehindSlot(s.turns, t) {
      var e := UnblockedCanMove(s, t);
      InvSurvives(s, e);
      EventsMakeProgress(s, e);
      LeakIsKept(s, e);
      LostSlotsStayLost(s, e);
      var rest := FinishUnblocked(Apply(s, e));
      es := [e] + rest;
      assert es[1..] == rest;
    } else {
      es := [];
    }
  }

  /** Turn `t` can still finish: in some run without new arrivals it is over. */
  ghost predicate CanFinish(s: State, t: TurnId) {
    exists es: seq<Event> :: IsRun(s, es) && NoArrivals(es) && t < |After(s, es).turns| &&
        IsOver(After(s, es).turns[t].phase)
  }

  /**
   * A turn can finish exactly when a slot is left that no turn has lost, or neither it nor an earlier
   * turn of its thread lacks one. The queue and the semaphore never block each other; only turns that
   * leave without giving their slot back can, and it takes as many of those as there are slots.
   */
  lemma CanFinishIff(s: State, t: TurnId)
    requires Inv(s) && t < |s.turns|
    ensures CanFinish(s, t) <==> s.leaked < s.slots.limit || !IsBehindSlot(s.turns, t)
  {
    hide Inv, Apply, IsEnabled, IsRun, After, Measure, IsBehindSlot;
    if s.leaked < s.slots.limit {
      var es := FinishAll(s);
      assert IsOver(After(s, es).turns[t].phase);
    } else if !IsBehindSlot(s.turns, t) {
      var es := FinishUnblocked(s);
      assert IsOver(After(s, es).turns[t].phase);
    } else {
      forall es: seq<Event> | IsRun(s, es)
        ensures !(t < |After(s, es).turns| && IsOver(After(s, es).turns[t].phase))
      {
        BehindSlotForGood(s, es, t);
      }
    }
  }

  /** With every slot lost, a turn behind one that lacks a slot is never over, whatever happens next. */
  lemma BehindSlotForGood(s: State, es: seq<Event>, t: TurnId)
    requires Inv(s) && s.leaked >= s.slots.limit && IsRun(s, es) && IsBehindSlot(s.turns, t)
    ensures t < |After(s, es).turns| && !IsOver(After(s, es).turns[t].phase)
  {
    hide Apply, IsEnabled, IsRun, After, LacksSlot, PreviousIsEarlier, Linked, Serial, TailsAreNewest, SlotsAddUp,
        QueueIsWaiting, FirstComeFirstServed;
    AllSlotsLost(s, es);
    InvAlways(s, es);
    var i :| 0 <= i <= t && s.turns[i].key == s.turns[t].key && LacksSlot(s.turns[i]);
    assert LacksSlot(After(s, es).turns[i]);
    BehindSlotIsUnfinished(After(s, es).turns, t);
  }

  predicate NobodyLeaves(es: seq<Event>) { forall k | 0 <= k < |es| :: !es[k].Leave? }

  lemma {:induction false} NothingIsLost(s: State, es: seq<Event>)
    requires IsRun(s, es) && NobodyLeaves(es)
    ensures After(s, es).leaked == s.leaked
    decreases |es|
  {
    if es != [] {
      NothingIsLost(Apply(s, es[0]), es[1..]);
    }
  }

  /**
   * With at least one slot and no turn leaving its slot behind, every run goes on until all turns are
   * over, and it gets there within the work submitted.
   */
  lemma EveryRunFinishes(limit: nat, es: seq<Event>)
    requires limit >= 1 && IsRun(Initial(limit), es) && NobodyLeaves(es)
    ensures var s := After(Initial(limit), es);
            IsUnfinished(s) ==>
              exists e :: IsEnabled(s, e) && !e.Submit? && !e.Leave? && Measure(Apply(s, e).turns) < Measure(s.turns)
  {
    hide Inv, Apply, IsEnabled, IsRun, After, Measure, IsUnfinished;
    InvHoldsInitially(limit);
    InvAlways(Initial(limit), es);
    NothingIsLost(Initial(limit), es);
    LimitIsFixed(Initial(limit), es);
    var s := After(Initial(limit), es);
    if IsUnfinished(s) {
      var e := SomethingCanMove(s);
      EventsMakeProgress(s, e);
    }
  }

  /**
   * It can happen: one slot, two mentions in two threads, and the first throws between taking the slot
   * and the guarded block. The second waits for ever.
   */
  lemma OneLostSlotStopsThePod()
    ensures var es := [Submit("a", true), Submit("b", true), Start(0), Start(1), Leave(0), Clean(0)];
            && IsRun(Initial(1), es)
            && var s := After(Initial(1), es);
            Inv(s) && s.turns[1].phase.Waiting? && !CanFinish(s, 1)
  {
    hide Inv, CanFinish;
    var s0 := Initial(1);
    var s1 := Apply(s0, Submit("a", true));
    var s2 := Apply(s1, Submit("b", true));
    var s3 := Apply(s2, Start(0));
    var s4 := Apply(s3, Start(1));
    var s5 := Apply(s4, Leave(0));
    var s6 := Apply(s5, Clean(0));
    assert s6.turns[1].phase.Waiting? && s6.leaked == 1;
    var es := [Submit("a", true), Submit("b", true), Start(0), Start(1), Leave(0), Clean(0)];
    RunOfSix(es, s0, s1, s2, s3, s4, s5, s6);
    InvHoldsInitially(1);
    InvAlways(s0, es);
    CanFinishIff(s6, 1);
  }

  lemma RunOfSix(es: seq<Event>, s0: State, s1: State, s2: State, s3: State, s4: State, s5: State, s6: State)
    requires |es| == 6
    requires IsEnabled(s0, es[0]) && s1 == Apply(s0, es[0])
    requires IsEnabled(s1, es[1]) && s2 == Apply(s1, es[1])
    requires IsEnabled(s2, es[2]) && s3 == Apply(s2, es[2])
    requires IsEnabled(s3, es[3]) && s4 == Apply(s3, es[3])
    requires IsEnabled(s4, es[4]) && s5 == Apply(s4, es[4])
    requires IsEnabled(s5, es[5]) && s6 == Apply(s5, es[5])
    ensures IsRun(s0, es) && After(s0, es) == s6
  {
    hide Apply, IsEnabled;
    StepBack(s5, es[5..], s6);
    StepBack(s4, es[4..], s5);
    StepBack(s3, es[3..], s4);
    StepBack(s2, es[2..], s3);
    StepBack(s1, es[1..], s2);
    StepBack(s0, es, s1);
  }

  lemma StepBack(s: State, es: seq<Event>, next: State)
    requires es != [] && IsEnabled(s, es[0]) && next == Apply(s, es[0])
    requires IsRun(next, es[1..])
    ensures IsRun(s, es) && After(s, es) == After(next, es[1..])
  {
  }
}
