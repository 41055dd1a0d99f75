/**
 * A resolve that may arrive before its incident is stored. One investigation and any number of
 * resolve webhooks, on its own pod or another, take atomic steps in any order: each step is one
 * database or Redis command, or one synchronous stretch of code.
 */
module ResolveHandshake {

  /** The incident's row. `Open` to `Closed` is one atomic update that tells who made it. */
  datatype Row = NotStored | Open | Closed

  /**
   * The investigation: registered in its pod's map, mirrored to Redis, investigating; then the row is
   * stored, the held resolve is read (this pod's map first, then Redis), and the incident closed if
   * there was one. A step that throws, or a row that cannot be stored, skips the look.
   */
  datatype Investigation =
    | Registering | Publishing | Investigating
    | Stored | LocalRead | Early | Posting
    | Unregistering | Removing | Finished

  /** One resolve webhook. `Handing` has found the entry in Redis, `SecondLook` has written to it. */
  datatype Resolver =
    | FirstLook(samePod: bool) | Searching(samePod: bool) | Remote | Handing | SecondLook
    | Announcing | Ended

  /** What the pod's map, or Redis, has for the investigation, and whether a resolve is held there. */
  datatype Entry = Absent | Present(held: bool)

  datatype State = State(
    row: Row, pod: Entry, redis: Entry,
    investigation: Investigation, resolvers: seq<Resolver>,
    posts: nat, lostPosts: nat)

  function Initial(): State { State(NotStored, Absent, Absent, Registering, [], 0, 0) }

  /**
   * `Investigate` and `Resolve(r)` are the next step of that actor. `fails` makes the step fail where
   * it can: a database or Redis command, a post, anything the investigation does.
   */
  datatype Event = Arrive(samePod: bool) | Investigate(fails: bool) | Resolve(r: nat, fails: bool)

  predicate IsEnabled(s: State, e: Event) {
    match e
    case Arrive(_) => true
    case Investigate(_) => !s.investigation.Finished?
    case Resolve(r, _) => r < |s.resolvers| && !s.resolvers[r].Ended?
  }

  /** The atomic close: it succeeds for exactly one caller. A failing command closes nothing. */
  predicate Wins(row: Row, fails: bool) { row == Open && !fails }

  function Close(row: Row, fails: bool): Row { if Wins(row, fails) then Closed else row }

  function Post(s: State, fails: bool): State {
    if fails then s.(lostPosts := s.lostPosts + 1) else s.(posts := s.posts + 1)
  }

  function Step(s: State, fails: bool): State
    requires !s.investigation.Finished?
  {
    match s.investigation
    case Registering => s.(pod := Present(false), investigation := Publishing)
    case Publishing => s.(redis := if fails then Absent else Present(false), investigation := Investigating)
    case Investigating =>
      if fails then s.(investigation := Unregistering) else s.(row := Open, investigation := Stored)
    case Stored =>
      if fails then s.(investigation := Unregistering)
      else s.(investigation := if s.pod == Present(true) then Early else LocalRead)
    case LocalRead =>
      s.(investigation := if s.redis == Present(true) && !fails then Early else Unregistering)
    case Early =>
      s.(row := Close(s.row, fails), investigation := if Wins(s.row, fails) then Posting else Unregistering)
    case Posting => Post(s.(investigation := Unregistering), fails)
    case Unregistering => s.(pod := Absent, investigation := Removing)
    case Removing => s.(redis := if fails then s.redis else Absent, investigation := Finished)
  }

  function Move(s: State, r: nat, p: Resolver): State
    requires r < |s.resolvers|
  {
    s.(resolvers := s.resolvers[r := p])
  }

  function StepResolver(s: State, r: nat, fails: bool): State
    requires r < |s.resolvers| && !s.resolvers[r].Ended?
  {
    match s.resolvers[r]
    case FirstLook(samePod) =>
      if Wins(s.row, fails) then Move(s.(row := Closed), r, Announcing) else Move(s, r, Searching(samePod))
    case Searching(samePod) =>
      if samePod && s.pod.Present? then Move(s.(pod := Present(true)), r, Ended) else Move(s, r, Remote)
    case Remote => Move(s, r, if s.redis.Present? && !fails then Handing else Ended)
    case Handing =>
      if fails then Move(s, r, Ended) else Move(s.(redis := Present(true)), r, SecondLook)
    case SecondLook =>
      Move(s.(row := Close(s.row, fails)), r, if Wins(s.row, fails) then Announcing else Ended)
    case Announcing => Post(Move(s, r, Ended), fails)
  }

  function Apply(s: State, e: Event): State
    requires IsEnabled(s, e)
  {
    match e
    case Arrive(samePod) => s.(resolvers := s.resolvers + [FirstLook(samePod)])
    case Investigate(fails) => Step(s, fails)
    case Resolve(r, fails) => StepResolver(s, r, fails)
  }

  predicate IsRun(s: State, es: seq<Event>)
    decreases |es|
  {
    es != [] ==> IsEnabled(s, es[0]) && IsRun(Apply(s, es[0]), es[1..])
  }

  function After(s: State, es: seq<Event>): State
    requires IsRun(s, es)
    decreases |es|
  {
    if es == [] then s else After(Apply(s, es[0]), es[1..])
  }

  // ---- What happened in a run ----

  /** This pod has not looked at its own map for a held resolve yet. */
  predicate BeforeLook(i: Investigation) { i.Registering? || i.Publishing? || i.Investigating? || i.Stored? }

  /**
   * Read off the events and the states before them. `looked`: the investigation got as far as looking for a
   * held resolve. `direct`: a webhook's first look found the open row. `heldInTime`: a webhook searched this
   * pod's map before that look and found the investigation there. `handed`: a handover was written to
   * Redis. `broken`: the Redis read, or a close after a hold or a handover, failed. `late`: a handover was
   * written when the investigation was over. `stayed`: the removal failed with an entry there.
   */
  datatype History = History(
    looked: bool, direct: bool, heldInTime: bool, handed: bool, broken: bool, late: bool, stayed: bool)

  function Nothing(): History { History(false, false, false, false, false, false, false) }

  function NotedStep(h: History, s: State, fails: bool): History {
    match s.investigation
    case Stored => h.(looked := h.looked || !fails)
    case LocalRead => h.(broken := h.broken || fails)
    case Early => h.(broken := h.broken || fails)
    case Removing => h.(stayed := h.stayed || (fails && s.redis.Present?))
    case _ => h
  }

  function NotedResolver(h: History, s: State, p: Resolver, fails: bool): History {
    match p
    case FirstLook(_) => h.(direct := h.direct || (s.row == Open && !fails))
    case Searching(samePod) =>
      h.(heldInTime := h.heldInTime || (samePod && s.pod.Present? && BeforeLook(s.investigation)))
    case Handing => if fails then h else h.(handed := true, late := h.late || s.investigation.Finished?)
    case SecondLook => h.(broken := h.broken || fails)
    case _ => h
  }

  function Noted(h: History, s: State, e: Event): History
    requires IsEnabled(s, e)
  {
    match e
    case Arrive(_) => h
    case Investigate(fails) => NotedStep(h, s, fails)
    case Resolve(r, fails) => NotedResolver(h, s, s.resolvers[r], fails)
  }

  function Recorded(h: History, s: State, es: seq<Event>): History
    requires IsRun(s, es)
    decreases |es|
  {
    if es == [] then h else Recorded(Noted(h, s, es[0]), Apply(s, es[0]), es[1..])
  }

  /** All of a run's history. */
  function HistoryOf(es: seq<Event>): History
    requires IsRun(Initial(), es)
  {
    Recorded(Nothing(), Initial(), es)
  }

  // ---- One close, one post ----

  /** The webhooks that closed the row and have still to say so. */
  function Announcers(rs: seq<Resolver>): nat {
    if rs == [] then 0 else (if rs[0].Announcing? then 1 else 0) + Announcers(rs[1..])
  }

  /** Posts made, lost and still to be made, against rows closed. */
  predicate Accounted(s: State) {
    s.posts + s.lostPosts + Announcers(s.resolvers) + (if s.investigation.Posting? then 1 else 0)
      == (if s.row == Closed then 1 else 0)
  }

  lemma {:induction false} AnnouncersAppend(rs: seq<Resolver>, p: Resolver)
    ensures Announcers(rs + [p]) == Announcers(rs) + (if p.Announcing? then 1 else 0)
  {
    if rs == [] {
      assert [] + [p] == [p] && [p][1..] == [];
    } else {
      assert (rs + [p])[1..] == rs[1..] + [p];
      AnnouncersAppend(rs[1..], p);
    }
  }

  lemma {:induction false} AnnouncersMove(rs: seq<Resolver>, r: nat, p: Resolver)
    requires r < |rs|
    ensures Announcers(rs[r := p]) ==
            Announcers(rs) - (if rs[r].Announcing? then 1 else 0) + (if p.Announcing? then 1 else 0)
  {
    if r == 0 {
      assert rs[0 := p][1..] == rs[1..];
    } else {
      assert rs[r := p][1..] == rs[1..][r - 1 := p];
      AnnouncersMove(rs[1..], r - 1, p);
    }
  }

  /** A row is there from the store on; one that is missing leaves nothing to close. */
  predicate RowFollows(s: State) {
    var i := s.investigation;
    && (i.Registering? || i.Publishing? || i.Investigating? ==> s.row == NotStored)
    && (i.Stored? || i.LocalRead? || i.Early? || i.Posting? ==> s.row != NotStored)
  }

  lemma StepAccounts(s: State, fails: bool)
    requires !s.investigation.Finished? && Accounted(s) && RowFollows(s)
    ensures Accounted(Step(s, fails)) && RowFollows(Step(s, fails))
  {
    hide Announcers;
    match s.investigation
    case Registering =>
    case Publishing =>
    case Investigating =>
    case Stored =>
    case LocalRead =>
    case Early =>
    case Posting =>
    case Unregistering =>
    case Removing =>
  }

  lemma StepResolverAccounts(s: State, r: nat, fails: bool)
    requires r < |s.resolvers| && !s.resolvers[r].Ended? && Accounted(s) && RowFollows(s)
    ensures Accounted(StepResolver(s, r, fails)) && RowFollows(StepResolver(s, r, fails))
  {
    hide Announcers;
    AnnouncersMove(s.resolvers, r, StepResolver(s, r, fails).resolvers[r]);
    match s.resolvers[r]
    case FirstLook(_) =>
    case Searching(_) =>
    case Remote =>
    case Handing =>
    case SecondLook =>
    case Announcing =>
  }

  lemma {:induction false} RunAccounts(s: State, es: seq<Event>)
    requires Accounted(s) && RowFollows(s) && IsRun(s, es)
    ensures Accounted(After(s, es)) && RowFollows(After(s, es))
    decreases |es|
  {
    hide Accounted, RowFollows, Step, StepResolver, Announcers;
    if es != [] {
      match es[0] {
        case Arrive(samePod) =>
          AnnouncersAppend(s.resolvers, FirstLook(samePod));
          ArriveAccounts(s, samePod);
        case Investigate(fails) => StepAccounts(s, fails);
        case Resolve(r, fails) => StepResolverAccounts(s, r, fails);
      }
      RunAccounts(Apply(s, es[0]), es[1..]);
    }
  }

  lemma ArriveAccounts(s: State, samePod: bool)
    requires Accounted(s) && RowFollows(s)
    ensures var t := Apply(s, Arrive(samePod)); Accounted(t) && RowFollows(t)
  {
    AnnouncersAppend(s.resolvers, FirstLook(samePod));
  }

  /** In no interleaving is the close posted twice, or posted without a closed row. */
  lemma PostedAtMostOnce(es: seq<Event>)
    requires IsRun(Initial(), es)
    ensures var s := After(Initial(), es);
            s.posts + s.lostPosts <= 1 && (s.posts + s.lostPosts == 1 ==> s.row == Closed)
  {
    RunAccounts(Initial(), es);
  }

  // ---- Which resolves close the incident ----

  predicate BeforeRead(i: Investigation) { BeforeLook(i) || i.LocalRead? }

  /** The investigation is past its look and has not found anything, or is done with what it found. */
  predicate PastLook(i: Investigation) { i.Unregistering? || i.Removing? || i.Finished? }

  ghost predicate SomebodyLooks(rs: seq<Resolver>) {
    exists r :: 0 <= r < |rs| && rs[r].SecondLook?
  }

  ghost predicate NobodyHands(rs: seq<Resolver>) {
    forall r | 0 <= r < |rs| :: !rs[r].Handing?
  }

  lemma NobodyElseHands(rs: seq<Resolver>, r: nat, p: Resolver)
    requires r < |rs| && NobodyHands(rs)
    ensures !rs[r].Handing? && (!p.Handing? ==> NobodyHands(rs[r := p]))
  {
  }

  /** What is written before a read is there when it comes: the map, the mirror, the row. */
  ghost predicate WritesAreSeen(s: State, h: History) {
    var i := s.investigation;
    && (i.Registering? ==> s.pod.Absent?)
    && (i.Registering? || i.Publishing? ==>
          s.redis.Absent? && !h.handed && NobodyHands(s.resolvers))
    && (BeforeLook(i) ==> h.heldInTime == (s.pod == Present(true)) && !h.looked)
    && (i.LocalRead? ==> !h.heldInTime)
    && (h.handed && BeforeRead(i) ==> s.redis == Present(true))
    && (h.looked ==> s.row != NotStored)
  }

  /** A row is closed only for a resolve that came, and a handover leaves somebody to look. */
  ghost predicate ClosesAreOwed(s: State, h: History) {
    var i := s.investigation;
    && (s.redis == Present(true) || SomebodyLooks(s.resolvers) ==> h.handed)
    && (i.Early? ==> h.heldInTime || h.handed)
    && (s.row == Closed ==> h.direct || h.heldInTime || h.handed)
    && (h.direct || i.Posting? ==> s.row == Closed)
    && (PastLook(i) && h.looked && !h.broken && s.row == Open ==>
          !h.heldInTime && (h.handed ==> SomebodyLooks(s.resolvers)))
  }

  ghost predicate Inv(s: State, h: History) { RowFollows(s) && WritesAreSeen(s, h) && ClosesAreOwed(s, h) }

  lemma StepKeepsWrites(s: State, h: History, fails: bool)
    requires !s.investigation.Finished? && Inv(s, h)
    ensures RowFollows(Step(s, fails)) && WritesAreSeen(Step(s, fails), NotedStep(h, s, fails))
  {
    hide SomebodyLooks, NobodyHands, ClosesAreOwed;
    match s.investigation
    case Registering =>
    case Publishing =>
    case Investigating =>
    case Stored =>
    case LocalRead =>
    case Early =>
    case Posting =>
    case Unregistering =>
    case Removing =>
  }

  lemma StepKeepsCloses(s: State, h: History, fails: bool)
    requires !s.investigation.Finished? && Inv(s, h)
    ensures ClosesAreOwed(Step(s, fails), NotedStep(h, s, fails))
  {
    hide SomebodyLooks, NobodyHands;
    match s.investigation
    case Registering =>
    case Publishing =>
    case Investigating =>
    case Stored =>
    case LocalRead =>
    case Early =>
    case Posting =>
    case Unregistering =>
    case Removing =>
  }

  lemma SomebodyElseLooks(rs: seq<Resolver>, r: nat, p: Resolver)
    requires r < |rs|
    ensures p.SecondLook? ==> SomebodyLooks(rs[r := p])
    ensures !rs[r].SecondLook? && SomebodyLooks(rs) ==> SomebodyLooks(rs[r := p])
    ensures !p.SecondLook? && SomebodyLooks(rs[r := p]) ==> SomebodyLooks(rs)
    ensures rs[r].SecondLook? ==> SomebodyLooks(rs)
  {
    var ts := rs[r := p];
    assert ts[r] == p;
    if k :| 0 <= k < |rs| && rs[k].SecondLook? {
      assert k != r ==> ts[k].SecondLook?;
    }
    if k :| 0 <= k < |ts| && ts[k].SecondLook? {
      assert k != r ==> rs[k].SecondLook?;
    }
  }

  lemma LookingKeepsWrites(s: State, h: History, r: nat, fails: bool)
    requires r < |s.resolvers| && (s.resolvers[r].FirstLook? || s.resolvers[r].Searching?) && Inv(s, h)
    ensures var t, k := StepResolver(s, r, fails), NotedResolver(h, s, s.resolvers[r], fails);
            RowFollows(t) && WritesAreSeen(t, k)
  {
    hide SomebodyLooks, ClosesAreOwed, NobodyHands;
    if NobodyHands(s.resolvers) {
      NobodyElseHands(s.resolvers, r, StepResolver(s, r, fails).resolvers[r]);
    }
    match s.resolvers[r]
    case FirstLook(_) =>
    case Searching(_) =>
  }

  lemma LookingKeepsCloses(s: State, h: History, r: nat, fails: bool)
    requires r < |s.resolvers| && (s.resolvers[r].FirstLook? || s.resolvers[r].Searching?) && Inv(s, h)
    ensures ClosesAreOwed(StepResolver(s, r, fails), NotedResolver(h, s, s.resolvers[r], fails))
  {
    hide SomebodyLooks, NobodyHands;
    SomebodyElseLooks(s.resolvers, r, StepResolver(s, r, fails).resolvers[r]);
    match s.resolvers[r]
    case FirstLook(_) =>
    case Searching(_) =>
  }

  lemma HandingKeepsWrites(s: State, h: History, r: nat, fails: bool)
    requires r < |s.resolvers| && (s.resolvers[r].Remote? || s.resolvers[r].Handing?) && Inv(s, h)
    ensures var t, k := StepResolver(s, r, fails), NotedResolver(h, s, s.resolvers[r], fails);
            RowFollows(t) && WritesAreSeen(t, k)
  {
    hide SomebodyLooks, ClosesAreOwed, NobodyHands;
    if NobodyHands(s.resolvers) {
      NobodyElseHands(s.resolvers, r, StepResolver(s, r, fails).resolvers[r]);
    }
    match s.resolvers[r]
    case Remote =>
    case Handing =>
  }

  lemma HandingKeepsCloses(s: State, h: History, r: nat, fails: bool)
    requires r < |s.resolvers| && (s.resolvers[r].Remote? || s.resolvers[r].Handing?) && Inv(s, h)
    ensures ClosesAreOwed(StepResolver(s, r, fails), NotedResolver(h, s, s.resolvers[r], fails))
  {
    hide SomebodyLooks, NobodyHands;
    SomebodyElseLooks(s.resolvers, r, StepResolver(s, r, fails).resolvers[r]);
    match s.resolvers[r]
    case Remote =>
    case Handing =>
  }

  lemma ClosingKeepsWrites(s: State, h: History, r: nat, fails: bool)
    requires r < |s.resolvers| && (s.resolvers[r].SecondLook? || s.resolvers[r].Announcing?) && Inv(s, h)
    ensures var t, k := StepResolver(s, r, fails), NotedResolver(h, s, s.resolvers[r], fails);
            RowFollows(t) && WritesAreSeen(t, k)
  {
    hide SomebodyLooks, ClosesAreOwed, NobodyHands;
    if NobodyHands(s.resolvers) {
      NobodyElseHands(s.resolvers, r, StepResolver(s, r, fails).resolvers[r]);
    }
    match s.resolvers[r]
    case SecondLook =>
    case Announcing =>
  }

  lemma ClosingKeepsCloses(s: State, h: History, r: nat, fails: bool)
    requires r < |s.resolvers| && (s.resolvers[r].SecondLook? || s.resolvers[r].Announcing?) && Inv(s, h)
    ensures ClosesAreOwed(StepResolver(s, r, fails), NotedResolver(h, s, s.resolvers[r], fails))
  {
    hide SomebodyLooks, NobodyHands;
    SomebodyElseLooks(s.resolvers, r, StepResolver(s, r, fails).resolvers[r]);
    match s.resolvers[r]
    case SecondLook =>
    case Announcing =>
  }

  lemma StepResolverKeeps(s: State, h: History, r: nat, fails: bool)
    requires r < |s.resolvers| && !s.resolvers[r].Ended? && Inv(s, h)
    ensures Inv(StepResolver(s, r, fails), NotedResolver(h, s, s.resolvers[r], fails))
  {
    hide RowFollows, WritesAreSeen, ClosesAreOwed, StepResolver, NotedResolver;
    match s.resolvers[r] {
      case FirstLook(_) =>
        LookingKeepsWrites(s, h, r, fails);
        LookingKeepsCloses(s, h, r, fails);
      case Searching(_) =>
        LookingKeepsWrites(s, h, r, fails);
        LookingKeepsCloses(s, h, r, fails);
      case Remote =>
        HandingKeepsWrites(s, h, r, fails);
        HandingKeepsCloses(s, h, r, fails);
      case Handing =>
        HandingKeepsWrites(s, h, r, fails);
        HandingKeepsCloses(s, h, r, fails);
      case SecondLook =>
        ClosingKeepsWrites(s, h, r, fails);
        ClosingKeepsCloses(s, h, r, fails);
      case Announcing =>
        ClosingKeepsWrites(s, h, r, fails);
        ClosingKeepsCloses(s, h, r, fails);
    }
  }

  lemma ArriveKeeps(s: State, h: History, samePod: bool)
    requires Inv(s, h)
    ensures Inv(Apply(s, Arrive(samePod)), h)
  {
    var rs := s.resolvers + [FirstLook(samePod)];
    if k :| 0 <= k < |s.resolvers| && s.resolvers[k].SecondLook? {
      assert rs[k].SecondLook?;
    }
  }

  lemma {:induction false} RunKeeps(s: State, h: History, es: seq<Event>)
    requires Inv(s, h) && IsRun(s, es)
    ensures Inv(After(s, es), Recorded(h, s, es))
    decreases |es|
  {
    hide RowFollows, WritesAreSeen, ClosesAreOwed, Step, StepResolver, NotedStep, NotedResolver;
    if es != [] {
      match es[0] {
        case Arrive(samePod) => ArriveKeeps(s, h, samePod);
        case Investigate(fails) =>
          StepKeepsWrites(s, h, fails);
          StepKeepsCloses(s, h, fails);
        case Resolve(r, fails) => StepResolverKeeps(s, h, r, fails);
      }
      RunKeeps(Apply(s, es[0]), Noted(h, s, es[0]), es[1..]);
    }
  }

  predicate AllEnded(rs: seq<Resolver>) { forall k | 0 <= k < |rs| :: rs[k].Ended? }

  /** Every actor has done its last step. */
  predicate Quiet(s: State) {
    s.investigation.Finished? && AllEnded(s.resolvers)
  }

  lemma NobodyAnnounces(rs: seq<Resolver>)
    requires AllEnded(rs)
    ensures Announcers(rs) == 0 && !SomebodyLooks(rs)
  {
    if rs != [] {
      NobodyAnnounces(rs[1..]);
    }
  }

  /**
   * When the row was stored, the look was taken and no Redis read or later close failed: the incident
   * is closed, and its close posted exactly once, if and only if some webhook found the row itself,
   * left its hold on this pod before the look, or wrote its handover to Redis.
   */
  lemma ClosedIff(es: seq<Event>)
    requires IsRun(Initial(), es)
    requires Quiet(After(Initial(), es)) && HistoryOf(es).looked && !HistoryOf(es).broken
    ensures var s, h := After(Initial(), es), HistoryOf(es);
            && (s.row == Closed <==> h.direct || h.heldInTime || h.handed)
            && s.posts + s.lostPosts == (if s.row == Closed then 1 else 0)
  {
    hide Announcers, SomebodyLooks;
    var s := After(Initial(), es);
    InitialIsFine();
    RunAccounts(Initial(), es);
    RunKeeps(Initial(), Nothing(), es);
    NobodyAnnounces(s.resolvers);
  }

  lemma InitialIsFine()
    ensures Accounted(Initial()) && Inv(Initial(), Nothing())
  {
  }

  /** One side always sees the other's write: a handover written to Redis is posted exactly once. */
  lemma HandoverIsPostedOnce(es: seq<Event>)
    requires IsRun(Initial(), es)
    requires Quiet(After(Initial(), es)) && After(Initial(), es).lostPosts == 0
    requires HistoryOf(es).looked && !HistoryOf(es).broken && HistoryOf(es).handed
    ensures After(Initial(), es).posts == 1
  {
    hide IsRun, After, Quiet, HistoryOf;
    ClosedIff(es);
  }

  // ---- When nothing fails ----

  predicate Fails(e: Event) { (e.Investigate? || e.Resolve?) && e.fails }

  predicate NothingFails(es: seq<Event>) { forall k | 0 <= k < |es| :: !Fails(es[k]) }

  /** What the events alone tell: the investigation's steps, each webhook's pod and its steps. */
  datatype Counts = Counts(investigation: nat, samePod: seq<bool>, steps: seq<nat>)

  function Counted(c: Counts, e: Event): Counts {
    match e
    case Arrive(samePod) => c.(samePod := c.samePod + [samePod], steps := c.steps + [0])
    case Investigate(_) => c.(investigation := c.investigation + 1)
    case Resolve(r, _) => if r < |c.steps| then c.(steps := c.steps[r := c.steps[r] + 1]) else c
  }

  function Investigations(es: seq<Event>): nat {
    if es == [] then 0 else (if es[0].Investigate? then 1 else 0) + Investigations(es[1..])
  }

  /**
   * A webhook's step comes in time. Its first one: the row has been stored, as the investigation's third
   * step. Its second one, on the investigation's own pod: that one is registered, its first step, and has not
   * looked, its fourth. Its third one: the investigation is published, its second step, and not removed, its
   * last.
   */
  predicate IsInTime(c: Counts, e: Event, total: nat) {
    && e.Resolve? && e.r < |c.steps| == |c.samePod|
    && (|| (c.steps[e.r] == 0 && 3 <= c.investigation)
        || (c.steps[e.r] == 1 && c.samePod[e.r] && 1 <= c.investigation < 4)
        || (c.steps[e.r] == 2 && 2 <= c.investigation < total))
  }

  predicate SomeInTime(c: Counts, es: seq<Event>, total: nat)
    decreases |es|
  {
    es != [] && (IsInTime(c, es[0], total) || SomeInTime(Counted(c, es[0]), es[1..], total))
  }

  /** Where a webhook is after so many steps. */
  predicate StandsAt(p: Resolver, samePod: bool, steps: nat, row: Row) {
    match p
    case FirstLook(same) => steps == 0 && same == samePod
    case Searching(same) => steps == 1 && same == samePod
    case Remote => steps == 2
    case Announcing => steps >= 1 && row == Closed
    case Ended => steps >= 2
    case _ => steps >= 3
  }

  predicate Agrees(s: State, c: Counts) {
    var i, n := s.investigation, c.investigation;
    && |s.resolvers| == |c.steps| == |c.samePod|
    && (forall k | 0 <= k < |s.resolvers| :: StandsAt(s.resolvers[k], c.samePod[k], c.steps[k], s.row))
    && (forall k | 0 <= k < |s.resolvers| :: s.resolvers[k].Handing? ==> 2 <= n)
    && (n == 0 <==> i.Registering?) && (n == 1 <==> i.Publishing?) && (n == 2 <==> i.Investigating?)
    && (n == 3 <==> i.Stored?) && (s.row == NotStored <==> n < 3)
    && (n == 0 ==> s.pod.Absent?) && (1 <= n < 4 ==> s.pod.Present?)
    && (n < 2 ==> s.redis.Absent?) && (2 <= n && !i.Finished? ==> s.redis.Present?)
  }

  lemma AgreesAfter(s: State, c: Counts, e: Event)
    requires Agrees(s, c) && IsEnabled(s, e) && !Fails(e)
    ensures Agrees(Apply(s, e), Counted(c, e))
  {
    match e
    case Arrive(_) =>
    case Investigate(_) => AgreesAfterStep(s, c);
    case Resolve(r, _) => AgreesAfterResolver(s, c, r);
  }

  lemma AgreesAfterStep(s: State, c: Counts)
    requires Agrees(s, c) && !s.investigation.Finished?
    ensures Agrees(Step(s, false), Counted(c, Investigate(false)))
  {
    match s.investigation
    case Registering =>
    case Publishing =>
    case Investigating =>
    case Stored =>
    case LocalRead =>
    case Early =>
    case Posting =>
    case Unregistering =>
    case Removing =>
  }

  lemma AgreesAfterResolver(s: State, c: Counts, r: nat)
    requires Agrees(s, c) && r < |s.resolvers| && !s.resolvers[r].Ended?
    ensures Agrees(StepResolver(s, r, false), Counted(c, Resolve(r, false)))
  {
    match s.resolvers[r]
    case FirstLook(_) =>
    case Searching(_) =>
    case Remote =>
    case Handing =>
    case SecondLook =>
    case Announcing =>
  }

  // ---- In time, and only then ----

  /** Something has happened that leads to a close: one took place, a hold was left in time, or somebody hands over. */
  ghost predicate IsOwed(s: State, h: History) {
    h.direct || h.heldInTime || h.handed || exists k :: 0 <= k < |s.resolvers| && s.resolvers[k].Handing?
  }

  lemma StaysOwed(s: State, h: History, e: Event)
    requires IsOwed(s, h) && IsEnabled(s, e) && !Fails(e)
    ensures IsOwed(Apply(s, e), Noted(h, s, e))
  {
    if k :| 0 <= k < |s.resolvers| && s.resolvers[k].Handing? {
      assert e == Resolve(k, false) || Apply(s, e).resolvers[k].Handing?;
    }
  }

  lemma InTimeIsOwed(s: State, h: History, c: Counts, e: Event, total: nat)
    requires Agrees(s, c) && IsEnabled(s, e) && !Fails(e)
    requires IsInTime(c, e, total) && (c.investigation < total ==> !s.investigation.Finished?)
    ensures IsOwed(Apply(s, e), Noted(h, s, e)) || Apply(s, e).row == Closed
  {
    var p := s.resolvers[e.r];
    assert StandsAt(p, c.samePod[e.r], c.steps[e.r], s.row);
    match p
    case Remote => assert Apply(s, e).resolvers[e.r].Handing?;
    case _ =>
  }

  lemma NoStepsLeft(s: State, es: seq<Event>)
    requires IsRun(s, es) && s.investigation.Finished?
    ensures Investigations(es) == 0
    decreases |es|
  {
    if es != [] {
      NoStepsLeft(Apply(s, es[0]), es[1..]);
    }
  }

  lemma RowStays(s: State, e: Event)
    requires IsEnabled(s, e) && RowFollows(s)
    ensures RowFollows(Apply(s, e)) && (s.row == Closed ==> Apply(s, e).row == Closed)
  {
  }

  lemma {:induction false} OwedToTheEnd(s: State, h: History, es: seq<Event>)
    requires IsRun(s, es) && NothingFails(es) && RowFollows(s) && (IsOwed(s, h) || s.row == Closed)
    ensures IsOwed(After(s, es), Recorded(h, s, es)) || After(s, es).row == Closed
    decreases |es|
  {
    hide IsOwed, Noted, Step, StepResolver, RowFollows;
    if es != [] {
      if IsOwed(s, h) {
        StaysOwed(s, h, es[0]);
      }
      RowStays(s, es[0]);
      OwedToTheEnd(Apply(s, es[0]), Noted(h, s, es[0]), es[1..]);
    }
  }

  lemma {:induction false} InTimeCloses(s: State, h: History, c: Counts, es: seq<Event>, total: nat)
    requires Agrees(s, c) && RowFollows(s) && IsRun(s, es) && NothingFails(es) && SomeInTime(c, es, total)
    requires total == c.investigation + Investigations(es)
    ensures IsOwed(After(s, es), Recorded(h, s, es)) || After(s, es).row == Closed
    decreases |es|
  {
    hide IsOwed, Noted, Agrees, Apply, IsEnabled, IsInTime, RowFollows;
    var e := es[0];
    var t, k := Apply(s, e), Noted(h, s, e);
    RowStays(s, e);
    if IsInTime(c, e, total) {
      if s.investigation.Finished? {
        NoStepsLeft(s, es);
      }
      InTimeIsOwed(s, h, c, e, total);
      OwedToTheEnd(t, k, es[1..]);
    } else {
      AgreesAfter(s, c, e);
      CountsAdd(c, e);
      InTimeCloses(t, k, Counted(c, e), es[1..], total);
    }
  }

  lemma CountsAdd(c: Counts, e: Event)
    ensures Counted(c, e).investigation == c.investigation + (if e.Investigate? then 1 else 0)
  {
  }

  /** Nothing leads to a close yet, and a removed entry has not come back. */
  ghost predicate IsFree(s: State, h: History) {
    !IsOwed(s, h) && (s.investigation.Finished? ==> s.redis.Absent?)
  }

  lemma FreeUnlessInTime(s: State, h: History, c: Counts, e: Event, total: nat)
    requires Agrees(s, c) && IsEnabled(s, e) && !Fails(e) && IsFree(s, h)
    requires !IsInTime(c, e, total) && (!s.investigation.Finished? ==> c.investigation < total)
    ensures IsFree(Apply(s, e), Noted(h, s, e))
  {
    match e
    case Arrive(_) =>
    case Investigate(_) => StillFree(s, h);
    case Resolve(r, _) => ResolverFree(s, h, c, r, total);
  }

  lemma StillFree(s: State, h: History)
    requires IsFree(s, h) && !s.investigation.Finished?
    ensures IsFree(Step(s, false), NotedStep(h, s, false))
  {
    match s.investigation
    case Registering =>
    case Publishing =>
    case Investigating =>
    case Stored =>
    case LocalRead =>
    case Early =>
    case Posting =>
    case Unregistering =>
    case Removing =>
  }

  lemma ResolverFree(s: State, h: History, c: Counts, r: nat, total: nat)
    requires Agrees(s, c) && r < |s.resolvers| && !s.resolvers[r].Ended? && IsFree(s, h)
    requires !IsInTime(c, Resolve(r, false), total) && (!s.investigation.Finished? ==> c.investigation < total)
    ensures IsFree(StepResolver(s, r, false), NotedResolver(h, s, s.resolvers[r], false))
  {
    var t := StepResolver(s, r, false);
    assert StandsAt(s.resolvers[r], c.samePod[r], c.steps[r], s.row);
    assert !s.resolvers[r].Handing?;
    forall k | 0 <= k < |t.resolvers|
      ensures !t.resolvers[k].Handing?
    {
      assert k != r ==> t.resolvers[k] == s.resolvers[k];
    }
  }

  lemma {:induction false} OnlyInTime(s: State, h: History, c: Counts, es: seq<Event>, total: nat)
    requires Agrees(s, c) && IsRun(s, es) && NothingFails(es) && After(s, es).investigation.Finished?
    requires total == c.investigation + Investigations(es) && IsFree(s, h)
    ensures IsOwed(After(s, es), Recorded(h, s, es)) ==> SomeInTime(c, es, total)
    decreases |es|
  {
    hide IsOwed, Noted, Agrees, Apply, IsEnabled, IsInTime;
    if es != [] && !IsInTime(c, es[0], total) {
      var e := es[0];
      if !s.investigation.Finished? {
        SomeStepLeft(s, es);
      }
      FreeUnlessInTime(s, h, c, e, total);
      AgreesAfter(s, c, e);
      CountsAdd(c, e);
      OnlyInTime(Apply(s, e), Noted(h, s, e), Counted(c, e), es[1..], total);
    }
  }

  lemma {:induction false} SomeStepLeft(s: State, es: seq<Event>)
    requires IsRun(s, es) && After(s, es).investigation.Finished? && !s.investigation.Finished?
    ensures Investigations(es) > 0
    decreases |es|
  {
    if es != [] && !es[0].Investigate? {
      SomeStepLeft(Apply(s, es[0]), es[1..]);
    }
  }

  /** Without failures the look is taken, and nothing is broken or lost. */
  predicate GoesWell(s: State, h: History) {
    && !h.broken && s.lostPosts == 0
    && (h.looked || s.investigation.Registering? || s.investigation.Publishing? || s.investigation.Investigating?
        || s.investigation.Stored?)
  }

  lemma {:induction false} AllGoesWell(s: State, h: History, es: seq<Event>)
    requires IsRun(s, es) && NothingFails(es) && GoesWell(s, h)
    ensures GoesWell(After(s, es), Recorded(h, s, es))
    decreases |es|
  {
    hide GoesWell, Apply, IsEnabled, Noted;
    if es != [] {
      OneGoesWell(s, h, es[0]);
      AllGoesWell(Apply(s, es[0]), Noted(h, s, es[0]), es[1..]);
    }
  }

  lemma OneGoesWell(s: State, h: History, e: Event)
    requires IsEnabled(s, e) && !Fails(e) && GoesWell(s, h)
    ensures GoesWell(Apply(s, e), Noted(h, s, e))
  {
    match e
    case Arrive(_) =>
    case Investigate(_) =>
    case Resolve(r, _) =>
  }

  /**
   * When nothing fails the events alone decide: the incident is closed, and its close posted exactly once,
   * if and only if some webhook came in time.
   */
  lemma ClosedIffInTime(es: seq<Event>)
    requires IsRun(Initial(), es) && Quiet(After(Initial(), es)) && NothingFails(es)
    ensures var s := After(Initial(), es);
            && (s.row == Closed <==> SomeInTime(Counts(0, [], []), es, Investigations(es)))
            && s.posts == (if s.row == Closed then 1 else 0)
  {
    hide IsRun, After, Recorded, SomeInTime, Investigations, ClosesAreOwed;
    var s, h, c := After(Initial(), es), HistoryOf(es), Counts(0, [], []);
    AllGoesWell(Initial(), Nothing(), es);
    ClosedIff(es);
    OnlyInTime(Initial(), Nothing(), c, es, Investigations(es));
    if SomeInTime(c, es, Investigations(es)) {
      InTimeCloses(Initial(), Nothing(), c, es, Investigations(es));
    }
  }

  // ---- What is left in Redis ----

  /** Once the investigation is over, an entry is there only for a late write or a failed removal. */
  predicate LeftoverIs(s: State, h: History) {
    if s.investigation.Finished? then s.redis.Present? == (h.late || h.stayed) else !h.late && !h.stayed
  }

  lemma EventLeaves(s: State, h: History, e: Event)
    requires LeftoverIs(s, h) && IsEnabled(s, e)
    ensures LeftoverIs(Apply(s, e), Noted(h, s, e))
  {
    match e
    case Arrive(_) =>
    case Investigate(fails) => StepLeaves(s, h, fails);
    case Resolve(r, fails) => StepResolverLeaves(s, h, r, fails);
  }

  lemma StepLeaves(s: State, h: History, fails: bool)
    requires !s.investigation.Finished? && LeftoverIs(s, h)
    ensures LeftoverIs(Step(s, fails), NotedStep(h, s, fails))
  {
    match s.investigation
    case Registering =>
    case Publishing =>
    case Investigating =>
    case Stored =>
    case LocalRead =>
    case Early =>
    case Posting =>
    case Unregistering =>
    case Removing =>
  }

  lemma StepResolverLeaves(s: State, h: History, r: nat, fails: bool)
    requires r < |s.resolvers| && !s.resolvers[r].Ended? && LeftoverIs(s, h)
    ensures LeftoverIs(StepResolver(s, r, fails), NotedResolver(h, s, s.resolvers[r], fails))
  {
    match s.resolvers[r]
    case FirstLook(_) =>
    case Searching(_) =>
    case Remote =>
    case Handing =>
    case SecondLook =>
    case Announcing =>
  }

  lemma {:induction false} RunLeaves(s: State, h: History, es: seq<Event>)
    requires LeftoverIs(s, h) && IsRun(s, es)
    ensures LeftoverIs(After(s, es), Recorded(h, s, es))
    decreases |es|
  {
    hide LeftoverIs, Apply, IsEnabled, Noted;
    if es != [] {
      EventLeaves(s, h, es[0]);
      RunLeaves(Apply(s, es[0]), Noted(h, s, es[0]), es[1..]);
    }
  }

  /**
   * When all is over, Redis still has an entry if and only if a handover was written after the
   * investigation had ended, or the removal failed with an entry there.
   */
  lemma EntryStaysIff(es: seq<Event>)
    requires IsRun(Initial(), es) && Quiet(After(Initial(), es))
    ensures After(Initial(), es).redis.Present? <==> HistoryOf(es).late || HistoryOf(es).stayed
  {
    hide IsRun, After, Recorded;
    RunLeaves(Initial(), Nothing(), es);
  }

  // ---- Where it does not hold ----

  lemma {:induction false} Extend(s: State, es: seq<Event>, e: Event)
    requires IsRun(s, es) && IsEnabled(After(s, es), e)
    ensures IsRun(s, es + [e]) && After(s, es + [e]) == Apply(After(s, es), e)
    decreases |es|
  {
    hide IsEnabled, Apply;
    if es == [] {
      assert [] + [e] == [e] && [e][1..] == [];
    } else {
      assert (es + [e])[1..] == es[1..] + [e];
      Extend(Apply(s, es[0]), es[1..], e);
    }
  }

  lemma Go(es: seq<Event>, e: Event) returns (fs: seq<Event>)
    requires IsRun(Initial(), es) && IsEnabled(After(Initial(), es), e)
    ensures fs == es + [e]
    ensures IsRun(Initial(), fs) && After(Initial(), fs) == Apply(After(Initial(), es), e)
  {
    Extend(Initial(), es, e);
    fs := es + [e];
  }

  lemma NoEvents()
    ensures IsRun(Initial(), []) && After(Initial(), []) == Initial()
  {
  }

  /** One webhook has looked for the row and found none, and the investigation is at its store. */
  lemma MissedTheRow(samePod: bool) returns (es: seq<Event>)
    ensures es == [Investigate(false), Investigate(false), Arrive(samePod), Resolve(0, false)]
    ensures IsRun(Initial(), es)
    ensures After(Initial(), es) ==
            State(NotStored, Present(false), Present(false), Investigating, [Searching(samePod)], 0, 0)
  {
    hide IsRun, After;
    NoEvents();
    es := Go([], Investigate(false));
    es := Go(es, Investigate(false));
    es := Go(es, Arrive(samePod));
    es := Go(es, Resolve(0, false));
  }

  /**
   * A hold left on this pod while the investigation waits for Redis is lost: nothing fails, and the
   * incident stays open.
   */
  lemma LateHoldIsLost() returns (es: seq<Event>)
    ensures IsRun(Initial(), es) && NothingFails(es) && Arrive(true) in es
    ensures var s := After(Initial(), es); Quiet(s) && s.row == Open && s.posts == 0
  {
    hide IsRun, After;
    es := MissedTheRow(true);
    es := Go(es, Investigate(false));
    es := Go(es, Investigate(false));
    es := Go(es, Resolve(0, false));
    es := Go(es, Investigate(false));
    es := Go(es, Investigate(false));
    es := Go(es, Investigate(false));
  }

  /**
   * The row could not be stored, and nothing else failed: a handover written after the investigation removed
   * its entry puts the entry back, and nobody is left to remove it.
   */
  lemma LateHandoverOutlivesRemoval() returns (es: seq<Event>)
    ensures IsRun(Initial(), es) && |es| == 11 && forall k | 0 <= k < |es| :: Fails(es[k]) <==> k == 6
    ensures var s := After(Initial(), es); Quiet(s) && s.redis == Present(true)
  {
    hide IsRun, After;
    es := MissedTheRow(false);
    es := Go(es, Resolve(0, false));
    es := Go(es, Resolve(0, false));
    es := Go(es, Investigate(true));
    es := Go(es, Investigate(false));
    es := Go(es, Investigate(false));
    es := Go(es, Resolve(0, false));
    es := Go(es, Resolve(0, false));
    assert es == [Investigate(false), Investigate(false), Arrive(false), Resolve(0, false), Resolve(0, false),
                  Resolve(0, false), Investigate(true), Investigate(false), Investigate(false), Resolve(0, false),
                  Resolve(0, false)];
  }
}
