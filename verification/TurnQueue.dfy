/** The work-queue primitives every turn runs through. */
module TurnQueue {
  import opened Text

  /** A turn, by its place in the order of submission. */
  type TurnId = nat

  // ---- The counting semaphore ----

  /** A semaphore's state: slots in use, and who waits for one, oldest first. */
  datatype Slots = Slots(limit: nat, running: int, queue: seq<TurnId>)

  function Acquire(s: Slots, t: TurnId): Slots {
    if s.running < s.limit then s.(running := s.running + 1) else s.(queue := s.queue + [t])
  }

  /** A released slot goes straight to the oldest waiter; it is free only when nobody waits. */
  function Release(s: Slots): Slots {
    if s.queue != [] then s.(queue := s.queue[1..]) else s.(running := s.running - 1)
  }

  class Semaphore {
    const limit: nat
    var running: int
    var queue: seq<TurnId>

    constructor (limit: nat)
      ensures View() == Slots(limit, 0, [])
    {
      this.limit := limit;
      running, queue := 0, [];
    }

    function View(): Slots
      reads this
    {
      Slots(limit, running, queue)
    }

    /** Whether the slot was there at once; otherwise `t` waits in the queue. */
    method Take(t: TurnId) returns (granted: bool)
      modifies this
      ensures View() == Acquire(old(View()), t)
      ensures granted <==> old(running) < limit
    {
      if running < limit {
        running := running + 1;
        return true;
      }
      queue := queue + [t];
      granted := false;
    }

    /** Who the slot was handed to, if anybody waited. */
    method Free() returns (next: Option<TurnId>)
      modifies this
      ensures View() == Release(old(View()))
      ensures next == if old(queue) == [] then None else Some(old(queue)[0])
    {
      if queue != [] {
        next := Some(queue[0]);
        queue := queue[1..];
      } else {
        next := None;
        running := running - 1;
      }
    }
  }

  // ---- One conversation's turns ----

  /** A new turn becomes its thread's tail. */
  function Link(tails: map<string, TurnId>, key: string, t: TurnId): map<string, TurnId> {
    tails[key := t]
  }

  /** A settled turn clears its thread's entry only while it is still the tail. */
  function Unlink(tails: map<string, TurnId>, key: string, t: TurnId): map<string, TurnId> {
    if key in tails && tails[key] == t then tails - {key} else tails
  }

  class ThreadQueue {
    var tails: map<string, TurnId>

    constructor ()
      ensures tails == map[]
    {
      tails := map[];
    }

    /** The turn `t` has to wait for, if its thread has one queued or running. */
    method Run(key: string, t: TurnId) returns (previous: Option<TurnId>)
      modifies this
      ensures tails == Link(old(tails), key, t)
      ensures previous == if key in old(tails) then Some(old(tails)[key]) else None
    {
      previous := if key in tails then Some(tails[key]) else None;
      tails := tails[key := t];
    }

    /** What runs when the tail of `t` settles. */
    method Settled(key: string, t: TurnId)
      modifies this
      ensures tails == Unlink(old(tails), key, t)
    {
      if key in tails && tails[key] == t {
        tails := tails - {key};
      }
    }
  }

  // ---- Accepted work ----

  /** A piece of work is registered under the promise of its turn, and taken off when that settles. */
  function Registered<T>(work: map<TurnId, T>, t: TurnId, meta: T): map<TurnId, T> {
    work[t := meta]
  }

  function Deregistered<T>(work: map<TurnId, T>, t: TurnId): map<TurnId, T> {
    work - {t}
  }

  class InFlightWork<T(==)> {
    var work: map<TurnId, T>

    constructor ()
      ensures work == map[]
    {
      work := map[];
    }

    method Track(meta: T, t: TurnId)
      modifies this
      ensures work == Registered(old(work), t, meta)
    {
      work := work[t := meta];
    }

    /** What runs when the promise of `t` settles. */
    method Settle(t: TurnId)
      modifies this
      ensures work == Deregistered(old(work), t)
    {
      work := work - {t};
    }
  }
}
