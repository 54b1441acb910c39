/**
 The semaphore of the agent interpreter's execution gate.

 Every call of `acquire` gets the next number, so the numbers give the order of arrival. What the
 semaphore keeps is `active`, `queue` and the live timers; the sets of granted, released and
 timed-out numbers only record the past.
 */
module Semaphores {
  datatype Sem = Sem(
    capacity: nat,
    active: nat,
    queue: seq<nat>,
    timers: set<nat>,
    arrivals: nat,
    granted: set<nat>,
    released: set<nat>,
    timedOut: set<nat>)

  datatype Action =
    | Acquire(timed: bool)
    | Release(id: nat)
    | TimeOut(id: nat)

  function Init(capacity: nat): Sem {
    Sem(capacity, 0, [], {}, 0, {}, {}, {})
  }

  function IndexOf(s: seq<nat>, x: nat): (i: int)
    ensures -1 <= i < |s|
    ensures i >= 0 ==> s[i] == x
    ensures i < 0 <==> x !in s
  {
    if s == [] then -1
    else if s[0] == x then 0
    else var i := IndexOf(s[1..], x); if i < 0 then -1 else i + 1
  }

  function Without(s: seq<nat>, i: int): seq<nat>
    requires i < |s|
  {
    if i < 0 then s else s[..i] + s[i + 1..]
  }

  /** A timer fires only while it is set; a permit is released only by whoever was granted it. */
  predicate Enabled(s: Sem, a: Action) {
    match a
    case Acquire(_) => true
    case Release(id) => id in s.granted
    case TimeOut(id) => id in s.timers
  }

  function Next(s: Sem, a: Action): Sem
    requires Enabled(s, a)
  {
    match a
    case Acquire(timed) =>
      var t := s.(arrivals := s.arrivals + 1);
      if s.active < s.capacity then t.(active := s.active + 1, granted := s.granted + {s.arrivals})
      else t.(queue := s.queue + [s.arrivals], timers := if timed then s.timers + {s.arrivals} else s.timers)
    case Release(id) =>
      if id in s.released then s
      else
        var t := s.(released := s.released + {id});
        if s.queue != [] then
          t.(queue := s.queue[1..], timers := s.timers - {s.queue[0]}, granted := s.granted + {s.queue[0]})
        else t.(active := if s.active >= 1 then s.active - 1 else 0)
    case TimeOut(id) =>
      s.(queue := Without(s.queue, IndexOf(s.queue, id)), timers := s.timers - {id}, timedOut := s.timedOut + {id})
  }

  function Run(capacity: nat, actions: seq<Action>): Sem
    decreases |actions|
  {
    if actions == [] then Init(capacity)
    else
      var s := Run(capacity, actions[..|actions| - 1]);
      var a := actions[|actions| - 1];
      if Enabled(s, a) then Next(s, a) else s
  }

  /** The permits granted and not yet given back. */
  function Outstanding(s: Sem): set<nat> {
    s.granted - s.released
  }

  ghost predicate Increasing(s: seq<nat>) {
    forall i, j :: 0 <= i < j < |s| ==> s[i] < s[j]
  }

  /** Waiters are queued in order of arrival, and whoever was granted arrived before all of them. */
  ghost predicate Ordered(s: Sem) {
    && Increasing(s.queue)
    && (forall i, g :: 0 <= i < |s.queue| && g in s.granted ==> g < s.queue[i])
  }

  /** Every arrival is granted, waiting or timed out, and only one of these; only waiters have timers. */
  ghost predicate Partitioned(s: Sem) {
    && (forall id :: id in s.granted ==> id < s.arrivals && id !in s.timedOut)
    && (forall i :: 0 <= i < |s.queue| ==> s.queue[i] < s.arrivals && s.queue[i] !in s.timedOut)
    && (forall id :: id in s.timedOut ==> id < s.arrivals)
    && (forall id: nat :: id < s.arrivals ==> id in s.granted || id in s.timedOut || id in s.queue)
    && s.released <= s.granted
    && (forall id :: id in s.timers ==> id in s.queue)
  }

  /** `active` counts the outstanding permits, within the capacity; nobody waits while one is free. */
  ghost predicate Counted(s: Sem) {
    && s.active == |Outstanding(s)| <= s.capacity
    && (s.queue != [] ==> s.active == s.capacity)
  }

  ghost predicate Inv(s: Sem) {
    Ordered(s) && Partitioned(s) && Counted(s)
  }

  /** Removing somebody from the queue, and possibly granting them, keeps the bookkeeping in order. */
  lemma KeepsQueueOrder(s: Sem, t: Sem, id: nat)
    requires Ordered(s) && Partitioned(s) && id in s.queue
    requires Increasing(t.queue) && forall x :: x in t.queue <==> x in s.queue && x != id
    requires t.arrivals == s.arrivals && s.released <= t.released <= t.granted && t.timers == s.timers - {id}
    requires if id in t.granted then t.granted == s.granted + {id} && t.timedOut == s.timedOut && id == s.queue[0]
             else t.granted == s.granted && t.timedOut == s.timedOut + {id}
    ensures Ordered(t) && Partitioned(t)
  {
    forall i | 0 <= i < |t.queue|
      ensures t.queue[i] in s.queue && t.queue[i] != id
    {
      assert t.queue[i] in t.queue;
    }
  }

  lemma KeepsRelease(s: Sem, id: nat)
    requires Inv(s) && id in Outstanding(s)
    ensures Inv(Next(s, Release(id)))
    ensures var t := Next(s, Release(id));
            if s.queue == [] then Outstanding(t) == Outstanding(s) - {id}
            else s.queue[0] !in Outstanding(s) && Outstanding(t) == Outstanding(s) - {id} + {s.queue[0]}
  {
    var t := Next(s, Release(id));
    if s.queue != [] {
      assert s.queue[0] !in s.granted;
      KeepsQueueOrder(s, t, s.queue[0]);
      assert Outstanding(t) == Outstanding(s) - {id} + {s.queue[0]};
    } else {
      assert Outstanding(t) == Outstanding(s) - {id};
    }
  }

  lemma KeepsTimeOut(s: Sem, id: nat)
    requires Inv(s) && id in s.timers
    ensures Inv(Next(s, TimeOut(id)))
    ensures IndexOf(s.queue, id) >= 0
    ensures forall x :: x in Next(s, TimeOut(id)).queue <==> x in s.queue && x != id
  {
    var t := Next(s, TimeOut(id));
    KeepsQueueOrder(s, t, id);
    assert Outstanding(t) == Outstanding(s);
  }

  lemma KeepsInv(s: Sem, a: Action)
    requires Inv(s) && Enabled(s, a)
    ensures Inv(Next(s, a))
  {
    match a
    case Acquire(_) =>
    case Release(id) => if id !in s.released { KeepsRelease(s, id); }
    case TimeOut(id) => KeepsTimeOut(s, id);
  }

  lemma {:induction false} RunKeepsInv(capacity: nat, actions: seq<Action>)
    ensures Inv(Run(capacity, actions)) && Run(capacity, actions).capacity == capacity
    decreases |actions|
  {
    if actions != [] {
      var s := Run(capacity, actions[..|actions| - 1]);
      RunKeepsInv(capacity, actions[..|actions| - 1]);
      if Enabled(s, actions[|actions| - 1]) { KeepsInv(s, actions[|actions| - 1]); }
    }
  }

  // Main results.

  /** Permits are conserved and bounded, none is free while somebody waits, and the `Math.max` never bites. */
  lemma PermitsConserved(capacity: nat, actions: seq<Action>)
    ensures var s := Run(capacity, actions);
            && s.active == |Outstanding(s)| <= capacity
            && (s.queue != [] ==> |Outstanding(s)| == capacity)
            && (Outstanding(s) != {} ==> s.active >= 1)
  {
    RunKeepsInv(capacity, actions);
  }

  /**
   First come, first served: once somebody holds or has held a permit, everybody who arrived before
   them has been granted or has timed out, exactly one of the two, and nobody of them still waits.
   */
  lemma FirstComeFirstServed(capacity: nat, actions: seq<Action>, earlier: nat, grantee: nat)
    requires grantee in Run(capacity, actions).granted && earlier < grantee
    ensures var s := Run(capacity, actions);
            earlier !in s.queue && (earlier in s.granted <==> earlier !in s.timedOut)
  {
    RunKeepsInv(capacity, actions);
  }

  /** Who holds a permit, who waits, and whose timer is set after a call. */
  ghost predicate CallEffect(s: Sem, t: Sem, a: Action) {
    && t.capacity == s.capacity
    && match a
       case Acquire(timed) =>
         && t.arrivals == s.arrivals + 1 && t.released == s.released && t.timedOut == s.timedOut
         && if |Outstanding(s)| < s.capacity then
              t.granted == s.granted + {s.arrivals} && Outstanding(t) == Outstanding(s) + {s.arrivals}
              && t.queue == s.queue == [] && t.timers == s.timers
            else
              t.granted == s.granted && t.queue == s.queue + [s.arrivals]
              && (forall id :: id in t.timers <==> id in s.timers || (timed && id == s.arrivals))
       case Release(id) =>
         if id !in Outstanding(s) then t == s
         else
           && t.arrivals == s.arrivals && t.released == s.released + {id} && t.timedOut == s.timedOut
           && if s.queue == [] then
                t.granted == s.granted && Outstanding(t) == Outstanding(s) - {id} && t.queue == [] && t.timers == s.timers
              else
                t.granted == s.granted + {s.queue[0]} && Outstanding(t) == Outstanding(s) - {id} + {s.queue[0]}
                && t.queue == s.queue[1..] && (forall w :: w in t.timers <==> w in s.timers && w != s.queue[0])
       case TimeOut(id) =>
         if id !in s.timers then t == s
         else
           && t.arrivals == s.arrivals && t.granted == s.granted && t.released == s.released
           && t.timedOut == s.timedOut + {id} && id !in t.granted
           && (forall w :: w in t.timers <==> w in s.timers && w != id)
           && exists i :: 0 <= i < |s.queue| && s.queue[i] == id && t.queue == s.queue[..i] + s.queue[i + 1..]
  }

  function Step(s: Sem, a: Action): Sem {
    if Enabled(s, a) then Next(s, a) else s
  }

  lemma StepEffect(s: Sem, a: Action)
    requires Inv(s)
    ensures CallEffect(s, Step(s, a), a)
  {
    match a
    case Acquire(_) =>
      assert s.arrivals !in s.granted;
      assert Outstanding(Next(s, a)) == if s.active < s.capacity then Outstanding(s) + {s.arrivals} else Outstanding(s);
    case Release(id) => if id in Outstanding(s) { KeepsRelease(s, id); }
    case TimeOut(id) =>
      if id in s.timers {
        KeepsTimeOut(s, id);
        assert s.queue[IndexOf(s.queue, id)] == id;
      }
  }

  lemma RunStep(capacity: nat, actions: seq<Action>, a: Action)
    ensures Run(capacity, actions + [a]) == Step(Run(capacity, actions), a)
  {
    assert (actions + [a])[..|actions|] == actions;
  }

  /** Exactly what each call does to who holds a permit and who waits, from any reachable state. */
  lemma CallEffects(capacity: nat, actions: seq<Action>, a: Action)
    ensures CallEffect(Run(capacity, actions), Run(capacity, actions + [a]), a)
  {
    RunKeepsInv(capacity, actions);
    RunStep(capacity, actions, a);
    StepEffect(Run(capacity, actions), a);
  }

  /** The semaphore object; a promise of `acquire` and its release closure are known by their number. */
  class Semaphore {
    const capacity: nat
    /** Tells the semaphores of one gate apart: the turn state's number, or -1 for the gate's own. */
    ghost const tag: int
    var active: nat
    var queue: seq<nat>
    var timers: set<nat>
    var arrivals: nat
    var released: set<nat>
    ghost var granted: set<nat>
    ghost var timedOut: set<nat>

    ghost function View(): Sem
      reads this
    {
      Sem(capacity, active, queue, timers, arrivals, granted, released, timedOut)
    }

    constructor (capacity: nat, ghost tag: int)
      ensures View() == Init(capacity) && this.tag == tag
    {
      this.capacity := capacity;
      this.tag := tag;
      active, queue, timers, arrivals := 0, [], {}, 0;
      released, granted, timedOut := {}, {}, {};
    }

    /** `now` tells whether the returned promise is already resolved with its release closure. */
    method Acquire(timed: bool) returns (id: nat, now: bool)
      modifies this
      ensures View() == Next(old(View()), Action.Acquire(timed))
      ensures id == old(arrivals) && now == (old(active) < capacity)
    {
      id := arrivals;
      arrivals := arrivals + 1;
      now := active < capacity;
      if now {
        active := active + 1;
        granted := granted + {id};
        return;
      }
      if timed { timers := timers + {id}; }
      queue := queue + [id];
    }

    /** Calling the release closure of permit `id`. */
    method Release(id: nat)
      requires Enabled(View(), Action.Release(id))
      modifies this
      ensures View() == Next(old(View()), Action.Release(id))
    {
      if id in released { return; }
      released := released + {id};
      if |queue| > 0 {
        var next := queue[0];
        queue := queue[1..];
        timers := timers - {next};
        granted := granted + {next};
        return;
      }
      active := if active - 1 > 0 then active - 1 else 0;
    }

    /** The timer of waiter `id` fires. */
    method TimeOut(id: nat)
      requires Enabled(View(), Action.TimeOut(id))
      modifies this
      ensures View() == Next(old(View()), Action.TimeOut(id))
    {
      var index := IndexOf(queue, id);
      if index >= 0 {
        queue := queue[..index] + queue[index + 1..];
      }
      timers := timers - {id};
      timedOut := timedOut + {id};
    }
  }
}
