/**
 The store that polls whether a conversation's computer is reachable. Reads overlap with invalidations
 and with listeners coming and going; a generation number tells late answers from current ones.
 */
module ConversationStore {
  import opened SetFacts
  import opened Wrappers

  datatype Availability = Availability(ready: bool, code: Option<string>, message: Option<string>)

  datatype Info = Info(cloud: bool, availability: Option<Availability>)

  datatype Status = Checking | Ready | Unavailable | Failed

  datatype Message = CheckingConnection | Unverified | Given(text: string)

  datatype Snapshot = Snapshot(status: Status, info: Option<Info>, ready: bool, message: Option<Message>, code: Option<string>)

  const CHECKING := Snapshot(Checking, None, false, Some(CheckingConnection), None)

  /** What a read comes to; a thrown value may have a code and a message. */
  datatype Answer = Got(info: Info) | Threw(code: Option<string>, text: Option<string>)

  /**
   `started` holds the generation each read was started in and `answers` what those that are over came
   to; `timers` are the intervals that still tick, `timer` the last one set.
   */
  datatype State = State(
    snapshot: Snapshot, generation: nat, busy: Option<nat>, listeners: set<nat>,
    timer: Option<nat>, timers: set<nat>, timersSet: nat,
    started: seq<nat>, answers: map<nat, Answer>)

  datatype Action =
    | Refresh
    | Answered(read: nat, answer: Answer)
    | Finished(read: nat)
    | Invalidate
    | Subscribe(listener: nat)
    | Unsubscribe(listener: nat)

  function Init(): State {
    State(CHECKING, 0, None, {}, None, {}, 0, [], map[])
  }

  predicate Enabled(s: State, a: Action) {
    match a
    case Answered(read, _) => read < |s.started| && read !in s.answers
    case Finished(read) => read in s.answers
    case _ => true
  }

  predicate IsCloud(snapshot: Snapshot) {
    snapshot.info.Some? && snapshot.info.value.cloud
  }

  predicate IsReady(info: Info) {
    info.cloud || (info.availability.Some? && info.availability.value.ready)
  }

  function Code(info: Info): Option<string> {
    if info.availability.Some? then info.availability.value.code else None
  }

  function Shown(info: Info): Snapshot {
    Snapshot(
      if IsReady(info) then Ready else Unavailable, Some(info), IsReady(info),
      if IsReady(info) then None
      else if info.availability.Some? && info.availability.value.message.Some? then Some(Given(info.availability.value.message.value))
      else Some(Unverified),
      Code(info))
  }

  function ShownError(before: Snapshot, code: Option<string>, text: Option<string>): Snapshot {
    Snapshot(Failed, before.info, false, Some(if text.Some? then Given(text.value) else Unverified), code)
  }

  function Refreshed(s: State): State {
    if IsCloud(s.snapshot) || s.busy.Some? then s
    else s.(busy := Some(|s.started|), started := s.started + [s.generation])
  }

  function Invalidated(s: State): State {
    if IsCloud(s.snapshot) then s
    else s.(generation := s.generation + 1, busy := None,
            snapshot := s.snapshot.(status := Checking, ready := false, message := Some(CheckingConnection)))
  }

  function Subscribed(s: State, listener: nat): State {
    var t := s.(listeners := s.listeners + {listener});
    if |t.listeners| == 1
    then Refreshed(t).(timer := Some(s.timersSet), timers := s.timers + {s.timersSet}, timersSet := s.timersSet + 1)
    else t
  }

  /** Without listeners the store starts afresh; the interval it stops is the last one it set. */
  function Unsubscribed(s: State, listener: nat): State {
    var t := s.(listeners := s.listeners - {listener});
    if t.listeners != {} then t
    else t.(generation := s.generation + 1, busy := None, snapshot := CHECKING,
            timers := if s.timer.Some? then s.timers - {s.timer.value} else s.timers)
  }

  function Next(s: State, a: Action): State
    requires Enabled(s, a)
  {
    match a
    case Refresh => Refreshed(s)
    case Answered(read, answer) =>
      var t := s.(answers := s.answers[read := answer]);
      if s.started[read] != s.generation then t
      else t.(snapshot := match answer
                          case Got(info) => Shown(info)
                          case Threw(code, text) => ShownError(s.snapshot, code, text))
    case Finished(read) => if s.busy == Some(read) then s.(busy := None) else s
    case Invalidate => Invalidated(s)
    case Subscribe(listener) => Subscribed(s, listener)
    case Unsubscribe(listener) => Unsubscribed(s, listener)
  }

  function Run(s: State, actions: seq<Action>): State
    decreases |actions|
  {
    if actions == [] then s
    else
      var t := Run(s, actions[..|actions| - 1]);
      var a := actions[|actions| - 1];
      if Enabled(t, a) then Next(t, a) else t
  }

  // ---------------------------------------------------------------------------------------------
  // The invariant.

  predicate InFlight(s: State, read: int) {
    0 <= read < |s.started| && read !in s.answers
  }

  /** A read answered in the generation that still lasts said what the snapshot says. */
  ghost predicate Confirmed(s: State, read: int) {
    && 0 <= read < |s.started| && s.started[read] == s.generation
    && read in s.answers && s.answers[read].Got? && s.snapshot == Shown(s.answers[read].info)
  }

  ghost predicate Inv(s: State) {
    && (forall r :: 0 <= r < |s.started| ==> s.started[r] <= s.generation)
    && (forall r :: r in s.answers ==> r < |s.started|)
    && (forall r :: InFlight(s, r) && s.started[r] == s.generation ==> s.busy == Some(r))
    && (forall r, q :: InFlight(s, r) && InFlight(s, q) && s.started[r] == s.started[q] ==> r == q)
    && (s.busy.Some? ==> s.busy.value < |s.started| && s.started[s.busy.value] == s.generation)
    && (s.snapshot.ready || IsCloud(s.snapshot) ==> exists r :: Confirmed(s, r))
    && (IsCloud(s.snapshot) ==> forall r :: InFlight(s, r) ==> s.started[r] != s.generation)
  }

  lemma KeepsRefresh(s: State)
    requires Inv(s)
    ensures Inv(Refreshed(s))
  {
    var t := Refreshed(s);
    if s.snapshot.ready || IsCloud(s.snapshot) {
      var r :| Confirmed(s, r);
      assert Confirmed(t, r);
    }
    forall r | InFlight(t, r) && r < |s.started| ensures InFlight(s, r) {}
  }

  lemma KeepsAnswered(s: State, read: nat, answer: Answer)
    requires Inv(s) && Enabled(s, Answered(read, answer))
    ensures Inv(Next(s, Answered(read, answer)))
  {
    var t := Next(s, Answered(read, answer));
    forall r | InFlight(t, r) ensures InFlight(s, r) && r != read {}
    if s.started[read] == s.generation {
      assert InFlight(s, read);
      if answer.Got? { assert Confirmed(t, read); }
    } else if s.snapshot.ready || IsCloud(s.snapshot) {
      var r :| Confirmed(s, r);
      assert Confirmed(t, r);
    }
  }

  /** Neither listeners nor timers matter. */
  lemma KeepsOthers(s: State, t: State)
    requires Inv(s)
    requires t == s.(listeners := t.listeners, timer := t.timer, timers := t.timers, timersSet := t.timersSet)
    ensures Inv(t)
  {
    forall r | InFlight(t, r) ensures InFlight(s, r) {}
    if s.snapshot.ready || IsCloud(s.snapshot) {
      var r :| Confirmed(s, r);
      assert Confirmed(t, r);
    }
  }

  lemma KeepsFinished(s: State, read: nat)
    requires Inv(s) && read in s.answers
    ensures Inv(Next(s, Finished(read)))
  {
    var t := Next(s, Finished(read));
    forall r | InFlight(t, r) ensures InFlight(s, r) && r != read {}
    if s.snapshot.ready || IsCloud(s.snapshot) {
      var r :| Confirmed(s, r);
      assert Confirmed(t, r);
    }
  }

  lemma KeepsInv(s: State, a: Action)
    requires Inv(s) && Enabled(s, a)
    ensures Inv(Next(s, a))
  {
    match a
    case Refresh => KeepsRefresh(s);
    case Answered(read, answer) => KeepsAnswered(s, read, answer);
    case Finished(read) => KeepsFinished(s, read);
    case Invalidate =>
    case Subscribe(listener) =>
      var t := s.(listeners := s.listeners + {listener});
      KeepsOthers(s, t);
      if |t.listeners| == 1 {
        KeepsRefresh(t);
        KeepsOthers(Refreshed(t), Subscribed(s, listener));
      }
    case Unsubscribe(listener) =>
      if Unsubscribed(s, listener).listeners != {} { KeepsOthers(s, Unsubscribed(s, listener)); }
  }

  lemma {:induction false} RunKeepsInv(s: State, actions: seq<Action>)
    requires Inv(s)
    ensures Inv(Run(s, actions))
    decreases |actions|
  {
    if actions != [] {
      var front := actions[..|actions| - 1];
      RunKeepsInv(s, front);
      if Enabled(Run(s, front), actions[|actions| - 1]) { KeepsInv(Run(s, front), actions[|actions| - 1]); }
    }
  }

  // ---------------------------------------------------------------------------------------------
  // Main results.

  /**
   A snapshot that says ready is the answer of a read started in the present generation, which is to say
   after the last invalidation and after the last time there were no listeners; and that answer says
   the computer is ready or none is needed.
   */
  lemma ReadyIsCurrent(actions: seq<Action>)
    ensures var s := Run(Init(), actions);
            s.snapshot.ready ==> exists r :: Confirmed(s, r) && SaysReady(s.answers[r].info)
  {
    RunKeepsInv(Init(), actions);
    var s := Run(Init(), actions);
    if s.snapshot.ready {
      var r :| Confirmed(s, r);
      assert Confirmed(s, r) && SaysReady(s.answers[r].info);
    }
  }

  /** The computer is ready, or none is needed. */
  predicate SaysReady(info: Info) {
    info.cloud || match info.availability case None => false case Some(a) => a.ready
  }

  // What each step comes to, from every reachable state.

  /** What is shown after an answer; an error keeps the information there was. */
  ghost predicate Shows(before: Snapshot, after: Snapshot, answer: Answer) {
    match answer
    case Got(info) =>
      && after.info == Some(info) && (after.ready <==> SaysReady(info))
      && after.status == (if SaysReady(info) then Ready else Unavailable)
      && after.code == (match info.availability case None => None case Some(a) => a.code)
      && (after.message.None? <==> SaysReady(info))
      && (!SaysReady(info) ==>
            after.message == match info.availability
                             case Some(Availability(_, _, Some(text))) => Some(Given(text))
                             case _ => Some(Unverified))
    case Threw(code, text) =>
      && after.status == Failed && !after.ready && after.info == before.info && after.code == code
      && after.message == match text case Some(t) => Some(Given(t)) case None => Some(Unverified)
  }

  ghost predicate SaysCloud(s: State) {
    match s.snapshot.info case None => false case Some(info) => info.cloud
  }

  /** One read of the present generation starts, unless the snapshot says cloud or one is under way. */
  ghost predicate StartsRead(s: State, t: State) {
    if SaysCloud(s) || s.busy.Some? then t == s
    else t.started == s.started + [s.generation] && t.busy == Some(|s.started|) && t.(started := s.started, busy := s.busy) == s
  }

  ghost predicate Effects(s: State, t: State, a: Action) {
    match a
    case Refresh => StartsRead(s, t)
    case Answered(read, answer) =>
      if read < |s.started| && read !in s.answers then
        && t.answers == s.answers[read := answer] && t.(answers := s.answers, snapshot := s.snapshot) == s
        && if s.started[read] == s.generation then Shows(s.snapshot, t.snapshot, answer) else t.snapshot == s.snapshot
      else t == s
    case Finished(read) =>
      t == s.(busy := if read in s.answers && s.busy == Some(read) then None else s.busy)
    case Invalidate =>
      if SaysCloud(s) then t == s
      else
        && t.generation == s.generation + 1 && t.busy.None?
        && t.snapshot == Snapshot(Checking, s.snapshot.info, false, Some(CheckingConnection), s.snapshot.code)
        && t.(generation := s.generation, busy := s.busy, snapshot := s.snapshot) == s
    case Subscribe(listener) =>
      && t.listeners == s.listeners + {listener}
      && if s.listeners <= {listener} then
           && StartsRead(s, t.(listeners := s.listeners, timer := s.timer, timers := s.timers, timersSet := s.timersSet))
           && t.timer == Some(s.timersSet) && t.timers == s.timers + {s.timersSet} && t.timersSet == s.timersSet + 1
         else t.(listeners := s.listeners) == s
    case Unsubscribe(listener) =>
      && t.listeners == s.listeners - {listener}
      && if s.listeners <= {listener} then
           && t.generation == s.generation + 1 && t.busy.None?
           && t.snapshot == Snapshot(Checking, None, false, Some(CheckingConnection), None)
           && (forall x :: x in t.timers <==> x in s.timers && s.timer != Some(x))
           && t.(listeners := s.listeners, generation := s.generation, busy := s.busy, snapshot := s.snapshot, timers := s.timers) == s
         else t.(listeners := s.listeners) == s
  }

  function Step(s: State, a: Action): State {
    if Enabled(s, a) then Next(s, a) else s
  }

  lemma RunStep(actions: seq<Action>, a: Action)
    ensures Run(Init(), actions + [a]) == Step(Run(Init(), actions), a)
  {
    assert (actions + [a])[..|actions|] == actions;
  }

  lemma ListenerStep(s: State, a: Action)
    requires a.Subscribe? || a.Unsubscribe?
    ensures Effects(s, Step(s, a), a)
  {
    AddOne(s.listeners, a.listener);
    assert s.listeners <= {a.listener} <==> s.listeners == {} || s.listeners == {a.listener};
    assert s.listeners - {a.listener} == {} <==> s.listeners <= {a.listener};
  }

  lemma AnswerStep(s: State, read: nat, answer: Answer)
    ensures Effects(s, Step(s, Answered(read, answer)), Answered(read, answer))
  {}

  lemma StepEffects(s: State, a: Action)
    ensures Effects(s, Step(s, a), a)
  {
    match a
    case Answered(read, answer) => AnswerStep(s, read, answer);
    case Subscribe(_) | Unsubscribe(_) => ListenerStep(s, a);
    case Refresh | Finished(_) | Invalidate =>
  }

  /** In every run each step has just these effects. */
  lemma EveryStep(actions: seq<Action>, a: Action)
    ensures Effects(Run(Init(), actions), Run(Init(), actions + [a]), a)
  {
    RunStep(actions, a);
    StepEffects(Run(Init(), actions), a);
  }

  // Further main results.

  /** Of each generation at most one read is in flight, and of the present one none but the busy one. */
  lemma OneReadPerGeneration(actions: seq<Action>, r: nat, q: nat)
    ensures var s := Run(Init(), actions);
            InFlight(s, r) && InFlight(s, q) && s.started[r] == s.started[q] ==> r == q && (s.started[r] == s.generation ==> s.busy == Some(r))
  {
    RunKeepsInv(Init(), actions);
  }

  /** Asking for a refresh, or being the first to listen, has a read of the present generation under way, unless cloud. */
  lemma RefreshReads(actions: seq<Action>, a: Action)
    requires a.Refresh? || (a.Subscribe? && Run(Init(), actions).listeners == {})
    ensures var s, t := Run(Init(), actions), Next(Run(Init(), actions), a);
            if IsCloud(s.snapshot) then t.started == s.started
            else t.busy.Some? && t.busy.value < |t.started| && t.started[t.busy.value] == t.generation == s.generation
    ensures a.Subscribe? ==> Next(Run(Init(), actions), a).timers == Run(Init(), actions).timers + {Run(Init(), actions).timersSet}
  {
    RunKeepsInv(Init(), actions);
    if a.Subscribe? { AddOne({}, a.listener); }
  }

  /** The action leaves the store without listeners. */
  predicate Empties(s: State, a: Action) {
    a.Unsubscribe? && s.listeners - {a.listener} == {}
  }

  ghost predicate NeverEmpties(s: State, actions: seq<Action>)
    decreases |actions|
  {
    actions != [] ==>
      var front := actions[..|actions| - 1];
      NeverEmpties(s, front) && !Empties(Run(s, front), actions[|actions| - 1])
  }

  /** Once the snapshot says cloud, it stays as it is and nothing is read until the last listener leaves. */
  lemma {:induction false} CloudStays(before: seq<Action>, after: seq<Action>)
    requires IsCloud(Run(Init(), before).snapshot) && NeverEmpties(Run(Init(), before), after)
    ensures var s, t := Run(Init(), before), Run(Run(Init(), before), after);
            t.snapshot == s.snapshot && t.snapshot.ready && |t.started| == |s.started|
    decreases |after|
  {
    var s := Run(Init(), before);
    RunKeepsInv(Init(), before);
    if after != [] {
      var front := after[..|after| - 1];
      CloudStays(before, front);
      RunKeepsInv(s, front);
    }
  }

  /** With listeners exactly one interval ticks, without none. */
  predicate OnePoller(s: State) {
    && (s.listeners == {} ==> s.timers == {})
    && (s.listeners != {} ==> s.timer.Some? && s.timers == {s.timer.value})
    && (s.timer.Some? ==> s.timer.value < s.timersSet)
  }

  /** The only listener is subscribed a second time. */
  predicate SubscribesAgain(s: State, a: Action) {
    a.Subscribe? && s.listeners == {a.listener}
  }

  /**
   There stays one poller whatever is done, except that subscribing the only listener again starts a
   second one, which goes on after that listener has left.
   */
  lemma OnePollerUnlessSubscribedAgain(s: State, a: Action)
    requires OnePoller(s) && Enabled(s, a)
    ensures OnePoller(Next(s, a)) <==> !SubscribesAgain(s, a)
    ensures SubscribesAgain(s, a) ==>
              var t := Next(Next(s, a), Unsubscribe(a.listener)); t.listeners == {} && t.timers == s.timers != {}
  {
    if a.Subscribe? {
      AddOne(s.listeners, a.listener);
      if SubscribesAgain(s, a) {
        assert s.listeners + {a.listener} == {a.listener};
        assert {s.timersSet, s.timer.value} <= Next(s, a).timers;
      }
    }
  }

  ghost predicate NeverSubscribesAgain(actions: seq<Action>)
    decreases |actions|
  {
    actions != [] ==>
      var front := actions[..|actions| - 1];
      NeverSubscribesAgain(front) && !SubscribesAgain(Run(Init(), front), actions[|actions| - 1])
  }

  /** So one interval polls the conversation, and only while somebody listens. */
  lemma {:induction false} RunHasOnePoller(actions: seq<Action>)
    requires NeverSubscribesAgain(actions)
    ensures OnePoller(Run(Init(), actions))
    decreases |actions|
  {
    if actions != [] {
      var front, a := actions[..|actions| - 1], actions[|actions| - 1];
      RunHasOnePoller(front);
      if Enabled(Run(Init(), front), a) { OnePollerUnlessSubscribedAgain(Run(Init(), front), a); }
    }
  }

  lemma AddOne<T>(a: set<T>, x: T)
    ensures |a + {x}| == 1 <==> a == {} || a == {x}
  {
    if a == {} || a == {x} {
      assert a + {x} == {x};
    } else {
      var y := Other(a, x);
      SubsetSize({x, y}, a + {x});
    }
  }

  lemma Other<T>(a: set<T>, x: T) returns (y: T)
    requires a != {} && a != {x}
    ensures y in a && y != x
  {
    var z :| z in a;
    y := z;
    if z == x {
      assert a != {x} && {x} <= a;
      assert a - {x} != {};
      y :| y in a - {x};
    }
  }

  // ---------------------------------------------------------------------------------------------
  // The store's own variables.

  class Store {
    var snapshot: Snapshot
    var generation: nat
    var busy: Option<nat>
    var listeners: set<nat>
    var timer: Option<nat>
    var timers: set<nat>
    var timersSet: nat
    var started: seq<nat>
    var answers: map<nat, Answer>

    ghost function View(): State
      reads this
    {
      State(snapshot, generation, busy, listeners, timer, timers, timersSet, started, answers)
    }

    constructor ()
      ensures View() == Init()
    {
      snapshot, generation, busy, listeners := CHECKING, 0, None, {};
      timer, timers, timersSet := None, {}, 0;
      started, answers := [], map[];
    }

    /** Starts a read unless none is needed or one is on its way. */
    method Refresh()
      modifies this`busy, this`started
      ensures View() == Next(old(View()), Action.Refresh)
    {
      if snapshot.info.Some? && snapshot.info.value.cloud { return; }
      if busy.Some? { return; }
      var current := generation;
      busy := Some(|started|);
      started := started + [current];
    }

    method Answered(read: nat, answer: Answer)
      requires Enabled(View(), Action.Answered(read, answer))
      modifies this`snapshot, this`answers
      ensures View() == Next(old(View()), Action.Answered(read, answer))
    {
      answers := answers[read := answer];
      var current := started[read];
      if current != generation { return; }
      match answer
      case Got(info) =>
        var ready := info.cloud || (info.availability.Some? && info.availability.value.ready);
        var message := Some(Unverified);
        if ready {
          message := None;
        } else if info.availability.Some? && info.availability.value.message.Some? {
          message := Some(Given(info.availability.value.message.value));
        }
        snapshot := Snapshot(if ready then Ready else Unavailable, Some(info), ready, message, Code(info));
      case Threw(code, text) =>
        snapshot := Snapshot(Failed, snapshot.info, false, Some(if text.Some? then Given(text.value) else Unverified), code);
    }

    method Finished(read: nat)
      requires Enabled(View(), Action.Finished(read))
      modifies this`busy
      ensures View() == Next(old(View()), Action.Finished(read))
    {
      if busy == Some(read) { busy := None; }
    }

    method Invalidate()
      modifies this`snapshot, this`generation, this`busy
      ensures View() == Next(old(View()), Action.Invalidate)
    {
      if snapshot.info.Some? && snapshot.info.value.cloud { return; }
      generation := generation + 1;
      busy := None;
      snapshot := snapshot.(status := Checking, ready := false, message := Some(CheckingConnection));
    }

    method Subscribe(listener: nat)
      modifies this
      ensures View() == Next(old(View()), Action.Subscribe(listener))
    {
      listeners := listeners + {listener};
      if |listeners| == 1 {
        Refresh();
        timer := Some(timersSet);
        timers := timers + {timersSet};
        timersSet := timersSet + 1;
      }
    }

    method Unsubscribe(listener: nat)
      modifies this
      ensures View() == Next(old(View()), Action.Unsubscribe(listener))
    {
      listeners := listeners - {listener};
      if |listeners| == 0 {
        if timer.Some? { timers := timers - {timer.value}; }
        generation := generation + 1;
        busy := None;
        snapshot := CHECKING;
      }
    }
  }
}
