/**
 The execution gate itself: budgets of evaluations and tool operations (PTC calls) per turn. A turn
 state is an object that calls under way keep using after `resetTurn` has dropped it from the map,
 so turn states are numbered in order of creation and never forgotten here.
 */
module ExecutionGate {
  import opened Wrappers
  import opened Semaphores
  import opened SetFacts

  datatype Limits = Limits(
    executionTimeoutMs: int, memoryLimitBytes: int, maxStackSizeBytes: int, maxResultChars: int,
    maxPtcCallsPerEval: int, maxPtcCallsPerTurn: int, maxEvalsPerTurn: int, maxConcurrentEvals: int,
    maxConcurrentPtcPerTurn: int, evalQueueTimeoutMs: int, ptcCallTimeoutMs: int, maxCodeChars: int)

  /** What `createInterpreterExecutionGate` insists on. */
  predicate Acceptable(l: Limits) {
    && l.executionTimeoutMs > 0 && l.memoryLimitBytes > 0 && l.maxStackSizeBytes > 0 && l.maxResultChars > 0
    && l.maxPtcCallsPerEval > 0 && l.maxPtcCallsPerTurn > 0 && l.maxEvalsPerTurn > 0 && l.maxConcurrentEvals > 0
    && l.maxConcurrentPtcPerTurn > 0 && l.evalQueueTimeoutMs > 0 && l.ptcCallTimeoutMs > 0 && l.maxCodeChars > 0
    && l.maxPtcCallsPerTurn >= l.maxPtcCallsPerEval
  }

  /** The limits by name, in the order in which they are looked at. */
  function Entries(l: Limits): seq<(string, int)> {
    [("executionTimeoutMs", l.executionTimeoutMs), ("memoryLimitBytes", l.memoryLimitBytes),
     ("maxStackSizeBytes", l.maxStackSizeBytes), ("maxResultChars", l.maxResultChars),
     ("maxPtcCallsPerEval", l.maxPtcCallsPerEval), ("maxPtcCallsPerTurn", l.maxPtcCallsPerTurn),
     ("maxEvalsPerTurn", l.maxEvalsPerTurn), ("maxConcurrentEvals", l.maxConcurrentEvals),
     ("maxConcurrentPtcPerTurn", l.maxConcurrentPtcPerTurn), ("evalQueueTimeoutMs", l.evalQueueTimeoutMs),
     ("ptcCallTimeoutMs", l.ptcCallTimeoutMs), ("maxCodeChars", l.maxCodeChars)]
  }

  datatype RangeError = NotPositive(name: string) | TurnBelowEval

  /** The checks of `createInterpreterExecutionGate`: every limit is positive, and a turn may make an evaluation's calls. */
  method CheckLimits(l: Limits) returns (error: Option<RangeError>)
    ensures error.None? <==> Acceptable(l)
    ensures error.None? <==>
              (forall i :: 0 <= i < |Entries(l)| ==> Entries(l)[i].1 > 0) && l.maxPtcCallsPerTurn >= l.maxPtcCallsPerEval
    ensures error == Some(TurnBelowEval) ==> forall i :: 0 <= i < |Entries(l)| ==> Entries(l)[i].1 > 0
    ensures error.Some? && error.value.NotPositive? ==>
              exists k :: 0 <= k < |Entries(l)| && Entries(l)[k].0 == error.value.name && Entries(l)[k].1 <= 0
                          && forall i :: 0 <= i < k ==> Entries(l)[i].1 > 0
  {
    var entries := Entries(l);
    for k := 0 to |entries|
      invariant forall i :: 0 <= i < k ==> entries[i].1 > 0
    {
      if entries[k].1 <= 0 {
        assert !Acceptable(l);
        return Some(NotPositive(entries[k].0));
      }
    }
    assert entries[0].1 > 0 && entries[1].1 > 0 && entries[2].1 > 0 && entries[3].1 > 0;
    assert entries[4].1 > 0 && entries[5].1 > 0 && entries[6].1 > 0 && entries[7].1 > 0;
    assert entries[8].1 > 0 && entries[9].1 > 0 && entries[10].1 > 0 && entries[11].1 > 0;
    error := if l.maxPtcCallsPerTurn < l.maxPtcCallsPerEval then Some(TurnBelowEval) else None;
  }

  type GateLimits = l: Limits | Acceptable(l) witness Limits(1, 1, 1, 1, 1, 1, 1, 1, 1, 1, 1, 1)

  /** `started` are the operations begun; they stay on record after they settle. */
  datatype Turn = Turn(evals: nat, ptcCalls: nat, ptc: Sem, started: set<nat>)

  /** `owner[id]` is the turn state that the evaluation numbered `id` is charged to. */
  datatype State = State(
    limits: GateLimits,
    evalSem: Sem,
    turns: seq<Turn>,
    current: map<string, nat>,
    owner: seq<nat>,
    refunded: set<nat>)

  datatype GateAction =
    | AcquireEval(turnKey: string)
    | EvalTimeOut(id: nat)
    | RefundEval(id: nat)
    | ReleaseEval(id: nat)
    | RunPtc(turnKey: string)
    | PtcTimeOut(turn: nat, id: nat)
    | StartOperation(turn: nat, id: nat)
    | SettleOperation(turn: nat, id: nat)
    | AbandonOperation(turn: nat, id: nat)
    | ResetTurn(turnKey: string)

  function Start(limits: GateLimits): State {
    State(limits, Init(limits.maxConcurrentEvals), [], map[], [], {})
  }

  function FreshTurn(limits: GateLimits): Turn {
    Turn(0, 0, Init(limits.maxConcurrentPtcPerTurn), {})
  }

  function StateFor(s: State, turnKey: string): State {
    if turnKey in s.current then s
    else s.(turns := s.turns + [FreshTurn(s.limits)], current := s.current[turnKey := |s.turns|])
  }

  /** Running operations: begun, and their permit not yet given back. */
  function Running(t: Turn): set<nat> {
    t.started - t.ptc.released
  }

  predicate CanRun(s: State, a: GateAction) {
    match a
    case AcquireEval(key) => key in s.current ==> s.current[key] < |s.turns|
    case EvalTimeOut(id) => Enabled(s.evalSem, TimeOut(id))
    case RefundEval(id) => id in s.evalSem.timedOut && id !in s.refunded && id < |s.owner| && s.owner[id] < |s.turns|
    case ReleaseEval(id) => Enabled(s.evalSem, Release(id))
    case RunPtc(key) => key in s.current ==> s.current[key] < |s.turns|
    case PtcTimeOut(i, id) => i < |s.turns| && Enabled(s.turns[i].ptc, TimeOut(id))
    case StartOperation(i, id) => i < |s.turns| && id in s.turns[i].ptc.granted && id !in s.turns[i].started
    case SettleOperation(i, id) => i < |s.turns| && id in Running(s.turns[i]) && id in s.turns[i].ptc.granted
    case AbandonOperation(i, id) => i < |s.turns| && id in Running(s.turns[i])
    case ResetTurn(_) => true
  }

  function UpdateTurn(s: State, i: nat, t: Turn): State
    requires i < |s.turns|
  {
    s.(turns := s.turns[i := t])
  }

  /** Past the limit the call throws EVAL_LIMIT; otherwise it is charged and joins the queue. */
  function ChargeEval(s: State, i: nat): State
    requires i < |s.turns|
  {
    var t := s.turns[i];
    if t.evals >= s.limits.maxEvalsPerTurn then s
    else
      UpdateTurn(s, i, t.(evals := t.evals + 1))
      .(evalSem := Semaphores.Next(s.evalSem, Acquire(true)), owner := s.owner + [i])
  }

  /** Past the limit the call throws PTC_LIMIT; otherwise it is counted, for good, and asks for a permit. */
  function CountCall(s: State, i: nat): State
    requires i < |s.turns|
  {
    var t := s.turns[i];
    if t.ptcCalls >= s.limits.maxPtcCallsPerTurn then s
    else UpdateTurn(s, i, t.(ptcCalls := t.ptcCalls + 1, ptc := Semaphores.Next(t.ptc, Acquire(true))))
  }

  ghost predicate WellFormed(s: State) {
    && (forall k :: k in s.current ==> s.current[k] < |s.turns|)
    && (forall id :: 0 <= id < |s.owner| ==> s.owner[id] < |s.turns|)
    && |s.owner| == s.evalSem.arrivals
    && Semaphores.Inv(s.evalSem) && s.evalSem.capacity == s.limits.maxConcurrentEvals
    && s.refunded <= s.evalSem.timedOut
  }

  /** The caller's timeout of a running operation rejects a promise and changes nothing here. */
  function Do(s: State, a: GateAction): State
    requires CanRun(s, a)
  {
    match a
    case AcquireEval(key) =>
      var t := StateFor(s, key);
      ChargeEval(t, t.current[key])
    case EvalTimeOut(id) => s.(evalSem := Semaphores.Next(s.evalSem, TimeOut(id)))
    case RefundEval(id) =>
      var i := s.owner[id];
      var t := s.turns[i];
      UpdateTurn(s, i, t.(evals := if t.evals >= 1 then t.evals - 1 else 0)).(refunded := s.refunded + {id})
    case ReleaseEval(id) => s.(evalSem := Semaphores.Next(s.evalSem, Release(id)))
    case RunPtc(key) =>
      var t := StateFor(s, key);
      CountCall(t, t.current[key])
    case PtcTimeOut(i, id) => UpdateTurn(s, i, s.turns[i].(ptc := Semaphores.Next(s.turns[i].ptc, TimeOut(id))))
    case StartOperation(i, id) => UpdateTurn(s, i, s.turns[i].(started := s.turns[i].started + {id}))
    case SettleOperation(i, id) =>
      UpdateTurn(s, i, s.turns[i].(ptc := Semaphores.Next(s.turns[i].ptc, Release(id))))
    case AbandonOperation(_, _) => s
    case ResetTurn(key) => s.(current := s.current - {key})
  }

  // ---------------------------------------------------------------------------------------------
  // Budgets.

  /** The evaluations charged to turn state `i`: its own, except those whose queue timeout was refunded. */
  function Charged(s: State, i: nat): set<nat> {
    set id | 0 <= id < |s.owner| && s.owner[id] == i && id !in s.refunded
  }

  ghost predicate TurnKept(s: State, i: nat)
    requires i < |s.turns|
  {
    var t := s.turns[i];
    && t.evals == |Charged(s, i)| <= s.limits.maxEvalsPerTurn
    && Semaphores.Inv(t.ptc) && t.ptc.capacity == s.limits.maxConcurrentPtcPerTurn
    && t.ptcCalls == t.ptc.arrivals <= s.limits.maxPtcCallsPerTurn
    && t.ptc.released <= t.started <= t.ptc.granted
  }

  ghost predicate GateInv(s: State) {
    WellFormed(s) && forall i :: 0 <= i < |s.turns| ==> TurnKept(s, i)
  }

  lemma KeepsStateFor(s: State, key: string)
    requires GateInv(s)
    ensures GateInv(StateFor(s, key)) && key in StateFor(s, key).current
  {
    var t := StateFor(s, key);
    if key !in s.current {
      assert Charged(t, |s.turns|) == {};
      forall i | 0 <= i < |t.turns| ensures TurnKept(t, i) {
        if i < |s.turns| { assert TurnKept(s, i) && Charged(t, i) == Charged(s, i); }
      }
    }
  }

  lemma ChargedAfterCharge(s: State, i: nat, v: State, j: nat)
    requires v.owner == s.owner + [i] && v.refunded == s.refunded && |s.owner| !in s.refunded
    ensures Charged(v, j) == if j == i then Charged(s, j) + {|s.owner|} else Charged(s, j)
  {
    forall id | 0 <= id < |s.owner| ensures v.owner[id] == s.owner[id] {}
  }

  lemma ChargeIsWellFormed(s: State, i: nat)
    requires WellFormed(s) && i < |s.turns| && s.turns[i].evals < s.limits.maxEvalsPerTurn
    ensures WellFormed(ChargeEval(s, i)) && |s.owner| !in s.refunded
  {
    Semaphores.KeepsInv(s.evalSem, Acquire(true));
    var v := ChargeEval(s, i);
    forall id | 0 <= id < |v.owner| ensures v.owner[id] < |v.turns| {}
  }

  lemma ChargedTurnKept(s: State, i: nat)
    requires GateInv(s) && i < |s.turns| && s.turns[i].evals < s.limits.maxEvalsPerTurn && |s.owner| !in s.refunded
    ensures TurnKept(ChargeEval(s, i), i)
  {
    assert TurnKept(s, i);
    ChargedAfterCharge(s, i, ChargeEval(s, i), i);
    assert |s.owner| !in Charged(s, i);
  }

  lemma OtherTurnKept(s: State, i: nat, j: nat)
    requires GateInv(s) && i < |s.turns| && s.turns[i].evals < s.limits.maxEvalsPerTurn && |s.owner| !in s.refunded
    requires j < |s.turns| && j != i
    ensures TurnKept(ChargeEval(s, i), j)
  {
    assert TurnKept(s, j);
    ChargedAfterCharge(s, i, ChargeEval(s, i), j);
  }

  lemma KeepsChargeEval(s: State, i: nat)
    requires GateInv(s) && i < |s.turns|
    ensures GateInv(ChargeEval(s, i))
  {
    if s.turns[i].evals < s.limits.maxEvalsPerTurn {
      ChargeIsWellFormed(s, i);
      forall j | 0 <= j < |s.turns| ensures TurnKept(ChargeEval(s, i), j) {
        if j == i { ChargedTurnKept(s, i); } else { OtherTurnKept(s, i, j); }
      }
    }
  }

  lemma KeepsRefund(s: State, id: nat)
    requires GateInv(s) && CanRun(s, RefundEval(id))
    ensures GateInv(Do(s, RefundEval(id))) && s.turns[s.owner[id]].evals >= 1
  {
    var i := s.owner[id];
    var v := Do(s, RefundEval(id));
    assert TurnKept(s, i);
    assert id in Charged(s, i);
    assert Charged(v, i) == Charged(s, i) - {id};
    assert |Charged(s, i)| >= 1;
    forall j | 0 <= j < |v.turns| ensures TurnKept(v, j) {
      assert TurnKept(s, j);
      if j != i { assert Charged(v, j) == Charged(s, j); }
    }
  }

  lemma KeepsEvalPermit(s: State, a: Action)
    requires GateInv(s) && Enabled(s.evalSem, a) && !a.Acquire?
    ensures GateInv(s.(evalSem := Semaphores.Next(s.evalSem, a)))
  {
    Semaphores.KeepsInv(s.evalSem, a);
    var v := s.(evalSem := Semaphores.Next(s.evalSem, a));
    forall j | 0 <= j < |v.turns| ensures TurnKept(v, j) {
      assert TurnKept(s, j) && Charged(v, j) == Charged(s, j);
    }
  }

  /** A change of one turn's operations leaves the other turns and all evaluations alone. */
  lemma KeepsOperations(s: State, i: nat, t: Turn)
    requires GateInv(s) && i < |s.turns| && t.evals == s.turns[i].evals
    requires Semaphores.Inv(t.ptc) && t.ptc.capacity == s.limits.maxConcurrentPtcPerTurn
    requires t.ptcCalls == t.ptc.arrivals <= s.limits.maxPtcCallsPerTurn
    requires t.ptc.released <= t.started <= t.ptc.granted
    ensures GateInv(UpdateTurn(s, i, t))
  {
    var v := UpdateTurn(s, i, t);
    forall j | 0 <= j < |v.turns| ensures TurnKept(v, j) {
      assert TurnKept(s, j) && Charged(v, j) == Charged(s, j);
    }
  }

  lemma KeepsCountCall(s: State, i: nat)
    requires GateInv(s) && i < |s.turns|
    ensures GateInv(CountCall(s, i))
  {
    var t := s.turns[i];
    assert TurnKept(s, i);
    if t.ptcCalls < s.limits.maxPtcCallsPerTurn {
      Semaphores.KeepsInv(t.ptc, Acquire(true));
      KeepsOperations(s, i, t.(ptcCalls := t.ptcCalls + 1, ptc := Semaphores.Next(t.ptc, Acquire(true))));
    }
  }

  lemma KeepsPtcAction(s: State, a: GateAction)
    requires GateInv(s) && CanRun(s, a) && (a.PtcTimeOut? || a.StartOperation? || a.SettleOperation?)
    ensures GateInv(Do(s, a))
  {
    var i := a.turn;
    var t := s.turns[i];
    assert TurnKept(s, i);
    match a
    case PtcTimeOut(_, id) =>
      Semaphores.KeepsInv(t.ptc, TimeOut(id));
      KeepsOperations(s, i, t.(ptc := Semaphores.Next(t.ptc, TimeOut(id))));
    case StartOperation(_, id) => KeepsOperations(s, i, t.(started := t.started + {id}));
    case SettleOperation(_, id) =>
      Semaphores.KeepsInv(t.ptc, Release(id));
      KeepsOperations(s, i, t.(ptc := Semaphores.Next(t.ptc, Release(id))));
  }

  lemma KeepsGateInv(s: State, a: GateAction)
    requires GateInv(s) && CanRun(s, a)
    ensures GateInv(Do(s, a)) && Do(s, a).limits == s.limits
  {
    match a
    case AcquireEval(key) => KeepsStateFor(s, key); KeepsChargeEval(StateFor(s, key), StateFor(s, key).current[key]);
    case EvalTimeOut(id) => KeepsEvalPermit(s, TimeOut(id));
    case RefundEval(id) => KeepsRefund(s, id);
    case ReleaseEval(id) => KeepsEvalPermit(s, Release(id));
    case RunPtc(key) => KeepsStateFor(s, key); KeepsCountCall(StateFor(s, key), StateFor(s, key).current[key]);
    case AbandonOperation(_, _) =>
    case ResetTurn(key) =>
      var v := Do(s, a);
      forall j | 0 <= j < |v.turns| ensures TurnKept(v, j) {
        assert TurnKept(s, j) && Charged(v, j) == Charged(s, j);
      }
    case _ => KeepsPtcAction(s, a);
  }

  /** The state after the scheduler's choices; a choice that cannot run is not taken. */
  function RunGate(limits: GateLimits, actions: seq<GateAction>): State
    decreases |actions|
  {
    if actions == [] then Start(limits)
    else
      var s := RunGate(limits, actions[..|actions| - 1]);
      var a := actions[|actions| - 1];
      if CanRun(s, a) then Do(s, a) else s
  }

  lemma {:induction false} RunKeepsGateInv(limits: GateLimits, actions: seq<GateAction>)
    ensures GateInv(RunGate(limits, actions)) && RunGate(limits, actions).limits == limits
    decreases |actions|
  {
    if actions != [] {
      var front := actions[..|actions| - 1];
      RunKeepsGateInv(limits, front);
      if CanRun(RunGate(limits, front), actions[|actions| - 1]) { KeepsGateInv(RunGate(limits, front), actions[|actions| - 1]); }
    }
  }

  function OwnedBy(s: State, i: nat, ids: set<nat>): set<nat> {
    set id | id in ids && id < |s.owner| && s.owner[id] == i
  }

  /** The numbers in a queue. */
  function Members(q: seq<nat>): set<nat> {
    set id | id in q
  }

  /**
   A turn's evaluation counter is its grants plus its waiters plus the timed-out calls whose rejection
   has not been delivered yet: each timeout is refunded once, in full. It never passes the limit, and
   with every rejection delivered it is exactly grants plus waiters.
   */
  lemma EvalBudget(limits: GateLimits, actions: seq<GateAction>, i: nat)
    requires i < |RunGate(limits, actions).turns|
    ensures var s := RunGate(limits, actions);
            var granted := OwnedBy(s, i, s.evalSem.granted);
            var waiting := OwnedBy(s, i, Members(s.evalSem.queue));
            var rejected := OwnedBy(s, i, s.evalSem.timedOut - s.refunded);
            && s.turns[i].evals == |granted| + |waiting| + |rejected| <= limits.maxEvalsPerTurn
            && (s.refunded == s.evalSem.timedOut ==> s.turns[i].evals == |granted| + |waiting|)
  {
    RunKeepsGateInv(limits, actions);
    var s := RunGate(limits, actions);
    assert TurnKept(s, i);
    var granted := OwnedBy(s, i, s.evalSem.granted);
    var waiting := OwnedBy(s, i, Members(s.evalSem.queue));
    var rejected := OwnedBy(s, i, s.evalSem.timedOut - s.refunded);
    forall id | id in waiting ensures id !in granted && id !in rejected && id !in s.refunded {
      assert id in s.evalSem.queue;
      var j :| 0 <= j < |s.evalSem.queue| && s.evalSem.queue[j] == id;
    }
    forall id | id in granted ensures id !in s.refunded {}
    assert Charged(s, i) == granted + waiting + rejected;
    assert granted !! waiting && (granted + waiting) !! rejected;
  }

  lemma {:induction false} BelowSize(ids: set<nat>, n: nat)
    requires forall id :: id in ids ==> id < n
    ensures |ids| <= n
  {
    if n > 0 {
      BelowSize(ids - {n - 1}, n - 1);
    } else {
      assert ids == {};
    }
  }

  /**
   A turn never begins more operations than its limit, and never runs more at once than its limit,
   however many of their callers have given up: a permit comes back only when its operation settles.
   */
  lemma OperationBudget(limits: GateLimits, actions: seq<GateAction>, i: nat)
    requires i < |RunGate(limits, actions).turns|
    ensures var t := RunGate(limits, actions).turns[i];
            && |t.started| <= t.ptcCalls <= limits.maxPtcCallsPerTurn
            && |Running(t)| <= limits.maxConcurrentPtcPerTurn
            && t.ptc.released <= t.started
            && (t.ptc.queue != [] ==> |Outstanding(t.ptc)| == limits.maxConcurrentPtcPerTurn)
  {
    RunKeepsGateInv(limits, actions);
    var s := RunGate(limits, actions);
    assert TurnKept(s, i);
    var t := s.turns[i];
    BelowSize(t.started, t.ptc.arrivals);
    SubsetSize(Running(t), Outstanding(t.ptc));
  }

  /** Over the whole gate no more evaluations run at once than its limit, over all turns together. */
  lemma EvalConcurrency(limits: GateLimits, actions: seq<GateAction>)
    ensures var s := RunGate(limits, actions);
            && |Outstanding(s.evalSem)| <= limits.maxConcurrentEvals
            && (s.evalSem.queue != [] ==> |Outstanding(s.evalSem)| == limits.maxConcurrentEvals)
  {
    RunKeepsGateInv(limits, actions);
    var s := RunGate(limits, actions);
    assert WellFormed(s);
  }

  /** An evaluation is admitted exactly while its turn state has budget left; a rejected one costs nothing. */
  lemma EvalAdmission(limits: GateLimits, actions: seq<GateAction>, key: string)
    ensures CanRun(RunGate(limits, actions), AcquireEval(key))
    ensures var s := RunGate(limits, actions);
            var t := Do(s, AcquireEval(key));
            var i := t.current[key];
            var spent := if key in s.current then |Charged(s, i)| else 0;
            if spent < limits.maxEvalsPerTurn then
              t.owner == s.owner + [i] && t.evalSem == Semaphores.Next(s.evalSem, Acquire(true))
            else t.owner == s.owner && t.evalSem == s.evalSem
  {
    RunKeepsGateInv(limits, actions);
    var s := RunGate(limits, actions);
    if key in s.current { assert TurnKept(s, s.current[key]); }
  }

  /** A tool operation is admitted exactly while its turn state has made fewer calls than the limit. */
  lemma OperationAdmission(limits: GateLimits, actions: seq<GateAction>, key: string)
    ensures CanRun(RunGate(limits, actions), RunPtc(key))
    ensures var s := RunGate(limits, actions);
            var t := Do(s, RunPtc(key));
            var before := if key in s.current then s.turns[s.current[key]].ptc else Init(limits.maxConcurrentPtcPerTurn);
            t.turns[t.current[key]].ptc ==
            if before.arrivals < limits.maxPtcCallsPerTurn then Semaphores.Next(before, Acquire(true)) else before
  {
    RunKeepsGateInv(limits, actions);
    var s := RunGate(limits, actions);
    if key in s.current { assert TurnKept(s, s.current[key]); }
  }

  // ---------------------------------------------------------------------------------------------
  // What each step comes to, from every reachable state.

  /** The turn state that a call with this key is charged to. */
  function TurnOf(s: State, key: string): nat {
    if key in s.current then s.current[key] else |s.turns|
  }

  ghost predicate IsFresh(t: Turn, limits: GateLimits) {
    && t.evals == 0 && t.ptcCalls == 0 && t.started == {}
    && t.ptc.capacity == limits.maxConcurrentPtcPerTurn && t.ptc.active == 0 && t.ptc.queue == [] && t.ptc.timers == {}
    && t.ptc.arrivals == 0 && t.ptc.granted == {} && t.ptc.released == {} && t.ptc.timedOut == {}
  }

  /** A call with `key` found its turn state, which was `before`, or made a fresh one; no other turn state changed. */
  ghost predicate Entered(s: State, t: State, key: string, before: Turn) {
    var i := TurnOf(s, key);
    && t.limits == s.limits && t.refunded == s.refunded
    && i < |t.turns| && (forall j :: 0 <= j < |s.turns| && j != i ==> j < |t.turns| && t.turns[j] == s.turns[j])
    && (if key in s.current then |t.turns| == |s.turns| && t.current == s.current && before == s.turns[i]
        else |t.turns| == |s.turns| + 1 && t.current == s.current[key := i] && IsFresh(before, s.limits))
  }

  /** Only the turn state `i` has changed. */
  ghost predicate OnlyTurn(s: State, t: State, i: nat) {
    && i < |s.turns| && t == s.(turns := t.turns) && |t.turns| == |s.turns|
    && forall j :: 0 <= j < |s.turns| && j != i ==> t.turns[j] == s.turns[j]
  }

  ghost predicate ChargesEval(s: State, t: State, key: string, before: Turn) {
    var i := TurnOf(s, key);
    && Entered(s, t, key, before)
    && if before.evals < s.limits.maxEvalsPerTurn then
         && t.turns[i] == before.(evals := before.evals + 1) && t.owner == s.owner + [i]
         && CallEffect(s.evalSem, t.evalSem, Acquire(true))
       else t.turns[i] == before && t.owner == s.owner && t.evalSem == s.evalSem
  }

  ghost predicate CountsCall(s: State, t: State, key: string, before: Turn) {
    var i := TurnOf(s, key);
    && Entered(s, t, key, before) && t.owner == s.owner && t.evalSem == s.evalSem
    && if before.ptcCalls < s.limits.maxPtcCallsPerTurn then
         && t.turns[i] == before.(ptcCalls := before.ptcCalls + 1, ptc := t.turns[i].ptc)
         && CallEffect(before.ptc, t.turns[i].ptc, Acquire(true))
       else t.turns[i] == before
  }

  /** A delivered timeout takes one evaluation off the turn state that was charged for it, once. */
  ghost predicate Refunds(s: State, t: State, id: nat) {
    if id in s.evalSem.timedOut && id !in s.refunded then
      && id < |s.owner| && s.owner[id] < |s.turns| && s.turns[s.owner[id]].evals >= 1
      && OnlyTurn(s, t.(refunded := s.refunded), s.owner[id]) && t.refunded == s.refunded + {id}
      && t.turns[s.owner[id]] == s.turns[s.owner[id]].(evals := s.turns[s.owner[id]].evals - 1)
    else t == s
  }

  /** A running operation that settles gives its permit to the head of its turn's queue, or frees it. */
  ghost predicate Settles(s: State, t: State, i: nat, id: nat) {
    if i < |s.turns| && id in Running(s.turns[i]) then
      && OnlyTurn(s, t, i) && t.turns[i] == s.turns[i].(ptc := t.turns[i].ptc)
      && Running(t.turns[i]) == Running(s.turns[i]) - {id}
      && CallEffect(s.turns[i].ptc, t.turns[i].ptc, Release(id)) && id in Outstanding(s.turns[i].ptc)
    else t == s
  }

  ghost predicate StepEffects(s: State, t: State, a: GateAction) {
    match a
    case AcquireEval(key) => exists before :: ChargesEval(s, t, key, before)
    case EvalTimeOut(id) => t == s.(evalSem := t.evalSem) && CallEffect(s.evalSem, t.evalSem, TimeOut(id))
    case RefundEval(id) => Refunds(s, t, id)
    case ReleaseEval(id) => t == s.(evalSem := t.evalSem) && CallEffect(s.evalSem, t.evalSem, Release(id))
    case RunPtc(key) => exists before :: CountsCall(s, t, key, before)
    case PtcTimeOut(i, id) =>
      if i < |s.turns| then
        && OnlyTurn(s, t, i) && t.turns[i] == s.turns[i].(ptc := t.turns[i].ptc)
        && CallEffect(s.turns[i].ptc, t.turns[i].ptc, TimeOut(id))
      else t == s
    case StartOperation(i, id) =>
      if i < |s.turns| && id in Outstanding(s.turns[i].ptc) && id !in s.turns[i].started then
        OnlyTurn(s, t, i) && t.turns[i] == s.turns[i].(started := s.turns[i].started + {id})
      else t == s
    case SettleOperation(i, id) => Settles(s, t, i, id)
    case AbandonOperation(_, _) => t == s
    case ResetTurn(key) => t == s.(current := t.current) && t.current.Keys == s.current.Keys - {key}
                           && forall k :: k in t.current ==> t.current[k] == s.current[k]
  }

  function Step(s: State, a: GateAction): State {
    if CanRun(s, a) then Do(s, a) else s
  }

  lemma RunGateStep(limits: GateLimits, actions: seq<GateAction>, a: GateAction)
    ensures RunGate(limits, actions + [a]) == Step(RunGate(limits, actions), a)
  {
    assert (actions + [a])[..|actions|] == actions;
  }

  lemma ChargeStep(s: State, key: string)
    requires GateInv(s)
    ensures StepEffects(s, Step(s, AcquireEval(key)), AcquireEval(key))
  {
    var u := StateFor(s, key);
    var before := u.turns[TurnOf(s, key)];
    Semaphores.StepEffect(s.evalSem, Acquire(true));
    assert ChargesEval(s, Step(s, AcquireEval(key)), key, before);
  }

  lemma CountStep(s: State, key: string)
    requires GateInv(s)
    ensures StepEffects(s, Step(s, RunPtc(key)), RunPtc(key))
  {
    var u := StateFor(s, key);
    var before := u.turns[TurnOf(s, key)];
    KeepsStateFor(s, key);
    assert TurnKept(u, TurnOf(s, key));
    Semaphores.StepEffect(before.ptc, Acquire(true));
    assert CountsCall(s, Step(s, RunPtc(key)), key, before);
  }

  lemma RefundStep(s: State, id: nat)
    requires GateInv(s)
    ensures Refunds(s, Step(s, RefundEval(id)), id)
  {
    if CanRun(s, RefundEval(id)) { KeepsRefund(s, id); }
  }

  lemma SettleStep(s: State, i: nat, id: nat)
    requires GateInv(s)
    ensures Settles(s, Step(s, SettleOperation(i, id)), i, id)
  {
    if i < |s.turns| && id in Running(s.turns[i]) {
      assert TurnKept(s, i);
      Semaphores.StepEffect(s.turns[i].ptc, Release(id));
    }
  }

  lemma OperationStep(s: State, i: nat, id: nat)
    requires GateInv(s)
    ensures StepEffects(s, Step(s, PtcTimeOut(i, id)), PtcTimeOut(i, id))
    ensures StepEffects(s, Step(s, StartOperation(i, id)), StartOperation(i, id))
  {
    if i < |s.turns| {
      assert TurnKept(s, i);
      Semaphores.StepEffect(s.turns[i].ptc, TimeOut(id));
    }
  }

  lemma EvalStep(s: State, id: nat)
    requires GateInv(s)
    ensures StepEffects(s, Step(s, EvalTimeOut(id)), EvalTimeOut(id))
    ensures StepEffects(s, Step(s, ReleaseEval(id)), ReleaseEval(id))
  {
    Semaphores.StepEffect(s.evalSem, TimeOut(id));
    Semaphores.StepEffect(s.evalSem, Release(id));
  }

  /**
   In every run each step changes just what it says: permits, queues, counters and running operations of its own
   turn state, or of the evaluations, and nothing of another turn; one that is not possible changes nothing.
   */
  lemma EveryStep(limits: GateLimits, actions: seq<GateAction>, a: GateAction)
    ensures StepEffects(RunGate(limits, actions), RunGate(limits, actions + [a]), a)
  {
    RunKeepsGateInv(limits, actions);
    RunGateStep(limits, actions, a);
    var s := RunGate(limits, actions);
    match a
    case AcquireEval(key) => ChargeStep(s, key);
    case EvalTimeOut(id) => EvalStep(s, id);
    case RefundEval(id) => RefundStep(s, id);
    case ReleaseEval(id) => EvalStep(s, id);
    case RunPtc(key) => CountStep(s, key);
    case PtcTimeOut(i, id) => OperationStep(s, i, id);
    case StartOperation(i, id) => OperationStep(s, i, id);
    case SettleOperation(i, id) => SettleStep(s, i, id);
    case AbandonOperation(_, _) =>
    case ResetTurn(_) =>
  }

  /** Nothing of the turn runs, and no permit of it is waiting to be used. */
  predicate IsQuiet(t: Turn) {
    Running(t) == {} && t.ptc.granted <= t.started
  }

  /** In a turn in which everything that was granted has settled, a call below the limit may begin at once. */
  lemma QuietTurnBeginsAtOnce(limits: GateLimits, actions: seq<GateAction>, key: string)
    requires var s := RunGate(limits, actions);
             key in s.current ==> s.current[key] < |s.turns| && IsQuiet(s.turns[s.current[key]])
                                  && s.turns[s.current[key]].ptcCalls < limits.maxPtcCallsPerTurn
    ensures var s, t := RunGate(limits, actions), RunGate(limits, actions + [RunPtc(key)]);
            var i := TurnOf(s, key);
            && i < |t.turns| && t.turns[i].ptcCalls >= 1 && t.turns[i].ptc.queue == []
            && CanRun(t, StartOperation(i, t.turns[i].ptcCalls - 1))
  {
    BeforeAndAfter(limits, actions, RunPtc(key));
    QuietStep(RunGate(limits, actions), RunGate(limits, actions + [RunPtc(key)]), key);
  }

  lemma BeforeAndAfter(limits: GateLimits, actions: seq<GateAction>, a: GateAction)
    ensures var s, t := RunGate(limits, actions), RunGate(limits, actions + [a]);
            GateInv(s) && GateInv(t) && s.limits == limits && StepEffects(s, t, a)
  {
    RunKeepsGateInv(limits, actions);
    RunKeepsGateInv(limits, actions + [a]);
    EveryStep(limits, actions, a);
  }

  lemma QuietStep(s: State, t: State, key: string)
    requires GateInv(s) && GateInv(t) && StepEffects(s, t, RunPtc(key))
    requires key in s.current ==> s.current[key] < |s.turns| && IsQuiet(s.turns[s.current[key]])
                                  && s.turns[s.current[key]].ptcCalls < s.limits.maxPtcCallsPerTurn
    ensures var i := TurnOf(s, key);
            && i < |t.turns| && t.turns[i].ptcCalls >= 1 && t.turns[i].ptc.queue == []
            && CanRun(t, StartOperation(i, t.turns[i].ptcCalls - 1))
  {
    var i := TurnOf(s, key);
    var before :| CountsCall(s, t, key, before);
    assert TurnKept(t, i);
    if key in s.current {
      assert TurnKept(s, i);
      assert before == s.turns[i];
    }
    QuietCall(before, t.turns[i]);
  }

  lemma QuietCall(before: Turn, after: Turn)
    requires Semaphores.Inv(before.ptc) && Semaphores.Inv(after.ptc)
    requires IsQuiet(before) && before.ptc.released <= before.started <= before.ptc.granted && after.started == before.started
    requires CallEffect(before.ptc, after.ptc, Acquire(true)) && before.ptcCalls == before.ptc.arrivals && before.ptc.capacity > 0
    ensures after.ptc.queue == [] && before.ptcCalls in after.ptc.granted && before.ptcCalls !in after.started
  {
    assert Outstanding(before.ptc) == {};
  }

  // ---------------------------------------------------------------------------------------------
  // The gate's own objects.

  class TurnState {
    var evals: nat
    var ptcCalls: nat
    const ptcSemaphore: Semaphore
    ghost const number: nat
    ghost var started: set<nat>

    ghost function View(): Turn
      reads this, ptcSemaphore
    {
      Turn(evals, ptcCalls, ptcSemaphore.View(), started)
    }

    constructor (limits: GateLimits, ghost number: nat)
      ensures View() == FreshTurn(limits) && fresh(ptcSemaphore)
      ensures this.number == number == ptcSemaphore.tag
    {
      evals, ptcCalls, started := 0, 0, {};
      this.number := number;
      ptcSemaphore := new Semaphore(limits.maxConcurrentPtcPerTurn, number);
    }
  }

  class InterpreterExecutionGate {
    const limits: GateLimits
    const evalSemaphore: Semaphore
    var turns: map<string, TurnState>
    ghost var created: seq<TurnState>
    ghost var current: map<string, nat>
    ghost var owner: seq<nat>
    ghost var refunded: set<nat>

    /** The objects are distinct, and the map points at turn states that were created here. */
    ghost predicate Valid()
      reads this
    {
      && (forall i :: 0 <= i < |created| ==> created[i].number == i && created[i].ptcSemaphore.tag == i)
      && evalSemaphore.tag == -1
      && turns.Keys == current.Keys
      && (forall k :: k in turns ==> current[k] < |created| && turns[k] == created[current[k]])
    }

    /** The gate's objects agree with the state `s`. */
    ghost predicate Shows(s: State)
      reads this, evalSemaphore, created, set i | 0 <= i < |created| :: created[i].ptcSemaphore
    {
      && Valid()
      && s.limits == limits && s.evalSem == evalSemaphore.View() && s.current == current
      && s.owner == owner && s.refunded == refunded && |s.turns| == |created|
      && (forall i :: 0 <= i < |created| ==> created[i].View() == s.turns[i])
    }

    constructor (limits: GateLimits)
      ensures Shows(Start(limits))
    {
      this.limits := limits;
      evalSemaphore := new Semaphore(limits.maxConcurrentEvals, -1);
      turns, created, current, owner, refunded := map[], [], map[], [], {};
    }

    method TurnFor(turnKey: string, ghost s: State) returns (state: TurnState)
      requires Shows(s)
      modifies this
      ensures Shows(StateFor(s, turnKey))
      ensures turnKey in turns && state == turns[turnKey]
      ensures old(created) <= created <= old(created) + [state]
      ensures state in old(created) || (fresh(state) && fresh(state.ptcSemaphore))
    {
      if turnKey in turns { return turns[turnKey]; }
      state := new TurnState(limits, |created|);
      Register(turnKey, state, s);
    }

    method Register(turnKey: string, state: TurnState, ghost s: State)
      requires Shows(s) && turnKey !in turns && state !in created
      requires state.number == |created| == state.ptcSemaphore.tag && state.View() == FreshTurn(limits)
      modifies this`turns, this`current, this`created
      ensures Shows(StateFor(s, turnKey))
      ensures turnKey in turns && turns[turnKey] == state && created == old(created) + [state]
    {
      turns := turns[turnKey := state];
      current := current[turnKey := |created|];
      created := created + [state];
    }

    /** The synchronous part of `acquireEval`: rejected with EVAL_LIMIT, or waiting for permit `id`. */
    method AcquireEval(turnKey: string, ghost s: State) returns (id: Option<nat>, state: TurnState)
      requires Shows(s)
      modifies this, evalSemaphore, turns.Values
      ensures Shows(Do(s, GateAction.AcquireEval(turnKey)))
    {
      state := TurnFor(turnKey, s);
      id := Charge(state, current[turnKey], StateFor(s, turnKey));
    }

    method Charge(state: TurnState, ghost i: nat, ghost s: State) returns (id: Option<nat>)
      requires Shows(s) && i < |created| && state == created[i]
      modifies evalSemaphore, state`evals, this`owner
      ensures Shows(ChargeEval(s, i))
      ensures id.Some? ==> id.value == s.evalSem.arrivals
    {
      if state.evals >= limits.maxEvalsPerTurn {
        return None;
      }
      state.evals := state.evals + 1;
      owner := owner + [i];
      var n, _ := evalSemaphore.Acquire(true);
      id := Some(n);
    }

    method ReleaseEval(id: nat, ghost s: State)
      requires Shows(s) && CanRun(s, GateAction.ReleaseEval(id))
      modifies evalSemaphore
      ensures Shows(Do(s, GateAction.ReleaseEval(id)))
    {
      evalSemaphore.Release(id);
    }

    method EvalTimeOut(id: nat, ghost s: State)
      requires Shows(s) && CanRun(s, GateAction.EvalTimeOut(id))
      modifies evalSemaphore
      ensures Shows(Do(s, GateAction.EvalTimeOut(id)))
    {
      evalSemaphore.TimeOut(id);
    }

    /** The `catch` of `acquireEval`, which still holds the turn state it charged. */
    method RefundEval(id: nat, state: TurnState, ghost s: State)
      requires Shows(s) && CanRun(s, GateAction.RefundEval(id))
      requires s.owner[id] < |created| && state == created[s.owner[id]]
      modifies this`refunded, state`evals
      ensures Shows(Do(s, GateAction.RefundEval(id)))
    {
      state.evals := if state.evals - 1 > 0 then state.evals - 1 else 0;
      refunded := refunded + {id};
    }

    /** The synchronous part of `runPtc`: rejected with PTC_LIMIT, or waiting for permit `id` of its turn. */
    method RunPtc(turnKey: string, ghost s: State) returns (id: Option<nat>, state: TurnState)
      requires Shows(s)
      modifies this, turns.Values, set t | t in turns.Values :: t.ptcSemaphore
      ensures Shows(Do(s, GateAction.RunPtc(turnKey)))
    {
      state := TurnFor(turnKey, s);
      id := Count(state, current[turnKey], StateFor(s, turnKey));
    }

    method Count(state: TurnState, ghost i: nat, ghost s: State) returns (id: Option<nat>)
      requires Shows(s) && i < |created| && state == created[i]
      modifies state`ptcCalls, state.ptcSemaphore
      ensures Shows(CountCall(s, i))
      ensures id.Some? ==> id.value == s.turns[i].ptc.arrivals
    {
      if state.ptcCalls >= limits.maxPtcCallsPerTurn {
        return None;
      }
      state.ptcCalls := state.ptcCalls + 1;
      var n, _ := state.ptcSemaphore.Acquire(true);
      id := Some(n);
    }

    method PtcTimeOut(i: nat, id: nat, state: TurnState, ghost s: State)
      requires Shows(s) && CanRun(s, GateAction.PtcTimeOut(i, id)) && state == created[i]
      modifies state.ptcSemaphore
      ensures Shows(Do(s, GateAction.PtcTimeOut(i, id)))
    {
      state.ptcSemaphore.TimeOut(id);
    }

    method StartOperation(i: nat, id: nat, state: TurnState, ghost s: State)
      requires Shows(s) && CanRun(s, GateAction.StartOperation(i, id)) && state == created[i]
      modifies state`started
      ensures Shows(Do(s, GateAction.StartOperation(i, id)))
    {
      state.started := state.started + {id};
    }

    /** `running.then(release, release)`: the operation settled, either way. */
    method SettleOperation(i: nat, id: nat, state: TurnState, ghost s: State)
      requires Shows(s) && CanRun(s, GateAction.SettleOperation(i, id)) && state == created[i]
      modifies state.ptcSemaphore
      ensures Shows(Do(s, GateAction.SettleOperation(i, id)))
    {
      state.ptcSemaphore.Release(id);
    }

    method ResetTurn(turnKey: string, ghost s: State)
      requires Shows(s)
      modifies this
      ensures Shows(Do(s, GateAction.ResetTurn(turnKey)))
    {
      turns := turns - {turnKey};
      current := current - {turnKey};
    }
  }
}
