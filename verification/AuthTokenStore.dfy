/**
 The token store of the browser extension's background worker.

 Every asynchronous function is cut at its awaits. An `Action` is one synchronous stretch of code
 or one answer from outside (token endpoint, chrome.storage); the scheduler may pick any enabled
 action. `Next` says what each action does, `Background` performs the actions on the worker's own
 variables, and the lemmas speak about every state that some sequence of actions reaches.
 */
module AuthTokenStore {
  import opened Wrappers

  /** `refreshToken` is "" when the source has undefined or "": both are falsy there. */
  datatype Tokens = Tokens(accessToken: string, refreshToken: string, clientId: string)

  /**
   A queued storage operation: `writeTokens(value, generation)`, or the removal of a sign-out. The
   removal's generation only says whose operation it is; the code never looks at it.
   */
  datatype Write =
    | Guarded(value: Option<Tokens>, generation: nat)
    | Removal(generation: nat)

  /** How far the storage operation at the head of the queue has come. */
  datatype Progress = Idle | Issued | Applied

  /** Where a call of `refreshSession` is suspended. A ticket counts the writes queued before it. */
  datatype Phase =
    | AwaitingQueue(ticket: nat)
    | Sampled(existing: Option<Tokens>)
    | Exchanging(current: Tokens)
    | Writing(ticket: nat)
    | Settled

  datatype Refresh = Refresh(generation: nat, phase: Phase)

  datatype PendingRefresh = PendingRefresh(generation: nat, id: nat)

  datatype SignIn = SignIn(generation: nat, open: bool)

  /** The token endpoint's answer to a refresh grant. */
  datatype Answer =
    | Granted(accessToken: string, refreshToken: string)
    | InvalidGrant
    | Unavailable

  /**
   What happened so far, for stating properties of runs; a rotation is recorded as the endpoint answered it.
   The code keeps no such record, and none of the generations one of whose storage calls failed (`lost` below).
   */
  datatype Event =
    | Began(attempt: nat)
    | SignedIn(generation: nat, tokens: Tokens, attempt: nat)
    | SignedOut(generation: nat)
    | Presented(generation: nat, refreshToken: string)
    | Rotated(generation: nat, accessToken: string, refreshToken: string)
    | Rejected(generation: nat)
    | Confirmed(generation: nat, value: Option<Tokens>)

  datatype State = State(
    generation: nat,
    attempts: nat,
    queue: seq<Write>,
    progress: Progress,
    settled: nat,
    stored: Option<Tokens>,
    refreshes: seq<Refresh>,
    pending: Option<PendingRefresh>,
    signIns: seq<SignIn>,
    log: seq<Event>,
    lost: set<nat>)

  datatype Action =
    | BeginSignIn
    | CompleteSignIn(attempt: nat, tokens: Tokens)
    | SignOut
    | StartRefresh
    | SampleStore(id: nat)
    | ResumeRead(id: nat)
    | AnswerExchange(id: nat, answer: Answer)
    | FinishRefresh(id: nat)
    | ClearPending(id: nat)
    | StartWrite
    | ApplyWrite
    | FinishWrite
    | FailWrite

  function Init(stored: Option<Tokens>): State {
    State(0, 0, [], Idle, 0, stored, [], None, [], [], {})
  }

  function WriteValue(w: Write): Option<Tokens> {
    match w
    case Guarded(v, _) => v
    case Removal(_) => None
  }

  /** The check a write makes when it starts: a stale `writeTokens` throws, a sign-out always runs. */
  predicate Runs(w: Write, generation: nat) {
    w.Removal? || w.generation == generation
  }

  function Enqueue(s: State, w: Write): State {
    s.(queue := s.queue + [w])
  }

  function Ticket(s: State): nat {
    s.settled + |s.queue|
  }

  function SetPhase(s: State, id: nat, phase: Phase): State
    requires id < |s.refreshes|
  {
    s.(refreshes := s.refreshes[id := s.refreshes[id].(phase := phase)])
  }

  function Merged(current: Tokens, answer: Answer): Tokens
    requires answer.Granted?
  {
    Tokens(answer.accessToken,
           if answer.refreshToken != "" then answer.refreshToken else current.refreshToken,
           current.clientId)
  }

  predicate Enabled(s: State, a: Action) {
    match a
    case BeginSignIn => true
    case CompleteSignIn(n, _) => 1 <= n <= |s.signIns| && s.signIns[n - 1].open
    case SignOut => true
    case StartRefresh => true
    case SampleStore(id) =>
      id < |s.refreshes| && s.refreshes[id].phase.AwaitingQueue? && s.refreshes[id].phase.ticket <= s.settled
    case ResumeRead(id) => id < |s.refreshes| && s.refreshes[id].phase.Sampled?
    case AnswerExchange(id, _) => id < |s.refreshes| && s.refreshes[id].phase.Exchanging?
    case FinishRefresh(id) =>
      id < |s.refreshes| && s.refreshes[id].phase.Writing? && s.refreshes[id].phase.ticket <= s.settled
    case ClearPending(id) => id < |s.refreshes| && s.refreshes[id].phase.Settled?
    case StartWrite => s.queue != [] && s.progress.Idle?
    case ApplyWrite => s.queue != [] && s.progress.Issued?
    case FinishWrite => s.queue != [] && s.progress.Applied?
    case FailWrite => s.queue != [] && s.progress.Issued?
  }

  /** Only a sign-in of the same generation that no later attempt overtook replaces the session. */
  function CompletedSignIn(s: State, attempt: nat, tokens: Tokens): State
    requires 1 <= attempt <= |s.signIns|
  {
    var begun := s.signIns[attempt - 1];
    var t := s.(signIns := s.signIns[attempt - 1 := begun.(open := false)]);
    if begun.generation != s.generation || attempt != s.attempts then t
    else
      var g := s.generation + 1;
      Enqueue(t.(generation := g, log := t.log + [SignedIn(g, tokens, attempt)]), Guarded(Some(tokens), g))
  }

  function StartedRefresh(s: State): State {
    if s.pending.Some? && s.pending.value.generation == s.generation then s
    else s.(refreshes := s.refreshes + [Refresh(s.generation, AwaitingQueue(Ticket(s)))],
            pending := Some(PendingRefresh(s.generation, |s.refreshes|)))
  }

  function ResumedRead(s: State, id: nat): State
    requires id < |s.refreshes| && s.refreshes[id].phase.Sampled?
  {
    var r := s.refreshes[id];
    if r.generation != s.generation || r.phase.existing.None? || r.phase.existing.value.refreshToken == "" then
      SetPhase(s, id, Settled)
    else
      SetPhase(s, id, Exchanging(r.phase.existing.value))
      .(log := s.log + [Presented(r.generation, r.phase.existing.value.refreshToken)])
  }

  function AnsweredExchange(s: State, id: nat, answer: Answer): State
    requires id < |s.refreshes| && s.refreshes[id].phase.Exchanging?
  {
    var r := s.refreshes[id];
    match answer
    case Unavailable => SetPhase(s, id, Settled)
    case InvalidGrant =>
      Enqueue(SetPhase(s, id, Writing(Ticket(s) + 1)).(log := s.log + [Rejected(r.generation)]),
              Guarded(None, r.generation))
    case Granted(accessToken, refreshToken) =>
      Enqueue(SetPhase(s, id, Writing(Ticket(s) + 1)).(log := s.log + [Rotated(r.generation, accessToken, refreshToken)]),
              Guarded(Some(Merged(r.phase.current, answer)), r.generation))
  }

  function SettleHead(s: State): State
    requires s.queue != []
  {
    s.(queue := s.queue[1..], progress := Idle, settled := s.settled + 1)
  }

  function FinishedWrite(s: State): State
    requires s.queue != []
  {
    var w := s.queue[0];
    if w.Guarded? && w.generation == s.generation then
      SettleHead(s).(log := s.log + [Confirmed(w.generation, w.value)])
    else
      SettleHead(s)
  }

  function Next(s: State, a: Action): State
    requires Enabled(s, a)
  {
    match a
    case BeginSignIn =>
      s.(attempts := s.attempts + 1, signIns := s.signIns + [SignIn(s.generation, true)],
         log := s.log + [Began(s.attempts + 1)])
    case CompleteSignIn(n, tokens) => CompletedSignIn(s, n, tokens)
    case SignOut =>
      Enqueue(s.(generation := s.generation + 1, log := s.log + [SignedOut(s.generation + 1)]), Removal(s.generation + 1))
    case StartRefresh => StartedRefresh(s)
    case SampleStore(id) => SetPhase(s, id, Sampled(s.stored))
    case ResumeRead(id) => ResumedRead(s, id)
    case AnswerExchange(id, answer) => AnsweredExchange(s, id, answer)
    case FinishRefresh(id) => SetPhase(s, id, Settled)
    case ClearPending(id) =>
      if s.pending.Some? && s.pending.value.id == id then s.(pending := None) else s
    case StartWrite => if Runs(s.queue[0], s.generation) then s.(progress := Issued) else SettleHead(s)
    case ApplyWrite => s.(stored := WriteValue(s.queue[0]), progress := Applied)
    case FinishWrite => FinishedWrite(s)
    case FailWrite => SettleHead(s).(lost := s.lost + {s.queue[0].generation})
  }

  /** The state after the scheduler's choices; a choice that is not enabled is not taken. */
  function Run(stored: Option<Tokens>, actions: seq<Action>): State
    decreases |actions|
  {
    if actions == [] then Init(stored)
    else
      var s := Run(stored, actions[..|actions| - 1]);
      var a := actions[|actions| - 1];
      if Enabled(s, a) then Next(s, a) else s
  }

  // ---------------------------------------------------------------------------------------------
  // What a log means, independently of how the worker keeps its state.

  function Last(log: seq<Event>): Event
    requires log != []
  {
    log[|log| - 1]
  }

  function Front(log: seq<Event>): seq<Event>
    requires log != []
  {
    log[..|log| - 1]
  }

  /**
   The session value generation `g` should have: its sign-in's tokens, nothing after a sign-out or a rejection, and
   after a rotation the new access token with the new refresh token, if one came.
   */
  function Expected(log: seq<Event>, initial: Option<Tokens>, g: nat): Option<Tokens>
    decreases |log|
  {
    if log == [] then (if g == 0 then initial else None)
    else match Last(log)
      case SignedIn(h, t, _) => if h == g then Some(t) else Expected(Front(log), initial, g)
      case SignedOut(h) => if h == g then None else Expected(Front(log), initial, g)
      case Rotated(h, a, r) =>
        var v := Expected(Front(log), initial, g);
        if h != g || v.None? then v
        else if r == "" then Some(v.value.(accessToken := a))
        else Some(Tokens(a, r, v.value.clientId))
      case Rejected(h) => if h == g then None else Expected(Front(log), initial, g)
      case _ => Expected(Front(log), initial, g)
  }

  predicate IsBump(e: Event) {
    e.SignedIn? || e.SignedOut?
  }

  /** The newest successful sign-in or sign-out. */
  function Newest(log: seq<Event>): Option<Event>
    decreases |log|
  {
    if log == [] then None
    else if IsBump(Last(log)) then Some(Last(log))
    else Newest(Front(log))
  }

  function NewestGeneration(log: seq<Event>): nat {
    var e := Newest(log);
    if e.Some? && e.value.SignedIn? then e.value.generation
    else if e.Some? && e.value.SignedOut? then e.value.generation
    else 0
  }

  /** The last event that began a sign-in, completed one, or signed out. */
  function LastBoundary(log: seq<Event>): Option<Event>
    decreases |log|
  {
    if log == [] then None
    else if IsBump(Last(log)) || Last(log).Began? then Some(Last(log))
    else LastBoundary(Front(log))
  }

  /** What each recorded event promises about the events before it. */
  ghost predicate EventSound(before: seq<Event>, e: Event, initial: Option<Tokens>, lost: set<nat>) {
    match e
    case Presented(g, token) =>
      && g == NewestGeneration(before)
      && (g in lost ||
          var v := Expected(before, initial, g);
          v.Some? && v.value.refreshToken == token && token != "")
    case SignedIn(g, _, attempt) =>
      g == NewestGeneration(before) + 1 && LastBoundary(before) == Some(Began(attempt))
    case SignedOut(g) => g == NewestGeneration(before) + 1
    case Confirmed(g, _) => g == NewestGeneration(before)
    case Rotated(g, _, _) => g <= NewestGeneration(before)
    case Rejected(g) => g <= NewestGeneration(before)
    case Began(_) => true
  }

  ghost predicate LogSound(log: seq<Event>, initial: Option<Tokens>, lost: set<nat>)
    decreases |log|
  {
    log == [] || (LogSound(Front(log), initial, lost) && EventSound(Front(log), Last(log), initial, lost))
  }

  // ---------------------------------------------------------------------------------------------
  // The invariant.

  function Effect(v: Option<Tokens>, w: Write, generation: nat): Option<Tokens> {
    if Runs(w, generation) then WriteValue(w) else v
  }

  /** What storage holds once the queue has drained, if no storage call fails. */
  function Drain(v: Option<Tokens>, queue: seq<Write>, generation: nat): Option<Tokens>
    decreases |queue|
  {
    if queue == [] then v
    else Effect(Drain(v, queue[..|queue| - 1], generation), queue[|queue| - 1], generation)
  }

  function Outcome(s: State): Option<Tokens>
    requires s.progress.Idle? || s.queue != []
  {
    match s.progress
    case Idle => Drain(s.stored, s.queue, s.generation)
    case Issued => Drain(WriteValue(s.queue[0]), s.queue[1..], s.generation)
    case Applied => Drain(s.stored, s.queue[1..], s.generation)
  }

  /** Behind the operation at `i`, which runs although it is stale, waits one of the current generation. */
  ghost predicate Covered(queue: seq<Write>, i: nat, generation: nat) {
    exists j :: i < j < |queue| && queue[j].generation == generation
  }

  ghost predicate Shape(s: State) {
    && s.attempts == |s.signIns|
    && (s.progress.Idle? || s.queue != [])
    && (forall i :: 0 <= i < |s.refreshes| ==> s.refreshes[i].generation <= s.generation)
    && (forall n :: 0 <= n < |s.signIns| ==> s.signIns[n].generation <= s.generation)
    && (s.pending.Some? ==>
          s.pending.value.id < |s.refreshes|
          && s.refreshes[s.pending.value.id].generation == s.pending.value.generation)
    && s.generation == NewestGeneration(s.log)
    && (forall g :: g in s.lost ==> g <= s.generation)
    && (forall i :: 0 <= i < |s.queue| ==> s.queue[i].generation <= s.generation)
    && (forall i :: 0 <= i < |s.queue| && s.queue[i].generation != s.generation && (s.queue[i].Removal? || (i == 0 && !s.progress.Idle?)) ==>
          Covered(s.queue, i, s.generation))
    && (s.attempts > 0 && s.signIns[s.attempts - 1].generation == s.generation ==>
          LastBoundary(s.log) == Some(Began(s.attempts)))
    && (LastBoundary(s.log).Some? && LastBoundary(s.log).value.Began? ==>
          s.attempts > 0 && LastBoundary(s.log).value.attempt == s.attempts
          && s.signIns[s.attempts - 1].generation == s.generation)
  }

  predicate Unsettled(s: State, i: int) {
    0 <= i < |s.refreshes| && !s.refreshes[i].phase.Settled?
  }

  /** No two refreshes of one generation are under way, and the current one is the pending one. */
  ghost predicate SingleFlight(s: State) {
    && (forall i, j :: Unsettled(s, i) && Unsettled(s, j) && s.refreshes[i].generation == s.refreshes[j].generation ==> i == j)
    && (forall i :: Unsettled(s, i) && s.refreshes[i].generation == s.generation ==>
          s.pending == Some(PendingRefresh(s.generation, i)))
  }

  /** What a refresh of the current generation may rely on while it is suspended. */
  ghost predicate Current(s: State, r: Refresh, initial: Option<Tokens>) {
    match r.phase
    case AwaitingQueue(ticket) =>
      && ticket <= Ticket(s)
      && (forall j :: 0 <= j < |s.queue| && ticket <= s.settled + j ==> !Runs(s.queue[j], s.generation))
      && (ticket <= s.settled ==> s.progress.Idle?)
    case Sampled(existing) => existing == Expected(s.log, initial, s.generation)
    case Exchanging(current) => Some(current) == Expected(s.log, initial, s.generation)
    case _ => true
  }

  ghost predicate Settling(s: State, initial: Option<Tokens>)
    requires s.progress.Idle? || s.queue != []
  {
    && Outcome(s) == Expected(s.log, initial, s.generation)
    && (forall i :: 0 <= i < |s.refreshes| && s.refreshes[i].generation == s.generation ==> Current(s, s.refreshes[i], initial))
    && (Newest(s.log).Some? && Newest(s.log).value.SignedOut? ==> Expected(s.log, initial, s.generation).None?)
  }

  ghost predicate Inv(s: State, initial: Option<Tokens>) {
    && Shape(s)
    && SingleFlight(s)
    && (s.generation !in s.lost ==> Settling(s, initial))
    && LogSound(s.log, initial, s.lost)
  }

  // ---------------------------------------------------------------------------------------------
  // Every action keeps the invariant.

  /** The value after draining does not depend on what was there, once some queued write runs. */
  lemma {:induction false} DrainForgets(v: Option<Tokens>, w: Option<Tokens>, queue: seq<Write>, generation: nat, j: nat)
    requires j < |queue| && Runs(queue[j], generation)
    ensures Drain(v, queue, generation) == Drain(w, queue, generation)
    decreases |queue|
  {
    if j < |queue| - 1 {
      DrainForgets(v, w, queue[..|queue| - 1], generation, j);
    }
  }

  /** Draining may as well perform the head of the queue first. */
  lemma {:induction false} DrainHead(v: Option<Tokens>, queue: seq<Write>, generation: nat)
    requires queue != []
    ensures Drain(v, queue, generation) == Drain(Effect(v, queue[0], generation), queue[1..], generation)
    decreases |queue|
  {
    if |queue| > 1 {
      var front := queue[..|queue| - 1];
      DrainHead(v, front, generation);
      assert front[1..] == queue[1..][..|queue| - 2];
    } else {
      assert queue[..0] == [];
    }
  }

  lemma {:induction false} DrainSkips(v: Option<Tokens>, queue: seq<Write>, generation: nat)
    requires forall j :: 0 <= j < |queue| ==> !Runs(queue[j], generation)
    ensures Drain(v, queue, generation) == v
    decreases |queue|
  {
    if queue != [] {
      DrainSkips(v, queue[..|queue| - 1], generation);
    }
  }

  /** Queueing a write changes the outcome exactly as the write itself would. */
  lemma OutcomeEnqueue(s: State, w: Write)
    requires Shape(s)
    ensures Outcome(Enqueue(s, w)) == Effect(Outcome(s), w, s.generation)
  {
    var q := s.queue + [w];
    assert q[..|q| - 1] == s.queue;
    if s.queue != [] {
      assert q[1..][..|q| - 2] == s.queue[1..];
    }
  }

  lemma {:induction false} LossWeakens(log: seq<Event>, initial: Option<Tokens>, lost: set<nat>, g: nat)
    requires LogSound(log, initial, lost)
    ensures LogSound(log, initial, lost + {g})
    decreases |log|
  {
    if log != [] {
      LossWeakens(Front(log), initial, lost, g);
    }
  }

  lemma Appended(log: seq<Event>, e: Event)
    ensures Front(log + [e]) == log && Last(log + [e]) == e
  {}

  lemma KeepsBeginSignIn(s: State, initial: Option<Tokens>)
    requires Inv(s, initial)
    ensures Inv(Next(s, BeginSignIn), initial)
  {
    Appended(s.log, Began(s.attempts + 1));
  }

  /** A sign-in or a sign-out: a new generation with its own write queued at once. */
  function Bumped(s: State, e: Event, w: Write): State {
    Enqueue(s.(generation := s.generation + 1, log := s.log + [e]), w)
  }

  ghost predicate IsBumpOf(s: State, e: Event, w: Write) {
    && w.generation == s.generation + 1
    && match e
       case SignedOut(g) => g == w.generation && w.Removal?
       case SignedIn(g, tokens, _) => g == w.generation && w == Guarded(Some(tokens), g)
       case _ => false
  }

  lemma BumpShape(s: State, e: Event, w: Write)
    requires Shape(s) && IsBumpOf(s, e, w)
    ensures Shape(Bumped(s, e, w))
  {
    Appended(s.log, e);
    var t := Bumped(s, e, w);
    assert t.queue[|s.queue|] == w;
    forall i | 0 <= i < |s.queue| ensures t.queue[i] == s.queue[i] && Covered(t.queue, i, t.generation) {}
  }

  lemma BumpSingleFlight(s: State, e: Event, w: Write)
    requires Shape(s) && SingleFlight(s)
    ensures SingleFlight(Bumped(s, e, w))
  {
    var t := Bumped(s, e, w);
    forall i ensures Unsettled(s, i) == Unsettled(t, i) {}
  }

  lemma BumpSettles(s: State, e: Event, w: Write, initial: Option<Tokens>)
    requires Shape(s) && IsBumpOf(s, e, w)
    ensures Shape(Bumped(s, e, w)) && Settling(Bumped(s, e, w), initial)
  {
    BumpShape(s, e, w);
    Appended(s.log, e);
    var q := s.queue + [w];
    assert q[..|q| - 1] == s.queue;
    if s.queue != [] {
      assert q[1..][..|q| - 2] == s.queue[1..];
    }
  }

  lemma KeepsBump(s: State, e: Event, w: Write, initial: Option<Tokens>)
    requires Inv(s, initial) && IsBumpOf(s, e, w)
    requires EventSound(s.log, e, initial, s.lost)
    ensures Inv(Bumped(s, e, w), initial)
  {
    BumpShape(s, e, w);
    BumpSingleFlight(s, e, w);
    BumpSettles(s, e, w, initial);
    Appended(s.log, e);
  }

  function Closed(s: State, n: nat): State
    requires 1 <= n <= |s.signIns|
  {
    s.(signIns := s.signIns[n - 1 := s.signIns[n - 1].(open := false)])
  }

  lemma KeepsClosed(s: State, n: nat, initial: Option<Tokens>)
    requires Inv(s, initial) && 1 <= n <= |s.signIns|
    ensures Inv(Closed(s, n), initial)
  {
    var t := Closed(s, n);
    assert Shape(t);
    SingleFlightSame(s, t);
    if s.generation !in s.lost {
      forall i | 0 <= i < |s.refreshes| && s.refreshes[i].generation == s.generation
        ensures Current(t, t.refreshes[i], initial)
      {
        assert Current(s, s.refreshes[i], initial);
      }
    }
  }

  lemma KeepsCompleteSignIn(s: State, n: nat, tokens: Tokens, initial: Option<Tokens>)
    requires Inv(s, initial) && Enabled(s, CompleteSignIn(n, tokens))
    ensures Inv(Next(s, CompleteSignIn(n, tokens)), initial)
  {
    KeepsClosed(s, n, initial);
    var begun := s.signIns[n - 1];
    if begun.generation == s.generation && n == s.attempts {
      var g := s.generation + 1;
      KeepsBump(Closed(s, n), SignedIn(g, tokens, n), Guarded(Some(tokens), g), initial);
    }
  }

  lemma KeepsStartRefresh(s: State, initial: Option<Tokens>)
    requires Inv(s, initial)
    ensures Inv(Next(s, StartRefresh), initial)
  {}

  lemma KeepsSampleStore(s: State, id: nat, initial: Option<Tokens>)
    requires Inv(s, initial) && Enabled(s, SampleStore(id))
    ensures Inv(Next(s, SampleStore(id)), initial)
  {
    var t := Next(s, SampleStore(id));
    if s.generation !in s.lost && s.refreshes[id].generation == s.generation {
      assert Current(s, s.refreshes[id], initial);
      forall j | 0 <= j < |s.queue|
        ensures !Runs(s.queue[j], s.generation)
      {
        assert s.refreshes[id].phase.ticket <= s.settled + j;
      }
      DrainSkips(s.stored, s.queue, s.generation);
    }
    KeepsOthers(s, t, id, initial);
  }

  /** The other suspended refreshes notice nothing when one of them changes its phase. */
  lemma KeepsOthers(s: State, t: State, id: nat, initial: Option<Tokens>)
    requires Inv(s, initial) && id < |s.refreshes|
    requires |t.refreshes| == |s.refreshes| && t == SetPhase(s, id, t.refreshes[id].phase)
    requires Unsettled(s, id)
    requires s.generation !in s.lost && s.refreshes[id].generation == s.generation ==> Current(t, t.refreshes[id], initial)
    ensures Inv(t, initial)
  {
    if s.generation !in s.lost {
      forall i | 0 <= i < |t.refreshes| && t.refreshes[i].generation == t.generation
        ensures Current(t, t.refreshes[i], initial)
      {
        if i != id { assert Current(s, s.refreshes[i], initial); }
      }
    }
    forall i, j | Unsettled(t, i) && Unsettled(t, j) && t.refreshes[i].generation == t.refreshes[j].generation
      ensures i == j
    {
      assert Unsettled(s, i) && Unsettled(s, j);
    }
    forall i | Unsettled(t, i) && t.refreshes[i].generation == t.generation
      ensures t.pending == Some(PendingRefresh(t.generation, i))
    {
      assert Unsettled(s, i);
    }
  }

  lemma KeepsResumeRead(s: State, id: nat, initial: Option<Tokens>)
    requires Inv(s, initial) && Enabled(s, ResumeRead(id))
    ensures Inv(Next(s, ResumeRead(id)), initial)
  {
    var r := s.refreshes[id];
    if r.generation != s.generation || r.phase.existing.None? || r.phase.existing.value.refreshToken == "" {
      KeepsOthers(s, Next(s, ResumeRead(id)), id, initial);
    } else {
      var t := SetPhase(s, id, Exchanging(r.phase.existing.value));
      if s.generation !in s.lost { assert Current(s, r, initial); }
      KeepsOthers(s, t, id, initial);
      KeepsQuietEvent(t, Presented(r.generation, r.phase.existing.value.refreshToken), initial);
    }
  }

  /** Recording an event that leaves nobody's session value changed. */
  lemma KeepsQuietEvent(s: State, e: Event, initial: Option<Tokens>)
    requires Inv(s, initial) && (e.Presented? || e.Confirmed?)
    requires EventSound(s.log, e, initial, s.lost)
    ensures Inv(s.(log := s.log + [e]), initial)
  {
    Appended(s.log, e);
    var t := s.(log := s.log + [e]);
    if s.generation !in s.lost {
      forall i | 0 <= i < |t.refreshes| && t.refreshes[i].generation == t.generation
        ensures Current(t, t.refreshes[i], initial)
      {
        assert Current(s, s.refreshes[i], initial);
      }
    }
  }

  /** A refresh records its result and queues the write for it, whichever generation is current by now. */
  function WithResult(t: State, e: Event, w: Write): State {
    Enqueue(t.(log := t.log + [e]), w)
  }

  ghost predicate IsResult(t: State, id: nat, e: Event, w: Write) {
    && id < |t.refreshes| && t.refreshes[id].phase.Writing?
    && w.Guarded? && w.generation == t.refreshes[id].generation
    && if w.value.None? then e == Rejected(w.generation) else e.Rotated? && e.generation == w.generation
  }

  lemma ResultShape(t: State, id: nat, e: Event, w: Write)
    requires Shape(t) && IsResult(t, id, e, w)
    ensures Shape(WithResult(t, e, w))
  {
    Appended(t.log, e);
    var v := WithResult(t, e, w);
    forall i | 0 <= i < |t.queue| && Covered(t.queue, i, t.generation)
      ensures Covered(v.queue, i, t.generation)
    {
      var j :| i < j < |t.queue| && t.queue[j].generation == t.generation;
      assert v.queue[j] == t.queue[j];
    }
  }

  lemma ResultCurrent(t: State, id: nat, e: Event, w: Write, initial: Option<Tokens>, i: nat)
    requires Shape(t) && SingleFlight(t) && Settling(t, initial) && IsResult(t, id, e, w)
    requires i < |t.refreshes| && t.refreshes[i].generation == t.generation
    ensures Current(WithResult(t, e, w), t.refreshes[i], initial)
  {
    Appended(t.log, e);
    assert Current(t, t.refreshes[i], initial);
    if w.generation == t.generation {
      assert Unsettled(t, id);
      assert Unsettled(t, i) ==> i == id;
    }
  }

  lemma ResultSettles(t: State, id: nat, e: Event, w: Write, initial: Option<Tokens>)
    requires Shape(t) && SingleFlight(t) && Settling(t, initial) && IsResult(t, id, e, w)
    requires Newest(t.log).Some? && Newest(t.log).value.SignedOut? ==> w.generation != t.generation
    requires w.generation == t.generation ==> Expected(t.log + [e], initial, t.generation) == w.value
    ensures Shape(WithResult(t, e, w)) && Settling(WithResult(t, e, w), initial)
  {
    ResultShape(t, id, e, w);
    OutcomeEnqueue(t, w);
    Appended(t.log, e);
    var v := WithResult(t, e, w);
    assert Outcome(v) == Outcome(Enqueue(t, w));
    forall i | 0 <= i < |v.refreshes| && v.refreshes[i].generation == v.generation
      ensures Current(v, v.refreshes[i], initial)
    {
      ResultCurrent(t, id, e, w, initial, i);
    }
  }

  lemma SingleFlightSame(t: State, v: State)
    requires SingleFlight(t) && v.refreshes == t.refreshes && v.generation == t.generation
    requires v.pending == t.pending
    ensures SingleFlight(v)
  {
    forall i ensures Unsettled(t, i) == Unsettled(v, i) {}
  }

  lemma KeepsResult(s: State, id: nat, e: Event, w: Write, initial: Option<Tokens>)
    requires Inv(s, initial) && id < |s.refreshes| && s.refreshes[id].phase.Exchanging?
    requires IsResult(SetPhase(s, id, Writing(Ticket(s) + 1)), id, e, w)
    requires w.generation == s.generation && s.generation !in s.lost ==> Expected(s.log + [e], initial, s.generation) == w.value
    ensures Inv(WithResult(SetPhase(s, id, Writing(Ticket(s) + 1)), e, w), initial)
  {
    var t := SetPhase(s, id, Writing(Ticket(s) + 1));
    KeepsOthers(s, t, id, initial);
    ResultShape(t, id, e, w);
    if s.generation !in s.lost {
      if w.generation == s.generation {
        assert Current(s, s.refreshes[id], initial);
      }
      ResultSettles(t, id, e, w, initial);
    }
    SingleFlightSame(t, WithResult(t, e, w));
    Appended(t.log, e);
  }

  lemma KeepsAnswer(s: State, id: nat, answer: Answer, initial: Option<Tokens>)
    requires Inv(s, initial) && Enabled(s, AnswerExchange(id, answer))
    ensures Inv(Next(s, AnswerExchange(id, answer)), initial)
  {
    var r := s.refreshes[id];
    match answer
    case Unavailable => KeepsOthers(s, SetPhase(s, id, Settled), id, initial);
    case InvalidGrant =>
      Appended(s.log, Rejected(r.generation));
      KeepsResult(s, id, Rejected(r.generation), Guarded(None, r.generation), initial);
    case Granted(accessToken, refreshToken) =>
      var e := Rotated(r.generation, accessToken, refreshToken);
      Appended(s.log, e);
      if s.generation !in s.lost && r.generation == s.generation { assert Current(s, r, initial); }
      KeepsResult(s, id, e, Guarded(Some(Merged(r.phase.current, answer)), r.generation), initial);
  }

  lemma KeepsFinishRefresh(s: State, id: nat, initial: Option<Tokens>)
    requires Inv(s, initial) && Enabled(s, FinishRefresh(id))
    ensures Inv(Next(s, FinishRefresh(id)), initial)
  {
    KeepsOthers(s, Next(s, FinishRefresh(id)), id, initial);
  }

  lemma KeepsClearPending(s: State, id: nat, initial: Option<Tokens>)
    requires Inv(s, initial) && Enabled(s, ClearPending(id))
    ensures Inv(Next(s, ClearPending(id)), initial)
  {
    var t := Next(s, ClearPending(id));
    forall i | 0 <= i < |s.refreshes| ensures Unsettled(s, i) == Unsettled(t, i) {}
    if s.generation !in s.lost {
      forall i | 0 <= i < |t.refreshes| && t.refreshes[i].generation == t.generation
        ensures Current(t, t.refreshes[i], initial)
      {
        assert Current(s, s.refreshes[i], initial);
      }
    }
  }

  /** Handing the head of the queue to storage, or storage performing it. */
  lemma KeepsAdvance(s: State, progress: Progress, stored: Option<Tokens>, initial: Option<Tokens>)
    requires Inv(s, initial) && s.queue != [] && !progress.Idle?
    requires s.progress.Idle? ==> Runs(s.queue[0], s.generation)
    requires s.progress.Idle? && s.queue[0].generation != s.generation ==> Covered(s.queue, 0, s.generation)
    requires Outcome(s.(progress := progress, stored := stored)) == Outcome(s)
    ensures Inv(s.(progress := progress, stored := stored), initial)
  {
    var t := s.(progress := progress, stored := stored);
    SingleFlightSame(s, t);
    if s.generation !in s.lost {
      forall i | 0 <= i < |t.refreshes| && t.refreshes[i].generation == t.generation
        ensures Current(t, t.refreshes[i], initial)
      {
        assert Current(s, s.refreshes[i], initial);
      }
    }
  }

  /** The head of the queue settles, whether performed, refused or failed. */
  lemma KeepsSettle(s: State, lost: set<nat>, initial: Option<Tokens>)
    requires Inv(s, initial) && s.queue != []
    requires lost == s.lost || lost == s.lost + {s.queue[0].generation}
    requires s.generation !in lost ==> Outcome(SettleHead(s)) == Outcome(s)
    ensures Inv(SettleHead(s).(lost := lost), initial)
  {
    var t := SettleHead(s).(lost := lost);
    SingleFlightSame(s, t);
    forall i | 0 <= i < |t.queue| && Covered(s.queue, i + 1, s.generation)
      ensures Covered(t.queue, i, s.generation)
    {
      var j :| i + 1 < j < |s.queue| && s.queue[j].generation == s.generation;
      assert t.queue[j - 1] == s.queue[j];
    }
    forall i | 0 <= i < |t.queue| ensures t.queue[i] == s.queue[i + 1] {}
    assert Shape(t);
    if t.generation !in t.lost {
      forall i | 0 <= i < |t.refreshes| && t.refreshes[i].generation == t.generation
        ensures Current(t, t.refreshes[i], initial)
      {
        SettleCurrent(s, lost, s.refreshes[i], initial);
      }
    }
    LossWeakens(s.log, initial, s.lost, s.queue[0].generation);
  }

  lemma SettleCurrent(s: State, lost: set<nat>, r: Refresh, initial: Option<Tokens>)
    requires Shape(s) && s.queue != [] && Current(s, r, initial)
    ensures Current(SettleHead(s).(lost := lost), r, initial)
  {
    var t := SettleHead(s);
    if r.phase.AwaitingQueue? {
      forall j | 0 <= j < |t.queue| && r.phase.ticket <= t.settled + j
        ensures !Runs(t.queue[j], t.generation)
      {
        assert t.queue[j] == s.queue[j + 1];
      }
    }
  }

  lemma KeepsWrite(s: State, a: Action, initial: Option<Tokens>)
    requires Inv(s, initial) && (a.StartWrite? || a.ApplyWrite? || a.FinishWrite? || a.FailWrite?) && Enabled(s, a)
    ensures Inv(Next(s, a), initial)
  {
    var w := s.queue[0];
    match a
    case StartWrite =>
      DrainHead(s.stored, s.queue, s.generation);
      if Runs(w, s.generation) {
        KeepsAdvance(s, Issued, s.stored, initial);
      } else {
        KeepsSettle(s, s.lost, initial);
      }
    case ApplyWrite => KeepsAdvance(s, Applied, WriteValue(w), initial);
    case FinishWrite =>
      KeepsSettle(s, s.lost, initial);
      if w.Guarded? && w.generation == s.generation {
        KeepsQuietEvent(SettleHead(s), Confirmed(w.generation, w.value), initial);
      }
    case FailWrite =>
      if w.generation != s.generation {
        var j :| 1 <= j < |s.queue| && s.queue[j].generation == s.generation;
        assert s.queue[1..][j - 1] == s.queue[j];
        DrainForgets(WriteValue(w), s.stored, s.queue[1..], s.generation, j - 1);
      }
      KeepsSettle(s, s.lost + {w.generation}, initial);
  }

  lemma KeepsInv(s: State, a: Action, initial: Option<Tokens>)
    requires Inv(s, initial) && Enabled(s, a)
    ensures Inv(Next(s, a), initial)
  {
    match a
    case BeginSignIn => KeepsBeginSignIn(s, initial);
    case CompleteSignIn(n, tokens) => KeepsCompleteSignIn(s, n, tokens, initial);
    case SignOut =>
      KeepsBump(s, SignedOut(s.generation + 1), Removal(s.generation + 1), initial);
    case StartRefresh => KeepsStartRefresh(s, initial);
    case SampleStore(id) => KeepsSampleStore(s, id, initial);
    case ResumeRead(id) => KeepsResumeRead(s, id, initial);
    case AnswerExchange(id, answer) => KeepsAnswer(s, id, answer, initial);
    case FinishRefresh(id) => KeepsFinishRefresh(s, id, initial);
    case ClearPending(id) => KeepsClearPending(s, id, initial);
    case _ => KeepsWrite(s, a, initial);
  }

  lemma {:induction false} RunKeepsInv(initial: Option<Tokens>, actions: seq<Action>)
    ensures Inv(Run(initial, actions), initial)
    decreases |actions|
  {
    if actions != [] {
      var s := Run(initial, actions[..|actions| - 1]);
      var a := actions[|actions| - 1];
      RunKeepsInv(initial, actions[..|actions| - 1]);
      if Enabled(s, a) { KeepsInv(s, a, initial); }
    }
  }

  // ---------------------------------------------------------------------------------------------
  // Main results, about every interleaving.

  /**
   Whenever the write queue is drained and no storage call of the newest generation failed, storage
   holds that generation's value: nothing after a sign-out; after a sign-in its tokens, unless a
   refresh of the same generation replaced or removed them; otherwise what was there at the start.
   */
  lemma Convergence(initial: Option<Tokens>, actions: seq<Action>)
    ensures var s := Run(initial, actions);
            s.queue == [] && s.generation !in s.lost ==>
              && s.stored == Expected(s.log, initial, NewestGeneration(s.log))
              && (Newest(s.log).Some? && Newest(s.log).value.SignedOut? ==> s.stored.None?)
  {
    RunKeepsInv(initial, actions);
  }

  /**
   At most one refresh of a generation is under way, whatever fails; hence at most one token
   exchange, and a second caller of the current generation joins the first one's promise.
   */
  lemma OneExchangePerGeneration(initial: Option<Tokens>, actions: seq<Action>, i: nat, j: nat)
    ensures var s := Run(initial, actions);
            i < j < |s.refreshes| && !s.refreshes[i].phase.Settled? && !s.refreshes[j].phase.Settled? ==>
              s.refreshes[i].generation != s.refreshes[j].generation
    ensures var s := Run(initial, actions);
            i < |s.refreshes| && !s.refreshes[i].phase.Settled? && s.refreshes[i].generation == s.generation ==>
              Next(s, StartRefresh) == s && s.pending == Some(PendingRefresh(s.generation, i))
  {
    RunKeepsInv(initial, actions);
    var s := Run(initial, actions);
    assert Unsettled(s, i) == (i < |s.refreshes| && !s.refreshes[i].phase.Settled?);
    assert Unsettled(s, j) == (j < |s.refreshes| && !s.refreshes[j].phase.Settled?);
  }

  lemma {:induction false} LogSoundAt(log: seq<Event>, initial: Option<Tokens>, lost: set<nat>, k: nat)
    requires LogSound(log, initial, lost) && k < |log|
    ensures EventSound(log[..k], log[k], initial, lost)
    decreases |log|
  {
    if k < |log| - 1 {
      LogSoundAt(Front(log), initial, lost, k);
      assert Front(log)[..k] == log[..k];
    }
  }

  /**
   Every exchange presents the refresh token its own generation holds at that moment: the one left
   by the last sign-in or successful refresh, so never one that a rotation has superseded.
   */
  lemma PresentsLatestToken(initial: Option<Tokens>, actions: seq<Action>, k: nat)
    requires k < |Run(initial, actions).log| && Run(initial, actions).log[k].Presented?
    ensures var s := Run(initial, actions);
            var e := s.log[k];
            && e.generation == NewestGeneration(s.log[..k])
            && (e.generation !in s.lost ==>
                  exists held :: Expected(s.log[..k], initial, e.generation) == Some(held) && held.refreshToken == e.refreshToken)
  {
    RunKeepsInv(initial, actions);
    var s := Run(initial, actions);
    LogSoundAt(s.log, initial, s.lost, k);
    var v := Expected(s.log[..k], initial, s.log[k].generation);
    if s.log[k].generation !in s.lost { assert Expected(s.log[..k], initial, s.log[k].generation) == Some(v.value); }
  }

  /**
   A sign-out opens the next generation, and a caller is told that its write succeeded only while its
   generation is still the newest.
   */
  lemma GenerationsInOrder(initial: Option<Tokens>, actions: seq<Action>, k: nat)
    requires k < |Run(initial, actions).log|
    ensures var s := Run(initial, actions);
            match s.log[k]
            case SignedOut(g) => g == NewestGeneration(s.log[..k]) + 1
            case Confirmed(g, _) => g == NewestGeneration(s.log[..k])
            case _ => true
  {
    RunKeepsInv(initial, actions);
    var s := Run(initial, actions);
    LogSoundAt(s.log, initial, s.lost, k);
  }

  /**
   A sign-in replaces the session only if nothing happened to it since that attempt began: no
   sign-out, no other sign-in, and no newer attempt. It then opens the next generation.
   */
  lemma SignInIsUndisturbed(initial: Option<Tokens>, actions: seq<Action>, k: nat)
    requires k < |Run(initial, actions).log| && Run(initial, actions).log[k].SignedIn?
    ensures var s := Run(initial, actions);
            var e := s.log[k];
            && e.generation == NewestGeneration(s.log[..k]) + 1
            && exists b :: 0 <= b < k && s.log[b] == Began(e.attempt) && QuietBetween(s.log, b, k)
  {
    RunKeepsInv(initial, actions);
    var s := Run(initial, actions);
    LogSoundAt(s.log, initial, s.lost, k);
    var b := BoundaryPosition(s.log, k);
  }

  /** Between these two no sign-in or sign-out happened and no attempt began. */
  predicate QuietBetween(log: seq<Event>, from: int, to: nat)
    requires to <= |log|
  {
    forall m: nat :: from < m < to ==> !IsBump(log[m]) && !log[m].Began?
  }

  lemma {:induction false} BoundaryPosition(log: seq<Event>, k: nat) returns (b: nat)
    requires k <= |log| && LastBoundary(log[..k]).Some?
    ensures b < k && log[b] == LastBoundary(log[..k]).value && QuietBetween(log, b, k)
    decreases k
  {
    assert Last(log[..k]) == log[k - 1] && Front(log[..k]) == log[..k - 1];
    if IsBump(log[k - 1]) || log[k - 1].Began? {
      b := k - 1;
    } else {
      b := BoundaryPosition(log, k - 1);
    }
  }

  // What each step comes to, from every reachable state, in terms of what happened and of what is kept.

  function Step(s: State, a: Action): State {
    if Enabled(s, a) then Next(s, a) else s
  }

  lemma RunStep(initial: Option<Tokens>, actions: seq<Action>, a: Action)
    ensures Run(initial, actions + [a]) == Step(Run(initial, actions), a)
  {
    assert (actions + [a])[..|actions|] == actions;
  }

  /** The two states differ at most in the refreshes, the queue and the record of events. */
  ghost predicate SameSession(s: State, t: State) {
    && t.generation == s.generation && t.attempts == s.attempts && t.signIns == s.signIns && t.pending == s.pending
    && t.progress == s.progress && t.settled == s.settled && t.stored == s.stored && t.lost == s.lost
  }

  /** Only refresh `id` is somewhere else. */
  ghost predicate OnlyRefresh(s: State, t: State, id: nat, phase: Phase) {
    && |t.refreshes| == |s.refreshes| && id < |s.refreshes|
    && t.refreshes[id] == Refresh(s.refreshes[id].generation, phase)
    && forall i :: 0 <= i < |s.refreshes| && i != id ==> t.refreshes[i] == s.refreshes[i]
  }

  ghost predicate Moved(s: State, t: State, id: nat, phase: Phase) {
    SameSession(s, t) && t.queue == s.queue && t.log == s.log && OnlyRefresh(s, t, id, phase)
  }

  /** A sign-in begins as the newest one and is open. */
  ghost predicate BeginsSignIn(s: State, t: State) {
    && t.signIns == s.signIns + [SignIn(s.generation, true)] && LastBoundary(t.log) == Some(Began(|t.signIns|))
    && t.(attempts := s.attempts, signIns := s.signIns, log := s.log) == s
  }

  /**
   A sign-in replaces the session exactly if nothing has happened to it since the attempt began, and then it
   queues its tokens for the new generation; otherwise it changes nothing. Either way it is over.
   */
  ghost predicate CompletesSignIn(s: State, t: State, n: nat, tokens: Tokens) {
    if !(1 <= n <= |s.signIns|) then t == s
    else
      && |t.signIns| == |s.signIns| && !t.signIns[n - 1].open
      && (forall i :: 0 <= i < |s.signIns| && i != n - 1 ==> t.signIns[i] == s.signIns[i])
      && t.(signIns := s.signIns) ==
         if s.signIns[n - 1].open && LastBoundary(s.log) == Some(Began(n)) then
           s.(generation := s.generation + 1, queue := s.queue + [Guarded(Some(tokens), s.generation + 1)],
              log := s.log + [SignedIn(s.generation + 1, tokens, n)])
         else s
  }

  /** A sign-out ends the generation at once and queues its removal. */
  ghost predicate SignsOut(s: State, t: State) {
    && t.generation == s.generation + 1 && |t.queue| == |s.queue| + 1 && s.queue <= t.queue
    && t.queue[|s.queue|] == Removal(t.generation) && t.log == s.log + [SignedOut(t.generation)]
    && t.(generation := s.generation, queue := s.queue, log := s.log) == s
  }

  /** A call joins the pending refresh of the present generation or starts one that waits for the queue as it is. */
  ghost predicate StartsRefresh(s: State, t: State) {
    if s.pending.Some? && s.pending.value.id < |s.refreshes| && s.refreshes[s.pending.value.id].generation == s.generation
    then t == s
    else
      && |t.refreshes| == |s.refreshes| + 1 && s.refreshes <= t.refreshes
      && t.refreshes[|s.refreshes|] == Refresh(s.generation, AwaitingQueue(s.settled + |s.queue|))
      && t.pending == Some(PendingRefresh(s.generation, |s.refreshes|))
      && t.(refreshes := s.refreshes, pending := s.pending) == s
  }

  /** A suspended refresh reads what is stored once the operations queued before it have settled. */
  ghost predicate SamplesStore(s: State, t: State, id: nat) {
    if id < |s.refreshes| && s.refreshes[id].phase.AwaitingQueue? && s.refreshes[id].phase.ticket <= s.settled
    then Moved(s, t, id, Sampled(s.stored)) else t == s
  }

  /**
   It goes on to the exchange, presenting the token it read, exactly if its generation is still the newest and there
   is a refresh token.
   */
  ghost predicate ResumesRead(s: State, t: State, id: nat) {
    if !(id < |s.refreshes| && s.refreshes[id].phase.Sampled?) then t == s
    else match s.refreshes[id].phase.existing
      case Some(held) =>
        if s.refreshes[id].generation == s.generation && held.refreshToken != "" then
          && SameSession(s, t) && t.queue == s.queue && OnlyRefresh(s, t, id, Exchanging(held))
          && t.log == s.log + [Presented(s.generation, held.refreshToken)]
        else Moved(s, t, id, Settled)
      case None => Moved(s, t, id, Settled)
  }

  /**
   A granted refresh queues, for its own generation and guarded, the new access token with the old client and with
   the new refresh token, or the old one when none came; a rejected one queues a removal; both then wait for just that
   operation. Any other answer queues nothing and settles the refresh.
   */
  ghost predicate AnswersExchange(s: State, t: State, id: nat, answer: Answer) {
    if !(id < |s.refreshes| && s.refreshes[id].phase.Exchanging?) then t == s
    else
      var held, g := s.refreshes[id].phase.current, s.refreshes[id].generation;
      match answer
      case Granted(access, refresh) =>
        && SameSession(s, t) && |t.queue| == |s.queue| + 1 && s.queue <= t.queue
        && t.queue[|s.queue|].Guarded? && t.queue[|s.queue|].generation == g && t.queue[|s.queue|].value.Some?
        && var v := t.queue[|s.queue|].value.value;
           && v.accessToken == access && v.clientId == held.clientId
           && (refresh != "" ==> v.refreshToken == refresh)
           && (refresh == "" ==> v.refreshToken == held.refreshToken)
           && OnlyRefresh(s, t, id, Writing(t.settled + |t.queue|))
           && t.log == s.log + [Rotated(g, access, refresh)]
      case InvalidGrant =>
        && SameSession(s, t) && t.queue == s.queue + [Guarded(None, g)] && t.log == s.log + [Rejected(g)]
        && OnlyRefresh(s, t, id, Writing(t.settled + |t.queue|))
      case Unavailable => Moved(s, t, id, Settled)
  }

  /** A refresh settles once its write has. */
  ghost predicate FinishesRefresh(s: State, t: State, id: nat) {
    if id < |s.refreshes| && s.refreshes[id].phase.Writing? && s.refreshes[id].phase.ticket <= s.settled
    then Moved(s, t, id, Settled) else t == s
  }

  /** Then the handler of the pending refresh, and no other, leaves none pending, so that the next call starts another. */
  ghost predicate ClearsPending(s: State, t: State, id: nat) {
    && t.(pending := s.pending) == s
    && t.pending == if id < |s.refreshes| && s.refreshes[id].phase.Settled? && s.pending.Some? && s.pending.value.id == id
                    then None else s.pending
  }

  /**
   The head of the queue is handed to storage unless it is a guarded write of an older generation, which is dropped;
   storage then holds its value, or the call fails and storage is as before; and either way the next one's turn comes.
   */
  ghost predicate Writes(s: State, t: State, a: Action) {
    var turn := match a case StartWrite => Idle case FinishWrite => Applied case _ => Issued;
    if s.queue == [] || s.progress != turn then t == s
    else
      var w := s.queue[0];
      && t.generation == s.generation && t.refreshes == s.refreshes && t.pending == s.pending && t.signIns == s.signIns
      && t.attempts == s.attempts
      && (if a.StartWrite? && (w.Removal? || w.generation == s.generation) then
            t.queue == s.queue && t.progress == Issued && t.settled == s.settled
          else if a.ApplyWrite? then t.queue == s.queue && t.progress == Applied && t.settled == s.settled
          else t.queue == s.queue[1..] && t.progress == Idle && t.settled == s.settled + 1)
      && t.stored == (if a.ApplyWrite? then (if w.Guarded? then w.value else None) else s.stored)
      && t.lost == (if a.FailWrite? then s.lost + {w.generation} else s.lost)
      && t.log == s.log + if a.FinishWrite? && w.Guarded? && w.generation == s.generation
                          then [Confirmed(s.generation, w.value)] else []
  }

  ghost predicate Effects(s: State, t: State, a: Action) {
    match a
    case BeginSignIn => BeginsSignIn(s, t)
    case CompleteSignIn(n, tokens) => CompletesSignIn(s, t, n, tokens)
    case SignOut => SignsOut(s, t)
    case StartRefresh => StartsRefresh(s, t)
    case SampleStore(id) => SamplesStore(s, t, id)
    case ResumeRead(id) => ResumesRead(s, t, id)
    case AnswerExchange(id, answer) => AnswersExchange(s, t, id, answer)
    case FinishRefresh(id) => FinishesRefresh(s, t, id)
    case ClearPending(id) => ClearsPending(s, t, id)
    case _ => Writes(s, t, a)
  }

  lemma SignInStep(s: State, n: nat, tokens: Tokens)
    requires 1 <= n <= |s.signIns| ==>
               (LastBoundary(s.log) == Some(Began(n)) <==> n == s.attempts && s.signIns[n - 1].generation == s.generation)
    ensures CompletesSignIn(s, Step(s, CompleteSignIn(n, tokens)), n, tokens)
  {}

  lemma Undisturbed(s: State, n: nat)
    requires Shape(s) && 1 <= n <= |s.signIns|
    ensures LastBoundary(s.log) == Some(Began(n)) <==> n == s.attempts && s.signIns[n - 1].generation == s.generation
  {}

  lemma BeginStep(s: State)
    requires s.attempts == |s.signIns|
    ensures BeginsSignIn(s, Step(s, BeginSignIn))
  {
    Appended(s.log, Began(s.attempts + 1));
  }

  lemma RefreshStep(s: State, a: Action)
    requires a.StartRefresh? || a.SampleStore? || a.ResumeRead? || a.FinishRefresh? || a.ClearPending?
    requires s.pending.Some? ==> s.pending.value.id < |s.refreshes|
                                 && s.refreshes[s.pending.value.id].generation == s.pending.value.generation
    ensures Effects(s, Step(s, a), a)
  {}

  lemma AnswerStep(s: State, id: nat, answer: Answer)
    ensures AnswersExchange(s, Step(s, AnswerExchange(id, answer)), id, answer)
  {}

  lemma WriteStep(s: State, a: Action)
    requires a.StartWrite? || a.ApplyWrite? || a.FinishWrite? || a.FailWrite?
    ensures Writes(s, Step(s, a), a)
  {}

  lemma StepEffects(s: State, a: Action)
    requires Shape(s)
    ensures Effects(s, Step(s, a), a)
  {
    match a
    case BeginSignIn => BeginStep(s);
    case CompleteSignIn(n, tokens) =>
      if 1 <= n <= |s.signIns| { Undisturbed(s, n); }
      SignInStep(s, n, tokens);
    case SignOut =>
    case AnswerExchange(id, answer) => AnswerStep(s, id, answer);
    case StartWrite | ApplyWrite | FinishWrite | FailWrite => WriteStep(s, a);
    case _ => RefreshStep(s, a);
  }

  /** In every run each step has just these effects, and one that is not possible has none. */
  lemma EveryStep(initial: Option<Tokens>, actions: seq<Action>, a: Action)
    ensures Effects(Run(initial, actions), Run(initial, actions + [a]), a)
  {
    RunKeepsInv(initial, actions);
    RunStep(initial, actions, a);
    StepEffects(Run(initial, actions), a);
  }

  // ---------------------------------------------------------------------------------------------
  // What the storage comes to.

  /** Nothing but the storage, its queue and its confirmations has moved. */
  ghost predicate OnlyStorage(s: State, t: State, initial: Option<Tokens>) {
    && t.generation == s.generation && t.refreshes == s.refreshes && t.pending == s.pending && t.lost == s.lost
    && t.signIns == s.signIns && t.settled + |t.queue| == s.settled + |s.queue|
    && Expected(t.log, initial, s.generation) == Expected(s.log, initial, s.generation)
  }

  lemma StorageStep(s: State, a: Action, initial: Option<Tokens>)
    requires a.StartWrite? || a.ApplyWrite? || a.FinishWrite?
    ensures OnlyStorage(s, Step(s, a), initial)
  {
    if a.FinishWrite? && Enabled(s, a) && s.queue[0].Guarded? && s.queue[0].generation == s.generation {
      Appended(s.log, Confirmed(s.queue[0].generation, s.queue[0].value));
    }
  }

  /** One queued operation, from wherever it stands to its end, with a storage that does not fail. */
  function Round(s: State): State {
    Step(Step(Step(s, StartWrite), ApplyWrite), FinishWrite)
  }

  lemma RoundPops(s: State, initial: Option<Tokens>)
    requires s.queue != []
    ensures Round(s).queue == s.queue[1..] && OnlyStorage(s, Round(s), initial)
  {
    StorageStep(s, StartWrite, initial);
    StorageStep(Step(s, StartWrite), ApplyWrite, initial);
    StorageStep(Step(Step(s, StartWrite), ApplyWrite), FinishWrite, initial);
  }

  lemma StepKeepsInv(s: State, a: Action, initial: Option<Tokens>)
    requires Inv(s, initial)
    ensures Inv(Step(s, a), initial)
  {
    if Enabled(s, a) { KeepsInv(s, a, initial); }
  }

  lemma RoundKeepsInv(s: State, initial: Option<Tokens>)
    requires Inv(s, initial)
    ensures Inv(Round(s), initial)
  {
    StepKeepsInv(s, StartWrite, initial);
    StepKeepsInv(Step(s, StartWrite), ApplyWrite, initial);
    StepKeepsInv(Step(Step(s, StartWrite), ApplyWrite), FinishWrite, initial);
  }

  /**
   From every reachable state a storage that does not fail takes one operation after the other off the queue, and
   once the last is done it has the value of the newest generation.
   */
  lemma QueueMoves(initial: Option<Tokens>, actions: seq<Action>)
    requires Run(initial, actions).queue != []
    ensures var s := Run(initial, actions);
            var t := Round(s);
            && t.queue == s.queue[1..] && OnlyStorage(s, t, initial)
            && (t.queue == [] && s.generation !in s.lost ==> t.stored == Expected(s.log, initial, s.generation))
  {
    var s := Run(initial, actions);
    RunKeepsInv(initial, actions);
    RoundPops(s, initial);
    RoundKeepsInv(s, initial);
  }

  // ---------------------------------------------------------------------------------------------
  // Rotation.

  lemma {:induction false} NewestGrows(log: seq<Event>, initial: Option<Tokens>, lost: set<nat>, k: nat)
    requires LogSound(log, initial, lost) && k <= |log|
    ensures NewestGeneration(log[..k]) <= NewestGeneration(log)
    decreases |log|
  {
    if k < |log| {
      NewestGrows(Front(log), initial, lost, k);
      assert Front(log)[..k] == log[..k];
    } else {
      assert log[..k] == log;
    }
  }

  /** After an answer with a new refresh token, a generation holds that one or a still later one. */
  lemma {:induction false} HeldAfterRotation(log: seq<Event>, initial: Option<Tokens>, lost: set<nat>, j: nat, held: Tokens)
    requires LogSound(log, initial, lost) && j < |log| && log[j].Rotated? && log[j].refreshToken != ""
    requires Expected(log, initial, log[j].generation) == Some(held)
    ensures held.refreshToken == log[j].refreshToken
            || exists i :: j < i < |log| && log[i].Rotated? && log[i].generation == log[j].generation
                           && log[i].refreshToken == held.refreshToken
    decreases |log|
  {
    var front, e, g := Front(log), Last(log), log[j].generation;
    if j < |log| - 1 {
      LogSoundAt(log, initial, lost, j);
      NewestGrows(front, initial, lost, j);
      assert front[..j] == log[..j];
      if e.Rotated? && e.generation == g && e.refreshToken != "" {
        assert log[|log| - 1] == e;
      } else {
        var before := Expected(front, initial, g).value;
        HeldAfterRotation(front, initial, lost, j, before);
      }
    }
  }

  /**
   Once the endpoint has answered with a new refresh token, every later exchange of that generation presents it,
   or what a still later answer brought: never one that a rotation has superseded.
   */
  lemma RotationSupersedes(initial: Option<Tokens>, actions: seq<Action>, j: nat, k: nat)
    requires j < k < |Run(initial, actions).log|
    requires var log := Run(initial, actions).log;
             && log[j].Rotated? && log[j].refreshToken != "" && log[k].Presented? && log[k].generation == log[j].generation
             && log[k].generation !in Run(initial, actions).lost
    ensures var log := Run(initial, actions).log;
            log[k].refreshToken == log[j].refreshToken
            || exists i :: j < i < k && log[i].Rotated? && log[i].generation == log[j].generation
                           && log[i].refreshToken == log[k].refreshToken
  {
    PresentsLatestToken(initial, actions, k);
    var s := Run(initial, actions);
    RunKeepsInv(initial, actions);
    LogSoundBefore(s.log, initial, s.lost, k);
    var held :| Expected(s.log[..k], initial, s.log[k].generation) == Some(held) && held.refreshToken == s.log[k].refreshToken;
    HeldAfterRotation(s.log[..k], initial, s.lost, j, held);
  }

  lemma {:induction false} LogSoundBefore(log: seq<Event>, initial: Option<Tokens>, lost: set<nat>, k: nat)
    requires LogSound(log, initial, lost) && k <= |log|
    ensures LogSound(log[..k], initial, lost)
    decreases |log|
  {
    if k < |log| {
      LogSoundBefore(Front(log), initial, lost, k);
      assert Front(log)[..k] == log[..k];
    } else {
      assert log[..k] == log;
    }
  }

  // ---------------------------------------------------------------------------------------------
  // The worker itself: its module variables, and one method per synchronous stretch of its code.

  class Background {
    var authGeneration: nat
    var signInAttempt: nat
    var storageWrites: seq<Write>
    var progress: Progress
    var settledWrites: nat
    var storage: Option<Tokens>
    var refreshes: seq<Refresh>
    var pendingRefresh: Option<PendingRefresh>
    var signIns: seq<SignIn>
    ghost var log: seq<Event>
    ghost var lost: set<nat>

    ghost function View(): State
      reads this
    {
      State(authGeneration, signInAttempt, storageWrites, progress, settledWrites, storage, refreshes,
            pendingRefresh, signIns, log, lost)
    }

    constructor (stored: Option<Tokens>)
      ensures View() == Init(stored)
    {
      authGeneration, signInAttempt := 0, 0;
      storageWrites, progress, settledWrites := [], Idle, 0;
      storage := stored;
      refreshes, pendingRefresh, signIns := [], None, [];
      log, lost := [], {};
    }

    /** Returns the ticket that `await storageWrites` waits for. */
    method QueueStorageWrite(w: Write) returns (ticket: nat)
      modifies this`storageWrites
      ensures View() == Enqueue(old(View()), w) && ticket == Ticket(View())
    {
      storageWrites := storageWrites + [w];
      ticket := settledWrites + |storageWrites|;
    }

    method BeginSignIn() returns (attempt: nat)
      requires Shape(View())
      modifies this
      ensures View() == Next(old(View()), Action.BeginSignIn)
      ensures Enabled(View(), Action.CompleteSignIn(attempt, Tokens("", "", "")))
    {
      signInAttempt := signInAttempt + 1;
      attempt := signInAttempt;
      signIns := signIns + [SignIn(authGeneration, true)];
      log := log + [Began(attempt)];
    }

    /** What `signInWithPkce` does once the code is exchanged; `ok` is false when it throws instead. */
    method CompleteSignIn(attempt: nat, tokens: Tokens) returns (ok: bool)
      requires Enabled(View(), Action.CompleteSignIn(attempt, tokens))
      modifies this
      ensures View() == Next(old(View()), Action.CompleteSignIn(attempt, tokens))
      ensures ok <==> authGeneration == old(authGeneration) + 1
    {
      var generation := signIns[attempt - 1].generation;
      signIns := signIns[attempt - 1 := SignIn(generation, false)];
      if generation != authGeneration { return false; }
      if attempt != signInAttempt { return false; }
      authGeneration := authGeneration + 1;
      log := log + [SignedIn(authGeneration, tokens, attempt)];
      var _ := QueueStorageWrite(Guarded(Some(tokens), authGeneration));
      ok := true;
    }

    method SignOut()
      modifies this
      ensures View() == Next(old(View()), Action.SignOut)
    {
      authGeneration := authGeneration + 1;
      log := log + [SignedOut(authGeneration)];
      var _ := QueueStorageWrite(Removal(authGeneration));
    }

    /** `refreshTokens`, up to the first await inside `refreshSession`; returns whose promise is shared. */
    method RefreshTokens() returns (id: nat)
      requires Shape(View())
      modifies this
      ensures View() == Next(old(View()), StartRefresh)
      ensures id < |refreshes| && refreshes[id].generation == authGeneration
    {
      if pendingRefresh.Some? && pendingRefresh.value.generation == authGeneration {
        return pendingRefresh.value.id;
      }
      id := |refreshes|;
      refreshes := refreshes + [Refresh(authGeneration, AwaitingQueue(settledWrites + |storageWrites|))];
      pendingRefresh := Some(PendingRefresh(authGeneration, id));
    }

    method SampleStore(id: nat)
      requires Enabled(View(), Action.SampleStore(id))
      modifies this
      ensures View() == Next(old(View()), Action.SampleStore(id))
    {
      refreshes := refreshes[id := refreshes[id].(phase := Sampled(storage))];
    }

    method ResumeRead(id: nat)
      requires Enabled(View(), Action.ResumeRead(id))
      modifies this
      ensures View() == Next(old(View()), Action.ResumeRead(id))
    {
      var r := refreshes[id];
      var existing := r.phase.existing;
      if r.generation != authGeneration || existing.None? || existing.value.refreshToken == "" {
        refreshes := refreshes[id := r.(phase := Settled)];
        return;
      }
      refreshes := refreshes[id := r.(phase := Exchanging(existing.value))];
      log := log + [Presented(r.generation, existing.value.refreshToken)];
    }

    method AnswerExchange(id: nat, answer: Answer)
      requires Enabled(View(), Action.AnswerExchange(id, answer))
      modifies this
      ensures View() == Next(old(View()), Action.AnswerExchange(id, answer))
    {
      var r := refreshes[id];
      if answer.Unavailable? {
        refreshes := refreshes[id := r.(phase := Settled)];
        return;
      }
      var ticket: nat;
      if answer.InvalidGrant? {
        ticket := QueueStorageWrite(Guarded(None, r.generation));
        log := log + [Rejected(r.generation)];
      } else {
        var merged := Merged(r.phase.current, answer);
        ticket := QueueStorageWrite(Guarded(Some(merged), r.generation));
        log := log + [Rotated(r.generation, answer.accessToken, answer.refreshToken)];
      }
      refreshes := refreshes[id := r.(phase := Writing(ticket))];
    }

    method FinishRefresh(id: nat)
      requires Enabled(View(), Action.FinishRefresh(id))
      modifies this
      ensures View() == Next(old(View()), Action.FinishRefresh(id))
    {
      refreshes := refreshes[id := refreshes[id].(phase := Settled)];
    }

    /** The handler attached to the promise of refresh `id`. */
    method ClearPending(id: nat)
      requires Enabled(View(), Action.ClearPending(id))
      modifies this
      ensures View() == Next(old(View()), Action.ClearPending(id))
    {
      if pendingRefresh.Some? && pendingRefresh.value.id == id {
        pendingRefresh := None;
      }
    }

    method SettleWrite()
      requires storageWrites != []
      modifies this
      ensures View() == SettleHead(old(View()))
    {
      storageWrites, progress, settledWrites := storageWrites[1..], Idle, settledWrites + 1;
    }

    method StartWrite()
      requires Enabled(View(), Action.StartWrite)
      modifies this
      ensures View() == Next(old(View()), Action.StartWrite)
    {
      var w := storageWrites[0];
      if w.Guarded? && w.generation != authGeneration {
        SettleWrite();
      } else {
        progress := Issued;
      }
    }

    method ApplyWrite()
      requires Enabled(View(), Action.ApplyWrite)
      modifies this
      ensures View() == Next(old(View()), Action.ApplyWrite)
    {
      match storageWrites[0]
      case Guarded(value, _) => storage, progress := value, Applied;
      case Removal(_) => storage, progress := None, Applied;
    }

    method FinishWrite()
      requires Enabled(View(), Action.FinishWrite)
      modifies this
      ensures View() == Next(old(View()), Action.FinishWrite)
    {
      var w := storageWrites[0];
      SettleWrite();
      if w.Guarded? && w.generation == authGeneration {
        log := log + [Confirmed(w.generation, w.value)];
      }
    }

    method FailWrite()
      requires Enabled(View(), Action.FailWrite)
      modifies this
      ensures View() == Next(old(View()), Action.FailWrite)
    {
      lost := lost + {storageWrites[0].generation};
      SettleWrite();
    }
  }
}
