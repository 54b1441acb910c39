/**
 Enrolling this computer for local use. Calls may overlap, every answer may be late, and the session may
 be cleared at any moment; a generation number keeps what belongs to an earlier account from being installed.
 */
module HostSession {
  import opened Wrappers

  datatype Session = Session(deviceId: string, userId: string, proof: string, expiresAt: int)

  /** Where an attempt stands; it makes up to two rounds. */
  datatype Stage =
    | Enrolling(round: nat)
    | Authenticating(round: nat, userId: string)
    | Installed(session: Session)
    | Threw

  datatype Attempt = Attempt(startedIn: nat, expected: Option<string>, stage: Stage)

  /** Where a call of `ensureLocalHostSession` stands. */
  datatype Phase =
    | Disconnecting
    | AskingStatus
    | Waiting(attempt: nat)
    | Returned(result: Option<Session>)
    | Failed

  /** An expected user that is missing or empty is None. */
  datatype Call = Call(expected: Option<string>, phase: Phase)

  datatype State = State(
    session: Option<Session>, pending: Option<nat>, generation: nat, initializing: Option<string>,
    attempts: seq<Attempt>, calls: seq<Call>)

  datatype Status = Unusable | Outdated | Usable

  datatype Enrolment = Refused | Ticket(userId: string)

  datatype Authentication = Broken | NeedsProof | Incomplete | Identity(deviceId: string, proof: string, expiresAt: int)

  /** `good` tells whether the session there is at that moment lasts for another minute. */
  datatype Action =
    | Ensure(expected: Option<string>, good: bool)
    | Disconnected(call: nat, ok: bool, good: bool)
    | GotStatus(call: nat, status: Status, good: bool)
    | Enrolled(attempt: nat, enrolment: Enrolment)
    | Authenticated(attempt: nat, authentication: Authentication)
    | Settled(attempt: nat)
    | Woken(call: nat)
    | Clear

  function Init(): State {
    State(None, None, 0, None, [], [])
  }

  predicate IsOver(stage: Stage) {
    stage.Installed? || stage.Threw?
  }

  predicate Enabled(s: State, a: Action) {
    match a
    case Ensure(_, _) => true
    case Disconnected(c, _, _) => c < |s.calls| && s.calls[c].phase.Disconnecting?
    case GotStatus(c, _, _) => c < |s.calls| && s.calls[c].phase.AskingStatus?
    case Enrolled(n, _) => n < |s.attempts| && s.attempts[n].stage.Enrolling?
    case Authenticated(n, _) => n < |s.attempts| && s.attempts[n].stage.Authenticating?
    case Settled(n) => n < |s.attempts| && IsOver(s.attempts[n].stage)
    case Woken(c) => c < |s.calls| && s.calls[c].phase.Waiting? && s.calls[c].phase.attempt < |s.attempts|
                     && IsOver(s.attempts[s.calls[c].phase.attempt].stage)
    case Clear => true
  }

  function Cleared(s: State): State {
    s.(generation := s.generation + 1, session := None, pending := None, initializing := None)
  }

  /** What is there, or on its way, is another user's. */
  predicate IsForeign(s: State, expected: Option<string>) {
    expected.Some? && ((s.session.Some? && s.session.value.userId != expected.value)
                       || (s.pending.Some? && s.initializing != expected))
  }

  /** The call takes what is there, waits for what is on its way, or asks for the status. */
  function Found(s: State, good: bool): Phase {
    if s.session.Some? && good then Returned(s.session)
    else if s.pending.Some? then Waiting(s.pending.value)
    else AskingStatus
  }

  function SetPhase(s: State, c: nat, phase: Phase): State
    requires c < |s.calls|
  {
    s.(calls := s.calls[c := s.calls[c].(phase := phase)])
  }

  /** A call from its beginning. */
  function Entered(s: State, c: nat, good: bool): State
    requires c < |s.calls|
  {
    if IsForeign(s, s.calls[c].expected) then SetPhase(Cleared(s), c, Disconnecting)
    else SetPhase(s, c, Found(s, good))
  }

  function Begun(s: State, c: nat): State
    requires c < |s.calls|
  {
    var expected := s.calls[c].expected;
    SetPhase(s.(attempts := s.attempts + [Attempt(s.generation, expected, Enrolling(0))],
                pending := Some(|s.attempts|), initializing := expected),
             c, Waiting(|s.attempts|))
  }

  function SetStage(s: State, n: nat, stage: Stage): State
    requires n < |s.attempts|
  {
    s.(attempts := s.attempts[n := s.attempts[n].(stage := stage)])
  }

  function AfterEnrolment(s: State, n: nat, enrolment: Enrolment): Stage
    requires n < |s.attempts| && s.attempts[n].stage.Enrolling?
  {
    var a := s.attempts[n];
    match enrolment
    case Refused => Threw
    case Ticket(userId) =>
      if a.startedIn != s.generation || (a.expected.Some? && userId != a.expected.value) then Threw
      else Authenticating(a.stage.round, userId)
  }

  function AfterAuthentication(s: State, n: nat, authentication: Authentication): Stage
    requires n < |s.attempts| && s.attempts[n].stage.Authenticating?
  {
    var a := s.attempts[n];
    if authentication.Broken? || a.startedIn != s.generation then Threw
    else match authentication
      case NeedsProof => if a.stage.round + 1 < 2 then Enrolling(a.stage.round + 1) else Threw
      case Identity(deviceId, proof, expiresAt) => Installed(Session(deviceId, a.stage.userId, proof, expiresAt))
      case _ => Threw
  }

  function Next(s: State, a: Action): State
    requires Enabled(s, a)
  {
    match a
    case Ensure(expected, good) => Entered(s.(calls := s.calls + [Call(expected, AskingStatus)]), |s.calls|, good)
    case Disconnected(c, ok, good) => SetPhase(s, c, if ok then Found(s, good) else Failed)
    case GotStatus(c, status, good) =>
      (match status
       case Unusable => SetPhase(s, c, Returned(None))
       case Outdated => SetPhase(s, c, Failed)
       case Usable => if s.pending.Some? then Entered(s, c, good) else Begun(s, c))
    case Enrolled(n, enrolment) => SetStage(s, n, AfterEnrolment(s, n, enrolment))
    case Authenticated(n, authentication) =>
      var stage := AfterAuthentication(s, n, authentication);
      var t := SetStage(s, n, stage);
      if stage.Installed? then t.(session := Some(stage.session)) else t
    case Settled(n) => if s.pending == Some(n) then s.(pending := None) else s
    case Woken(c) =>
      var stage := s.attempts[s.calls[c].phase.attempt].stage;
      SetPhase(s, c, if stage.Installed? then Returned(Some(stage.session)) else Failed)
    case Clear => Cleared(s)
  }

  function Run(s: State, actions: seq<Action>): State
    decreases |actions|
  {
    if actions == [] then s
    else
      var t := Run(s, actions[..|actions| - 1]);
      var a := actions[|actions| - 1];
      if Enabled(t, a) then Next(t, a) else t
  }

  // ---------------------------------------------------------------------------------------------
  // The invariant.

  predicate WithinTwoRounds(stage: Stage) {
    match stage
    case Enrolling(round) => round < 2
    case Authenticating(round, _) => round < 2
    case _ => true
  }

  /** An attempt of the present generation is the pending one until it is over, and it keeps to its user. */
  predicate Orderly(s: State, n: nat)
    requires n < |s.attempts|
  {
    var a := s.attempts[n];
    && a.startedIn <= s.generation && WithinTwoRounds(a.stage)
    && (!IsOver(a.stage) && a.startedIn == s.generation ==> s.pending == Some(n))
    && (a.expected.Some? && a.stage.Authenticating? ==> a.stage.userId == a.expected.value)
    && (a.expected.Some? && a.stage.Installed? ==> a.stage.session.userId == a.expected.value)
  }

  /** The session was installed by this attempt, which began in the generation that still lasts. */
  predicate Source(s: State, n: nat) {
    && n < |s.attempts| && s.attempts[n].startedIn == s.generation
    && s.session.Some? && s.attempts[n].stage == Installed(s.session.value)
  }

  predicate Together(s: State, n: nat, m: nat) {
    && n < |s.attempts| && m < |s.attempts| && s.attempts[n].startedIn == s.attempts[m].startedIn
    && !IsOver(s.attempts[n].stage) && !IsOver(s.attempts[m].stage)
  }

  ghost predicate Inv(s: State) {
    && (s.pending.Some? ==> s.pending.value < |s.attempts|
                            && s.attempts[s.pending.value].startedIn == s.generation
                            && s.initializing == s.attempts[s.pending.value].expected)
    && (forall n :: 0 <= n < |s.attempts| ==> Orderly(s, n))
    && (forall n: nat, m: nat :: Together(s, n, m) ==> n == m)
    && (s.session.Some? ==> exists n: nat :: Source(s, n))
    && (forall c :: 0 <= c < |s.calls| && s.calls[c].phase.Waiting? ==> s.calls[c].phase.attempt < |s.attempts|)
  }

  /** Calls matter to the invariant only by what they wait for. */
  lemma KeepsCalls(s: State, calls: seq<Call>)
    requires Inv(s) && forall c :: 0 <= c < |calls| && calls[c].phase.Waiting? ==> calls[c].phase.attempt < |s.attempts|
    ensures Inv(s.(calls := calls))
  {
    var t := s.(calls := calls);
    forall n | 0 <= n < |t.attempts| ensures Orderly(t, n) { assert Orderly(s, n); }
    forall n: nat, m: nat | Together(t, n, m) ensures n == m { assert Together(s, n, m); }
    if s.session.Some? {
      var n: nat :| Source(s, n);
      assert Source(t, n);
    }
  }

  lemma KeepsCleared(s: State)
    requires Inv(s)
    ensures Inv(Cleared(s))
  {
    var t := Cleared(s);
    forall n | 0 <= n < |t.attempts| ensures Orderly(t, n) { assert Orderly(s, n); }
    forall n: nat, m: nat | Together(t, n, m) ensures n == m { assert Together(s, n, m); }
  }

  lemma KeepsEntered(s: State, c: nat, good: bool)
    requires Inv(s) && c < |s.calls|
    ensures Inv(Entered(s, c, good))
  {
    if IsForeign(s, s.calls[c].expected) {
      KeepsCleared(s);
      KeepsCalls(Cleared(s), SetPhase(Cleared(s), c, Disconnecting).calls);
    } else {
      KeepsCalls(s, SetPhase(s, c, Found(s, good)).calls);
    }
  }

  lemma KeepsBegun(s: State, c: nat)
    requires Inv(s) && c < |s.calls| && s.pending.None?
    ensures Inv(Begun(s, c))
  {
    var t := Begun(s, c);
    forall n | 0 <= n < |t.attempts| ensures Orderly(t, n) {
      if n < |s.attempts| { assert Orderly(s, n); }
    }
    forall n: nat, m: nat | Together(t, n, m) ensures n == m {
      if n < |s.attempts| { assert Orderly(s, n); }
      if m < |s.attempts| { assert Orderly(s, m); }
      if n < |s.attempts| && m < |s.attempts| { assert Together(s, n, m); }
    }
    if s.session.Some? {
      var n: nat :| Source(s, n);
      assert Source(t, n);
    }
  }

  /** An attempt moves on without being over, or ends without a session. */
  lemma KeepsStage(s: State, n: nat, stage: Stage)
    requires Inv(s) && n < |s.attempts| && !IsOver(s.attempts[n].stage) && !stage.Installed? && WithinTwoRounds(stage)
    requires stage.Authenticating? && s.attempts[n].expected.Some? ==> stage.userId == s.attempts[n].expected.value
    ensures Inv(SetStage(s, n, stage))
  {
    var t := SetStage(s, n, stage);
    forall m | 0 <= m < |t.attempts| ensures Orderly(t, m) { assert Orderly(s, m); }
    forall m: nat, k: nat | Together(t, m, k) ensures m == k { assert Together(s, m, k); }
    if s.session.Some? {
      var m: nat :| Source(s, m);
      assert Source(t, m);
    }
  }

  lemma KeepsInstall(s: State, n: nat, session: Session)
    requires Inv(s) && n < |s.attempts| && s.attempts[n].stage.Authenticating? && s.attempts[n].startedIn == s.generation
    requires session.userId == s.attempts[n].stage.userId
    ensures Inv(SetStage(s, n, Installed(session)).(session := Some(session)))
  {
    var t := SetStage(s, n, Installed(session)).(session := Some(session));
    assert Orderly(s, n);
    forall m | 0 <= m < |t.attempts| ensures Orderly(t, m) { assert Orderly(s, m); }
    forall m: nat, k: nat | Together(t, m, k) ensures m == k { assert Together(s, m, k); }
    assert Source(t, n);
  }

  lemma KeepsSettled(s: State, n: nat)
    requires Inv(s) && n < |s.attempts| && IsOver(s.attempts[n].stage)
    ensures Inv(Next(s, Settled(n)))
  {
    var t := Next(s, Settled(n));
    forall m | 0 <= m < |t.attempts| ensures Orderly(t, m) { assert Orderly(s, m); }
    forall m: nat, k: nat | Together(t, m, k) ensures m == k { assert Together(s, m, k); }
    if s.session.Some? {
      var m: nat :| Source(s, m);
      assert Source(t, m);
    }
  }

  lemma KeepsInv(s: State, a: Action)
    requires Inv(s) && Enabled(s, a)
    ensures Inv(Next(s, a))
  {
    match a
    case Ensure(expected, good) =>
      KeepsCalls(s, s.calls + [Call(expected, AskingStatus)]);
      KeepsEntered(s.(calls := s.calls + [Call(expected, AskingStatus)]), |s.calls|, good);
    case Disconnected(_, _, _) | Woken(_) => KeepsCalls(s, Next(s, a).calls);
    case GotStatus(c, status, good) =>
      match status {
        case Unusable | Outdated => KeepsCalls(s, Next(s, a).calls);
        case Usable => if s.pending.Some? { KeepsEntered(s, c, good); } else { KeepsBegun(s, c); }
      }
    case Enrolled(n, enrolment) =>
      assert Orderly(s, n);
      KeepsStage(s, n, AfterEnrolment(s, n, enrolment));
    case Authenticated(n, authentication) =>
      var stage := AfterAuthentication(s, n, authentication);
      assert Orderly(s, n);
      if stage.Installed? { KeepsInstall(s, n, stage.session); } else { KeepsStage(s, n, stage); }
    case Settled(n) => KeepsSettled(s, n);
    case Clear => KeepsCleared(s);
  }

  lemma {:induction false} RunKeepsInv(s: State, actions: seq<Action>)
    requires Inv(s)
    ensures Inv(Run(s, actions))
    decreases |actions|
  {
    if actions != [] {
      var front := actions[..|actions| - 1];
      RunKeepsInv(s, front);
      if Enabled(Run(s, front), actions[|actions| - 1]) { KeepsInv(Run(s, front), actions[|actions| - 1]); }
    }
  }

  /** Attempts never vanish, keep when and for whom they began, and generations only grow. */
  ghost predicate Later(s: State, t: State) {
    && s.generation <= t.generation && |s.attempts| <= |t.attempts|
    && forall n :: 0 <= n < |s.attempts| ==>
         t.attempts[n].startedIn == s.attempts[n].startedIn && t.attempts[n].expected == s.attempts[n].expected
  }

  lemma {:induction false} RunIsLater(s: State, actions: seq<Action>)
    ensures Later(s, Run(s, actions))
    decreases |actions|
  {
    if actions != [] {
      RunIsLater(s, actions[..|actions| - 1]);
    }
  }

  // ---------------------------------------------------------------------------------------------
  // Main results.

  /** No attempt begun before the session was cleared is the source of any session there is afterwards. */
  lemma NothingOldIsInstalled(before: seq<Action>, after: seq<Action>)
    ensures var s := Run(Init(), before);
            var t := Run(Next(s, Clear), after);
            t.session.Some? ==> exists n: nat :: |s.attempts| <= n && Source(t, n)
  {
    var s := Run(Init(), before);
    RunKeepsInv(Init(), before);
    KeepsInv(s, Clear);
    RunKeepsInv(Next(s, Clear), after);
    RunIsLater(Next(s, Clear), after);
    forall n | 0 <= n < |s.attempts| ensures s.attempts[n].startedIn <= s.generation { assert Orderly(s, n); }
    var t := Run(Next(s, Clear), after);
    if t.session.Some? {
      var n: nat :| Source(t, n);
      assert |s.attempts| <= n;
    }
  }

  /** Two attempts of the same generation are never under way together, and none makes a third round. */
  lemma OneAttemptPerGeneration(actions: seq<Action>, n: nat, m: nat)
    ensures Together(Run(Init(), actions), n, m) ==> n == m
    ensures n < |Run(Init(), actions).attempts| ==> WithinTwoRounds(Run(Init(), actions).attempts[n].stage)
  {
    RunKeepsInv(Init(), actions);
    if n < |Run(Init(), actions).attempts| { assert Orderly(Run(Init(), actions), n); }
  }

  /** The session there is was installed in the present generation and belongs to the user its attempt was for. */
  lemma SessionIsTheRightUsers(actions: seq<Action>)
    ensures var s := Run(Init(), actions);
            s.session.Some? ==> exists n: nat ::
              Source(s, n) && (s.attempts[n].expected.Some? ==> s.session.value.userId == s.attempts[n].expected.value)
  {
    RunKeepsInv(Init(), actions);
    var s := Run(Init(), actions);
    if s.session.Some? {
      var n: nat :| Source(s, n);
      assert Orderly(s, n);
      assert Source(s, n) && (s.attempts[n].expected.Some? ==> s.session.value.userId == s.attempts[n].expected.value);
    }
  }

  /** What the call came to, or is bound to come to, is a session of the user it was made for. */
  predicate Suits(s: State, c: nat, userId: string) {
    c < |s.calls| ==>
      match s.calls[c].phase
      case Returned(result) => result.Some? ==> result.value.userId == userId
      case Waiting(n) => n < |s.attempts| ==> s.attempts[n].expected == Some(userId)
      case _ => true
  }

  /**
   After disconnecting, the call does not look again whose session, or whose attempt, is there: in the
   meantime another call may have brought in another user's.
   */
  predicate IsOvertaken(s: State, a: Action, c: nat, userId: string) {
    && a.Disconnected? && a.call == c && a.ok
    && if s.session.Some? && a.good then s.session.value.userId != userId
       else s.pending.Some? && s.initializing != Some(userId)
  }

  /** That is the only way for a call to come to another user's session. */
  lemma SuitsUnlessOvertaken(s: State, a: Action, c: nat, userId: string)
    requires Inv(s) && Enabled(s, a) && c < |s.calls| && s.calls[c].expected == Some(userId) && Suits(s, c, userId)
    ensures Suits(Next(s, a), c, userId) <==> !IsOvertaken(s, a, c, userId)
  {
    if a.Woken? && a.call == c { assert Orderly(s, s.calls[c].phase.attempt); }
  }

  /** Every call begins like that: what is in its way is cleared away first. */
  lemma NewCallSuits(s: State, userId: string, good: bool)
    requires Inv(s)
    ensures Suits(Next(s, Ensure(Some(userId), good)), |s.calls|, userId)
  {}

  lemma CallsRemain(s: State, a: Action, c: nat)
    requires Enabled(s, a)
    ensures var t := Next(s, a);
            && |s.calls| <= |t.calls| && (c < |s.calls| ==> t.calls[c].expected == s.calls[c].expected)
            && (|s.calls| < |t.calls| ==> a.Ensure? && |t.calls| == |s.calls| + 1 && t.calls[|s.calls|].expected == a.expected)
  {}

  /** The pending attempt for which the call is made to wait is for nobody in particular. */
  predicate IsUncertain(s: State, a: Action, c: nat) {
    && a.Disconnected? && a.call == c && a.ok && !(s.session.Some? && a.good)
    && s.pending.Some? && s.initializing.None?
  }

  /** In the course of the run the call was overtaken. */
  predicate Overtaken(actions: seq<Action>, c: nat, userId: string)
    decreases |actions|
  {
    actions != [] &&
    var front, a := actions[..|actions| - 1], actions[|actions| - 1];
    Overtaken(front, c, userId) || (Enabled(Run(Init(), front), a) && IsOvertaken(Run(Init(), front), a, c, userId))
  }

  predicate Uncertain(actions: seq<Action>, c: nat)
    decreases |actions|
  {
    actions != [] &&
    var front, a := actions[..|actions| - 1], actions[|actions| - 1];
    Uncertain(front, c) || (Enabled(Run(Init(), front), a) && IsUncertain(Run(Init(), front), a, c))
  }

  /** The call has come to, or is bound to come to, a session of another known user, or to fail. */
  predicate Astray(s: State, c: nat, userId: string) {
    && c < |s.calls|
    && match s.calls[c].phase
       case Returned(result) => result.Some? && result.value.userId != userId
       case Waiting(n) => n < |s.attempts| && s.attempts[n].expected.Some? && s.attempts[n].expected.value != userId
       case Failed => true
       case _ => false
  }

  lemma OvertakenGoesAstray(s: State, a: Action, c: nat, userId: string)
    requires Inv(s) && Enabled(s, a) && IsOvertaken(s, a, c, userId) && !IsUncertain(s, a, c)
    ensures Astray(Next(s, a), c, userId)
  {}

  lemma StaysAstray(s: State, a: Action, c: nat, userId: string)
    requires Inv(s) && Enabled(s, a) && Astray(s, c, userId)
    ensures Astray(Next(s, a), c, userId)
  {
    if a.Woken? && a.call == c { assert Orderly(s, s.calls[c].phase.attempt); }
  }

  lemma {:induction false} NotYetOvertaken(actions: seq<Action>, c: nat, userId: string)
    requires c >= |Run(Init(), actions).calls|
    ensures !Overtaken(actions, c, userId)
    decreases |actions|
  {
    if actions != [] {
      var front, a := actions[..|actions| - 1], actions[|actions| - 1];
      if Enabled(Run(Init(), front), a) { CallsRemain(Run(Init(), front), a, c); }
      NotYetOvertaken(front, c, userId);
    }
  }

  lemma StepComesTo(front: seq<Action>, a: Action, c: nat, userId: string)
    requires var s := Run(Init(), front);
             && Inv(s) && Enabled(s, a) && c < |s.calls| && s.calls[c].expected == Some(userId)
             && (!Overtaken(front, c, userId) ==> Suits(s, c, userId))
             && (Overtaken(front, c, userId) && !Uncertain(front, c) ==> Astray(s, c, userId))
    ensures var s := Run(Init(), front);
            && (!Overtaken(front, c, userId) && !IsOvertaken(s, a, c, userId) ==> Suits(Next(s, a), c, userId))
            && ((Overtaken(front, c, userId) || IsOvertaken(s, a, c, userId)) && !Uncertain(front, c) && !IsUncertain(s, a, c) ==>
                Astray(Next(s, a), c, userId))
  {
    var s := Run(Init(), front);
    if !Overtaken(front, c, userId) {
      SuitsUnlessOvertaken(s, a, c, userId);
      if IsOvertaken(s, a, c, userId) && !IsUncertain(s, a, c) { OvertakenGoesAstray(s, a, c, userId); }
    } else if !Uncertain(front, c) {
      StaysAstray(s, a, c, userId);
    }
  }

  lemma {:induction false} RunComesTo(actions: seq<Action>, c: nat, userId: string)
    requires c < |Run(Init(), actions).calls| && Run(Init(), actions).calls[c].expected == Some(userId)
    ensures !Overtaken(actions, c, userId) ==> Suits(Run(Init(), actions), c, userId)
    ensures Overtaken(actions, c, userId) && !Uncertain(actions, c) ==> Astray(Run(Init(), actions), c, userId)
    decreases |actions|
  {
    if actions != [] {
      var front, a := actions[..|actions| - 1], actions[|actions| - 1];
      var s := Run(Init(), front);
      RunKeepsInv(Init(), front);
      if !Enabled(s, a) {
        RunComesTo(front, c, userId);
      } else {
        CallsRemain(s, a, c);
        if c < |s.calls| {
          RunComesTo(front, c, userId);
          StepComesTo(front, a, c, userId);
        } else {
          NotYetOvertaken(front, c, userId);
          NewCallSuits(s, userId, a.good);
        }
      }
    }
  }

  /**
   In every run, a call made for a user and never overtaken returns no session but that user's, and waits for no
   attempt but one for that user. And unless it is made to wait for an attempt that is for nobody in particular,
   which may turn out to be anybody's, the session it returns is the user's exactly if it was not overtaken.
   */
  lemma SuitsExactlyUnlessOvertaken(actions: seq<Action>, c: nat, userId: string)
    requires c < |Run(Init(), actions).calls| && Run(Init(), actions).calls[c].expected == Some(userId)
    ensures var s := Run(Init(), actions);
            && (!Overtaken(actions, c, userId) ==> Suits(s, c, userId))
            && (!Uncertain(actions, c) ==>
                match s.calls[c].phase
                case Returned(Some(x)) => x.userId == userId <==> !Overtaken(actions, c, userId)
                case Waiting(n) => n < |s.attempts| && (s.attempts[n].expected == Some(userId) <==> !Overtaken(actions, c, userId))
                case Failed => true
                case _ => !Overtaken(actions, c, userId))
  {
    RunKeepsInv(Init(), actions);
    RunComesTo(actions, c, userId);
  }

  function Then(s: State, a: Action): State {
    if Enabled(s, a) then Next(s, a) else s
  }

  lemma RunPrefix(s: State, actions: seq<Action>, k: nat)
    requires k < |actions|
    ensures Run(s, actions[..k + 1]) == Then(Run(s, actions[..k]), actions[k])
  {
    assert actions[..k + 1][..k] == actions[..k];
  }

  /** The call for user b asks user a's session to go, and while it waits user a is enrolled again. */
  function Overtaking(a: string, b: string, x: Session): seq<Action> {
    [Ensure(Some(a), true), GotStatus(0, Usable, true),
     Ensure(Some(b), true),
     Ensure(Some(a), true), GotStatus(2, Usable, true),
     Enrolled(1, Ticket(a)), Authenticated(1, Identity(x.deviceId, x.proof, x.expiresAt)),
     Disconnected(1, true, true)]
  }

  /** User b's call waits for the disconnect, and user a's second attempt is pending. */
  function Halfway(a: string, b: string): State {
    State(None, Some(1), 1, Some(a), [Attempt(0, Some(a), Enrolling(0)), Attempt(1, Some(a), Enrolling(0))],
          [Call(Some(a), Waiting(0)), Call(Some(b), Disconnecting), Call(Some(a), Waiting(1))])
  }

  lemma HalfwayGoesWrong(a: string, b: string, x: Session)
    requires a != b && x.userId == a
    ensures var s := Then(Then(Then(Halfway(a, b), Enrolled(1, Ticket(a))),
                               Authenticated(1, Identity(x.deviceId, x.proof, x.expiresAt))), Disconnected(1, true, true));
            |s.calls| == 3 && s.calls[1] == Call(Some(b), Returned(Some(x)))
  {}

  /** User a's first attempt is pending. */
  function Begins(a: string): State {
    State(None, Some(0), 0, Some(a), [Attempt(0, Some(a), Enrolling(0))], [Call(Some(a), Waiting(0))])
  }

  lemma RunThree(s: State, actions: seq<Action>, k: nat)
    requires k + 3 <= |actions|
    ensures Run(s, actions[..k + 3]) == Then(Then(Then(Run(s, actions[..k]), actions[k]), actions[k + 1]), actions[k + 2])
  {
    RunPrefix(s, actions, k);
    RunPrefix(s, actions, k + 1);
    RunPrefix(s, actions, k + 2);
  }

  lemma ToBegins(a: string, b: string, x: Session)
    ensures Run(Init(), Overtaking(a, b, x)[..2]) == Begins(a)
  {
    var actions := Overtaking(a, b, x);
    assert actions[..0] == [];
    RunPrefix(Init(), actions, 0);
    RunPrefix(Init(), actions, 1);
  }

  lemma BeginsToHalfway(a: string, b: string)
    requires a != b
    ensures Then(Then(Then(Begins(a), Ensure(Some(b), true)), Ensure(Some(a), true)), GotStatus(2, Usable, true)) == Halfway(a, b)
  {}

  /** It does happen: the call for user b is handed the session of user a. */
  lemma AnotherUsersSession(a: string, b: string, x: Session)
    requires a != b && x.userId == a
    ensures var s := Run(Init(), Overtaking(a, b, x));
            |s.calls| == 3 && s.calls[1] == Call(Some(b), Returned(Some(x)))
  {
    var actions := Overtaking(a, b, x);
    ToBegins(a, b, x);
    RunThree(Init(), actions, 2);
    BeginsToHalfway(a, b);
    RunThree(Init(), actions, 5);
    HalfwayGoesWrong(a, b, x);
    assert actions[..8] == actions;
  }

  // ---------------------------------------------------------------------------------------------
  // What each step comes to, from every reachable state.

  /** Only call `c` has gone on. */
  ghost predicate OnlyCall(s: State, t: State, c: nat, phase: Phase) {
    && |t.calls| == |s.calls| && c < |s.calls| && t.calls[c] == Call(s.calls[c].expected, phase)
    && (forall i :: 0 <= i < |s.calls| && i != c ==> t.calls[i] == s.calls[i])
    && t.(calls := s.calls) == s
  }

  /** Only attempt `n` has gone on. */
  ghost predicate OnlyAttempt(s: State, t: State, n: nat, stage: Stage) {
    && |t.attempts| == |s.attempts| && n < |s.attempts|
    && t.attempts[n] == Attempt(s.attempts[n].startedIn, s.attempts[n].expected, stage)
    && (forall i :: 0 <= i < |s.attempts| && i != n ==> t.attempts[i] == s.attempts[i])
    && t.(attempts := s.attempts) == s
  }

  /** Nothing of the session is left, and what is under way belongs to an older generation. */
  ghost predicate Clears(s: State, t: State) {
    && t.generation == s.generation + 1 && t.session.None? && t.pending.None? && t.initializing.None?
    && t.attempts == s.attempts && t.calls == s.calls
  }

  /** Another user's session is there, or somebody else's attempt is pending. */
  predicate MustGo(s: State, userId: string) {
    || (s.session.Some? && s.session.value.userId != userId)
    || (s.pending.Some? && (s.initializing.None? || s.initializing.value != userId))
  }

  /** The call takes a good session, or else waits for the pending attempt, or else asks for the status. */
  ghost predicate Takes(s: State, t: State, c: nat, good: bool) {
    && (s.session.Some? && good ==> OnlyCall(s, t, c, Returned(s.session)))
    && (!(s.session.Some? && good) && s.pending.Some? ==> OnlyCall(s, t, c, Waiting(s.pending.value)))
    && (!(s.session.Some? && good) && s.pending.None? ==> OnlyCall(s, t, c, AskingStatus))
  }

  ghost predicate Enters(s: State, t: State, c: nat, good: bool) {
    && c < |s.calls|
    && if s.calls[c].expected.Some? && MustGo(s, s.calls[c].expected.value) then
         && Clears(s, t.(calls := s.calls)) && OnlyCall(s, s.(calls := t.calls), c, Disconnecting)
       else Takes(s, t, c, good)
  }

  /** A new attempt of the present generation is pending, for whom the call is. */
  ghost predicate BeginsAttempt(s: State, t: State, c: nat) {
    && c < |s.calls| && t.pending == Some(|s.attempts|) && t.initializing == s.calls[c].expected
    && t.attempts == s.attempts + [Attempt(s.generation, s.calls[c].expected, Enrolling(0))]
    && OnlyCall(s, t.(pending := s.pending, initializing := s.initializing, attempts := s.attempts), c, Waiting(|s.attempts|))
  }

  /** The attempt goes on for the ticket's user if that is who was expected and nothing was cleared since. */
  ghost predicate Enrols(s: State, t: State, n: nat, enrolment: Enrolment) {
    if n < |s.attempts| && s.attempts[n].stage.Enrolling? then
      var a := s.attempts[n];
      match enrolment
      case Refused => OnlyAttempt(s, t, n, Threw)
      case Ticket(userId) =>
        if a.startedIn == s.generation && (a.expected.Some? ==> a.expected.value == userId) then
          OnlyAttempt(s, t, n, Authenticating(a.stage.round, userId))
        else OnlyAttempt(s, t, n, Threw)
    else t == s
  }

  /**
   An identity of the present generation becomes the session of the ticket's user; a first missing proof enrols again;
   everything else ends the attempt.
   */
  ghost predicate Authenticates(s: State, t: State, n: nat, answer: Authentication) {
    if n < |s.attempts| && s.attempts[n].stage.Authenticating? then
      var a := s.attempts[n];
      var current := a.startedIn == s.generation;
      match answer
      case Identity(deviceId, proof, expiresAt) =>
        if current then
          var x := Session(deviceId, a.stage.userId, proof, expiresAt);
          t.session == Some(x) && OnlyAttempt(s, t.(session := s.session), n, Installed(x))
        else OnlyAttempt(s, t, n, Threw)
      case NeedsProof => OnlyAttempt(s, t, n, if current && a.stage.round == 0 then Enrolling(1) else Threw)
      case Incomplete => OnlyAttempt(s, t, n, Threw)
      case Broken => OnlyAttempt(s, t, n, Threw)
    else t == s
  }

  /** The caller of a finished attempt gets its session or its error. */
  ghost predicate Wakes(s: State, t: State, c: nat) {
    if c < |s.calls| && s.calls[c].phase.Waiting? && s.calls[c].phase.attempt < |s.attempts| then
      match s.attempts[s.calls[c].phase.attempt].stage
      case Installed(x) => OnlyCall(s, t, c, Returned(Some(x)))
      case Threw => OnlyCall(s, t, c, Failed)
      case _ => t == s
    else t == s
  }

  ghost predicate GetsStatus(s: State, t: State, c: nat, status: Status, good: bool) {
    if c < |s.calls| && s.calls[c].phase.AskingStatus? then
      match status
      case Unusable => OnlyCall(s, t, c, Returned(None))
      case Outdated => OnlyCall(s, t, c, Failed)
      case Usable => if s.pending.Some? then Enters(s, t, c, good) else BeginsAttempt(s, t, c)
    else t == s
  }

  ghost predicate Effects(s: State, t: State, a: Action) {
    match a
    case Ensure(expected, good) => Enters(s.(calls := s.calls + [Call(expected, AskingStatus)]), t, |s.calls|, good)
    case Disconnected(c, ok, good) =>
      if c < |s.calls| && s.calls[c].phase.Disconnecting? then (if ok then Takes(s, t, c, good) else OnlyCall(s, t, c, Failed))
      else t == s
    case GotStatus(c, status, good) => GetsStatus(s, t, c, status, good)
    case Enrolled(n, enrolment) => Enrols(s, t, n, enrolment)
    case Authenticated(n, answer) => Authenticates(s, t, n, answer)
    case Settled(n) =>
      && t.pending == (if n < |s.attempts| && (s.attempts[n].stage.Installed? || s.attempts[n].stage.Threw?) && s.pending == Some(n)
                       then None else s.pending)
      && t.(pending := s.pending) == s
    case Woken(c) => Wakes(s, t, c)
    case Clear => Clears(s, t)
  }

  lemma EnterStep(s: State, c: nat, good: bool)
    requires c < |s.calls|
    ensures Enters(s, Entered(s, c, good), c, good)
  {}

  lemma StatusStep(s: State, c: nat, status: Status, good: bool)
    ensures GetsStatus(s, Then(s, GotStatus(c, status, good)), c, status, good)
  {
    if c < |s.calls| { EnterStep(s, c, good); }
  }

  lemma AttemptStep(s: State, n: nat, enrolment: Enrolment, answer: Authentication)
    requires n < |s.attempts| ==> WithinTwoRounds(s.attempts[n].stage)
    ensures Enrols(s, Then(s, Enrolled(n, enrolment)), n, enrolment)
    ensures Authenticates(s, Then(s, Authenticated(n, answer)), n, answer)
  {}

  lemma StepEffects(s: State, a: Action)
    requires Inv(s)
    ensures Effects(s, Then(s, a), a)
  {
    match a
    case Ensure(expected, good) => EnterStep(s.(calls := s.calls + [Call(expected, AskingStatus)]), |s.calls|, good);
    case GotStatus(c, status, good) => StatusStep(s, c, status, good);
    case Enrolled(n, enrolment) => if n < |s.attempts| { assert Orderly(s, n); } AttemptStep(s, n, enrolment, Broken);
    case Authenticated(n, answer) => if n < |s.attempts| { assert Orderly(s, n); } AttemptStep(s, n, Refused, answer);
    case Disconnected(_, _, _) | Settled(_) | Woken(_) | Clear =>
  }

  /** In every run each step has just these effects. */
  lemma EveryStep(actions: seq<Action>, a: Action)
    ensures Effects(Run(Init(), actions), Run(Init(), actions + [a]), a)
  {
    var all := actions + [a];
    RunPrefix(Init(), all, |actions|);
    assert all[..|actions|] == actions && all[..|actions| + 1] == all;
    RunKeepsInv(Init(), actions);
    StepEffects(Run(Init(), actions), a);
  }

  // ---------------------------------------------------------------------------------------------
  // The module's own variables.

  class HostSessions {
    var session: Option<Session>
    var pending: Option<nat>
    var generation: nat
    var initializing: Option<string>
    var attempts: seq<Attempt>
    var calls: seq<Call>

    ghost function View(): State
      reads this
    {
      State(session, pending, generation, initializing, attempts, calls)
    }

    constructor ()
      ensures View() == Init()
    {
      session, pending, generation, initializing, attempts, calls := None, None, 0, None, [], [];
    }

    method ClearLocalHostSession()
      modifies this`session, this`pending, this`generation, this`initializing
      ensures View() == Next(old(View()), Clear)
    {
      generation := generation + 1;
      session := None;
      pending := None;
      initializing := None;
    }

    /** From the beginning of the function to its first pause or its return. */
    method Enter(c: nat, good: bool)
      requires c < |calls|
      modifies this
      ensures View() == Entered(old(View()), c, good)
    {
      var expected := calls[c].expected;
      if expected.Some? && ((session.Some? && session.value.userId != expected.value)
                            || (pending.Some? && initializing != expected))
      {
        ClearLocalHostSession();
        calls := calls[c := Call(expected, Disconnecting)];
        return;
      }
      Look(c, good);
    }

    method Look(c: nat, good: bool)
      requires c < |calls|
      modifies this`calls
      ensures View() == SetPhase(old(View()), c, Found(old(View()), good))
    {
      if session.Some? && good {
        calls := calls[c := calls[c].(phase := Returned(session))];
      } else if pending.Some? {
        calls := calls[c := calls[c].(phase := Waiting(pending.value))];
      } else {
        calls := calls[c := calls[c].(phase := AskingStatus)];
      }
    }

    method EnsureLocalHostSession(expected: Option<string>, good: bool)
      modifies this
      ensures View() == Next(old(View()), Ensure(expected, good))
    {
      calls := calls + [Call(expected, AskingStatus)];
      Enter(|calls| - 1, good);
    }

    method AfterDisconnect(c: nat, ok: bool, good: bool)
      requires Enabled(View(), Disconnected(c, ok, good))
      modifies this`calls
      ensures View() == Next(old(View()), Disconnected(c, ok, good))
    {
      if !ok {
        calls := calls[c := calls[c].(phase := Failed)];
        return;
      }
      Look(c, good);
    }

    method AfterStatus(c: nat, status: Status, good: bool)
      requires Enabled(View(), GotStatus(c, status, good))
      modifies this
      ensures View() == Next(old(View()), GotStatus(c, status, good))
    {
      if status.Unusable? {
        calls := calls[c := calls[c].(phase := Returned(None))];
      } else if status.Outdated? {
        calls := calls[c := calls[c].(phase := Failed)];
      } else if pending.Some? {
        Enter(c, good);
      } else {
        var startedGeneration := generation;
        initializing := calls[c].expected;
        attempts := attempts + [Attempt(startedGeneration, initializing, Enrolling(0))];
        pending := Some(|attempts| - 1);
        calls := calls[c := calls[c].(phase := Waiting(|attempts| - 1))];
      }
    }

    method AfterEnroll(n: nat, enrolment: Enrolment)
      requires Enabled(View(), Enrolled(n, enrolment))
      modifies this`attempts
      ensures View() == Next(old(View()), Enrolled(n, enrolment))
    {
      var a := attempts[n];
      if enrolment.Refused? {
        attempts := attempts[n := a.(stage := Threw)];
        return;
      }
      var userId := enrolment.userId;
      if a.startedIn != generation || (a.expected.Some? && userId != a.expected.value) {
        attempts := attempts[n := a.(stage := Threw)];
        return;
      }
      attempts := attempts[n := a.(stage := Authenticating(a.stage.round, userId))];
    }

    method AfterAuthenticate(n: nat, value: Authentication)
      requires Enabled(View(), Authenticated(n, value))
      modifies this`attempts, this`session
      ensures View() == Next(old(View()), Authenticated(n, value))
    {
      var a := attempts[n];
      if value.Broken? || a.startedIn != generation || value.Incomplete? {
        attempts := attempts[n := a.(stage := Threw)];
      } else if value.NeedsProof? {
        attempts := attempts[n := a.(stage := if a.stage.round + 1 < 2 then Enrolling(a.stage.round + 1) else Threw)];
      } else {
        session := Some(Session(value.deviceId, a.stage.userId, value.proof, value.expiresAt));
        attempts := attempts[n := a.(stage := Installed(session.value))];
      }
    }

    method AfterAttempt(n: nat)
      requires Enabled(View(), Settled(n))
      modifies this`pending
      ensures View() == Next(old(View()), Settled(n))
    {
      if pending == Some(n) { pending := None; }
    }

    method Wake(c: nat)
      requires Enabled(View(), Woken(c))
      modifies this`calls
      ensures View() == Next(old(View()), Woken(c))
    {
      var stage := attempts[calls[c].phase.attempt].stage;
      calls := calls[c := calls[c].(phase := if stage.Installed? then Returned(Some(stage.session)) else Failed)];
    }
  }
}
