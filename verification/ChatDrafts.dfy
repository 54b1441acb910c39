/**
 The draft store of the chat: one chain of operations per key, attachments captured on the side.
 Calls are numbered in the order in which they were made; the storage and the attachments may answer
 in any order and may fail.
 */
module ChatDrafts {
  import opened Wrappers

  datatype Draft = Draft(text: string, files: seq<string>)

  datatype Kind = Write(text: string) | Clear | Read

  /** The attachments of a write: still being read, read, or unreadable. */
  datatype Capture = Capturing | Captured(files: seq<string>) | Lost

  datatype Outcome = Pending | Stored(draft: Draft) | Cleared | Found(value: Option<Draft>) | Failed

  datatype Call = Call(key: string, kind: Kind, capture: Capture, outcome: Outcome)

  /** `queues` holds, per key, the numbers of the unsettled calls; `calls` is every call ever made. */
  datatype State = State(
    stored: map<string, Draft>,
    queues: map<string, seq<nat>>,
    failures: set<string>,
    calls: seq<Call>)

  datatype Action =
    | Enqueue(key: string, kind: Kind)
    | Capture(call: nat, files: seq<string>)
    | LoseCapture(call: nat)
    | Settle(key: string, ok: bool)
    | Forget(key: string)

  function Init(stored: map<string, Draft>): State {
    State(stored, map[], {}, [])
  }

  /** The head of a chain can settle once its own attachments are in. */
  predicate Enabled(s: State, a: Action) {
    match a
    case Enqueue(_, _) => true
    case Capture(i, _) => i < |s.calls| && s.calls[i].kind.Write? && s.calls[i].capture.Capturing?
    case LoseCapture(i) => i < |s.calls| && s.calls[i].kind.Write? && s.calls[i].capture.Capturing?
    case Settle(key, _) =>
      && key in s.queues && s.queues[key] != [] && s.queues[key][0] < |s.calls|
      && (s.calls[s.queues[key][0]].kind.Write? ==> !s.calls[s.queues[key][0]].capture.Capturing?)
    case Forget(key) => key in s.queues && s.queues[key] == []
  }

  function Lookup(stored: map<string, Draft>, key: string): Option<Draft> {
    if key in stored then Some(stored[key]) else None
  }

  /** What the operation at the head of a chain does; `ok` tells whether its transaction succeeds. */
  function Result(s: State, c: Call, ok: bool): Outcome {
    if !ok then Failed
    else match c.kind
      case Write(text) => if c.capture.Captured? then Stored(Draft(text, c.capture.files)) else Failed
      case Clear => Cleared
      case Read => Found(Lookup(s.stored, c.key))
  }

  function Perform(stored: map<string, Draft>, key: string, r: Outcome): map<string, Draft> {
    match r
    case Stored(draft) => stored[key := draft]
    case Cleared => stored - {key}
    case _ => stored
  }

  /** A failure is remembered; only a successful write or clear of the key makes up for it. */
  function Repair(failures: set<string>, key: string, r: Outcome): set<string> {
    match r
    case Failed => failures + {key}
    case Stored(_) => failures - {key}
    case Cleared => failures - {key}
    case _ => failures
  }

  function Next(s: State, a: Action): State
    requires Enabled(s, a)
  {
    match a
    case Enqueue(key, kind) =>
      var chain := if key in s.queues then s.queues[key] else [];
      s.(queues := s.queues[key := chain + [|s.calls|]], calls := s.calls + [Call(key, kind, Capturing, Pending)])
    case Capture(i, files) => s.(calls := s.calls[i := s.calls[i].(capture := Captured(files))])
    case LoseCapture(i) => s.(calls := s.calls[i := s.calls[i].(capture := Lost)])
    case Settle(key, ok) =>
      var i := s.queues[key][0];
      var r := Result(s, s.calls[i], ok);
      State(Perform(s.stored, key, r), s.queues[key := s.queues[key][1..]], Repair(s.failures, key, r),
            s.calls[i := s.calls[i].(outcome := r)])
    case Forget(key) => s.(queues := s.queues - {key})
  }

  function Run(stored: map<string, Draft>, actions: seq<Action>): State
    decreases |actions|
  {
    if actions == [] then Init(stored)
    else
      var s := Run(stored, actions[..|actions| - 1]);
      var a := actions[|actions| - 1];
      if Enabled(s, a) then Next(s, a) else s
  }

  // ---------------------------------------------------------------------------------------------
  // What the calls mean: one after another, in the order in which they were made.

  /** The value of `key` after the settled calls, each taking effect in its turn. */
  function Replay(stored: map<string, Draft>, calls: seq<Call>, key: string): Option<Draft>
    decreases |calls|
  {
    if calls == [] then Lookup(stored, key)
    else
      var c := calls[|calls| - 1];
      var before := Replay(stored, calls[..|calls| - 1], key);
      if c.key != key then before
      else match c.outcome
        case Stored(draft) => Some(draft)
        case Cleared => None
        case _ => before
  }

  /** Some call on `key` failed and no later write or clear of it has succeeded. */
  function Unrepaired(calls: seq<Call>, key: string): bool
    decreases |calls|
  {
    if calls == [] then false
    else
      var c := calls[|calls| - 1];
      var before := Unrepaired(calls[..|calls| - 1], key);
      if c.key != key then before
      else match c.outcome
        case Failed => true
        case Stored(_) => false
        case Cleared => false
        case _ => before
  }

  predicate OutstandingOn(c: Call, key: string) {
    c.key == key && c.outcome.Pending?
  }

  /** Each chain lists unsettled calls of its key, in order. */
  ghost predicate ChainsListed(s: State) {
    && (forall key, i :: key in s.queues && 0 <= i < |s.queues[key]| ==>
          s.queues[key][i] < |s.calls| && OutstandingOn(s.calls[s.queues[key][i]], key))
    && (forall key, i, j :: key in s.queues && 0 <= i < j < |s.queues[key]| ==> s.queues[key][i] < s.queues[key][j])
  }

  /** Every unsettled call is in the chain of its key. */
  ghost predicate ChainsComplete(s: State) {
    forall n :: 0 <= n < |s.calls| && s.calls[n].outcome.Pending? ==> s.calls[n].key in s.queues && n in s.queues[s.calls[n].key]
  }

  /** On each key the settled calls come first. */
  ghost predicate SettledFirst(s: State) {
    forall m, n :: 0 <= m < n < |s.calls| && s.calls[m].key == s.calls[n].key && s.calls[m].outcome.Pending? ==> s.calls[n].outcome.Pending?
  }

  ghost predicate Chained(s: State) {
    ChainsListed(s) && ChainsComplete(s) && SettledFirst(s)
  }

  /** What a settled call may have done. */
  ghost predicate Faithful(stored: map<string, Draft>, calls: seq<Call>, i: nat)
    requires i < |calls|
  {
    var c := calls[i];
    match c.outcome
    case Stored(draft) => c.kind.Write? && c.capture.Captured? && draft == Draft(c.kind.text, c.capture.files)
    case Cleared => c.kind.Clear?
    case Found(value) => c.kind.Read? && value == Replay(stored, calls[..i], c.key)
    case _ => true
  }

  ghost predicate Inv(s: State, stored: map<string, Draft>) {
    && Chained(s)
    && (forall key :: Lookup(s.stored, key) == Replay(stored, s.calls, key))
    && (forall key :: key in s.failures <==> Unrepaired(s.calls, key))
    && (forall i :: 0 <= i < |s.calls| ==> Faithful(stored, s.calls, i))
  }

  // ---------------------------------------------------------------------------------------------

  /** Calls that are not settled, or belong to another key, do not count. */
  lemma {:induction false} ReplaySkips(stored: map<string, Draft>, calls: seq<Call>, k: nat, key: string)
    requires k <= |calls| && forall j :: k <= j < |calls| ==> calls[j].key != key || calls[j].outcome.Pending?
    ensures Replay(stored, calls, key) == Replay(stored, calls[..k], key)
    ensures Unrepaired(calls, key) == Unrepaired(calls[..k], key)
    decreases |calls|
  {
    if k < |calls| {
      ReplaySkips(stored, calls[..|calls| - 1], k, key);
      assert calls[..|calls| - 1][..k] == calls[..k];
    } else {
      assert calls[..k] == calls;
    }
  }

  /** The value of `key` depends only on the keys and outcomes of the calls. */
  lemma {:induction false} ReplaySame(stored: map<string, Draft>, a: seq<Call>, b: seq<Call>, key: string)
    requires |a| == |b|
    requires forall j :: 0 <= j < |a| ==> a[j].key == b[j].key && (a[j].key == key ==> a[j].outcome == b[j].outcome)
    ensures Replay(stored, a, key) == Replay(stored, b, key) && Unrepaired(a, key) == Unrepaired(b, key)
    decreases |a|
  {
    if a != [] {
      ReplaySame(stored, a[..|a| - 1], b[..|b| - 1], key);
    }
  }

  /** Replacing a call by one with the same key and outcome, or adding an unsettled one, changes no value. */
  lemma QuietChange(s: State, t: State, stored: map<string, Draft>)
    requires forall key :: Lookup(s.stored, key) == Replay(stored, s.calls, key)
    requires forall key :: key in s.failures <==> Unrepaired(s.calls, key)
    requires forall i :: 0 <= i < |s.calls| ==> Faithful(stored, s.calls, i)
    requires t.stored == s.stored && t.failures == s.failures
    requires |s.calls| <= |t.calls| && forall j :: |s.calls| <= j < |t.calls| ==> t.calls[j].outcome.Pending?
    requires forall j :: 0 <= j < |s.calls| ==>
               t.calls[j] == s.calls[j] || (s.calls[j].outcome.Pending? && t.calls[j].outcome.Pending? && t.calls[j].key == s.calls[j].key)
    ensures forall key :: Lookup(t.stored, key) == Replay(stored, t.calls, key)
    ensures forall key :: key in t.failures <==> Unrepaired(t.calls, key)
    ensures forall i :: 0 <= i < |t.calls| ==> Faithful(stored, t.calls, i)
  {
    forall key
      ensures Lookup(t.stored, key) == Replay(stored, t.calls, key)
      ensures key in t.failures <==> Unrepaired(t.calls, key)
    {
      ReplaySkips(stored, t.calls, |s.calls|, key);
      ReplaySame(stored, s.calls, t.calls[..|s.calls|], key);
    }
    forall i | 0 <= i < |s.calls| ensures Faithful(stored, t.calls, i) {
      assert Faithful(stored, s.calls, i);
      ReplaySame(stored, s.calls[..i], t.calls[..i], s.calls[i].key);
    }
  }

  lemma KeepsEnqueue(s: State, key: string, kind: Kind, stored: map<string, Draft>)
    requires Inv(s, stored)
    ensures Inv(Next(s, Enqueue(key, kind)), stored)
  {
    var t := Next(s, Enqueue(key, kind));
    QuietChange(s, t, stored);
  }

  lemma KeepsCapture(s: State, i: nat, c: Capture, stored: map<string, Draft>)
    requires Inv(s, stored) && i < |s.calls| && s.calls[i].kind.Write? && s.calls[i].capture.Capturing?
    ensures Inv(s.(calls := s.calls[i := s.calls[i].(capture := c)]), stored)
  {
    assert Faithful(stored, s.calls, i);
    if s.calls[i].outcome.Pending? {
      QuietChange(s, s.(calls := s.calls[i := s.calls[i].(capture := c)]), stored);
    } else {
      var t := s.(calls := s.calls[i := s.calls[i].(capture := c)]);
      forall key
        ensures Lookup(t.stored, key) == Replay(stored, t.calls, key)
        ensures key in t.failures <==> Unrepaired(t.calls, key)
      {
        ReplaySame(stored, s.calls, t.calls, key);
      }
      forall j | 0 <= j < |t.calls| ensures Faithful(stored, t.calls, j) {
        assert Faithful(stored, s.calls, j);
        ReplaySame(stored, s.calls[..j], t.calls[..j], s.calls[j].key);
      }
    }
  }

  lemma FirstAfterSettle(s: State, key: string, ok: bool)
    requires Chained(s) && Enabled(s, Settle(key, ok))
    ensures SettledFirst(Next(s, Settle(key, ok)))
  {
    var t := Next(s, Settle(key, ok));
    forall m, n | 0 <= m < n < |t.calls| && t.calls[m].key == t.calls[n].key && t.calls[m].outcome.Pending?
      ensures t.calls[n].outcome.Pending?
    {
      assert OutstandingOn(s.calls[s.queues[key][0]], key);
    }
  }

  lemma OtherKeyReplays(s: State, key: string, ok: bool, stored: map<string, Draft>, k: string)
    requires Inv(s, stored) && Enabled(s, Settle(key, ok)) && k != key
    ensures var t := Next(s, Settle(key, ok));
            Lookup(t.stored, k) == Replay(stored, t.calls, k) && (k in t.failures <==> Unrepaired(t.calls, k))
  {
    ReplaySame(stored, s.calls, Next(s, Settle(key, ok)).calls, k);
  }

  /** Settling the head of a chain is the next step of the sequential reading. */
  lemma HeadReplays(s: State, key: string, ok: bool, stored: map<string, Draft>)
    requires Inv(s, stored) && Enabled(s, Settle(key, ok))
    ensures var t := Next(s, Settle(key, ok));
            Lookup(t.stored, key) == Replay(stored, t.calls, key) && (key in t.failures <==> Unrepaired(t.calls, key))
  {
    var t := Next(s, Settle(key, ok));
    var i := s.queues[key][0];
    forall j | i < j < |s.calls| ensures s.calls[j].key != key || s.calls[j].outcome.Pending? {}
    ReplaySkips(stored, s.calls, i, key);
    ReplaySkips(stored, t.calls, i + 1, key);
    assert t.calls[..i + 1][..i] == s.calls[..i];
  }

  lemma SettleFaithful(s: State, key: string, ok: bool, stored: map<string, Draft>, j: nat)
    requires Inv(s, stored) && Enabled(s, Settle(key, ok)) && j < |s.calls|
    ensures Faithful(stored, Next(s, Settle(key, ok)).calls, j)
  {
    var t := Next(s, Settle(key, ok));
    var i := s.queues[key][0];
    assert Faithful(stored, s.calls, j);
    if j == i {
      forall m | i < m < |s.calls| ensures s.calls[m].key != key || s.calls[m].outcome.Pending? {}
      ReplaySkips(stored, s.calls, i, key);
      assert t.calls[..i] == s.calls[..i];
    } else if j < i {
      assert t.calls[..j] == s.calls[..j];
    } else {
      if s.calls[j].key == key {
      } else {
        ReplaySame(stored, s.calls[..j], t.calls[..j], s.calls[j].key);
      }
    }
  }

  lemma ChainsAfterSettle(s: State, key: string, ok: bool)
    requires Chained(s) && Enabled(s, Settle(key, ok))
    ensures ChainsListed(Next(s, Settle(key, ok))) && ChainsComplete(Next(s, Settle(key, ok)))
  {
    var t, i := Next(s, Settle(key, ok)), s.queues[key][0];
    forall n | 0 <= n < |t.calls| && t.calls[n].outcome.Pending?
      ensures t.calls[n].key in t.queues && n in t.queues[t.calls[n].key]
    {
      assert n in s.queues[s.calls[n].key] && n != i;
    }
  }

  lemma KeepsSettle(s: State, key: string, ok: bool, stored: map<string, Draft>)
    requires Inv(s, stored) && Enabled(s, Settle(key, ok))
    ensures Inv(Next(s, Settle(key, ok)), stored)
  {
    var t := Next(s, Settle(key, ok));
    ChainsAfterSettle(s, key, ok);
    FirstAfterSettle(s, key, ok);
    forall k
      ensures Lookup(t.stored, k) == Replay(stored, t.calls, k)
      ensures k in t.failures <==> Unrepaired(t.calls, k)
    {
      if k == key { HeadReplays(s, key, ok, stored); } else { OtherKeyReplays(s, key, ok, stored, k); }
    }
    forall j | 0 <= j < |s.calls| ensures Faithful(stored, t.calls, j) {
      SettleFaithful(s, key, ok, stored, j);
    }
  }

  lemma KeepsForget(s: State, key: string, stored: map<string, Draft>)
    requires Inv(s, stored) && Enabled(s, Forget(key))
    ensures Inv(Next(s, Forget(key)), stored)
  {}

  lemma KeepsInv(s: State, a: Action, stored: map<string, Draft>)
    requires Inv(s, stored) && Enabled(s, a)
    ensures Inv(Next(s, a), stored)
  {
    match a
    case Enqueue(key, kind) => KeepsEnqueue(s, key, kind, stored);
    case Capture(i, files) => KeepsCapture(s, i, Captured(files), stored);
    case LoseCapture(i) => KeepsCapture(s, i, Lost, stored);
    case Settle(key, ok) => KeepsSettle(s, key, ok, stored);
    case Forget(key) => KeepsForget(s, key, stored);
  }

  lemma {:induction false} RunKeepsInv(stored: map<string, Draft>, actions: seq<Action>)
    ensures Inv(Run(stored, actions), stored)
    decreases |actions|
  {
    if actions != [] {
      var s := Run(stored, actions[..|actions| - 1]);
      RunKeepsInv(stored, actions[..|actions| - 1]);
      if Enabled(s, actions[|actions| - 1]) { KeepsInv(s, actions[|actions| - 1], stored); }
    }
  }

  // What each step comes to, from every reachable state.

  /** Only call `i` has changed, and of it neither key nor kind. */
  ghost predicate OnlyCall(before: seq<Call>, after: seq<Call>, i: nat, capture: Capture, outcome: Outcome) {
    && |after| == |before| && i < |before|
    && after[i] == Call(before[i].key, before[i].kind, capture, outcome)
    && forall j :: 0 <= j < |before| && j != i ==> after[j] == before[j]
  }

  /** The two stores agree on every key but this one. */
  ghost predicate SameElsewhere(before: map<string, Draft>, after: map<string, Draft>, key: string) {
    forall k :: k != key ==> (k in before <==> k in after) && (k in before && k in after ==> before[k] == after[k])
  }

  /**
   What the head of a chain comes to. A failed transaction, or a write whose attachments could not be read, changes no
   draft and marks the key; a write stores its text with its attachments, a clear leaves nothing, and both unmark the
   key; a read finds what is stored.
   */
  ghost predicate ComesTo(s: State, t: State, c: Call, ok: bool, outcome: Outcome) {
    && SameElsewhere(s.stored, t.stored, c.key)
    && if !ok || (c.kind.Write? && c.capture.Lost?) then
         outcome == Failed && t.stored == s.stored && t.failures == s.failures + {c.key}
       else match c.kind
         case Write(text) =>
           && c.capture.Captured? && outcome == Stored(Draft(text, c.capture.files)) && t.failures == s.failures - {c.key}
           && c.key in t.stored && t.stored[c.key].text == text && t.stored[c.key].files == c.capture.files
         case Clear => outcome == Cleared && c.key !in t.stored && t.failures == s.failures - {c.key}
         case Read =>
           && t.stored == s.stored && t.failures == s.failures
           && outcome == Found(if c.key in s.stored then Some(s.stored[c.key]) else None)
  }

  /** The head of the chain of `key`, if its attachments are in, is settled and off the chain. */
  ghost predicate Settles(s: State, t: State, key: string, ok: bool) {
    if key in s.queues && s.queues[key] != [] && s.queues[key][0] < |s.calls|
       && !(s.calls[s.queues[key][0]].kind.Write? && s.calls[s.queues[key][0]].capture.Capturing?) then
      var i := s.queues[key][0];
      && OnlyCall(s.calls, t.calls, i, s.calls[i].capture, if i < |t.calls| then t.calls[i].outcome else Pending)
      && t.queues == s.queues[key := s.queues[key][1..]]
      && s.calls[i].key == key && ComesTo(s, t, s.calls[i], ok, t.calls[i].outcome)
    else t == s
  }

  ghost predicate Effects(s: State, t: State, a: Action) {
    match a
    case Enqueue(key, kind) =>
      && t.calls == s.calls + [Call(key, kind, Capturing, Pending)] && t.stored == s.stored && t.failures == s.failures
      && t.queues.Keys == s.queues.Keys + {key}
      && t.queues[key] == (if key in s.queues then s.queues[key] else []) + [|s.calls|]
      && forall k :: k in s.queues && k != key ==> t.queues[k] == s.queues[k]
    case Capture(i, files) =>
      && t.(calls := s.calls) == s
      && if i < |s.calls| && s.calls[i].kind.Write? && s.calls[i].capture.Capturing? then
           OnlyCall(s.calls, t.calls, i, Captured(files), s.calls[i].outcome)
         else t.calls == s.calls
    case LoseCapture(i) =>
      && t.(calls := s.calls) == s
      && if i < |s.calls| && s.calls[i].kind.Write? && s.calls[i].capture.Capturing? then
           OnlyCall(s.calls, t.calls, i, Lost, s.calls[i].outcome)
         else t.calls == s.calls
    case Settle(key, ok) => Settles(s, t, key, ok)
    case Forget(key) =>
      && t.(queues := s.queues) == s
      && t.queues == if key in s.queues && s.queues[key] == [] then s.queues - {key} else s.queues
  }

  function Step(s: State, a: Action): State {
    if Enabled(s, a) then Next(s, a) else s
  }

  lemma RunStep(stored: map<string, Draft>, actions: seq<Action>, a: Action)
    ensures Run(stored, actions + [a]) == Step(Run(stored, actions), a)
  {
    assert (actions + [a])[..|actions|] == actions;
  }

  lemma SettleStep(s: State, key: string, ok: bool)
    requires ChainsListed(s)
    ensures Settles(s, Step(s, Settle(key, ok)), key, ok)
  {
    if key in s.queues && s.queues[key] != [] { assert OutstandingOn(s.calls[s.queues[key][0]], key); }
  }

  /** In every run each step has just these effects. */
  lemma EveryStep(stored: map<string, Draft>, actions: seq<Action>, a: Action)
    ensures Effects(Run(stored, actions), Run(stored, actions + [a]), a)
  {
    RunKeepsInv(stored, actions);
    RunStep(stored, actions, a);
    if a.Settle? { SettleStep(Run(stored, actions), a.key, a.ok); }
  }

  // Main results.

  /**
   However the storage and the attachments answer, each key stores what its settled calls leave when
   run one after another in call order, the settled calls of a key being its first ones. A call that stored
   something is a write whose attachments were read, and stored its own text with just those; one that
   cleared is a clear; and a read finds what the calls made before it left.
   */
  lemma SequentialPerKey(stored: map<string, Draft>, actions: seq<Action>, key: string)
    ensures var s := Run(stored, actions);
            && Lookup(s.stored, key) == Replay(stored, s.calls, key)
            && (forall m, n :: 0 <= m < n < |s.calls| && s.calls[m].key == s.calls[n].key == key && s.calls[m].outcome.Pending? ==>
                  s.calls[n].outcome.Pending?)
            && forall i :: 0 <= i < |s.calls| ==> Faithful(stored, s.calls, i)
  {
    RunKeepsInv(stored, actions);
  }

  /** The moment at which `flushChatDrafts` returns normally. */
  predicate Flushed(s: State) {
    s.queues == map[] && s.failures == {}
  }

  /** What the last write or clear of `key` meant to leave; None for a write whose attachments are not in. */
  function Intended(stored: map<string, Draft>, calls: seq<Call>, key: string): Option<Option<Draft>>
    decreases |calls|
  {
    if calls == [] then Some(Lookup(stored, key))
    else
      var c := calls[|calls| - 1];
      if c.key != key || c.kind.Read? then Intended(stored, calls[..|calls| - 1], key)
      else if c.kind.Clear? then Some(None)
      else if c.capture.Captured? then Some(Some(Draft(c.kind.text, c.capture.files)))
      else None
  }

  lemma {:induction false} RepairedMeansIntended(stored: map<string, Draft>, calls: seq<Call>, key: string, n: nat)
    requires n <= |calls| && forall i :: 0 <= i < n ==> Faithful(stored, calls, i)
    requires forall i :: 0 <= i < n && calls[i].key == key ==> !calls[i].outcome.Pending?
    requires !Unrepaired(calls[..n], key)
    ensures Intended(stored, calls[..n], key) == Some(Replay(stored, calls[..n], key))
    decreases n
  {
    if n > 0 {
      assert calls[..n][..n - 1] == calls[..n - 1];
      assert Faithful(stored, calls, n - 1);
      var c := calls[n - 1];
      if c.key != key || c.outcome.Found? {
        RepairedMeansIntended(stored, calls, key, n - 1);
      }
    }
  }

  /**
   When `flushChatDrafts` returns normally, no operation is outstanding on any key, and every key
   stores exactly what its last write or clear meant to leave.
   */
  lemma FlushedMeansSaved(stored: map<string, Draft>, actions: seq<Action>, key: string)
    requires Flushed(Run(stored, actions))
    ensures var s := Run(stored, actions);
            && (forall i :: 0 <= i < |s.calls| ==> !s.calls[i].outcome.Pending?)
            && Intended(stored, s.calls, key) == Some(Lookup(s.stored, key))
  {
    RunKeepsInv(stored, actions);
    var s := Run(stored, actions);
    assert s.calls[..|s.calls|] == s.calls;
    RepairedMeansIntended(stored, s.calls, key, |s.calls|);
  }

  /** With nothing outstanding it throws exactly if some key has a failed call not made up for since. */
  lemma FlushThrowsOnUnrepaired(stored: map<string, Draft>, actions: seq<Action>, key: string)
    ensures var s := Run(stored, actions);
            && (key in s.failures <==> Unrepaired(s.calls, key))
            && (s.queues == map[] && Unrepaired(s.calls, key) ==> !Flushed(s))
  {
    RunKeepsInv(stored, actions);
  }

  // ---------------------------------------------------------------------------------------------
  // The module's own variables.

  class DraftStore {
    var stored: map<string, Draft>
    var queues: map<string, seq<nat>>
    var failures: set<string>
    var calls: seq<Call>

    ghost function View(): State
      reads this
    {
      State(stored, queues, failures, calls)
    }

    constructor (stored: map<string, Draft>)
      ensures View() == Init(stored)
    {
      this.stored := stored;
      queues, failures, calls := map[], {}, [];
    }

    /** `enqueue`, as called by `readChatDraft`, `writeChatDraft` and `clearChatDraft`. */
    method EnqueueCall(key: string, kind: Kind) returns (call: nat)
      modifies this
      ensures View() == Next(old(View()), Enqueue(key, kind)) && call == |old(calls)|
    {
      call := |calls|;
      calls := calls + [Call(key, kind, Capturing, Pending)];
      if key in queues {
        queues := queues[key := queues[key] + [call]];
      } else {
        queues := queues[key := [call]];
        assert [] + [call] == [call];
      }
    }

    /** The action of the call at the head of the chain runs, and its promise settles. */
    method SettleHead(key: string, ok: bool)
      requires Enabled(View(), Settle(key, ok))
      modifies this
      ensures View() == Next(old(View()), Settle(key, ok))
    {
      var i := queues[key][0];
      var c := calls[i];
      var outcome := Failed;
      if ok {
        match c.kind
        case Write(text) =>
          if c.capture.Captured? {
            var draft := Draft(text, c.capture.files);
            stored := stored[key := draft];
            outcome := Stored(draft);
          }
        case Clear =>
          stored := stored - {key};
          outcome := Cleared;
        case Read =>
          outcome := Found(if c.key in stored then Some(stored[c.key]) else None);
      }
      if outcome.Failed? {
        failures := failures + {key};
      } else if !c.kind.Read? {
        failures := failures - {key};
      }
      calls := calls[i := c.(outcome := outcome)];
      queues := queues[key := queues[key][1..]];
    }

    /** The clean-up handler of a settled chain. */
    method ForgetChain(key: string)
      requires key in queues
      modifies this
      ensures View() == if old(queues)[key] == [] then Next(old(View()), Forget(key)) else old(View())
    {
      if queues[key] == [] {
        queues := queues - {key};
      }
    }
  }
}
