/**
 The file relay between the Hub window and the main window: the main window sends a JSON text in
 chunks, the Hub window puts it together. Messages may be lost, repeated or reordered on the way, the
 conversation may change at any moment, and timers may fire.
 */
module HubRelay {
  import opened Wrappers
  import opened JsonValues

  const CHUNK_SIZE := 64 * 1024
  const MAX_CHUNKS := 512

  datatype Request = Request(id: string, sessionId: string, contextKey: string, path: string)

  /** The main window's conversation; `paths` are the requests it allows. */
  datatype Snapshot = Snapshot(active: bool, sessionId: string, contextKey: string, paths: set<string>)

  /** A field is None when it is absent or no integer. */
  datatype Message = Message(
    id: string, sessionId: string, contextKey: string,
    chunk: Option<string>, index: Option<int>, total: Option<int>, error: Option<string>)

  /** `validateHubFileRequest`. */
  predicate Allowed(r: Request, snapshot: Option<Snapshot>) {
    && snapshot.Some? && snapshot.value.active
    && r.sessionId == snapshot.value.sessionId && r.contextKey == snapshot.value.contextKey
    && r.path in snapshot.value.paths
  }

  /** The conversation at hand is the active one that the request names, and the request is one it permits. */
  predicate IsPermitted(r: Request, snapshot: Option<Snapshot>) {
    match snapshot
    case None => false
    case Some(Snapshot(active, session, context, paths)) =>
      active && session == r.sessionId && context == r.contextKey && r.path in paths
  }

  lemma AllowedMeans(r: Request, snapshot: Option<Snapshot>)
    ensures Allowed(r, snapshot) <==> IsPermitted(r, snapshot)
  {}

  // ---------------------------------------------------------------------------------------------
  // Chunks.

  /** `slice` with non-negative bounds. */
  function Slice(s: string, from: nat, to: nat): string
    requires from <= to
  {
    if from >= |s| then [] else if to >= |s| then s[from..] else s[from..to]
  }

  function Total(json: string): (n: nat)
    ensures n >= 1
    ensures (n - 1) * CHUNK_SIZE < |json| || n == 1
    ensures |json| <= n * CHUNK_SIZE
  {
    var n := (|json| + CHUNK_SIZE - 1) / CHUNK_SIZE;
    if n < 1 then 1 else n
  }

  function ChunkOf(json: string, i: nat): string {
    Slice(json, i * CHUNK_SIZE, (i + 1) * CHUNK_SIZE)
  }

  function Join(parts: seq<string>): string
    decreases |parts|
  {
    if parts == [] then "" else Join(parts[..|parts| - 1]) + parts[|parts| - 1]
  }

  function Chunks(json: string, n: nat): seq<string> {
    seq(n, i requires 0 <= i < n => ChunkOf(json, i))
  }

  /** Joining the first chunks gives the beginning of the text. */
  lemma {:induction false} JoinChunks(json: string, n: nat)
    ensures Join(Chunks(json, n)) == if n * CHUNK_SIZE >= |json| then json else json[..n * CHUNK_SIZE]
    decreases n
  {
    if n > 0 {
      JoinChunks(json, n - 1);
      var parts := Chunks(json, n);
      assert parts[..n - 1] == Chunks(json, n - 1);
      assert parts[n - 1] == ChunkOf(json, n - 1);
    } else {
      assert json[..0] == "";
    }
  }

  /** Cutting and joining are inverse, and every chunk fits. */
  lemma ChunkingRoundTrip(json: string)
    ensures Join(Chunks(json, Total(json))) == json
    ensures forall i :: 0 <= i < Total(json) ==> |ChunkOf(json, i)| <= CHUNK_SIZE
  {
    JoinChunks(json, Total(json));
  }

  function ChunkMessage(r: Request, json: string, i: nat): Message {
    Message(r.id, r.sessionId, r.contextKey, Some(ChunkOf(json, i)), Some(i), Some(Total(json)), None)
  }

  function ErrorMessage(r: Request, error: string): Message {
    Message(r.id, r.sessionId, r.contextKey, None, None, None, Some(error))
  }

  // ---------------------------------------------------------------------------------------------
  // The main window.

  /** What reading the file gives: the printed JSON text, or an exception. */
  datatype Reading = Text(json: string) | Throws(error: string)

  function ChunkMessages(r: Request, json: string, k: nat): seq<Message> {
    seq(k, i requires 0 <= i < k => ChunkMessage(r, json, i))
  }

  /** The checks before the file is read. */
  predicate MayRead(r: Request, current: nat -> Option<Snapshot>, authorized: bool) {
    IsPermitted(r, current(0)) && authorized && IsPermitted(r, current(1))
  }

  /** The check before the chunk is sent. */
  predicate MaySend(r: Request, current: nat -> Option<Snapshot>, index: nat) {
    IsPermitted(r, current(3 + index))
  }

  /**
   `serveHubFileRequest`: what it hands to `send`, which is a beginning of the chunks and, after a
   failure of whatever kind, one error. `current(n)` is the conversation at the n-th check, and
   `delivers(n)` tells whether the n-th chunk's send succeeds.
   */
  method Serve(r: Request, current: nat -> Option<Snapshot>, authorized: bool, reading: Reading, delivers: nat -> bool)
    returns (sent: seq<Message>, failure: Option<string>)
    ensures var chunks := if failure.Some? then |sent| - 1 else |sent|;
            && 0 <= chunks && (reading.Throws? ==> chunks == 0)
            && (reading.Text? ==> chunks <= Total(reading.json) && sent[..chunks] == ChunkMessages(r, reading.json, chunks))
            && (failure.Some? ==>
                && sent[chunks].id == r.id && sent[chunks].sessionId == r.sessionId && sent[chunks].contextKey == r.contextKey
                && sent[chunks].error == failure && sent[chunks] == ErrorMessage(r, failure.value))
    ensures failure.None? ==> reading.Text? && |sent| == Total(reading.json)
    ensures failure.None? <==>
              && MayRead(r, current, authorized) && reading.Text? && IsPermitted(r, current(2)) && Total(reading.json) <= MAX_CHUNKS
              && forall i: nat :: i < Total(reading.json) ==> MaySend(r, current, i) && delivers(i)
    ensures var chunks := if failure.Some? then |sent| - 1 else |sent|;
            chunks > 0 ==>
              && MayRead(r, current, authorized) && IsPermitted(r, current(2)) && Total(reading.json) <= MAX_CHUNKS
              && forall i: nat :: i < chunks ==> MaySend(r, current, i) && (i + 1 < chunks ==> delivers(i))
    ensures MayRead(r, current, authorized) && reading.Throws? ==> failure == Some(reading.error)
  {
    sent := [];
    failure := None;
    AllowedMeans(r, current(0));
    AllowedMeans(r, current(1));
    AllowedMeans(r, current(2));
    if !Allowed(r, current(0)) {
      failure := Some("The conversation changed.");
    } else if !authorized {
      failure := Some("Not authorized.");
    } else if !Allowed(r, current(1)) {
      failure := Some("The conversation changed.");
    } else if reading.Throws? {
      failure := Some(reading.error);
    } else if !Allowed(r, current(2)) {
      failure := Some("The conversation changed.");
    } else if Total(reading.json) > MAX_CHUNKS {
      failure := Some("The file response is too large to display in Hub.");
    } else {
      var index := 0;
      while index < Total(reading.json) && failure.None?
        invariant 0 <= index <= Total(reading.json)
        invariant sent == ChunkMessages(r, reading.json, |sent|) && |sent| <= Total(reading.json)
        invariant failure.None? ==> |sent| == index
        invariant forall i: nat :: i < |sent| ==> MaySend(r, current, i) && (i + 1 < |sent| || failure.None? ==> delivers(i))
        invariant failure.Some? ==> exists i: nat :: i < Total(reading.json) && !(MaySend(r, current, i) && delivers(i))
        decreases Total(reading.json) - index, failure.None?
      {
        AllowedMeans(r, current(3 + index));
        if !Allowed(r, current(3 + index)) {
          assert !MaySend(r, current, index);
          failure := Some("The conversation changed.");
        } else {
          assert MaySend(r, current, index);
          sent := sent + [ChunkMessage(r, reading.json, index)];
          if !delivers(index) {
            assert !(MaySend(r, current, index) && delivers(index));
            failure := Some("The message could not be sent.");
          }
          index := index + 1;
        }
      }
    }
    if failure.Some? { sent := sent + [ErrorMessage(r, failure.value)]; }
  }

  // ---------------------------------------------------------------------------------------------
  // The Hub window.

  datatype Entry = Entry(request: Request, parts: seq<string>, total: Option<int>)

  datatype Outcome = Resolved(value: Json) | Rejected(reason: string)

  /** `settled` are the promises that have an outcome; settling one again has no effect. */
  datatype State = State(pending: map<string, Entry>, timers: set<string>, settled: map<string, Outcome>, requested: set<string>)

  datatype Action =
    | Ask(request: Request, current: Option<Snapshot>)
    | Receive(message: Message, current: Option<Snapshot>)
    | TimeOut(id: string)
    | SendFailed(id: string)
    | Cancel(reason: string)

  function Init(): State {
    State(map[], {}, map[], {})
  }

  /** Ids are random, so never used before; a timer fires only while it is set. */
  predicate Enabled(s: State, a: Action) {
    match a
    case Ask(r, _) => r.id !in s.requested
    case Receive(_, _) => true
    case TimeOut(id) => id in s.timers
    case SendFailed(id) => id in s.requested
    case Cancel(_) => true
  }

  function Settle(s: State, id: string, o: Outcome): State {
    if id in s.settled then s else s.(settled := s.settled[id := o])
  }

  /** The entry is dropped, its timer cleared, and its promise settled. */
  function Finish(s: State, id: string, o: Outcome): State {
    Settle(s.(pending := s.pending - {id}, timers := s.timers - {id}), id, o)
  }

  /** The shape and order checks on a chunk. */
  predicate Fits(e: Entry, m: Message) {
    && m.total.Some? && 1 <= m.total.value <= MAX_CHUNKS
    && m.index == Some(|e.parts|)
    && m.chunk.Some? && |m.chunk.value| <= CHUNK_SIZE
    && (e.total.Some? ==> m.total == e.total)
  }

  datatype Judgement = Ignored | Ends(outcome: Outcome) | Continues(parts: seq<string>)

  /** What a message does to the request it names. */
  function Judge(e: Entry, m: Message, current: Option<Snapshot>, parse: string -> Option<Json>): Judgement {
    if m.sessionId != e.request.sessionId || m.contextKey != e.request.contextKey then Ignored
    else if !Allowed(e.request, current) then Ends(Rejected("The conversation changed."))
    else if m.error.Some? then Ends(Rejected(m.error.value))
    else if !Fits(e, m) then Ends(Rejected("Invalid Hub file response."))
    else
      var parts := e.parts + [m.chunk.value];
      if |parts| != m.total.value then Continues(parts)
      else
        var value := parse(Join(parts));
        Ends(if value.Some? then Resolved(value.value) else Rejected("Invalid Hub file response."))
  }

  function Received(s: State, m: Message, current: Option<Snapshot>, parse: string -> Option<Json>): State {
    if m.id !in s.pending then s
    else
      var e := s.pending[m.id];
      match Judge(e, m, current, parse)
      case Ignored => s
      case Ends(outcome) => Finish(s, m.id, outcome)
      case Continues(parts) => s.(pending := s.pending[m.id := Entry(e.request, parts, m.total)])
  }

  function Next(s: State, a: Action, parse: string -> Option<Json>): State
    requires Enabled(s, a)
  {
    match a
    case Ask(r, current) =>
      var t := s.(requested := s.requested + {r.id});
      if !Allowed(r, current) then Settle(t, r.id, Rejected("Not allowed."))
      else t.(pending := s.pending[r.id := Entry(r, [], None)], timers := s.timers + {r.id})
    case Receive(m, current) => Received(s, m, current, parse)
    case TimeOut(id) => Finish(s, id, Rejected("The main window did not respond."))
    case SendFailed(id) => Finish(s, id, Rejected("The request could not be sent."))
    case Cancel(reason) =>
      s.(pending := map[], timers := s.timers - s.pending.Keys,
         settled := s.settled + map id | id in s.pending && id !in s.settled :: Rejected(reason))
  }

  function Run(s: State, actions: seq<Action>, parse: string -> Option<Json>): State
    decreases |actions|
  {
    if actions == [] then s
    else
      var t := Run(s, actions[..|actions| - 1], parse);
      var a := actions[|actions| - 1];
      if Enabled(t, a) then Next(t, a, parse) else t
  }

  /** Pending are exactly the requests without an outcome, each with a running timer. */
  ghost predicate Inv(s: State) {
    && s.timers == s.pending.Keys
    && s.pending.Keys !! s.settled.Keys
    && s.pending.Keys + s.settled.Keys == s.requested
    && (forall id :: id in s.pending ==> s.pending[id].request.id == id)
    && (forall id :: id in s.pending ==>
          if s.pending[id].total.Some? then |s.pending[id].parts| < s.pending[id].total.value else s.pending[id].parts == [])
  }

  lemma KeepsInv(s: State, a: Action, parse: string -> Option<Json>)
    requires Inv(s) && Enabled(s, a)
    ensures Inv(Next(s, a, parse))
    ensures forall id :: id in s.settled ==> id in Next(s, a, parse).settled && Next(s, a, parse).settled[id] == s.settled[id]
  {
    if a.Receive? {
      KeepsReceive(s, a.message, a.current, parse);
    }
  }

  lemma KeepsReceive(s: State, m: Message, current: Option<Snapshot>, parse: string -> Option<Json>)
    requires Inv(s)
    ensures Inv(Received(s, m, current, parse))
    ensures forall id :: id in s.settled ==>
              id in Received(s, m, current, parse).settled && Received(s, m, current, parse).settled[id] == s.settled[id]
  {
    if m.id in s.pending {
      match Judge(s.pending[m.id], m, current, parse)
      case Ignored =>
      case Ends(_) =>
      case Continues(parts) => assert Received(s, m, current, parse).pending.Keys == s.pending.Keys;
    }
  }

  lemma {:induction false} RunKeepsInv(s: State, actions: seq<Action>, parse: string -> Option<Json>)
    requires Inv(s)
    ensures Inv(Run(s, actions, parse))
    ensures forall id :: id in s.settled ==> id in Run(s, actions, parse).settled && Run(s, actions, parse).settled[id] == s.settled[id]
    decreases |actions|
  {
    if actions != [] {
      var front := actions[..|actions| - 1];
      RunKeepsInv(s, front, parse);
      var t := Run(s, front, parse);
      if Enabled(t, actions[|actions| - 1]) { KeepsInv(t, actions[|actions| - 1], parse); }
    }
  }

  // Main results.

  /**
   Every request is pending, with its timer running, or settled, and never both; and an outcome, once
   there, stays for good whatever happens afterwards.
   */
  lemma SettledOnce(before: seq<Action>, after: seq<Action>, parse: string -> Option<Json>)
    ensures var s := Run(Init(), before, parse);
            var t := Run(s, after, parse);
            && s.pending.Keys + s.settled.Keys == s.requested && s.pending.Keys !! s.settled.Keys && s.timers == s.pending.Keys
            && (forall id :: id in s.settled ==> id in t.settled && t.settled[id] == s.settled[id] && id !in t.pending)
  {
    RunKeepsInv(Init(), before, parse);
    RunKeepsInv(Run(Init(), before, parse), after, parse);
  }

  /** The entry of a request of which the first `k` chunks have arrived. */
  function Halfway(r: Request, json: string, k: nat): Entry {
    Entry(r, Chunks(json, k), if k == 0 then None else Some(Total(json)))
  }

  lemma NextChunk(parse: string -> Option<Json>, r: Request, json: string, current: Option<Snapshot>, k: nat)
    requires Allowed(r, current) && k < Total(json) <= MAX_CHUNKS
    ensures var j := Judge(Halfway(r, json, k), ChunkMessage(r, json, k), current, parse);
            if k + 1 < Total(json) then j == Continues(Chunks(json, k + 1))
            else parse(json).Some? ==> j == Ends(Resolved(parse(json).value))
  {
    ChunkingRoundTrip(json);
    assert |ChunkOf(json, k)| <= CHUNK_SIZE;
    assert Chunks(json, k) + [ChunkOf(json, k)] == Chunks(json, k + 1);
  }

  /** A message that the main window may have sent for request `r`, whose file reads as `json`. */
  ghost predicate FromMainWindow(m: Message, r: Request, json: string) {
    m.error.Some? || exists i: nat :: i < Total(json) && m == ChunkMessage(r, json, i)
  }

  ghost predicate GenuineAction(a: Action, r: Request, json: string) {
    && (a.Receive? && a.message.id == r.id ==> FromMainWindow(a.message, r, json))
    && (a.Ask? && a.request.id == r.id ==> a.request == r)
  }

  /** Whatever reaches the Hub window for request `r` was sent by the main window for it. */
  ghost predicate Genuine(actions: seq<Action>, r: Request, json: string) {
    forall a :: a in actions ==> GenuineAction(a, r, json)
  }

  /** The request is unknown, or holds a beginning of the text, or is rejected, or has the value. */
  ghost predicate OnlyTheValue(s: State, r: Request, json: string, value: Json) {
    && (r.id in s.pending ==>
          var e := s.pending[r.id];
          |e.parts| < Total(json) && e == Halfway(r, json, |e.parts|))
    && (r.id in s.settled && s.settled[r.id].Resolved? ==> s.settled[r.id].value == value)
  }

  lemma ReceiveKeepsValue(s: State, m: Message, current: Option<Snapshot>, parse: string -> Option<Json>, r: Request, json: string, value: Json)
    requires OnlyTheValue(s, r, json, value) && parse(json) == Some(value)
    requires m.id == r.id ==> FromMainWindow(m, r, json)
    ensures OnlyTheValue(Received(s, m, current, parse), r, json, value)
  {
    if m.id == r.id && r.id in s.pending && Allowed(r, current) && m.error.None? && Fits(s.pending[r.id], m) {
      NextChunk(parse, r, json, current, |s.pending[r.id].parts|);
    }
  }

  lemma NextKeepsValue(s: State, a: Action, parse: string -> Option<Json>, r: Request, json: string, value: Json)
    requires OnlyTheValue(s, r, json, value) && parse(json) == Some(value)
    requires Enabled(s, a) && GenuineAction(a, r, json)
    ensures OnlyTheValue(Next(s, a, parse), r, json, value)
  {
    if a.Receive? { ReceiveKeepsValue(s, a.message, a.current, parse, r, json, value); }
  }

  lemma {:induction false} RunKeepsValue(actions: seq<Action>, parse: string -> Option<Json>, r: Request, json: string, value: Json)
    requires Genuine(actions, r, json) && parse(json) == Some(value)
    ensures OnlyTheValue(Run(Init(), actions, parse), r, json, value)
    decreases |actions|
  {
    if actions != [] {
      var front, a := actions[..|actions| - 1], actions[|actions| - 1];
      RunKeepsValue(front, parse, r, json, value);
      if Enabled(Run(Init(), front, parse), a) { NextKeepsValue(Run(Init(), front, parse), a, parse, r, json, value); }
    }
  }

  /**
   Whatever is lost, repeated or reordered, and whatever else goes on, a request is never resolved with
   a value other than the one whose text the main window sent.
   */
  lemma NeverAnotherValue(actions: seq<Action>, parse: string -> Option<Json>, r: Request, json: string, value: Json)
    requires Genuine(actions, r, json) && parse(json) == Some(value)
    ensures var s := Run(Init(), actions, parse);
            r.id in s.requested ==>
              r.id in s.pending || (r.id in s.settled && (s.settled[r.id].Rejected? || s.settled[r.id] == Resolved(value)))
  {
    RunKeepsValue(actions, parse, r, json, value);
    RunKeepsInv(Init(), actions, parse);
  }

  function Deliveries(r: Request, json: string, k: nat, current: Option<Snapshot>): seq<Action> {
    seq(k, i requires 0 <= i < k => Receive(ChunkMessage(r, json, i), current))
  }

  lemma {:induction false} DeliverInOrder(s: State, parse: string -> Option<Json>, r: Request, json: string, current: Option<Snapshot>, k: nat)
    requires r.id in s.pending && s.pending[r.id] == Halfway(r, json, 0)
    requires Allowed(r, current) && k < Total(json) <= MAX_CHUNKS
    ensures Run(s, Deliveries(r, json, k, current), parse) == s.(pending := s.pending[r.id := Halfway(r, json, k)])
    decreases k
  {
    if k > 0 {
      var d := Deliveries(r, json, k, current);
      assert d[..k - 1] == Deliveries(r, json, k - 1, current);
      DeliverInOrder(s, parse, r, json, current, k - 1);
      NextChunk(parse, r, json, current, k - 1);
    } else {
      assert s.pending[r.id := Halfway(r, json, 0)] == s.pending;
    }
  }

  /**
   Delivered in order to a pending request, with the conversation unchanged, the chunks of a text that
   is not too long pass every check and resolve it with exactly the value of that text; nothing else
   changes.
   */
  lemma InOrderResolves(s: State, parse: string -> Option<Json>, r: Request, json: string, value: Json, current: Option<Snapshot>)
    requires Inv(s) && r.id in s.pending && s.pending[r.id] == Entry(r, [], None)
    requires Allowed(r, current) && Total(json) <= MAX_CHUNKS && parse(json) == Some(value)
    ensures var t := Run(s, Deliveries(r, json, Total(json), current), parse);
            && r.id in t.settled && t.settled[r.id] == Resolved(value) && t.settled == s.settled[r.id := Resolved(value)]
            && t.pending == s.pending - {r.id}
  {
    var n := Total(json);
    var d := Deliveries(r, json, n, current);
    assert d[..n - 1] == Deliveries(r, json, n - 1, current);
    assert Halfway(r, json, 0) == Entry(r, [], None);
    DeliverInOrder(s, parse, r, json, current, n - 1);
    NextChunk(parse, r, json, current, n - 1);
  }

  // ---------------------------------------------------------------------------------------------
  // What each step comes to, from every reachable state.

  /** The request is over with this outcome; no other request has changed. */
  ghost predicate IsOver(s: State, t: State, id: string, outcome: Outcome) {
    && t.pending == s.pending - {id} && t.timers == s.timers - {id} && t.requested == s.requested
    && t.settled == s.settled[id := outcome]
  }

  predicate FitsInPlace(parts: nat, total: Option<int>, m: Message) {
    && m.total.Some? && 1 <= m.total.value <= 512 && (total.None? || total == m.total)
    && m.index == Some(parts) && m.chunk.Some? && |m.chunk.value| <= 65536
  }

  /**
   A message for a waiting request of the same session and context ends it if the conversation has changed, if it
   reports an error, if its chunk is not the next one, or if that is the last one; otherwise the chunk is kept.
   */
  ghost predicate Receives(s: State, t: State, m: Message, current: Option<Snapshot>, parse: string -> Option<Json>) {
    if m.id !in s.pending then t == s
    else
      var e := s.pending[m.id];
      if m.sessionId != e.request.sessionId || m.contextKey != e.request.contextKey then t == s
      else if !IsPermitted(e.request, current) then exists why :: IsOver(s, t, m.id, Rejected(why))
      else if m.error.Some? then IsOver(s, t, m.id, Rejected(m.error.value))
      else if !FitsInPlace(|e.parts|, e.total, m) then exists why :: IsOver(s, t, m.id, Rejected(why))
      else if |e.parts| + 1 == m.total.value then
        var value := parse(Join(e.parts + [m.chunk.value]));
        if value.Some? then IsOver(s, t, m.id, Resolved(value.value)) else exists why :: IsOver(s, t, m.id, Rejected(why))
      else
        && t.pending == s.pending[m.id := Entry(e.request, e.parts + [m.chunk.value], m.total)]
        && t.(pending := s.pending) == s
  }

  ghost predicate Effects(s: State, t: State, a: Action, parse: string -> Option<Json>) {
    match a
    case Ask(r, current) =>
      if r.id in s.requested then t == s
      else
        && t.requested == s.requested + {r.id}
        && if IsPermitted(r, current) then
             t.pending == s.pending[r.id := Entry(r, [], None)] && t.timers == s.timers + {r.id} && t.settled == s.settled
           else
             && t.pending == s.pending && t.timers == s.timers && r.id in t.settled && t.settled[r.id].Rejected?
             && t.settled - {r.id} == s.settled
    case Receive(m, current) => Receives(s, t, m, current, parse)
    case TimeOut(id) => if id in s.pending then exists why :: IsOver(s, t, id, Rejected(why)) else t == s
    case SendFailed(id) => if id in s.pending then exists why :: IsOver(s, t, id, Rejected(why)) else t == s
    case Cancel(reason) =>
      && t.pending == map[] && t.timers == {} && t.requested == s.requested
      && (forall id :: id in t.settled <==> id in s.settled || id in s.pending)
      && (forall id :: id in t.settled ==> t.settled[id] == if id in s.pending then Rejected(reason) else s.settled[id])
  }

  function Step(s: State, a: Action, parse: string -> Option<Json>): State {
    if Enabled(s, a) then Next(s, a, parse) else s
  }

  lemma FinishEnds(s: State, id: string, outcome: Outcome)
    requires Inv(s) && id in s.pending
    ensures IsOver(s, Finish(s, id, outcome), id, outcome)
  {}

  lemma FinishNothing(s: State, id: string, outcome: Outcome)
    requires Inv(s) && id in s.settled
    ensures Finish(s, id, outcome) == s
  {}

  lemma AskStep(s: State, r: Request, current: Option<Snapshot>, parse: string -> Option<Json>)
    requires Inv(s)
    ensures Effects(s, Step(s, Ask(r, current), parse), Ask(r, current), parse)
  {
    AllowedMeans(r, current);
  }

  lemma ReceiveStep(s: State, m: Message, current: Option<Snapshot>, parse: string -> Option<Json>)
    requires Inv(s)
    ensures Receives(s, Received(s, m, current, parse), m, current, parse)
  {
    if m.id in s.pending {
      var e := s.pending[m.id];
      AllowedMeans(e.request, current);
      match Judge(e, m, current, parse)
      case Ignored =>
      case Ends(outcome) => FinishEnds(s, m.id, outcome);
      case Continues(_) =>
    }
  }

  lemma EndStep(s: State, a: Action, parse: string -> Option<Json>)
    requires Inv(s) && (a.TimeOut? || a.SendFailed? || a.Cancel?)
    ensures Effects(s, Step(s, a, parse), a, parse)
  {
    match a
    case TimeOut(id) => if id in s.pending { FinishEnds(s, id, Rejected("The main window did not respond.")); }
    case SendFailed(id) =>
      if id in s.pending { FinishEnds(s, id, Rejected("The request could not be sent.")); }
      else if id in s.requested { FinishNothing(s, id, Rejected("The request could not be sent.")); }
    case Cancel(_) =>
  }

  lemma StepEffects(s: State, a: Action, parse: string -> Option<Json>)
    requires Inv(s)
    ensures Effects(s, Step(s, a, parse), a, parse)
  {
    match a
    case Ask(r, current) => AskStep(s, r, current, parse);
    case Receive(m, current) => ReceiveStep(s, m, current, parse);
    case _ => EndStep(s, a, parse);
  }

  lemma RunStep(actions: seq<Action>, a: Action, parse: string -> Option<Json>)
    ensures Run(Init(), actions + [a], parse) == Step(Run(Init(), actions, parse), a, parse)
  {
    assert (actions + [a])[..|actions|] == actions;
  }

  /** In every run each step has just these effects. */
  lemma EveryStep(actions: seq<Action>, a: Action, parse: string -> Option<Json>)
    ensures Effects(Run(Init(), actions, parse), Run(Init(), actions + [a], parse), a, parse)
  {
    RunKeepsInv(Init(), actions, parse);
    RunStep(actions, a, parse);
    StepEffects(Run(Init(), actions, parse), a, parse);
  }

  /** The error of a failed request reaches its caller, and no one else's request is touched. */
  lemma ErrorArrives(actions: seq<Action>, r: Request, error: string, current: Option<Snapshot>, parse: string -> Option<Json>)
    requires var s := Run(Init(), actions, parse);
             r.id in s.pending && s.pending[r.id].request == r && IsPermitted(r, current)
    ensures var s, t := Run(Init(), actions, parse), Run(Init(), actions + [Receive(ErrorMessage(r, error), current)], parse);
            && t.settled == s.settled[r.id := Rejected(error)]
            && t.pending == s.pending - {r.id} && t.timers == s.timers - {r.id}
  {
    EveryStep(actions, Receive(ErrorMessage(r, error), current), parse);
  }

  // ---------------------------------------------------------------------------------------------
  // The client's own variables.

  class HubFileClient {
    var pending: map<string, Entry>
    var timers: set<string>
    var settled: map<string, Outcome>
    var requested: set<string>

    ghost function View(): State
      reads this
    {
      State(pending, timers, settled, requested)
    }

    constructor ()
      ensures View() == Init()
    {
      pending, timers, settled, requested := map[], {}, map[], {};
    }

    method Close(id: string, o: Outcome)
      modifies this
      ensures View() == Finish(old(View()), id, o)
    {
      timers := timers - {id};
      pending := pending - {id};
      if id !in settled { settled := settled[id := o]; }
    }

    method Ask(r: Request, current: Option<Snapshot>, parse: string -> Option<Json>)
      requires Enabled(View(), Action.Ask(r, current))
      modifies this
      ensures View() == Next(old(View()), Action.Ask(r, current), parse)
    {
      requested := requested + {r.id};
      if !Allowed(r, current) {
        if r.id !in settled { settled := settled[r.id := Rejected("Not allowed.")]; }
        return;
      }
      timers := timers + {r.id};
      pending := pending[r.id := Entry(r, [], None)];
    }

    method Receive(m: Message, current: Option<Snapshot>, parse: string -> Option<Json>)
      modifies this
      ensures View() == Next(old(View()), Action.Receive(m, current), parse)
    {
      if m.id !in pending { return; }
      var e := pending[m.id];
      if m.sessionId != e.request.sessionId || m.contextKey != e.request.contextKey { return; }
      if !Allowed(e.request, current) {
        Close(m.id, Rejected("The conversation changed."));
        return;
      }
      if m.error.Some? {
        Close(m.id, Rejected(m.error.value));
        return;
      }
      if !Fits(e, m) {
        Close(m.id, Rejected("Invalid Hub file response."));
        return;
      }
      var parts := e.parts + [m.chunk.value];
      pending := pending[m.id := Entry(e.request, parts, m.total)];
      if |parts| == m.total.value {
        var value := parse(Join(parts));
        Close(m.id, if value.Some? then Resolved(value.value) else Rejected("Invalid Hub file response."));
      }
    }

    method TimeOut(id: string, parse: string -> Option<Json>)
      requires Enabled(View(), Action.TimeOut(id))
      modifies this
      ensures View() == Next(old(View()), Action.TimeOut(id), parse)
    {
      Close(id, Rejected("The main window did not respond."));
    }

    method SendFailed(id: string, parse: string -> Option<Json>)
      requires Enabled(View(), Action.SendFailed(id))
      modifies this
      ensures View() == Next(old(View()), Action.SendFailed(id), parse)
    {
      Close(id, Rejected("The request could not be sent."));
    }

    method Cancel(reason: string, parse: string -> Option<Json>)
      modifies this
      ensures View() == Next(old(View()), Action.Cancel(reason), parse)
    {
      timers := timers - pending.Keys;
      settled := settled + map id | id in pending && id !in settled :: Rejected(reason);
      pending := map[];
    }
  }
}
