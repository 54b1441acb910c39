/**
 The stdio transport of the MCP client: frames are cut out of the server's output at line feeds,
 responses are matched to the requests that wait for them, and any failure ends them all.
 */
module StdioTransport {
  import opened SetFacts
  import opened Wrappers
  import opened JsonValues

  type Byte = bv8

  type Bytes = seq<Byte>

  const LINE_FEED: Byte := 0x0A
  const MAX_LINE_BYTES := 4 * 1024 * 1024

  // ---------------------------------------------------------------------------------------------
  // Framing.

  function IndexOf(b: Bytes): (i: int)
    ensures -1 <= i < |b|
    ensures i == -1 <==> LINE_FEED !in b
    ensures i >= 0 ==> b[i] == LINE_FEED && LINE_FEED !in b[..i]
  {
    if b == [] then -1
    else if b[0] == LINE_FEED then 0
    else
      var i := IndexOf(b[1..]);
      if i == -1 then -1 else
        assert b[..i + 1] == [b[0]] + b[1..][..i];
        i + 1
  }

  function Lines(b: Bytes): seq<Bytes>
    decreases |b|
  {
    var i := IndexOf(b);
    if i == -1 then [] else [b[..i]] + Lines(b[i + 1..])
  }

  function Rest(b: Bytes): Bytes
    decreases |b|
  {
    var i := IndexOf(b);
    if i == -1 then b else Rest(b[i + 1..])
  }

  function Joined(lines: seq<Bytes>, rest: Bytes): Bytes {
    if lines == [] then rest else lines[0] + [LINE_FEED] + Joined(lines[1..], rest)
  }

  predicate Unbroken(lines: seq<Bytes>, rest: Bytes) {
    LINE_FEED !in rest && forall k :: 0 <= k < |lines| ==> LINE_FEED !in lines[k]
  }

  lemma {:induction false} IndexAfterLine(line: Bytes, tail: Bytes)
    requires LINE_FEED !in line
    ensures IndexOf(line + [LINE_FEED] + tail) == |line|
    decreases |line|
  {
    if line != [] {
      assert (line + [LINE_FEED] + tail)[1..] == line[1..] + [LINE_FEED] + tail;
      IndexAfterLine(line[1..], tail);
    }
  }

  lemma CutAtLineFeed(b: Bytes)
    requires IndexOf(b) != -1
    ensures var i := IndexOf(b); b == b[..i] + [LINE_FEED] + b[i + 1..]
  {}

  /** Writing the lines and the rest down again gives the bytes. */
  lemma {:induction false} SplitJoins(b: Bytes)
    ensures Unbroken(Lines(b), Rest(b))
    ensures Joined(Lines(b), Rest(b)) == b
    decreases |b|
  {
    var i := IndexOf(b);
    if i != -1 {
      CutAtLineFeed(b);
      SplitJoins(b[i + 1..]);
      PrependLine(b[..i], Lines(b[i + 1..]), Rest(b[i + 1..]));
    }
  }

  lemma PrependLine(line: Bytes, lines: seq<Bytes>, rest: Bytes)
    ensures Joined([line] + lines, rest) == line + [LINE_FEED] + Joined(lines, rest)
    ensures LINE_FEED !in line && Unbroken(lines, rest) ==> Unbroken([line] + lines, rest)
  {
    assert ([line] + lines)[1..] == lines;
  }

  /** There is no other way to see the bytes as lines and a rest. */
  lemma {:induction false} SplitIsUnique(lines: seq<Bytes>, rest: Bytes)
    requires Unbroken(lines, rest)
    ensures Lines(Joined(lines, rest)) == lines && Rest(Joined(lines, rest)) == rest
    decreases |lines|
  {
    if lines != [] {
      var line, tail := lines[0], Joined(lines[1..], rest);
      IndexAfterLine(line, tail);
      var b := line + [LINE_FEED] + tail;
      assert b[..|line|] == line && b[|line| + 1..] == tail;
      SplitIsUnique(lines[1..], rest);
    }
  }

  lemma {:induction false} JoinedAppend(lines: seq<Bytes>, more: seq<Bytes>, rest: Bytes)
    ensures Joined(lines + more, rest) == Joined(lines, Joined(more, rest))
    decreases |lines|
  {
    if lines == [] {
      assert lines + more == more;
    } else {
      assert (lines + more)[1..] == lines[1..] + more;
      JoinedAppend(lines[1..], more, rest);
    }
  }

  lemma {:induction false} JoinedTail(lines: seq<Bytes>, rest: Bytes, c: Bytes)
    ensures Joined(lines, rest) + c == Joined(lines, rest + c)
    decreases |lines|
  {
    if lines != [] { JoinedTail(lines[1..], rest, c); }
  }

  /** What arrives later only continues the rest. */
  lemma SplitConcat(a: Bytes, c: Bytes)
    ensures Lines(a + c) == Lines(a) + Lines(Rest(a) + c)
    ensures Rest(a + c) == Rest(Rest(a) + c)
  {
    var more, rest := Lines(Rest(a) + c), Rest(Rest(a) + c);
    SplitJoins(a);
    SplitJoins(Rest(a) + c);
    JoinedTail(Lines(a), Rest(a), c);
    JoinedAppend(Lines(a), more, rest);
    SplitIsUnique(Lines(a) + more, rest);
  }

  // ---------------------------------------------------------------------------------------------
  // State and steps.

  datatype Body = Reply(result: Option<Json>) | Failure(detail: string)

  /**
   What a line is. The key of a response is the number its id stands for, and None when that is no
   number a request can have.
   */
  datatype Frame = NotAFrame | ServerCall(id: Option<Json>) | Response(key: Option<int>, body: Body)

  datatype Outcome = Resolved(result: Option<Json>) | Rejected(error: string)

  datatype Written = Question(id: int, asking: string) | Notification(notifying: string) | MethodNotFound(of: Json)

  datatype Asked = Asked(method_: string, at: nat)

  /** How lines parse, and the error, if any, that the n-th write to the server meets. */
  datatype Env = Env(parse: Bytes -> Frame, broken: nat -> Option<string>)

  /**
   `seen` and `heard` record the lines handled and those handled before any failure; `asked` records
   each request and how many lines had been heard when it was made.
   */
  datatype State = State(
    buffer: Bytes, pending: map<int, string>, nextId: int, failure: Option<string>, closed: bool,
    settled: map<int, Outcome>, written: seq<Written>,
    seen: seq<Bytes>, heard: seq<Bytes>, asked: map<int, Asked>)

  datatype Action =
    | Data(chunk: Bytes)
    | Deadline(error: string)
    | StartError(error: string)
    | Exit(error: string)
    | Request(asking: string)
    | Notify(notifying: string)
    | Close

  function Init(): State {
    State([], map[], 1, None, false, map[], [], [], [], map[])
  }

  /** The deadline is cancelled by closing. */
  predicate Enabled(s: State, a: Action) {
    a.Deadline? ==> !s.closed
  }

  function Rejections(ids: set<int>, error: string): map<int, Outcome> {
    map id | id in ids :: Rejected(error)
  }

  function FailAll(s: State, error: string): State {
    s.(failure := if s.failure.Some? then s.failure else Some(error),
       pending := map[],
       settled := s.settled + Rejections(s.pending.Keys, error))
  }

  function Send(s: State, w: Written, env: Env): State {
    var t := s.(written := s.written + [w]);
    var broken := env.broken(|s.written|);
    if broken.Some? then FailAll(t, broken.value) else t
  }

  function Answer(asking: string, body: Body): Outcome {
    match body
    case Reply(result) => Resolved(result)
    case Failure(detail) => Rejected("The server answered " + asking + " with an error" + detail)
  }

  function OnFrame(s: State, frame: Frame, env: Env): State {
    match frame
    case NotAFrame => s
    case ServerCall(id) => if id.Some? then Send(s, MethodNotFound(id.value), env) else s
    case Response(key, body) =>
      if key.None? || key.value !in s.pending then s
      else s.(pending := s.pending - {key.value},
              settled := s.settled[key.value := Answer(s.pending[key.value], body)])
  }

  function Heard(s: State, line: Bytes): State {
    s.(seen := s.seen + [line], heard := if s.failure.None? then s.heard + [line] else s.heard)
  }

  function OnLine(s: State, line: Bytes, env: Env): State {
    OnFrame(Heard(s, line), env.parse(line), env)
  }

  function OnLines(s: State, lines: seq<Bytes>, env: Env): State
    decreases |lines|
  {
    if lines == [] then s else OnLines(OnLine(s, lines[0], env), lines[1..], env)
  }

  function Capped(s: State): State {
    if |s.buffer| > MAX_LINE_BYTES then FailAll(s, "The server wrote a frame larger than 4 MiB.") else s
  }

  /** The whole lines in the buffer are handled, and the rest stays. */
  function Handled(s: State, env: Env): State {
    OnLines(s.(buffer := Rest(s.buffer)), Lines(s.buffer), env)
  }

  function OnData(s: State, chunk: Bytes, env: Env): State {
    Capped(Handled(s.(buffer := s.buffer + chunk), env))
  }

  function OnRequest(s: State, asking: string, env: Env): State {
    if s.failure.Some? then s
    else
      Send(s.(nextId := s.nextId + 1,
              pending := s.pending[s.nextId := asking],
              asked := s.asked[s.nextId := Asked(asking, |s.heard|)]),
           Question(s.nextId, asking), env)
  }

  function Next(s: State, a: Action, env: Env): State {
    match a
    case Data(chunk) => OnData(s, chunk, env)
    case Deadline(error) => FailAll(s, error)
    case StartError(error) => FailAll(s, error)
    case Exit(error) => if s.closed then s else FailAll(s, error)
    case Request(asking) => OnRequest(s, asking, env)
    case Notify(notifying) => if s.failure.Some? then s else Send(s, Notification(notifying), env)
    case Close => s.(closed := true)
  }

  function Step(s: State, a: Action, env: Env): State {
    if Enabled(s, a) then Next(s, a, env) else s
  }

  function Run(s: State, actions: seq<Action>, env: Env): State
    decreases |actions|
  {
    if actions == [] then s else Step(Run(s, actions[..|actions| - 1], env), actions[|actions| - 1], env)
  }

  // ---------------------------------------------------------------------------------------------
  // The invariant.

  /** The body of the first response with this key. */
  function FirstAnswer(lines: seq<Bytes>, id: int, parse: Bytes -> Frame): Option<Body>
    decreases |lines|
  {
    if lines == [] then None
    else
      var earlier := FirstAnswer(lines[..|lines| - 1], id, parse);
      var frame := parse(lines[|lines| - 1]);
      if earlier.Some? then earlier
      else if frame.Response? && frame.key == Some(id) then Some(frame.body)
      else None
  }

  /**
   What a request must have come to: the first response with its id that was heard after it was made,
   otherwise the failure, otherwise nothing yet.
   */
  function Expected(s: State, id: int, parse: Bytes -> Frame): Option<Outcome>
    requires id in s.asked && s.asked[id].at <= |s.heard|
  {
    var answer := FirstAnswer(s.heard[s.asked[id].at..], id, parse);
    if answer.Some? then Some(Answer(s.asked[id].method_, answer.value))
    else if s.failure.Some? then Some(Rejected(s.failure.value))
    else None
  }

  ghost predicate Tracked(s: State, id: int, parse: Bytes -> Frame) {
    && (id in s.asked <==> 1 <= id < s.nextId)
    && (id in s.asked <==> id in s.pending || id in s.settled)
    && (id in s.pending ==> id !in s.settled)
    && (id in s.asked ==> s.asked[id].at <= |s.heard|)
    && (id in s.pending ==> s.pending[id] == s.asked[id].method_ && Expected(s, id, parse).None?)
    && (id in s.settled ==> Expected(s, id, parse) == Some(s.settled[id]))
  }

  ghost predicate Inv(s: State, env: Env) {
    && s.nextId >= 1
    && (s.failure.Some? ==> s.pending == map[])
    && (forall id :: Tracked(s, id, env.parse))
  }

  lemma FailAllKeepsInv(s: State, error: string, env: Env)
    requires Inv(s, env)
    ensures Inv(FailAll(s, error), env)
  {
    var t := FailAll(s, error);
    forall id ensures Tracked(t, id, env.parse) {
      assert Tracked(s, id, env.parse);
    }
  }

  lemma SendKeepsInv(s: State, w: Written, env: Env)
    requires Inv(s, env)
    ensures Inv(Send(s, w, env), env)
  {
    var t := s.(written := s.written + [w]);
    assert Inv(t, env) by {
      forall id ensures Tracked(t, id, env.parse) { assert Tracked(s, id, env.parse); }
    }
    var broken := env.broken(|s.written|);
    if broken.Some? { FailAllKeepsInv(t, broken.value, env); }
  }

  /** A line that is no response to `id` changes nothing for it. */
  lemma HeardKeepsTracked(s: State, line: Bytes, env: Env, id: int)
    requires Tracked(s, id, env.parse)
    requires s.failure.Some? || !(env.parse(line).Response? && env.parse(line).key == Some(id)) || id !in s.pending
    ensures Tracked(Heard(s, line), id, env.parse)
  {
    if id in s.asked && s.failure.None? {
      var at := s.asked[id].at;
      var later := (s.heard + [line])[at..];
      assert later[..|later| - 1] == s.heard[at..];
    }
  }

  lemma AnswerKeepsTracked(s: State, line: Bytes, env: Env, id: int)
    requires Tracked(s, id, env.parse) && s.failure.None? && id in s.pending
    requires env.parse(line).Response? && env.parse(line).key == Some(id)
    ensures Tracked(OnLine(s, line, env), id, env.parse)
  {
    var at := s.asked[id].at;
    var later := (s.heard + [line])[at..];
    assert later[..|later| - 1] == s.heard[at..];
  }

  lemma OnLineKeepsInv(s: State, line: Bytes, env: Env)
    requires Inv(s, env)
    ensures Inv(OnLine(s, line, env), env)
  {
    var frame := env.parse(line);
    if frame.Response? && frame.key.Some? && frame.key.value in s.pending {
      var t := OnLine(s, line, env);
      forall id ensures Tracked(t, id, env.parse) {
        assert Tracked(s, id, env.parse);
        if id == frame.key.value { AnswerKeepsTracked(s, line, env, id); } else { HeardKeepsTracked(s, line, env, id); }
      }
    } else {
      var t := Heard(s, line);
      forall id ensures Tracked(t, id, env.parse) {
        assert Tracked(s, id, env.parse);
        HeardKeepsTracked(s, line, env, id);
      }
      if frame.ServerCall? && frame.id.Some? { SendKeepsInv(t, MethodNotFound(frame.id.value), env); }
    }
  }

  lemma {:induction false} OnLinesKeepsInv(s: State, lines: seq<Bytes>, env: Env)
    requires Inv(s, env)
    ensures Inv(OnLines(s, lines, env), env)
    decreases |lines|
  {
    if lines != [] {
      OnLineKeepsInv(s, lines[0], env);
      OnLinesKeepsInv(OnLine(s, lines[0], env), lines[1..], env);
    }
  }

  /** The invariant reads neither the bytes nor the closed flag. */
  lemma OtherFieldsKeepInv(s: State, env: Env, buffer: Bytes, closed: bool)
    requires Inv(s, env)
    ensures Inv(s.(buffer := buffer, closed := closed), env)
  {
    forall id ensures Tracked(s.(buffer := buffer, closed := closed), id, env.parse) {
      assert Tracked(s, id, env.parse);
    }
  }

  lemma RequestKeepsInv(s: State, asking: string, env: Env)
    requires Inv(s, env)
    ensures Inv(OnRequest(s, asking, env), env)
  {
    if s.failure.None? {
      var t := s.(nextId := s.nextId + 1,
                  pending := s.pending[s.nextId := asking],
                  asked := s.asked[s.nextId := Asked(asking, |s.heard|)]);
      forall id ensures Tracked(t, id, env.parse) {
        assert Tracked(s, id, env.parse);
        if id == s.nextId { assert t.heard[|s.heard|..] == []; }
      }
      SendKeepsInv(t, Question(s.nextId, asking), env);
    }
  }

  lemma NextKeepsInv(s: State, a: Action, env: Env)
    requires Inv(s, env)
    ensures Inv(Next(s, a, env), env)
  {
    match a
    case Data(chunk) =>
      var b := s.buffer + chunk;
      OtherFieldsKeepInv(s, env, Rest(b), s.closed);
      var t := s.(buffer := Rest(b));
      OnLinesKeepsInv(t, Lines(b), env);
      FailAllKeepsInv(OnLines(t, Lines(b), env), "The server wrote a frame larger than 4 MiB.", env);
    case Deadline(error) => FailAllKeepsInv(s, error, env);
    case StartError(error) => FailAllKeepsInv(s, error, env);
    case Exit(error) => FailAllKeepsInv(s, error, env);
    case Request(asking) => RequestKeepsInv(s, asking, env);
    case Notify(notifying) => SendKeepsInv(s, Notification(notifying), env);
    case Close => OtherFieldsKeepInv(s, env, s.buffer, true);
  }

  lemma {:induction false} RunKeepsInv(s: State, actions: seq<Action>, env: Env)
    requires Inv(s, env)
    ensures Inv(Run(s, actions, env), env)
    decreases |actions|
  {
    if actions != [] {
      RunKeepsInv(s, actions[..|actions| - 1], env);
      NextKeepsInv(Run(s, actions[..|actions| - 1], env), actions[|actions| - 1], env);
    }
  }

  lemma InitHasInv(env: Env)
    ensures Inv(Init(), env)
  {
    forall id ensures Tracked(Init(), id, env.parse) {}
  }

  // ---------------------------------------------------------------------------------------------
  // What never changes again.

  /** `t` comes later than `s`. */
  ghost predicate Later(s: State, t: State) {
    && (forall id :: id in s.settled ==> id in t.settled && t.settled[id] == s.settled[id])
    && (forall id :: id in s.asked ==> id in t.asked && t.asked[id] == s.asked[id])
    && s.heard <= t.heard
    && (s.failure.Some? ==>
          t.failure == s.failure && t.pending == map[] && t.settled == s.settled && t.nextId == s.nextId && t.heard == s.heard)
  }

  ghost predicate Apart(s: State) {
    && (forall id :: id in s.settled ==> id !in s.pending)
    && (s.failure.Some? ==> s.pending == map[])
  }

  lemma InvApart(s: State, env: Env)
    requires Inv(s, env)
    ensures Apart(s) && s.nextId !in s.asked && s.nextId !in s.settled
  {
    forall id | id in s.settled ensures id !in s.pending { assert Tracked(s, id, env.parse); }
    assert Tracked(s, s.nextId, env.parse);
  }

  lemma LaterTransitive(s: State, t: State, u: State)
    requires Later(s, t) && Later(t, u)
    ensures Later(s, u)
  {}

  lemma FailAllIsLater(s: State, error: string)
    requires Apart(s)
    ensures Later(s, FailAll(s, error))
  {}

  lemma SendIsLater(s: State, w: Written, env: Env)
    requires Apart(s)
    ensures Later(s, Send(s, w, env))
  {
    var broken := env.broken(|s.written|);
    if broken.Some? { FailAllIsLater(s, broken.value); }
  }

  lemma OnLineIsLater(s: State, line: Bytes, env: Env)
    requires Apart(s)
    ensures Later(s, OnLine(s, line, env))
  {
    var t := Heard(s, line);
    assert Apart(t) && Later(s, t);
    match env.parse(line)
    case NotAFrame =>
    case ServerCall(id) =>
      if id.Some? {
        SendIsLater(t, MethodNotFound(id.value), env);
        LaterTransitive(s, t, OnLine(s, line, env));
      }
    case Response(_, _) =>
  }

  lemma {:induction false} OnLinesIsLater(s: State, lines: seq<Bytes>, env: Env)
    requires Inv(s, env)
    ensures Later(s, OnLines(s, lines, env))
    decreases |lines|
  {
    if lines != [] {
      var t := OnLine(s, lines[0], env);
      InvApart(s, env);
      OnLineIsLater(s, lines[0], env);
      OnLineKeepsInv(s, lines[0], env);
      OnLinesIsLater(t, lines[1..], env);
      LaterTransitive(s, t, OnLines(t, lines[1..], env));
    }
  }

  lemma CappedIsLater(s: State)
    requires Apart(s)
    ensures Later(s, Capped(s))
  {
    FailAllIsLater(s, "The server wrote a frame larger than 4 MiB.");
  }

  lemma DataIsLater(s: State, chunk: Bytes, env: Env)
    requires Inv(s, env)
    ensures Later(s, OnData(s, chunk, env))
  {
    var b := s.buffer + chunk;
    OtherFieldsKeepInv(s, env, Rest(b), s.closed);
    var t := s.(buffer := Rest(b));
    OnLinesIsLater(t, Lines(b), env);
    OnLinesKeepsInv(t, Lines(b), env);
    var u := OnLines(t, Lines(b), env);
    InvApart(u, env);
    CappedIsLater(u);
    assert Later(s, t);
    LaterTransitive(s, t, u);
    LaterTransitive(s, u, Capped(u));
  }

  lemma RequestIsLater(s: State, asking: string, env: Env)
    requires Inv(s, env)
    ensures Later(s, OnRequest(s, asking, env))
  {
    InvApart(s, env);
    if s.failure.None? {
      var t := s.(nextId := s.nextId + 1,
                  pending := s.pending[s.nextId := asking],
                  asked := s.asked[s.nextId := Asked(asking, |s.heard|)]);
      assert Apart(t) && Later(s, t);
      SendIsLater(t, Question(s.nextId, asking), env);
      LaterTransitive(s, t, OnRequest(s, asking, env));
    }
  }

  lemma NextIsLater(s: State, a: Action, env: Env)
    requires Inv(s, env)
    ensures Later(s, Next(s, a, env))
  {
    InvApart(s, env);
    match a
    case Data(chunk) => DataIsLater(s, chunk, env);
    case Deadline(error) => FailAllIsLater(s, error);
    case StartError(error) => FailAllIsLater(s, error);
    case Exit(error) => FailAllIsLater(s, error);
    case Request(asking) => RequestIsLater(s, asking, env);
    case Notify(notifying) => SendIsLater(s, Notification(notifying), env);
    case Close =>
  }

  lemma {:induction false} RunIsLater(s: State, actions: seq<Action>, env: Env)
    requires Inv(s, env)
    ensures Later(s, Run(s, actions, env))
    decreases |actions|
  {
    if actions != [] {
      var front := actions[..|actions| - 1];
      RunIsLater(s, front, env);
      RunKeepsInv(s, front, env);
      NextIsLater(Run(s, front, env), actions[|actions| - 1], env);
    }
  }

  // ---------------------------------------------------------------------------------------------
  // Lines and chunks.

  lemma {:induction false} OnLinesAppend(s: State, lines: seq<Bytes>, more: seq<Bytes>, env: Env)
    ensures OnLines(s, lines + more, env) == OnLines(OnLines(s, lines, env), more, env)
    decreases |lines|
  {
    if lines == [] {
      assert lines + more == more;
    } else {
      assert (lines + more)[1..] == lines[1..] + more;
      OnLinesAppend(OnLine(s, lines[0], env), lines[1..], more, env);
    }
  }

  lemma SendBuffer(s: State, w: Written, buffer: Bytes, env: Env)
    ensures Send(s.(buffer := buffer), w, env) == Send(s, w, env).(buffer := buffer)
    ensures Send(s, w, env).buffer == s.buffer && Send(s, w, env).seen == s.seen
  {}

  /** Handling a line never looks at the buffer. */
  lemma OnLineBuffer(s: State, line: Bytes, buffer: Bytes, env: Env)
    ensures OnLine(s.(buffer := buffer), line, env) == OnLine(s, line, env).(buffer := buffer)
    ensures OnLine(s, line, env).buffer == s.buffer
    ensures OnLine(s, line, env).seen == s.seen + [line]
  {
    var t := Heard(s, line);
    assert Heard(s.(buffer := buffer), line) == t.(buffer := buffer);
    match env.parse(line)
    case NotAFrame =>
    case ServerCall(id) => if id.Some? { SendBuffer(t, MethodNotFound(id.value), buffer, env); }
    case Response(_, _) =>
  }

  lemma {:induction false} OnLinesBuffer(s: State, lines: seq<Bytes>, buffer: Bytes, env: Env)
    ensures OnLines(s.(buffer := buffer), lines, env) == OnLines(s, lines, env).(buffer := buffer)
    decreases |lines|
  {
    if lines != [] {
      OnLineBuffer(s, lines[0], buffer, env);
      OnLinesBuffer(OnLine(s, lines[0], env), lines[1..], buffer, env);
    }
  }

  lemma {:induction false} OnLinesLog(s: State, lines: seq<Bytes>, env: Env)
    ensures OnLines(s, lines, env).buffer == s.buffer
    ensures OnLines(s, lines, env).seen == s.seen + lines
    decreases |lines|
  {
    if lines != [] {
      OnLineBuffer(s, lines[0], [], env);
      OnLinesLog(OnLine(s, lines[0], env), lines[1..], env);
      assert s.seen + [lines[0]] + lines[1..] == s.seen + lines;
    }
  }

  lemma OnDataLog(s: State, chunk: Bytes, env: Env)
    ensures OnData(s, chunk, env).buffer == Rest(s.buffer + chunk)
    ensures OnData(s, chunk, env).seen == s.seen + Lines(s.buffer + chunk)
  {
    OnLinesLog(s.(buffer := Rest(s.buffer + chunk)), Lines(s.buffer + chunk), env);
  }

  lemma OtherActionsLog(s: State, a: Action, env: Env)
    requires !a.Data?
    ensures Next(s, a, env).buffer == s.buffer && Next(s, a, env).seen == s.seen
  {}

  /** All that the server wrote. */
  function Received(actions: seq<Action>): Bytes
    decreases |actions|
  {
    if actions == [] then []
    else
      var a := actions[|actions| - 1];
      Received(actions[..|actions| - 1]) + if a.Data? then a.chunk else []
  }

  function Chunks(chunks: seq<Bytes>): (actions: seq<Action>)
    ensures |actions| == |chunks| && forall k :: 0 <= k < |chunks| ==> actions[k] == Data(chunks[k])
  {
    seq(|chunks|, k requires 0 <= k < |chunks| => Data(chunks[k]))
  }

  predicate Fit(lines: seq<Bytes>) {
    forall k :: 0 <= k < |lines| ==> |lines[k]| <= MAX_LINE_BYTES
  }

  /** No line of `b`, finished or not, passes the cap. */
  predicate Short(b: Bytes) {
    |Rest(b)| <= MAX_LINE_BYTES && Fit(Lines(b))
  }

  lemma FitParts(lines: seq<Bytes>, more: seq<Bytes>)
    requires Fit(lines + more)
    ensures Fit(lines) && Fit(more)
  {
    forall k | 0 <= k < |more| ensures |more[k]| <= MAX_LINE_BYTES {
      assert (lines + more)[|lines| + k] == more[k];
    }
    forall k | 0 <= k < |lines| ensures |lines[k]| <= MAX_LINE_BYTES {
      assert (lines + more)[k] == lines[k];
    }
  }

  /** An unfinished line is a beginning of the next line. */
  lemma {:induction false} RestGrows(rest: Bytes, c: Bytes)
    requires LINE_FEED !in rest
    ensures if IndexOf(rest + c) == -1 then Rest(rest + c) == rest + c
            else Lines(rest + c) != [] && |rest| <= |Lines(rest + c)[0]|
    decreases |rest|
  {
    if rest != [] {
      assert (rest + c)[1..] == rest[1..] + c;
      RestGrows(rest[1..], c);
    }
  }

  lemma ShortPrefix(a: Bytes, c: Bytes)
    requires Short(a + c)
    ensures Short(a) && Short(Rest(a) + c)
  {
    SplitConcat(a, c);
    SplitJoins(a);
    FitParts(Lines(a), Lines(Rest(a) + c));
    RestGrows(Rest(a), c);
  }

  // Main results.

  /**
   However the server's output is cut into chunks and whatever happens in between, the lines handled are
   those of all the bytes it wrote, in order, and the buffer holds the unfinished rest.
   */
  lemma {:induction false} LinesOfAllBytes(actions: seq<Action>, env: Env)
    ensures var s := Run(Init(), actions, env);
            s.seen == Lines(Received(actions)) && s.buffer == Rest(Received(actions))
    decreases |actions|
  {
    if actions != [] {
      var front, a := actions[..|actions| - 1], actions[|actions| - 1];
      LinesOfAllBytes(front, env);
      var s := Run(Init(), front, env);
      if a.Data? {
        SplitConcat(Received(front), a.chunk);
        OnDataLog(s, a.chunk, env);
      } else {
        OtherActionsLog(s, a, env);
        assert Received(actions) == Received(front);
      }
    }
  }

  lemma OneMoreChunk(s: State, b: Bytes, c: Bytes, env: Env)
    requires |Rest(b + c)| <= MAX_LINE_BYTES
    ensures OnData(OnLines(s.(buffer := Rest(b)), Lines(b), env), c, env) ==
            OnLines(s.(buffer := Rest(b + c)), Lines(b + c), env)
  {
    var t, x, more := s.(buffer := Rest(b)), s.(buffer := Rest(b + c)), Lines(Rest(b) + c);
    SplitConcat(b, c);
    OnLinesLog(t, Lines(b), env);
    OnLinesBuffer(t, Lines(b), Rest(b + c), env);
    var u := OnLines(x, Lines(b), env);
    OnLinesLog(x, Lines(b), env);
    OnLinesLog(u, more, env);
    OnLinesAppend(x, Lines(b), more, env);
  }

  lemma ReceivedChunks(chunks: seq<Bytes>)
    requires chunks != []
    ensures Received(Chunks(chunks)) == Received(Chunks(chunks[..|chunks| - 1])) + chunks[|chunks| - 1]
  {
    assert Chunks(chunks)[..|chunks| - 1] == Chunks(chunks[..|chunks| - 1]);
  }

  lemma RunChunks(s: State, chunks: seq<Bytes>, env: Env)
    requires chunks != []
    ensures var n := |chunks| - 1;
            Run(s, Chunks(chunks), env) == OnData(Run(s, Chunks(chunks[..n]), env), chunks[n], env)
  {
    var n := |chunks| - 1;
    var front := Run(s, Chunks(chunks[..n]), env);
    assert Chunks(chunks)[..n] == Chunks(chunks[..n]);
    assert Run(s, Chunks(chunks), env) == Step(front, Data(chunks[n]), env);
  }

  lemma NothingArrived(s: State, env: Env)
    requires LINE_FEED !in s.buffer
    ensures s == OnLines(s.(buffer := Rest(s.buffer)), Lines(s.buffer), env)
  {}

  lemma ChunkAfterChunks(s: State, chunks: seq<Bytes>, b: Bytes, env: Env)
    requires chunks != []
    requires var n := |chunks| - 1;
             && |Rest(b + chunks[n])| <= MAX_LINE_BYTES
             && Run(s, Chunks(chunks[..n]), env) == OnLines(s.(buffer := Rest(b)), Lines(b), env)
    ensures var n := |chunks| - 1;
            Run(s, Chunks(chunks), env) == OnLines(s.(buffer := Rest(b + chunks[n])), Lines(b + chunks[n]), env)
  {
    var n := |chunks| - 1;
    RunChunks(s, chunks, env);
    OneMoreChunk(s, b, chunks[n], env);
  }

  lemma {:induction false} OneChunkAtATime(s: State, chunks: seq<Bytes>, env: Env)
    requires LINE_FEED !in s.buffer && Short(s.buffer + Received(Chunks(chunks)))
    ensures var b := s.buffer + Received(Chunks(chunks));
            Run(s, Chunks(chunks), env) == OnLines(s.(buffer := Rest(b)), Lines(b), env)
    decreases |chunks|
  {
    if chunks == [] {
      assert s.buffer + Received(Chunks(chunks)) == s.buffer;
      NothingArrived(s, env);
    } else {
      var front, c := chunks[..|chunks| - 1], chunks[|chunks| - 1];
      var b := s.buffer + Received(Chunks(front));
      ReceivedChunks(chunks);
      assert b + c == s.buffer + Received(Chunks(chunks));
      ShortPrefix(b, c);
      OneChunkAtATime(s, front, env);
      ChunkAfterChunks(s, chunks, b, env);
    }
  }

  /**
   As long as no line, finished or not, passes the cap, two ways of cutting the same bytes lead to the
   very same state: same outcomes, same answers to the server, same requests still waiting.
   */
  lemma CuttingDoesNotMatter(s: State, chunks: seq<Bytes>, others: seq<Bytes>, env: Env)
    requires LINE_FEED !in s.buffer && Short(s.buffer + Received(Chunks(chunks)))
    requires Received(Chunks(chunks)) == Received(Chunks(others))
    ensures Run(s, Chunks(chunks), env) == Run(s, Chunks(others), env)
  {
    OneChunkAtATime(s, chunks, env);
    OneChunkAtATime(s, others, env);
  }

  ghost predicate NeverBroken(env: Env) {
    forall n :: env.broken(n).None?
  }

  lemma {:induction false} OnLinesDoNotFail(s: State, lines: seq<Bytes>, env: Env)
    requires NeverBroken(env)
    ensures OnLines(s, lines, env).failure == s.failure
    decreases |lines|
  {
    if lines != [] {
      assert OnLine(s, lines[0], env).failure == s.failure;
      OnLinesDoNotFail(OnLine(s, lines[0], env), lines[1..], env);
    }
  }

  lemma OnDataFails(s: State, chunk: Bytes, env: Env)
    requires NeverBroken(env)
    ensures OnData(s, chunk, env).failure.Some? <==> s.failure.Some? || |Rest(s.buffer + chunk)| > MAX_LINE_BYTES
  {
    var t := s.(buffer := Rest(s.buffer + chunk));
    OnLinesDoNotFail(t, Lines(s.buffer + chunk), env);
    OnLinesLog(t, Lines(s.buffer + chunk), env);
  }

  /** After the first `k` chunks the unfinished line is too long. */
  predicate TooLong(chunks: seq<Bytes>, k: int)
    requires 0 <= k <= |chunks|
  {
    |Rest(Received(Chunks(chunks[..k])))| > MAX_LINE_BYTES
  }

  /**
   The cap is on what is left in the buffer after a chunk: with a server that can be written to, the
   transport fails exactly when, after one of the chunks, the unfinished line is too long.
   */
  lemma {:induction false} FailsOnlyOnUnfinishedLines(chunks: seq<Bytes>, env: Env)
    requires NeverBroken(env)
    ensures Run(Init(), Chunks(chunks), env).failure.Some? <==> exists k :: 0 < k <= |chunks| && TooLong(chunks, k)
    decreases |chunks|
  {
    if chunks != [] {
      var n := |chunks|;
      var front, c := chunks[..n - 1], chunks[n - 1];
      var s := Run(Init(), Chunks(front), env);
      assert Chunks(chunks)[..n - 1] == Chunks(front);
      FailsOnlyOnUnfinishedLines(front, env);
      OnDataFails(s, c, env);
      LinesOfAllBytes(Chunks(front), env);
      SplitConcat(Received(Chunks(front)), c);
      assert chunks[..n] == chunks;
      LastTooLong(chunks);
    }
  }

  lemma LastTooLong(chunks: seq<Bytes>)
    requires chunks != []
    ensures var n := |chunks|;
            (exists k :: 0 < k <= n && TooLong(chunks, k)) <==>
            (var front := chunks[..n - 1]; exists k :: 0 < k <= n - 1 && TooLong(front, k)) || TooLong(chunks, n)
  {
    var front := chunks[..|chunks| - 1];
    forall k | 0 < k <= |front| ensures TooLong(front, k) == TooLong(chunks, k) {
      assert front[..k] == chunks[..k];
    }
    if k :| 0 < k <= |front| && TooLong(front, k) { assert TooLong(chunks, k); }
    if k :| 0 < k <= |front| && TooLong(chunks, k) { assert TooLong(front, k); }
  }

  lemma WithItsLineFeed(long: Bytes)
    requires LINE_FEED !in long
    ensures Rest(long + [LINE_FEED]) == []
  {
    IndexAfterLine(long, []);
    assert long + [LINE_FEED] + [] == long + [LINE_FEED];
    assert (long + [LINE_FEED])[|long| + 1..] == [];
  }

  lemma OneChunkFails(chunk: Bytes, env: Env)
    requires NeverBroken(env)
    ensures Run(Init(), Chunks([chunk]), env).failure.Some? <==> |Rest(chunk)| > MAX_LINE_BYTES
  {
    assert [] + chunk == chunk;
    assert Chunks([chunk])[..0] == [];
    assert Run(Init(), [], env) == Init();
    OnDataFails(Init(), chunk, env);
  }

  lemma Passes(long: Bytes, env: Env)
    requires NeverBroken(env) && LINE_FEED !in long
    ensures Run(Init(), Chunks([long + [LINE_FEED]]), env).failure.None?
  {
    var line := long + [LINE_FEED];
    WithItsLineFeed(long);
    OneChunkFails(line, env);
  }

  lemma Stops(long: Bytes, more: Bytes, env: Env)
    requires NeverBroken(env) && |long| > MAX_LINE_BYTES && LINE_FEED !in long
    ensures Run(Init(), Chunks([long, more]), env).failure.Some?
  {
    assert Rest(long) == long;
    OneChunkFails(long, env);
    assert Chunks([long, more])[..1] == Chunks([long]);
    OnDataFails(Run(Init(), Chunks([long]), env), more, env);
  }

  /**
   So the cap is not one on lines: a line one byte too long passes when its line feed comes in the same
   chunk, and ends the transport when it comes in the next.
   */
  lemma LongLineMayPass(long: Bytes, env: Env)
    requires NeverBroken(env) && |long| == MAX_LINE_BYTES + 1 && LINE_FEED !in long
    ensures Received(Chunks([long + [LINE_FEED]])) == Received(Chunks([long, [LINE_FEED]]))
    ensures Run(Init(), Chunks([long + [LINE_FEED]]), env).failure.None?
    ensures Run(Init(), Chunks([long, [LINE_FEED]]), env).failure.Some?
  {
    var whole, cut := [long + [LINE_FEED]], [long, [LINE_FEED]];
    ReceivedChunks(whole);
    ReceivedChunks(cut);
    ReceivedChunks([long]);
    assert whole[..0] == [] && cut[..1] == [long] && [long][..0] == [];
    Passes(long, env);
    Stops(long, [LINE_FEED], env);
  }

  /**
   In every run, each request waits or has exactly one outcome, and the outcome is the first response
   with its id that came in after it was made and before any failure, or else the first failure.
   */
  lemma EachRequestGetsItsAnswer(actions: seq<Action>, env: Env, id: int)
    ensures var s := Run(Init(), actions, env);
            && (id in s.asked <==> 1 <= id < s.nextId)
            && (id in s.asked <==> id in s.pending || id in s.settled) && !(id in s.pending && id in s.settled)
            && (id in s.asked ==> s.asked[id].at <= |s.heard|)
            && (id in s.asked ==> Expected(s, id, env.parse) == if id in s.settled then Some(s.settled[id]) else None)
            && (s.failure.Some? ==> s.pending == map[])
  {
    InitHasInv(env);
    RunKeepsInv(Init(), actions, env);
    assert Tracked(Run(Init(), actions, env), id, env.parse);
  }

  /**
   What a settled request has been given: the result of the first response to it, or a rejection naming the detail
   of the error that response carries, or, when no response came in time, a rejection with the first failure.
   */
  lemma OutcomesAreTheServers(actions: seq<Action>, env: Env, id: int)
    requires id in Run(Init(), actions, env).settled
    ensures var s := Run(Init(), actions, env);
            && id in s.asked && s.asked[id].at <= |s.heard|
            && match FirstAnswer(s.heard[s.asked[id].at..], id, env.parse)
               case Some(Reply(result)) => s.settled[id] == Resolved(result)
               case Some(Failure(detail)) =>
                 && s.settled[id].Rejected? && |detail| <= |s.settled[id].error|
                 && s.settled[id].error[|s.settled[id].error| - |detail|..] == detail
               case None => s.failure.Some? && s.settled[id] == Rejected(s.failure.value)
  {
    EachRequestGetsItsAnswer(actions, env, id);
  }

  ghost predicate HearsWhatItSees(s: State) {
    s.heard <= s.seen && (s.failure.None? ==> s.heard == s.seen)
  }

  lemma SendHears(s: State, w: Written, env: Env)
    requires HearsWhatItSees(s)
    ensures HearsWhatItSees(Send(s, w, env))
  {}

  lemma OnLineHears(s: State, line: Bytes, env: Env)
    requires HearsWhatItSees(s)
    ensures HearsWhatItSees(OnLine(s, line, env))
  {
    var t := Heard(s, line);
    match env.parse(line)
    case NotAFrame =>
    case ServerCall(id) => if id.Some? { SendHears(t, MethodNotFound(id.value), env); }
    case Response(_, _) =>
  }

  lemma {:induction false} OnLinesHear(s: State, lines: seq<Bytes>, env: Env)
    requires HearsWhatItSees(s)
    ensures HearsWhatItSees(OnLines(s, lines, env))
    decreases |lines|
  {
    if lines != [] {
      OnLineHears(s, lines[0], env);
      OnLinesHear(OnLine(s, lines[0], env), lines[1..], env);
    }
  }

  lemma NextHears(s: State, a: Action, env: Env)
    requires HearsWhatItSees(s)
    ensures HearsWhatItSees(Next(s, a, env))
  {
    if a.Data? {
      OnLinesHear(s.(buffer := Rest(s.buffer + a.chunk)), Lines(s.buffer + a.chunk), env);
    }
  }

  /** Every line handled counts as heard up to the first failure, and from then on none does. */
  lemma {:induction false} HeardUntilFailure(actions: seq<Action>, env: Env)
    ensures HearsWhatItSees(Run(Init(), actions, env))
    decreases |actions|
  {
    if actions != [] {
      var front := actions[..|actions| - 1];
      HeardUntilFailure(front, env);
      NextHears(Run(Init(), front, env), actions[|actions| - 1], env);
    }
  }

  // What each step comes to, from every reachable state.

  /** The first failure stays, and whoever waits is rejected with this one. */
  ghost predicate Fails(s: State, t: State, error: string) {
    && t.failure == (if s.failure.Some? then s.failure else Some(error)) && t.pending == map[]
    && (forall id :: id in t.settled <==> id in s.settled || id in s.pending)
    && (forall id :: id in t.settled ==>
          t.settled[id] == if id in s.pending then Rejected(error) else s.settled[id])
    && t.(failure := s.failure, pending := s.pending, settled := s.settled) == s
  }

  /** The message is written, and if that throws everything fails. */
  ghost predicate Sends(s: State, t: State, w: Written, env: Env) {
    && t.written == s.written + [w]
    && match env.broken(|s.written|)
       case None => t.(written := s.written) == s
       case Some(error) => Fails(s, t.(written := s.written), error)
  }

  /** After a failure a call is refused; otherwise it waits under the next id, and its question is sent. */
  ghost predicate Asks(s: State, t: State, asking: string, env: Env) {
    if s.failure.Some? then t == s
    else
      Sends(s.(nextId := s.nextId + 1, pending := s.pending[s.nextId := asking], asked := s.asked[s.nextId := Asked(asking, |s.heard|)]),
            t, Question(s.nextId, asking), env)
  }

  ghost predicate NoLineFailed(s: State, t: State, env: Env) {
    forall n :: |s.written| <= n < |t.written| ==> env.broken(n).None?
  }

  /**
   A chunk makes no call and settles only waiting ones; it is answered by nothing but refusals; and it fails the
   transport exactly if one of these cannot be written or an unfinished line is too long.
   */
  ghost predicate Receives(s: State, t: State, chunk: Bytes, env: Env) {
    && t.nextId == s.nextId && t.asked == s.asked && t.closed == s.closed
    && (forall id :: id in t.pending ==> id in s.pending && t.pending[id] == s.pending[id])
    && (forall id :: id in t.settled ==> id in s.settled || id in s.pending)
    && s.written <= t.written && (forall n :: |s.written| <= n < |t.written| ==> t.written[n].MethodNotFound?)
    && t.buffer == Rest(s.buffer + chunk) && t.seen == s.seen + Lines(s.buffer + chunk)
    && (t.failure.None? <==> s.failure.None? && NoLineFailed(s, t, env) && |t.buffer| <= MAX_LINE_BYTES)
  }

  ghost predicate Effects(s: State, t: State, a: Action, env: Env) {
    match a
    case Data(chunk) => Receives(s, t, chunk, env)
    case Deadline(error) => if s.closed then t == s else Fails(s, t, error)
    case StartError(error) => Fails(s, t, error)
    case Exit(error) => if s.closed then t == s else Fails(s, t, error)
    case Request(asking) => Asks(s, t, asking, env)
    case Notify(notifying) => if s.failure.Some? then t == s else Sends(s, t, Notification(notifying), env)
    case Close => t == s.(closed := true)
  }

  /** What one line, or several, may change. */
  ghost predicate Handles(s: State, t: State, env: Env) {
    && t.nextId == s.nextId && t.asked == s.asked && t.closed == s.closed
    && (forall id :: id in t.pending ==> id in s.pending && t.pending[id] == s.pending[id])
    && (forall id :: id in t.settled ==> id in s.settled || id in s.pending)
    && s.written <= t.written && (forall n :: |s.written| <= n < |t.written| ==> t.written[n].MethodNotFound?)
    && (t.failure.None? <==> s.failure.None? && NoLineFailed(s, t, env))
  }

  lemma SendHandles(s: State, id: Json, env: Env)
    ensures Handles(s, Send(s, MethodNotFound(id), env), env)
  {
    var t := Send(s, MethodNotFound(id), env);
    assert |t.written| == |s.written| + 1;
    if NoLineFailed(s, t, env) { assert env.broken(|s.written|).None?; }
  }

  lemma OnLineHandles(s: State, line: Bytes, env: Env)
    ensures Handles(s, OnLine(s, line, env), env)
  {
    var t := Heard(s, line);
    match env.parse(line)
    case NotAFrame =>
    case ServerCall(id) => if id.Some? { SendHandles(t, id.value, env); }
    case Response(_, _) =>
  }

  lemma HandlesMore(s: State, t: State, u: State, env: Env)
    requires Handles(s, t, env) && Handles(t, u, env)
    ensures Handles(s, u, env)
  {}

  lemma {:induction false} OnLinesHandle(s: State, lines: seq<Bytes>, env: Env)
    ensures Handles(s, OnLines(s, lines, env), env)
    decreases |lines|
  {
    if lines != [] {
      var t := OnLine(s, lines[0], env);
      OnLineHandles(s, lines[0], env);
      OnLinesHandle(t, lines[1..], env);
      HandlesMore(s, t, OnLines(t, lines[1..], env), env);
    }
  }

  lemma CappedReceives(s: State, u: State, chunk: Bytes, env: Env)
    requires Handles(s, u, env) && u.buffer == Rest(s.buffer + chunk) && u.seen == s.seen + Lines(s.buffer + chunk)
    ensures Receives(s, Capped(u), chunk, env)
  {
    CappedFailure(s, u, env);
    var t := Capped(u);
    assert t.(failure := u.failure, pending := u.pending, settled := u.settled) == u;
    forall id | id in t.settled ensures id in s.settled || id in s.pending {
      assert id in u.settled || id in u.pending;
    }
  }

  /** The cap is the only further reason to fail. */
  lemma CappedFailure(s: State, u: State, env: Env)
    requires Handles(s, u, env)
    ensures Capped(u).failure.None? <==> s.failure.None? && NoLineFailed(s, Capped(u), env) && |u.buffer| <= MAX_LINE_BYTES
  {
    assert Capped(u).written == u.written;
    assert NoLineFailed(s, Capped(u), env) <==> NoLineFailed(s, u, env);
  }

  lemma DataStep(s: State, chunk: Bytes, env: Env)
    ensures Receives(s, OnData(s, chunk, env), chunk, env)
  {
    var t := s.(buffer := Rest(s.buffer + chunk));
    OnLinesHandle(t, Lines(s.buffer + chunk), env);
    OnLinesLog(t, Lines(s.buffer + chunk), env);
    assert Handles(s, t, env);
    HandlesMore(s, t, OnLines(t, Lines(s.buffer + chunk), env), env);
    CappedReceives(s, OnLines(t, Lines(s.buffer + chunk), env), chunk, env);
  }

  lemma FailAllFails(s: State, error: string)
    ensures Fails(s, FailAll(s, error), error)
  {}

  lemma SendStep(s: State, w: Written, env: Env)
    ensures Sends(s, Send(s, w, env), w, env)
  {
    var broken := env.broken(|s.written|);
    if broken.Some? { FailAllFails(s.(written := s.written + [w]), broken.value); }
  }

  lemma RequestStep(s: State, asking: string, env: Env)
    ensures Asks(s, OnRequest(s, asking, env), asking, env)
  {
    if s.failure.None? {
      SendStep(s.(nextId := s.nextId + 1, pending := s.pending[s.nextId := asking], asked := s.asked[s.nextId := Asked(asking, |s.heard|)]),
               Question(s.nextId, asking), env);
    }
  }

  lemma StepEffects(s: State, a: Action, env: Env)
    ensures Effects(s, Step(s, a, env), a, env)
  {
    match a
    case Data(chunk) => DataStep(s, chunk, env);
    case Deadline(error) => FailAllFails(s, error);
    case StartError(error) => FailAllFails(s, error);
    case Exit(error) => FailAllFails(s, error);
    case Request(asking) => RequestStep(s, asking, env);
    case Notify(notifying) => SendStep(s, Notification(notifying), env);
    case Close =>
  }

  /** In every run each step has just these effects. */
  lemma EveryStep(actions: seq<Action>, a: Action, env: Env)
    ensures Effects(Run(Init(), actions, env), Run(Init(), actions + [a], env), a, env)
  {
    assert (actions + [a])[..|actions|] == actions;
    assert Run(Init(), actions + [a], env) == Step(Run(Init(), actions, env), a, env);
    StepEffects(Run(Init(), actions, env), a, env);
  }

  /**
   An outcome never changes, and from the first failure on nothing does: no request waits, none is
   added, none is settled again, and the failure stays the first one.
   */
  lemma FailureIsFinal(before: seq<Action>, after: seq<Action>, env: Env)
    ensures Later(Run(Init(), before, env), Run(Run(Init(), before, env), after, env))
  {
    InitHasInv(env);
    RunKeepsInv(Init(), before, env);
    RunIsLater(Run(Init(), before, env), after, env);
  }

  lemma {:induction false} OnLinesKeepClosed(s: State, lines: seq<Bytes>, env: Env)
    ensures OnLines(s, lines, env).closed == s.closed
    decreases |lines|
  {
    if lines != [] { OnLinesKeepClosed(OnLine(s, lines[0], env), lines[1..], env); }
  }

  lemma NextClosed(s: State, a: Action, env: Env)
    ensures Next(s, a, env).closed <==> s.closed || a.Close?
  {
    if a.Data? {
      OnLinesKeepClosed(s.(buffer := Rest(s.buffer + a.chunk)), Lines(s.buffer + a.chunk), env);
    }
  }

  lemma {:induction false} ClosedByClose(actions: seq<Action>, env: Env)
    ensures Run(Init(), actions, env).closed <==> Close in actions
    decreases |actions|
  {
    if actions != [] {
      var front, a := actions[..|actions| - 1], actions[|actions| - 1];
      assert actions == front + [a];
      ClosedByClose(front, env);
      NextClosed(Run(Init(), front, env), a, env);
    }
  }

  lemma {:induction false} FirstAnswerAppend(lines: seq<Bytes>, more: seq<Bytes>, id: int, parse: Bytes -> Frame)
    ensures FirstAnswer(lines + more, id, parse) ==
            if FirstAnswer(lines, id, parse).Some? then FirstAnswer(lines, id, parse) else FirstAnswer(more, id, parse)
    decreases |more|
  {
    var all := lines + more;
    if more == [] {
      assert all == lines;
    } else {
      assert all[..|all| - 1] == lines + more[..|more| - 1];
      FirstAnswerAppend(lines, more[..|more| - 1], id, parse);
    }
  }

  /** What a request that waits in `s` is answered with is among the lines heard since. */
  lemma WaitsOn(s: State, t: State, env: Env, id: int)
    requires Inv(s, env) && Inv(t, env) && Later(s, t) && id in s.pending
    ensures id in t.pending <==> t.failure.None? && FirstAnswer(t.heard[|s.heard|..], id, env.parse).None?
  {
    assert Tracked(s, id, env.parse) && Tracked(t, id, env.parse);
    var at, n := s.asked[id].at, |s.heard|;
    assert t.heard[at..] == s.heard[at..] + t.heard[n..];
    FirstAnswerAppend(s.heard[at..], t.heard[n..], id, env.parse);
  }

  lemma AfterTheExit(s: State, error: string, after: seq<Action>, env: Env, id: int)
    requires Inv(s, env) && id in s.pending
    ensures var t := Run(Next(s, Exit(error), env), after, env);
            && |s.heard| <= |t.heard|
            && (id in t.settled <==> id !in t.pending)
            && (id in t.pending <==> s.closed && t.failure.None? && FirstAnswer(t.heard[|s.heard|..], id, env.parse).None?)
            && (!s.closed ==>
                t.pending == map[] && t.failure == Some(error) && id in t.settled && t.settled[id] == Rejected(error))
  {
    var gone := Next(s, Exit(error), env);
    NextKeepsInv(s, Exit(error), env);
    assert Tracked(s, id, env.parse) && s.failure.None?;
    RunIsLater(gone, after, env);
    RunKeepsInv(gone, after, env);
    assert Tracked(Run(gone, after, env), id, env.parse);
    if s.closed {
      WaitsOn(s, Run(s, after, env), env, id);
    } else {
      assert gone.failure == Some(error) && id in gone.settled;
    }
  }

  /**
   Once the server has gone, a request that was waiting for it goes on waiting exactly if the transport had
   been closed before and neither an answer to it nor a failure has come since; without a close the exit
   itself rejects it.
   */
  lemma WhoWaitsForAServerThatIsGone(before: seq<Action>, error: string, after: seq<Action>, env: Env, id: int)
    requires id in Run(Init(), before, env).pending
    ensures var s := Run(Init(), before, env);
            var t := Run(Next(s, Exit(error), env), after, env);
            && |s.heard| <= |t.heard|
            && (id in t.settled <==> id !in t.pending)
            && (id in t.pending <==>
                Close in before && t.failure.None? && FirstAnswer(t.heard[|s.heard|..], id, env.parse).None?)
            && (Close !in before ==>
                t.pending == map[] && t.failure == Some(error) && id in t.settled && t.settled[id] == Rejected(error))
  {
    InitHasInv(env);
    RunKeepsInv(Init(), before, env);
    ClosedByClose(before, env);
    AfterTheExit(Run(Init(), before, env), error, after, env, id);
  }

  /**
   So whoever waited for the server is told in the end exactly if there was no close before it went, or there
   has been a failure since, or every one of them has been answered since.
   */
  lemma WhenAllAreSettled(before: seq<Action>, error: string, after: seq<Action>, env: Env)
    ensures var s := Run(Init(), before, env);
            var t := Run(Next(s, Exit(error), env), after, env);
            && |s.heard| <= |t.heard|
            && ((forall id :: id in s.pending ==> id in t.settled) <==>
                || Close !in before
                || t.failure.Some?
                || forall id :: id in s.pending ==> FirstAnswer(t.heard[|s.heard|..], id, env.parse).Some?)
  {
    var s := Run(Init(), before, env);
    var t := Run(Next(s, Exit(error), env), after, env);
    InitHasInv(env);
    RunKeepsInv(Init(), before, env);
    NextIsLater(s, Exit(error), env);
    NextKeepsInv(s, Exit(error), env);
    RunIsLater(Next(s, Exit(error), env), after, env);
    forall id | id in s.pending
      ensures id in t.settled <==>
              Close !in before || t.failure.Some? || FirstAnswer(t.heard[|s.heard|..], id, env.parse).Some?
    {
      WhoWaitsForAServerThatIsGone(before, error, after, env, id);
    }
  }

  /** The deadline, the end of the server, and closing. */
  predicate Passing(a: Action) {
    a.Deadline? || a.Exit? || a.Close?
  }

  ghost predicate EndsNoWait(a: Action, env: Env) {
    Passing(a) || (NeverBroken(env) && (a.Request? || a.Notify?))
  }

  lemma StepEndsNoWait(s: State, a: Action, env: Env)
    requires s.closed && EndsNoWait(a, env)
    ensures var t := Step(s, a, env);
            && t.closed && t.failure == s.failure && t.settled == s.settled
            && (forall id :: id in s.pending ==> id in t.pending)
            && (Passing(a) ==> t == s)
  {}

  /**
   After closing, no deadline, exit or further close changes anything, and as long as the server can be
   written to no further call ends a wait either: only a line from the server could.
   */
  lemma {:induction false} ClosedWaitsForEver(before: seq<Action>, after: seq<Action>, env: Env)
    requires Close in before
    requires forall a :: a in after ==> EndsNoWait(a, env)
    ensures var s := Run(Init(), before, env);
            var t := Run(s, after, env);
            && t.closed && t.failure == s.failure && t.settled == s.settled
            && (forall id :: id in s.pending ==> id in t.pending)
            && ((forall a :: a in after ==> Passing(a)) ==> t == s)
    decreases |after|
  {
    ClosedByClose(before, env);
    if after != [] {
      var front, a := after[..|after| - 1], after[|after| - 1];
      assert after == front + [a];
      ClosedWaitsForEver(before, front, env);
      StepEndsNoWait(Run(Run(Init(), before, env), front, env), a, env);
    }
  }

  /** It happens: asked, closed, gone, and whatever timers fire after that. */
  lemma AskedThenClosed(asking: string, error: string, after: seq<Action>, env: Env)
    requires NeverBroken(env) && forall a :: a in after ==> Passing(a)
    ensures var before := [Action.Request(asking), Close];
            var s := Run(Next(Run(Init(), before, env), Exit(error), env), after, env);
            s.pending == map[1 := asking] && s.failure.None? && s.settled == map[]
  {
    var call, close := [Action.Request(asking)], [Action.Request(asking), Close];
    assert call[..0] == [] && close[..1] == call;
    assert Run(Init(), [], env) == Init();
    assert Run(Init(), call, env) == Next(Init(), call[0], env);
    assert Run(Init(), call, env).pending == map[1 := asking];
    var s := Run(Init(), close, env);
    assert s == Run(Init(), call, env).(closed := true);
    assert Next(s, Exit(error), env) == s;
    ClosedWaitsForEver(close, after, env);
  }

  /** The ids the server's own requests carry. */
  function Calls(lines: seq<Bytes>, parse: Bytes -> Frame): seq<Json>
    decreases |lines|
  {
    if lines == [] then []
    else
      var frame := parse(lines[|lines| - 1]);
      Calls(lines[..|lines| - 1], parse) + if frame.ServerCall? && frame.id.Some? then [frame.id.value] else []
  }

  function Refusals(written: seq<Written>): seq<Json>
    decreases |written|
  {
    if written == [] then []
    else
      var w := written[|written| - 1];
      Refusals(written[..|written| - 1]) + if w.MethodNotFound? then [w.of] else []
  }

  lemma WriteRefusals(s: State, w: Written, env: Env)
    ensures Send(s, w, env).seen == s.seen
    ensures Refusals(Send(s, w, env).written) == Refusals(s.written) + if w.MethodNotFound? then [w.of] else []
  {
    assert (s.written + [w])[..|s.written|] == s.written;
  }

  lemma {:induction false} RefusesLines(s: State, lines: seq<Bytes>, env: Env)
    requires Refusals(s.written) == Calls(s.seen, env.parse)
    ensures Refusals(OnLines(s, lines, env).written) == Calls(OnLines(s, lines, env).seen, env.parse)
    decreases |lines|
  {
    if lines != [] {
      var frame := env.parse(lines[0]);
      var t := Heard(s, lines[0]);
      assert t.seen[..|s.seen|] == s.seen;
      if frame.ServerCall? && frame.id.Some? { WriteRefusals(t, MethodNotFound(frame.id.value), env); }
      RefusesLines(OnLine(s, lines[0], env), lines[1..], env);
    }
  }

  lemma NextRefuses(s: State, a: Action, env: Env)
    requires !a.Data?
    ensures Refusals(Next(s, a, env).written) == Refusals(s.written)
  {
    if a.Request? && s.failure.None? {
      var t := s.(nextId := s.nextId + 1,
                  pending := s.pending[s.nextId := a.asking],
                  asked := s.asked[s.nextId := Asked(a.asking, |s.heard|)]);
      WriteRefusals(t, Question(s.nextId, a.asking), env);
    } else if a.Notify? && s.failure.None? {
      WriteRefusals(s, Notification(a.notifying), env);
    }
  }

  /** Every request the server makes is refused once, with its own id, in the order they came. */
  lemma {:induction false} EveryServerCallIsRefused(actions: seq<Action>, env: Env)
    ensures Refusals(Run(Init(), actions, env).written) == Calls(Lines(Received(actions)), env.parse)
    decreases |actions|
  {
    LinesOfAllBytes(actions, env);
    if actions != [] {
      var front, a := actions[..|actions| - 1], actions[|actions| - 1];
      EveryServerCallIsRefused(front, env);
      LinesOfAllBytes(front, env);
      var s := Run(Init(), front, env);
      if a.Data? {
        RefusesLines(s.(buffer := Rest(s.buffer + a.chunk)), Lines(s.buffer + a.chunk), env);
      } else {
        NextRefuses(s, a, env);
        assert Received(actions) == Received(front);
      }
    }
  }

  function AfterOne(s: State, env: Env): State
    requires IndexOf(s.buffer) != -1
  {
    var i := IndexOf(s.buffer);
    OnLine(s.(buffer := s.buffer[i + 1..]), s.buffer[..i], env)
  }

  lemma LinesAfterFirst(b: Bytes)
    requires IndexOf(b) != -1
    ensures var i := IndexOf(b); Lines(b) == [b[..i]] + Lines(b[i + 1..]) && Rest(b) == Rest(b[i + 1..])
  {}

  lemma OnLinesFirst(s: State, line: Bytes, lines: seq<Bytes>, env: Env)
    ensures OnLines(s, [line] + lines, env) == OnLines(OnLine(s, line, env), lines, env)
  {
    assert ([line] + lines)[1..] == lines;
  }

  lemma OnLineRebuffered(s: State, line: Bytes, x: Bytes, y: Bytes, env: Env)
    ensures OnLine(s.(buffer := x), line, env).buffer == x
    ensures OnLine(s.(buffer := x), line, env).(buffer := y) == OnLine(s.(buffer := y), line, env)
  {
    OnLineBuffer(s, line, x, env);
    OnLineBuffer(s, line, y, env);
  }

  lemma HandleRest(s: State, x: State, y: State, line: Bytes, env: Env)
    requires Lines(s.buffer) == [line] + Lines(x.buffer) && Rest(s.buffer) == Rest(x.buffer)
    requires x.(buffer := Rest(x.buffer)) == y
    requires OnLines(s.(buffer := Rest(s.buffer)), [line] + Lines(x.buffer), env) == OnLines(y, Lines(x.buffer), env)
    ensures Handled(x, env) == Handled(s, env)
  {}

  lemma AfterOneRebuffered(s: State, env: Env)
    requires IndexOf(s.buffer) != -1
    ensures var i, x := IndexOf(s.buffer), AfterOne(s, env);
            && x.buffer == s.buffer[i + 1..]
            && x.(buffer := Rest(x.buffer)) == OnLine(s.(buffer := Rest(x.buffer)), s.buffer[..i], env)
  {
    var i := IndexOf(s.buffer);
    OnLineRebuffered(s, s.buffer[..i], s.buffer[i + 1..], Rest(s.buffer[i + 1..]), env);
  }

  lemma HandleOne(s: State, env: Env)
    requires IndexOf(s.buffer) != -1
    ensures Handled(AfterOne(s, env), env) == Handled(s, env)
  {
    var i, x := IndexOf(s.buffer), AfterOne(s, env);
    LinesAfterFirst(s.buffer);
    AfterOneRebuffered(s, env);
    var z := s.(buffer := Rest(x.buffer));
    OnLinesFirst(z, s.buffer[..i], Lines(x.buffer), env);
    HandleRest(s, x, x.(buffer := Rest(x.buffer)), s.buffer[..i], env);
  }

  // ---------------------------------------------------------------------------------------------
  // The transport's own variables.

  lemma NothingToHandle(s: State, env: Env)
    requires IndexOf(s.buffer) == -1
    ensures Handled(s, env) == s
  {}

  lemma RejectOne(base: map<int, Outcome>, all: set<int>, waiting: set<int>, id: int, error: string)
    requires id in waiting && waiting <= all
    ensures (base + Rejections(all - waiting, error))[id := Rejected(error)] == base + Rejections(all - (waiting - {id}), error)
  {
    assert all - (waiting - {id}) == all - waiting + {id};
  }

  class Transport {
    var buffer: Bytes
    var pending: map<int, string>
    var nextId: int
    var failure: Option<string>
    var closed: bool
    var settled: map<int, Outcome>
    var written: seq<Written>
    ghost var seen: seq<Bytes>
    ghost var heard: seq<Bytes>
    ghost var asked: map<int, Asked>

    ghost function View(): State
      reads this
    {
      State(buffer, pending, nextId, failure, closed, settled, written, seen, heard, asked)
    }

    constructor ()
      ensures View() == Init()
    {
      buffer, pending, nextId, failure, closed := [], map[], 1, None, false;
      settled, written := map[], [];
      seen, heard, asked := [], [], map[];
    }

    method RejectWaiting(error: string)
      modifies this`pending, this`settled
      ensures pending == map[]
      ensures settled == old(settled) + Rejections(old(pending).Keys, error)
    {
      var waiting := pending.Keys;
      ghost var all := waiting;
      while |waiting| > 0
        invariant waiting == pending.Keys && waiting <= all
        invariant settled == old(settled) + Rejections(all - waiting, error)
        decreases waiting
      {
        ghost var any := HasElement(waiting);
        var id :| id in waiting;
        RejectOne(old(settled), all, waiting, id, error);
        waiting := waiting - {id};
        pending := pending - {id};
        settled := settled[id := Rejected(error)];
      }
      assert all - waiting == all;
    }

    method RejectAll(error: string)
      modifies this`failure, this`pending, this`settled
      ensures View() == FailAll(old(View()), error)
    {
      if failure.None? { failure := Some(error); }
      RejectWaiting(error);
    }

    method Write(w: Written, env: Env)
      modifies this`failure, this`pending, this`settled, this`written
      ensures View() == Send(old(View()), w, env)
    {
      var broken := env.broken(|written|);
      written := written + [w];
      if broken.Some? { RejectAll(broken.value); }
    }

    method OnMessage(frame: Frame, env: Env)
      modifies this`failure, this`pending, this`settled, this`written
      ensures View() == OnFrame(old(View()), frame, env)
    {
      match frame
      case NotAFrame =>
      case ServerCall(id) =>
        if id.Some? { Write(MethodNotFound(id.value), env); }
      case Response(key, body) =>
        if key.None? || key.value !in pending { return; }
        var asking := pending[key.value];
        pending := pending - {key.value};
        settled := settled[key.value := Answer(asking, body)];
    }

    method Process(line: Bytes, env: Env, ghost s: State)
      requires View() == s
      modifies this`failure, this`pending, this`settled, this`written, this`seen, this`heard
      ensures View() == OnLine(s, line, env)
    {
      seen, heard := seen + [line], if failure.None? then heard + [line] else heard;
      OnMessage(env.parse(line), env);
    }

    /** One turn of the loop. */
    method HandleLine(newline: int, env: Env)
      requires newline == IndexOf(buffer) != -1
      modifies this
      ensures View() == AfterOne(old(View()), env)
      ensures |buffer| < |old(buffer)|
    {
      var line := buffer[..newline];
      ghost var s := View().(buffer := buffer[newline + 1..]);
      assert AfterOne(View(), env) == OnLine(s, line, env);
      buffer := buffer[newline + 1..];
      assert View() == s;
      Process(line, env, s);
    }

    method HandleBuffer(env: Env)
      modifies this
      ensures View() == Handled(old(View()), env)
    {
      var newline := IndexOf(buffer);
      while newline != -1
        invariant newline == IndexOf(buffer)
        invariant Handled(View(), env) == Handled(old(View()), env)
        decreases |buffer|
      {
        HandleOne(View(), env);
        HandleLine(newline, env);
        newline := IndexOf(buffer);
      }
      NothingToHandle(View(), env);
    }

    method OnChunk(chunk: Bytes, env: Env)
      modifies this
      ensures View() == Next(old(View()), Data(chunk), env)
    {
      buffer := if |buffer| == 0 then chunk else buffer + chunk;
      assert buffer == old(buffer) + chunk;
      HandleBuffer(env);
      if |buffer| > MAX_LINE_BYTES { RejectAll("The server wrote a frame larger than 4 MiB."); }
    }

    method OnDeadline(error: string, env: Env)
      requires Enabled(View(), Deadline(error))
      modifies this
      ensures View() == Next(old(View()), Deadline(error), env)
    {
      RejectAll(error);
    }

    method OnStartError(error: string, env: Env)
      modifies this
      ensures View() == Next(old(View()), StartError(error), env)
    {
      RejectAll(error);
    }

    method OnExit(error: string, env: Env)
      modifies this
      ensures View() == Next(old(View()), Exit(error), env)
    {
      if closed { return; }
      RejectAll(error);
    }

    /** The promise of a request is known by its id; one refused at once has none. */
    method Request(asking: string, env: Env) returns (promise: Result<int, string>)
      modifies this
      ensures View() == Next(old(View()), Action.Request(asking), env)
      ensures promise == if old(failure).Some? then Err(old(failure).value) else Ok(old(nextId))
    {
      if failure.Some? { return Err(failure.value); }
      var id := nextId;
      nextId := nextId + 1;
      asked := asked[id := Asked(asking, |heard|)];
      pending := pending[id := asking];
      Write(Question(id, asking), env);
      return Ok(id);
    }

    method Notify(notifying: string, env: Env) returns (refused: Option<string>)
      modifies this
      ensures View() == Next(old(View()), Action.Notify(notifying), env)
      ensures refused == old(failure)
    {
      if failure.Some? { return failure; }
      Write(Notification(notifying), env);
      return None;
    }

    method Close(env: Env)
      modifies this
      ensures View() == Next(old(View()), Action.Close, env)
    {
      closed := true;
    }
  }
}
