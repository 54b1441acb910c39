/**
 Downloading the files of a pinned manifest with a pool of workers. A worker runs without
 interruption from one answer to its next request, so these stretches are the actions; the network
 decides which answer comes when, and a timeout or the caller may abort at any moment.
 */
module PinnedDownload {
  import opened Wrappers

  type Bytes = seq<bv8>

  datatype File = File(path: string, sizeBytes: nat)

  /** A thrown value; JavaScript lets it be `undefined`, which is also what "no failure yet" looks like. */
  datatype Thrown = Undefined | Error(text: string)

  datatype Worker = Ready | Downloading(index: nat) | Exited

  /** `done` and `broken` record which indices were delivered and which failed. */
  datatype State = State(
    manifest: seq<File>,
    next: nat,
    failure: Thrown,
    aborted: Option<Thrown>,
    files: map<string, Bytes>,
    workers: seq<Worker>,
    done: map<nat, seq<Bytes>>,
    broken: set<nat>,
    caught: seq<Thrown>)

  datatype Action =
    | Start(worker: nat)
    | Deliver(worker: nat, chunks: seq<Bytes>)
    | Fail(worker: nat, error: Thrown)
    | Abort(reason: Thrown)

  const POOL := 8
  const ABORT_ERROR := Error("AbortError")

  function Init(manifest: seq<File>): State {
    var n := if |manifest| < POOL then |manifest| else POOL;
    State(manifest, 0, Undefined, None, map[], seq(n, i => Ready), map[], {}, [])
  }

  function Concat(chunks: seq<Bytes>): Bytes
    decreases |chunks|
  {
    if chunks == [] then [] else Concat(chunks[..|chunks| - 1]) + chunks[|chunks| - 1]
  }

  /** The `catch` of a worker: the first failure is recorded and stops everybody. */
  function Catch(s: State, w: nat, error: Thrown): State
    requires w < |s.workers|
  {
    var t := s.(workers := s.workers[w := Exited], caught := s.caught + [error]);
    if s.failure.Undefined? then
      t.(failure := error,
         aborted := if s.aborted.Some? then s.aborted
                    else Some(if error.Undefined? then ABORT_ERROR else error))
    else t
  }

  /** The head of a worker's loop, and what follows it. */
  function Advance(s: State, w: nat): State
    requires w < |s.workers|
  {
    if s.aborted.None? && s.next < |s.manifest| then
      s.(workers := s.workers[w := Downloading(s.next)], next := s.next + 1)
    else if s.aborted.Some? then Catch(s, w, s.aborted.value)
    else s.(workers := s.workers[w := Exited])
  }

  /** The worker has its body stored and is at the head of its loop again. */
  function Stored(s: State, w: nat, chunks: seq<Bytes>): State
    requires w < |s.workers| && s.workers[w].Downloading? && s.workers[w].index < |s.manifest|
  {
    var i := s.workers[w].index;
    s.(files := s.files[s.manifest[i].path := Concat(chunks)], done := s.done[i := chunks], workers := s.workers[w := Ready])
  }

  /** The worker has left its file with an exception. */
  function Broken(s: State, w: nat): State
    requires w < |s.workers| && s.workers[w].Downloading?
  {
    s.(broken := s.broken + {s.workers[w].index}, workers := s.workers[w := Ready])
  }

  /** A body longer than recorded is never delivered: the read throws instead. */
  predicate Enabled(s: State, a: Action) {
    match a
    case Start(w) => w < |s.workers| && s.workers[w].Ready?
    case Deliver(w, chunks) =>
      w < |s.workers| && s.workers[w].Downloading? && s.workers[w].index < |s.manifest|
      && |Concat(chunks)| <= s.manifest[s.workers[w].index].sizeBytes
    case Fail(w, _) => w < |s.workers| && s.workers[w].Downloading?
    case Abort(reason) => reason.Error?
  }

  function Next(s: State, a: Action): State
    requires Enabled(s, a)
  {
    match a
    case Start(w) => Advance(s, w)
    case Deliver(w, chunks) =>
      Advance(Stored(s, w, chunks), w)
    case Fail(w, error) => Catch(Broken(s, w), w, error)
    case Abort(reason) => if s.aborted.Some? then s else s.(aborted := Some(reason))
  }

  function Run(manifest: seq<File>, actions: seq<Action>): State
    decreases |actions|
  {
    if actions == [] then Init(manifest)
    else
      var s := Run(manifest, actions[..|actions| - 1]);
      var a := actions[|actions| - 1];
      if Enabled(s, a) then Next(s, a) else s
  }

  predicate Over(s: State) {
    forall w :: 0 <= w < |s.workers| ==> s.workers[w].Exited?
  }

  // ---------------------------------------------------------------------------------------------

  ghost predicate Busy(s: State, i: nat) {
    exists w :: 0 <= w < |s.workers| && s.workers[w] == Downloading(i)
  }

  /** Every index taken so far is delivered, failed, or with one worker, and only one of these. */
  ghost predicate Shared(s: State) {
    && s.next <= |s.manifest|
    && (forall i: nat :: i in s.done || i in s.broken || Busy(s, i) <==> i < s.next)
    && (forall v, w :: 0 <= v < w < |s.workers| && s.workers[v].Downloading? ==> s.workers[v] != s.workers[w])
    && (forall i :: i in s.done ==> i !in s.broken && !Busy(s, i))
    && (forall i :: i in s.broken ==> !Busy(s, i))
  }

  /** The map holds delivered bodies only, each within its recorded size. */
  ghost predicate Delivered(s: State)
    requires Shared(s)
  {
    && (forall i :: i in s.done ==> s.manifest[i].path in s.files && |Concat(s.done[i])| <= s.manifest[i].sizeBytes)
    && (forall p :: p in s.files ==> exists i :: i in s.done && s.manifest[i].path == p && s.files[p] == Concat(s.done[i]))
  }

  function FirstError(caught: seq<Thrown>): Thrown {
    if caught == [] then Undefined
    else if caught[0].Error? then caught[0]
    else FirstError(caught[1..])
  }

  ghost predicate Recorded(s: State) {
    && s.failure == FirstError(s.caught)
    && (Undefined in s.caught ==> s.broken != {})
    && (s.aborted.Some? ==> s.aborted.value.Error?)
    && (s.caught != [] ==> s.aborted.Some?)
    && ((exists w :: 0 <= w < |s.workers| && s.workers[w].Exited?) && s.caught == [] ==> s.next == |s.manifest|)
    && |s.workers| == if |s.manifest| < POOL then |s.manifest| else POOL
  }

  ghost predicate Inv(s: State) {
    Shared(s) && Delivered(s) && Recorded(s) && (s.caught == [] ==> s.broken == {})
  }

  lemma {:induction false} FirstErrorAppend(caught: seq<Thrown>, e: Thrown)
    ensures FirstError(caught + [e]) == if FirstError(caught).Error? then FirstError(caught) else e
    decreases |caught|
  {
    if caught != [] {
      assert (caught + [e])[1..] == caught[1..] + [e];
      FirstErrorAppend(caught[1..], e);
    }
  }

  /** Only the worker `w` differs, and it is not downloading in either state. */
  lemma SameBusy(s: State, t: State, w: nat)
    requires w < |s.workers| && |t.workers| == |s.workers| && t.workers == s.workers[w := t.workers[w]]
    requires !s.workers[w].Downloading? && !t.workers[w].Downloading?
    ensures forall i :: Busy(s, i) <==> Busy(t, i)
  {
    forall i ensures Busy(s, i) <==> Busy(t, i) {
      if Busy(s, i) {
        var v :| 0 <= v < |s.workers| && s.workers[v] == Downloading(i);
        assert t.workers[v] == Downloading(i);
      }
      if Busy(t, i) {
        var v :| 0 <= v < |t.workers| && t.workers[v] == Downloading(i);
        assert s.workers[v] == Downloading(i);
      }
    }
  }

  lemma KeepsLeave(s: State, w: nat, t: State)
    requires Shared(s) && Delivered(s) && w < |s.workers| && s.workers[w].Ready?
    requires t.workers == s.workers[w := Exited]
    requires t.manifest == s.manifest && t.next == s.next && t.done == s.done && t.broken == s.broken && t.files == s.files
    ensures Shared(t) && Delivered(t)
  {
    SameBusy(s, t, w);
  }

  lemma CatchRecorded(s: State, w: nat, e: Thrown)
    requires Recorded(s) && w < |s.workers| && s.workers[w].Ready?
    requires e.Undefined? ==> s.broken != {}
    ensures Recorded(Catch(s, w, e)) && Catch(s, w, e).caught == s.caught + [e]
  {
    FirstErrorAppend(s.caught, e);
  }

  lemma KeepsCatch(s: State, w: nat, e: Thrown)
    requires Shared(s) && Delivered(s) && Recorded(s) && w < |s.workers| && s.workers[w].Ready?
    requires e.Undefined? ==> s.broken != {}
    ensures Inv(Catch(s, w, e))
  {
    CatchRecorded(s, w, e);
    KeepsLeave(s, w, Catch(s, w, e));
  }

  lemma KeepsTake(s: State, w: nat)
    requires Inv(s) && w < |s.workers| && s.workers[w].Ready? && s.next < |s.manifest|
    ensures Inv(s.(workers := s.workers[w := Downloading(s.next)], next := s.next + 1))
  {
    var t := s.(workers := s.workers[w := Downloading(s.next)], next := s.next + 1);
    forall i ensures Busy(t, i) <==> Busy(s, i) || i == s.next {
      if Busy(s, i) {
        var v :| 0 <= v < |s.workers| && s.workers[v] == Downloading(i);
        assert t.workers[v] == Downloading(i);
      }
      if Busy(t, i) {
        var v :| 0 <= v < |t.workers| && t.workers[v] == Downloading(i);
        if v != w { assert s.workers[v] == Downloading(i); }
      }
      if i == s.next { assert t.workers[w] == Downloading(i); }
    }
    forall v | 0 <= v < |s.workers| && s.workers[v].Downloading? ensures s.workers[v] != t.workers[w] {
      assert Busy(s, s.workers[v].index);
    }
    assert Recorded(t) by {
      if v :| 0 <= v < |t.workers| && t.workers[v].Exited? { assert s.workers[v].Exited?; }
    }
  }

  lemma KeepsAdvance(s: State, w: nat)
    requires Inv(s) && w < |s.workers| && s.workers[w].Ready?
    ensures Inv(Advance(s, w))
  {
    if s.aborted.None? && s.next < |s.manifest| {
      KeepsTake(s, w);
    } else if s.aborted.Some? {
      KeepsCatch(s, w, s.aborted.value);
    } else {
      KeepsLeave(s, w, Advance(s, w));
    }
  }

  /** A worker that stops downloading index `i` leaves everybody else's index alone. */
  lemma BusyWithout(s: State, w: nat, t: State)
    requires Shared(s) && w < |s.workers| && s.workers[w].Downloading?
    requires t.workers == s.workers[w := Ready]
    ensures forall i :: Busy(t, i) <==> Busy(s, i) && i != s.workers[w].index
    ensures s.workers[w].index < s.next && s.workers[w].index !in s.done && s.workers[w].index !in s.broken
  {
    assert Busy(s, s.workers[w].index);
    forall i ensures Busy(t, i) <==> Busy(s, i) && i != s.workers[w].index {
      if Busy(s, i) && i != s.workers[w].index {
        var v :| 0 <= v < |s.workers| && s.workers[v] == Downloading(i);
        assert t.workers[v] == Downloading(i);
      }
      if Busy(t, i) {
        var v :| 0 <= v < |t.workers| && t.workers[v] == Downloading(i);
        assert s.workers[v] == Downloading(i);
      }
    }
  }

  lemma StoredShared(s: State, w: nat, chunks: seq<Bytes>)
    requires Inv(s) && Enabled(s, Deliver(w, chunks))
    ensures Shared(Stored(s, w, chunks))
  {
    BusyWithout(s, w, Stored(s, w, chunks));
  }

  lemma StoredDelivered(s: State, w: nat, chunks: seq<Bytes>)
    requires Inv(s) && Enabled(s, Deliver(w, chunks)) && Shared(Stored(s, w, chunks))
    ensures Delivered(Stored(s, w, chunks))
  {
    var t := Stored(s, w, chunks);
    var i := s.workers[w].index;
    assert Busy(s, i);
    forall p | p in t.files
      ensures exists j :: j in t.done && t.manifest[j].path == p && t.files[p] == Concat(t.done[j])
    {
      if p == s.manifest[i].path {
        assert i in t.done && t.done[i] == chunks;
      } else {
        var j :| j in s.done && s.manifest[j].path == p && s.files[p] == Concat(s.done[j]);
        assert j in t.done && t.done[j] == s.done[j];
      }
    }
  }

  lemma KeepsStored(s: State, w: nat, chunks: seq<Bytes>)
    requires Inv(s) && Enabled(s, Deliver(w, chunks))
    ensures Inv(Stored(s, w, chunks))
  {
    var t := Stored(s, w, chunks);
    StoredShared(s, w, chunks);
    StoredDelivered(s, w, chunks);
    assert Recorded(t) by {
      if v :| 0 <= v < |t.workers| && t.workers[v].Exited? { assert s.workers[v].Exited?; }
    }
  }

  lemma KeepsBroken(s: State, w: nat)
    requires Inv(s) && w < |s.workers| && s.workers[w].Downloading?
    ensures Shared(Broken(s, w)) && Delivered(Broken(s, w)) && Recorded(Broken(s, w))
  {
    var t := Broken(s, w);
    BusyWithout(s, w, t);
    assert Recorded(t) by {
      if v :| 0 <= v < |t.workers| && t.workers[v].Exited? { assert s.workers[v].Exited?; }
    }
  }

  lemma KeepsDeliver(s: State, w: nat, chunks: seq<Bytes>)
    requires Inv(s) && Enabled(s, Deliver(w, chunks))
    ensures Inv(Next(s, Deliver(w, chunks)))
  {
    KeepsStored(s, w, chunks);
    KeepsAdvance(Stored(s, w, chunks), w);
  }

  lemma KeepsFail(s: State, w: nat, error: Thrown)
    requires Inv(s) && Enabled(s, Fail(w, error))
    ensures Inv(Next(s, Fail(w, error)))
  {
    KeepsBroken(s, w);
    KeepsCatch(Broken(s, w), w, error);
  }

  lemma KeepsAbort(s: State, reason: Thrown)
    requires Inv(s) && Enabled(s, Abort(reason))
    ensures Inv(Next(s, Abort(reason)))
  {
    forall i ensures Busy(s, i) <==> Busy(Next(s, Abort(reason)), i) {}
  }

  lemma KeepsInv(s: State, a: Action)
    requires Inv(s) && Enabled(s, a)
    ensures Inv(Next(s, a)) && Next(s, a).manifest == s.manifest
  {
    match a
    case Start(w) => KeepsAdvance(s, w);
    case Deliver(w, chunks) => KeepsDeliver(s, w, chunks);
    case Fail(w, error) => KeepsFail(s, w, error);
    case Abort(reason) => KeepsAbort(s, reason);
  }

  lemma {:induction false} RunKeepsInv(manifest: seq<File>, actions: seq<Action>)
    ensures Inv(Run(manifest, actions)) && Run(manifest, actions).manifest == manifest
    decreases |actions|
  {
    if actions != [] {
      var s := Run(manifest, actions[..|actions| - 1]);
      RunKeepsInv(manifest, actions[..|actions| - 1]);
      if Enabled(s, actions[|actions| - 1]) { KeepsInv(s, actions[|actions| - 1]); }
    } else {
      forall i ensures !Busy(Init(manifest), i) {}
    }
  }

  // Main results.

  /** Each index is taken by exactly one worker, and at most once, whatever the interleaving. */
  lemma EachIndexOnce(manifest: seq<File>, actions: seq<Action>, i: nat, v: nat, w: nat)
    requires v < |Run(manifest, actions).workers| && Run(manifest, actions).workers[v] == Downloading(i)
    ensures var s := Run(manifest, actions);
            && i < s.next <= |manifest| && i !in s.done && i !in s.broken
            && (w < |s.workers| && s.workers[w] == Downloading(i) ==> w == v)
  {
    RunKeepsInv(manifest, actions);
    var s := Run(manifest, actions);
    assert Busy(s, i);
  }

  function Paths(manifest: seq<File>): set<string> {
    set f | f in manifest :: f.path
  }

  lemma AllDelivered(s: State)
    requires Inv(s) && Over(s) && s.caught == []
    ensures s.files.Keys == Paths(s.manifest)
  {
    forall i ensures !Busy(s, i) {}
    if |s.manifest| > 0 { assert s.workers[0].Exited?; }
    forall f | f in s.manifest ensures f.path in s.files {
      var i :| 0 <= i < |s.manifest| && s.manifest[i] == f;
      assert i in s.done;
    }
    forall p | p in s.files ensures p in Paths(s.manifest) {
      var i :| i in s.done && s.manifest[i].path == p && s.files[p] == Concat(s.done[i]);
      assert s.manifest[i] in s.manifest;
    }
  }

  /**
   When all workers have left: a recorded failure is the first one any worker caught, and the call
   throws it; otherwise it returns, and if no worker caught anything the map's keys are exactly the
   manifest's paths, and every body is the in-order concatenation of the chunks delivered for an
   index with that path, no longer than recorded there.
   */
  lemma ReturnsCompleteOrThrows(manifest: seq<File>, actions: seq<Action>)
    requires Over(Run(manifest, actions))
    ensures var s := Run(manifest, actions);
            && s.failure == FirstError(s.caught)
            && (s.caught == [] ==> s.files.Keys == Paths(manifest))
            && forall p :: p in s.files ==>
                 exists i :: i in s.done && i < |manifest| && manifest[i].path == p
                             && s.files[p] == Concat(s.done[i]) && |s.files[p]| <= manifest[i].sizeBytes
  {
    RunKeepsInv(manifest, actions);
    var s := Run(manifest, actions);
    if s.caught == [] { AllDelivered(s); }
    forall p | p in s.files
      ensures exists i :: i in s.done && i < |manifest| && manifest[i].path == p
                          && s.files[p] == Concat(s.done[i]) && |s.files[p]| <= manifest[i].sizeBytes
    {
      var i :| i in s.done && s.manifest[i].path == p && s.files[p] == Concat(s.done[i]);
      assert i < s.next;
    }
  }

  ghost predicate DistinctPaths(manifest: seq<File>) {
    forall i, j :: 0 <= i < j < |manifest| ==> manifest[i].path != manifest[j].path
  }

  /**
   For a manifest without repeated paths a call that does not throw returns the complete map if and
   only if no worker caught the value `undefined`.
   */
  lemma NormalReturnIsComplete(manifest: seq<File>, actions: seq<Action>)
    requires Over(Run(manifest, actions)) && Run(manifest, actions).failure.Undefined? && DistinctPaths(manifest)
    ensures var s := Run(manifest, actions);
            s.files.Keys == Paths(manifest) <==> Undefined !in s.caught
  {
    RunKeepsInv(manifest, actions);
    ReturnsCompleteOrThrows(manifest, actions);
    var s := Run(manifest, actions);
    AllUndefined(s.caught);
    if Undefined in s.caught {
      var i :| i in s.broken;
      BrokenFileIsMissing(s, i);
      assert manifest[i] in manifest;
    }
  }

  lemma BrokenFileIsMissing(s: State, i: nat)
    requires Shared(s) && Delivered(s) && DistinctPaths(s.manifest) && i in s.broken
    ensures i < |s.manifest| && s.manifest[i].path !in s.files
  {}

  lemma {:induction false} AllUndefined(caught: seq<Thrown>)
    ensures FirstError(caught).Undefined? ==> forall e :: e in caught ==> e == Undefined
    decreases |caught|
  {
    if caught != [] {
      AllUndefined(caught[1..]);
      assert caught == [caught[0]] + caught[1..];
    }
  }

  /** A download that rejects with `undefined` makes the call return without that file. */
  lemma UndefinedIsSwallowed()
    ensures var s := Run([File("SKILL.md", 1)], [Start(0), Fail(0, Undefined)]);
            Over(s) && s.failure.Undefined? && s.files == map[]
  {
    var actions := [Start(0), Fail(0, Undefined)];
    assert actions[..1] == [Start(0)];
    assert [Start(0)][..0] == [];
    var s0 := Run([File("SKILL.md", 1)], []);
    var s1 := Run([File("SKILL.md", 1)], [Start(0)]);
    assert s1 == Next(s0, Start(0));
    assert Run([File("SKILL.md", 1)], actions) == Next(s1, Fail(0, Undefined));
  }

  // ---------------------------------------------------------------------------------------------
  // What each step comes to, from every reachable state.

  ghost predicate OnlyWorker(s: State, t: State, w: nat, worker: Worker) {
    && |t.workers| == |s.workers| && w < |s.workers| && t.workers[w] == worker
    && forall v :: 0 <= v < |s.workers| && v != w ==> t.workers[v] == s.workers[v]
  }

  /** The worker leaves with an error: the first that is not `undefined` is kept, and it stops the others. */
  ghost predicate Catches(s: State, t: State, w: nat, error: Thrown) {
    && OnlyWorker(s, t, w, Exited) && t.caught == s.caught + [error]
    && t.failure == (if s.failure.Error? then s.failure else error)
    && (t.aborted.None? <==> s.aborted.None? && s.failure.Error?)
    && (s.aborted.Some? ==> t.aborted == s.aborted)
    && (s.aborted.None? && s.failure == Undefined ==> t.aborted == Some(if error.Error? then error else ABORT_ERROR))
    && t.(workers := s.workers, caught := s.caught, failure := s.failure, aborted := s.aborted) == s
  }

  /** At the head of its loop the worker leaves with the abort's reason, takes the next index, or is done. */
  ghost predicate GoesOn(s: State, t: State, w: nat) {
    match s.aborted
    case Some(reason) => Catches(s, t, w, reason)
    case None =>
      if s.next < |s.manifest| then
        OnlyWorker(s, t, w, Downloading(s.next)) && t.next == s.next + 1 && t.(workers := s.workers, next := s.next) == s
      else OnlyWorker(s, t, w, Exited) && t.(workers := s.workers) == s
  }

  ghost predicate Effects(s: State, t: State, a: Action) {
    match a
    case Start(w) => if w < |s.workers| && s.workers[w] == Ready then GoesOn(s, t, w) else t == s
    case Deliver(w, chunks) =>
      if w < |s.workers| && s.workers[w].Downloading? then
        var i := s.workers[w].index;
        && i < |s.manifest|
        && if |Concat(chunks)| <= s.manifest[i].sizeBytes then
             GoesOn(s.(files := s.files[s.manifest[i].path := Concat(chunks)], done := s.done[i := chunks]), t, w)
           else t == s
      else t == s
    case Fail(w, error) =>
      if w < |s.workers| && s.workers[w].Downloading? then
        Catches(s.(broken := s.broken + {s.workers[w].index}), t, w, error)
      else t == s
    case Abort(reason) =>
      && t.(aborted := s.aborted) == s
      && t.aborted == if s.aborted.None? && reason.Error? then Some(reason) else s.aborted
  }

  function Step(s: State, a: Action): State {
    if Enabled(s, a) then Next(s, a) else s
  }

  lemma RunStep(manifest: seq<File>, actions: seq<Action>, a: Action)
    ensures Run(manifest, actions + [a]) == Step(Run(manifest, actions), a)
  {
    assert (actions + [a])[..|actions|] == actions;
  }

  lemma AdvanceGoesOn(s: State, w: nat)
    requires w < |s.workers| && (s.caught != [] ==> s.aborted.Some?) && s.failure == FirstError(s.caught)
    ensures GoesOn(s, Advance(s, w), w)
  {}

  lemma DeliverStep(s: State, w: nat, chunks: seq<Bytes>)
    requires Inv(s)
    ensures Effects(s, Step(s, Deliver(w, chunks)), Deliver(w, chunks))
  {
    if w < |s.workers| && s.workers[w].Downloading? {
      assert Busy(s, s.workers[w].index);
      if Enabled(s, Deliver(w, chunks)) { AdvanceGoesOn(Stored(s, w, chunks), w); }
    }
  }

  lemma FailStep(s: State, w: nat, error: Thrown)
    requires s.failure.Error? ==> s.aborted.Some?
    ensures Effects(s, Step(s, Fail(w, error)), Fail(w, error))
  {}

  lemma StepEffects(s: State, a: Action)
    requires Inv(s)
    ensures Effects(s, Step(s, a), a)
  {
    match a
    case Start(w) => if w < |s.workers| { AdvanceGoesOn(s, w); }
    case Deliver(w, chunks) => DeliverStep(s, w, chunks);
    case Fail(w, error) => FailStep(s, w, error);
    case Abort(_) =>
  }

  /** In every run each step has just these effects. */
  lemma EveryStep(manifest: seq<File>, actions: seq<Action>, a: Action)
    ensures Effects(Run(manifest, actions), Run(manifest, actions + [a]), a)
  {
    RunKeepsInv(manifest, actions);
    RunStep(manifest, actions, a);
    StepEffects(Run(manifest, actions), a);
  }

  // ---------------------------------------------------------------------------------------------
  // The pool's own variables, and the assembly of one body.

  lemma {:induction false} ConcatPrefix(chunks: seq<Bytes>, k: nat)
    requires k <= |chunks|
    ensures |Concat(chunks[..k])| <= |Concat(chunks)|
    decreases |chunks|
  {
    if k < |chunks| {
      ConcatPrefix(chunks[..|chunks| - 1], k);
      assert chunks[..|chunks| - 1][..k] == chunks[..k];
    } else {
      assert chunks[..k] == chunks;
    }
  }

  /** What a body is: one chunk is itself, and more chunks come behind those before them. */
  lemma {:induction false} ConcatMeans(chunk: Bytes, chunks: seq<Bytes>, more: seq<Bytes>)
    ensures Concat([chunk]) == chunk
    ensures Concat(chunks + more) == Concat(chunks) + Concat(more)
    decreases |more|
  {
    assert [chunk][..0] == [];
    if more == [] {
      assert chunks + more == chunks;
    } else {
      var all := chunks + more;
      assert all[..|all| - 1] == chunks + more[..|more| - 1];
      ConcatMeans(chunk, chunks, more[..|more| - 1]);
    }
  }

  /** Reads the chunks of a response into one buffer, or gives up once they exceed the recorded size. */
  method ReadBody(chunks: seq<Bytes>, sizeBytes: nat) returns (r: Result<seq<bv8>, Thrown>)
    ensures r == if |Concat(chunks)| <= sizeBytes then Ok(Concat(chunks)) else Err(Error("TOO_LARGE"))
  {
    var total := 0;
    for k := 0 to |chunks|
      invariant total == |Concat(chunks[..k])| <= sizeBytes
    {
      assert chunks[..k + 1][..k] == chunks[..k];
      total := total + |chunks[k]|;
      if total > sizeBytes {
        ConcatPrefix(chunks, k + 1);
        return Err(Error("TOO_LARGE"));
      }
    }
    assert chunks[..|chunks|] == chunks;
    var body := new bv8[total];
    var offset := 0;
    for k := 0 to |chunks|
      invariant offset == |Concat(chunks[..k])| <= total
      invariant body[..offset] == Concat(chunks[..k])
    {
      assert chunks[..k + 1][..k] == chunks[..k];
      ConcatPrefix(chunks, k + 1);
      var chunk := chunks[k];
      forall i | 0 <= i < |chunk| {
        body[offset + i] := chunk[i];
      }
      offset := offset + |chunk|;
    }
    assert body[..] == body[..offset] == Concat(chunks);
    r := Ok(body[..]);
  }

  class Pool {
    const manifest: seq<File>
    var next: nat
    var failure: Thrown
    var aborted: Option<Thrown>
    var files: map<string, Bytes>
    var workers: seq<Worker>
    ghost var done: map<nat, seq<Bytes>>
    ghost var broken: set<nat>
    ghost var caught: seq<Thrown>

    ghost function View(): State
      reads this
    {
      State(manifest, next, failure, aborted, files, workers, done, broken, caught)
    }

    constructor (manifest: seq<File>)
      ensures View() == Init(manifest)
    {
      this.manifest := manifest;
      next, failure, aborted, files := 0, Undefined, None, map[];
      workers := seq(if |manifest| < POOL then |manifest| else POOL, i => Ready);
      done, broken, caught := map[], {}, [];
    }

    method CatchError(w: nat, error: Thrown)
      requires w < |workers|
      modifies this
      ensures View() == Catch(old(View()), w, error)
    {
      workers := workers[w := Exited];
      caught := caught + [error];
      if failure == Undefined {
        failure := error;
        if aborted.None? {
          aborted := Some(if error == Undefined then ABORT_ERROR else error);
        }
      }
    }

    /** From the loop's head to the next await, or out of the loop. */
    method Loop(w: nat)
      requires w < |workers|
      modifies this
      ensures View() == Advance(old(View()), w)
    {
      if aborted.None? && next < |manifest| {
        workers := workers[w := Downloading(next)];
        next := next + 1;
        return;
      }
      if aborted.Some? {
        CatchError(w, aborted.value);
      } else {
        workers := workers[w := Exited];
      }
    }

    method StartWorker(w: nat)
      requires Enabled(View(), Start(w))
      modifies this
      ensures View() == Next(old(View()), Start(w))
    {
      Loop(w);
    }

    /** The response of worker `w` has been read; too long a body is an error like any other. */
    method Answer(w: nat, chunks: seq<Bytes>)
      requires w < |workers| && workers[w].Downloading? && workers[w].index < |manifest|
      modifies this
      ensures View() == if |Concat(chunks)| <= manifest[old(workers[w]).index].sizeBytes then Next(old(View()), Deliver(w, chunks))
                        else Next(old(View()), Action.Fail(w, Error("TOO_LARGE")))
    {
      var index := workers[w].index;
      var body := ReadBody(chunks, manifest[index].sizeBytes);
      if body.Err? {
        FailWorker(w, body.error);
        return;
      }
      files := files[manifest[index].path := body.value];
      done := done[index := chunks];
      workers := workers[w := Ready];
      Loop(w);
    }

    method FailWorker(w: nat, error: Thrown)
      requires Enabled(View(), Action.Fail(w, error))
      modifies this
      ensures View() == Next(old(View()), Action.Fail(w, error))
    {
      broken := broken + {workers[w].index};
      workers := workers[w := Ready];
      CatchError(w, error);
    }

    method Abort(reason: Thrown)
      requires Enabled(View(), Action.Abort(reason))
      modifies this
      ensures View() == Next(old(View()), Action.Abort(reason))
    {
      if aborted.None? { aborted := Some(reason); }
    }
  }
}
