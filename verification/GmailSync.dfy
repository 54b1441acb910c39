/**
 Incremental synchronisation of a Gmail mailbox. The mailbox does not change during a run; what the
 server answers, and which requests fail, are arguments.
 */
module GmailSync {
  import opened SetFacts
  import opened Wrappers

  type Id = string

  /** `Unreadable` is a date that `Number` turns into NaN, which no comparison excludes. */
  datatype Date = Missing | Unreadable | Millis(ms: int)

  /** A message's metadata; `rest` stands for everything an item copies besides labels and date. */
  datatype Message = Message(labels: seq<string>, internalDate: Date, rest: string)

  type Mailbox = map<Id, Message>

  datatype After = Anytime | InvalidDate | Since(ms: int)

  datatype Config = Config(indexingEnabled: bool, labelIds: seq<string>, after: After, maxMessages: Option<int>)

  datatype Failure = BadDate | ScopeTooBroad | RequestFailed

  datatype Event = Event(added: seq<Id>, labelsAdded: seq<Id>, labelsRemoved: seq<Id>, deleted: seq<Id>)

  /** The answer to one page of the history request. */
  datatype HistoryReply = History(events: seq<Event>, historyId: Option<string>) | Expired | HistoryFailed

  datatype Item = Item(id: Id, message: Message)

  datatype Continuation = HistoryFrom(page: nat) | Full

  datatype Page = Page(
    items: seq<Item>,
    deleted: set<Id>,
    continuation: Option<Continuation>,
    checkpoint: Option<string>,
    complete: bool,
    reconcileMissing: bool)

  datatype Outcome = Done | Threw(failure: Failure)

  const MAX_SCANNED := 100_000

  predicate InTrash(m: Message) {
    "TRASH" in m.labels || "SPAM" in m.labels || "DRAFT" in m.labels
  }

  predicate HasLabel(m: Message, c: Config) {
    c.labelIds == [] || exists l :: l in c.labelIds && l in m.labels
  }

  /** `selected`, with its checks in the source's order. */
  function Selected(m: Message, c: Config): Result<bool, Failure> {
    if !HasLabel(m, c) then Ok(false)
    else if c.after.InvalidDate? then Err(BadDate)
    else if c.after.Since? && (m.internalDate.Missing? || (m.internalDate.Millis? && m.internalDate.ms < c.after.ms)) then Ok(false)
    else Ok(!InTrash(m))
  }

  predicate IsSelected(box: Mailbox, c: Config, id: Id) {
    id in box && Selected(box[id], c) == Ok(true)
  }

  function Limit(c: Config): int {
    match c.maxMessages
    case None => 500
    case Some(n) => if n < 1 then 1 else if n > 10_000 then 10_000 else n
  }

  /** The limit is the number asked for, or the nearest one that is allowed. */
  lemma LimitMeans(c: Config, k: int)
    requires 1 <= k <= 10_000
    ensures c.maxMessages == None ==> Limit(c) == 500
    ensures c.maxMessages.Some? ==> 1 <= Limit(c) <= 10_000 && Distance(Limit(c), c.maxMessages.value) <= Distance(k, c.maxMessages.value)
  {}

  function Distance(a: int, b: int): int {
    if a < b then b - a else a - b
  }

  /** The index a mailbox should have: the selected messages, nothing else. */
  function Exact(box: Mailbox, c: Config): map<Id, Message> {
    map id | id in box && IsSelected(box, c, id) :: box[id]
  }

  /** A message stays out of the index as soon as one of these labels is on it. */
  predicate IsExcluded(m: Message) {
    exists i :: 0 <= i < |m.labels| && m.labels[i] in {"TRASH", "SPAM", "DRAFT"}
  }

  /** One of the configured labels is on the message, if any is configured. */
  predicate IsWanted(m: Message, c: Config) {
    |c.labelIds| > 0 ==> exists i, j :: 0 <= i < |c.labelIds| && 0 <= j < |m.labels| && c.labelIds[i] == m.labels[j]
  }

  /** Its date is not known to be too early; a missing date is, one that is no number is not. */
  predicate IsRecent(m: Message, after: After) {
    match after
    case Anytime => true
    case InvalidDate => false
    case Since(ms) => !m.internalDate.Missing? && !(m.internalDate.Millis? && m.internalDate.ms < ms)
  }

  /** In terms of labels and dates alone: the index has exactly the messages it should, as the mailbox has them. */
  ghost predicate IsRight(index: map<Id, Message>, box: Mailbox, c: Config) {
    && (forall id :: id in index <==> id in box && !IsExcluded(box[id]) && IsWanted(box[id], c) && IsRecent(box[id], c.after))
    && forall id :: id in index ==> index[id] == box[id]
  }

  lemma InTrashMeans(m: Message)
    ensures InTrash(m) <==> IsExcluded(m)
  {
    if InTrash(m) {
      var l := if "TRASH" in m.labels then "TRASH" else if "SPAM" in m.labels then "SPAM" else "DRAFT";
      var i :| 0 <= i < |m.labels| && m.labels[i] == l;
    }
  }

  lemma HasLabelMeans(m: Message, c: Config)
    ensures HasLabel(m, c) <==> IsWanted(m, c)
  {
    if HasLabel(m, c) && c.labelIds != [] {
      var l :| l in c.labelIds && l in m.labels;
      var i :| 0 <= i < |c.labelIds| && c.labelIds[i] == l;
      var j :| 0 <= j < |m.labels| && m.labels[j] == l;
    }
    if IsWanted(m, c) && c.labelIds != [] {
      var i, j :| 0 <= i < |c.labelIds| && 0 <= j < |m.labels| && c.labelIds[i] == m.labels[j];
      var l := c.labelIds[i];
      assert l in c.labelIds && l in m.labels;
    }
  }

  lemma SelectedMeans(m: Message, c: Config)
    ensures Selected(m, c) == Ok(true) <==> !IsExcluded(m) && IsWanted(m, c) && IsRecent(m, c.after)
    ensures Selected(m, c).Err? <==> IsWanted(m, c) && c.after.InvalidDate?
  {
    InTrashMeans(m);
    HasLabelMeans(m, c);
  }

  /** The exact index is the right one, and there is no other. */
  lemma ExactIsRight(index: map<Id, Message>, box: Mailbox, c: Config)
    ensures index == Exact(box, c) <==> IsRight(index, box, c)
  {
    forall id | id in box
      ensures IsSelected(box, c, id) <==> !IsExcluded(box[id]) && IsWanted(box[id], c) && IsRecent(box[id], c.after)
    {
      SelectedMeans(box[id], c);
    }
    if IsRight(index, box, c) {
      assert index.Keys == Exact(box, c).Keys;
    }
  }

  // ---------------------------------------------------------------------------------------------
  // What the consumer does with pages.

  /** The index, and the ids applied in the current run, which `reconcileMissing` keeps. */
  datatype Store = Store(index: map<Id, Message>, seen: set<Id>)

  function Upsert(index: map<Id, Message>, items: seq<Item>): map<Id, Message>
    decreases |items|
  {
    if items == [] then index
    else Upsert(index, items[..|items| - 1])[items[|items| - 1].id := items[|items| - 1].message]
  }

  function Ids(items: seq<Item>): set<Id> {
    set i | i in items :: i.id
  }

  function ApplyPage(s: Store, p: Page): Store {
    var seen := s.seen + Ids(p.items);
    var index := Upsert(s.index, p.items) - p.deleted;
    Store(if p.reconcileMissing then map id | id in index && id in seen :: index[id] else index, seen)
  }

  function Apply(s: Store, pages: seq<Page>): Store
    decreases |pages|
  {
    if pages == [] then s
    else ApplyPage(Apply(s, pages[..|pages| - 1]), pages[|pages| - 1])
  }

  lemma {:induction false} ApplyConcat(s: Store, a: seq<Page>, b: seq<Page>)
    ensures Apply(s, a + b) == Apply(Apply(s, a), b)
    decreases |b|
  {
    if b == [] {
      assert a + b == a;
    } else {
      var c := a + b;
      assert c[..|c| - 1] == a + b[..|b| - 1];
      ApplyConcat(s, a, b[..|b| - 1]);
    }
  }

  // ---------------------------------------------------------------------------------------------
  // History mode.

  predicate Changed(events: seq<Event>, id: Id) {
    exists e :: e in events && (id in e.added || id in e.labelsAdded || id in e.labelsRemoved)
  }

  predicate Deleted(events: seq<Event>, id: Id) {
    exists e :: e in events && id in e.deleted
  }

  predicate Touched(events: seq<Event>, id: Id) {
    Changed(events, id) || Deleted(events, id)
  }

  /** The two sets `discoverPages` gathers from a page's events. */
  method Gather(events: seq<Event>) returns (changed: seq<Id>, deleted: set<Id>)
    ensures forall id :: id in changed <==> Changed(events, id)
    ensures forall id :: id in deleted <==> Deleted(events, id)
    ensures forall i, j :: 0 <= i < j < |changed| ==> changed[i] != changed[j]
  {
    changed, deleted := [], {};
    for k := 0 to |events|
      invariant forall id :: id in changed <==> Changed(events[..k], id)
      invariant forall id :: id in deleted <==> Deleted(events[..k], id)
      invariant forall i, j :: 0 <= i < j < |changed| ==> changed[i] != changed[j]
    {
      var e := events[k];
      assert events[..k + 1] == events[..k] + [e];
      changed := AddAll(changed, e.added + e.labelsAdded + e.labelsRemoved);
      deleted := deleted + set id | id in e.deleted;
    }
    assert events[..|events|] == events;
  }

  /** Adding to a set that remembers the order of insertion. */
  method AddAll(s: seq<Id>, ids: seq<Id>) returns (r: seq<Id>)
    requires forall i, j :: 0 <= i < j < |s| ==> s[i] != s[j]
    ensures forall id :: id in r <==> id in s || id in ids
    ensures forall i, j :: 0 <= i < j < |r| ==> r[i] != r[j]
  {
    r := s;
    for k := 0 to |ids|
      invariant forall id :: id in r <==> id in s || id in ids[..k]
      invariant forall i, j :: 0 <= i < j < |r| ==> r[i] != r[j]
    {
      assert ids[..k + 1] == ids[..k] + [ids[k]];
      if ids[k] !in r { r := r + [ids[k]]; }
    }
    assert ids[..|ids|] == ids;
  }

  /** What one page of history must say: the touched messages, each exactly as the mailbox has it now. */
  ghost predicate Reports(p: Page, events: seq<Event>, box: Mailbox, c: Config) {
    && (forall id :: id in Ids(p.items) <==> Changed(events, id) && !Deleted(events, id) && IsSelected(box, c, id))
    && (forall i :: i in p.items ==> i.id in box && i.message == box[i.id])
    && (forall id :: id in p.deleted <==> Deleted(events, id) || (Changed(events, id) && !IsSelected(box, c, id)))
    && (forall i, j :: 0 <= i < j < |p.items| ==> p.items[i].id != p.items[j].id)
    && !p.reconcileMissing
  }

  /** A message that was touched and is now trash, spam or a draft is deleted, and so is one that has gone. */
  lemma ExcludedIsDeleted(p: Page, events: seq<Event>, box: Mailbox, c: Config, id: Id)
    requires Reports(p, events, box, c) && Touched(events, id) && (id in box ==> IsExcluded(box[id]))
    ensures id in p.deleted && id !in Ids(p.items)
  {
    if id in box { SelectedMeans(box[id], c); }
  }

  /** One page of history. */
  method HistoryPage(events: seq<Event>, box: Mailbox, unreadable: set<Id>, c: Config)
    returns (r: Result<(seq<Item>, set<Id>), Failure>)
    ensures r.Ok? ==> Reports(Page(r.value.0, r.value.1, None, None, false, false), events, box, c)
    ensures r.Err? ==> (r.error == BadDate && c.after.InvalidDate?) || (r.error == RequestFailed && unreadable != {})
  {
    var changed, deleted := Gather(events);
    ghost var gone := deleted;
    var items: seq<Item> := [];
    for k := 0 to |changed|
      invariant forall i :: i in items ==> i.id in changed[..k] && i.id !in gone && IsSelected(box, c, i.id) && i.message == box[i.id]
      invariant forall j :: 0 <= j < k && changed[j] !in gone && IsSelected(box, c, changed[j]) ==> Item(changed[j], box[changed[j]]) in items
      invariant forall id :: id in deleted <==> id in gone || (id in changed[..k] && !IsSelected(box, c, id))
      invariant forall i, j :: 0 <= i < j < |items| ==> items[i].id != items[j].id
    {
      var id := changed[k];
      assert changed[..k + 1] == changed[..k] + [id];
      assert id !in changed[..k];
      if id in deleted { continue; }
      if id in unreadable { return Err(RequestFailed); }
      if id !in box {
        deleted := deleted + {id};
      } else {
        var chosen := Selected(box[id], c);
        if chosen.Err? { return Err(chosen.error); }
        if chosen.value {
          items := items + [Item(id, box[id])];
        } else {
          deleted := deleted + {id};
        }
      }
    }
    assert changed[..|changed|] == changed;
    var p := Page(items, deleted, None, None, false, false);
    forall id ensures id in Ids(p.items) <==> Changed(events, id) && !Deleted(events, id) && IsSelected(box, c, id) {
      if Changed(events, id) && !Deleted(events, id) && IsSelected(box, c, id) {
        var j :| 0 <= j < |changed| && changed[j] == id;
        assert Item(id, box[id]) in items;
      }
    }
    r := Ok((items, deleted));
  }

  datatype Ended = Finished | FellThrough | Stopped(failure: Failure)

  /** The pages of history from `start` on, one for each reply; only the last is complete and a checkpoint. */
  ghost predicate ReportsHistory(pages: seq<Page>, start: nat, history: seq<HistoryReply>, box: Mailbox, c: Config) {
    && start + |pages| <= |history|
    && forall i :: 0 <= i < |pages| ==> ReportsReply(pages[i], start + i, history, box, c)
  }

  ghost predicate ReportsReply(p: Page, k: nat, history: seq<HistoryReply>, box: Mailbox, c: Config) {
    && k < |history| && history[k].History? && Reports(p, history[k].events, box, c)
    && (p.complete <==> k == |history| - 1) && (p.checkpoint.Some? <==> p.complete)
    && p.continuation == if p.complete then None else Some(HistoryFrom(k + 1))
  }

  /** The first half of `discoverPages`: history from page `start`, until it ends or has expired. */
  method DiscoverHistory(history: seq<HistoryReply>, start: nat, historyId: string, box: Mailbox, unreadable: set<Id>, c: Config)
    returns (pages: seq<Page>, ended: Ended)
    requires start < |history|
    ensures ReportsHistory(pages, start, history, box, c)
    ensures ended.Finished? ==> start + |pages| == |history|
    ensures ended.FellThrough? ==> start + |pages| < |history| && history[start + |pages|].Expired?
    ensures ended.Stopped? ==>
              || (ended.failure == BadDate && c.after.InvalidDate?)
              || (ended.failure == RequestFailed && (unreadable != {} || HistoryFailed in history))
  {
    pages := [];
    var k := start;
    while true
      invariant start <= k < |history| && |pages| == k - start
      invariant ReportsHistory(pages, start, history, box, c)
      decreases |history| - k
    {
      if history[k].Expired? { return pages, FellThrough; }
      if history[k].HistoryFailed? { return pages, Stopped(RequestFailed); }
      var found := HistoryPage(history[k].events, box, unreadable, c);
      if found.Err? { return pages, Stopped(found.error); }
      var complete := k == |history| - 1;
      var checkpoint := if history[k].historyId.Some? then history[k].historyId.value else historyId;
      pages := pages + [Page(found.value.0, found.value.1,
                             if complete then None else Some(HistoryFrom(k + 1)),
                             if complete then Some(checkpoint) else None, complete, false)];
      if complete { return pages, Finished; }
      k := k + 1;
    }
  }

  /**
   What Gmail promises about history since the mailbox was `before`: every message that differs from
   then is listed as changed or deleted on some page, and a deleted message does not come back.
   */
  ghost predicate HistoryCovers(before: Mailbox, now: Mailbox, history: seq<HistoryReply>) {
    && (forall id :: Differs(before, now, id) ==>
          exists k :: 0 <= k < |history| && history[k].History? && Touched(history[k].events, id))
    && (forall k, id :: 0 <= k < |history| && history[k].History? && Deleted(history[k].events, id) ==> id !in now)
  }

  ghost predicate Differs(before: Mailbox, now: Mailbox, id: Id) {
    (id in before) != (id in now) || (id in before && before[id] != now[id])
  }

  /** The pages before `k` say something about `id`. */
  ghost predicate TouchedBefore(history: seq<HistoryReply>, k: nat, id: Id)
    requires k <= |history|
  {
    exists j :: 0 <= j < k && history[j].History? && Touched(history[j].events, id)
  }

  function Lookup(m: map<Id, Message>, id: Id): Option<Message> {
    if id in m then Some(m[id]) else None
  }

  /** What the exact index of `box` has for `id`. */
  function Wanted(box: Mailbox, c: Config, id: Id): Option<Message> {
    if IsSelected(box, c, id) then Some(box[id]) else None
  }

  /** After the first `k` pages the index is exact for the touched messages and as before for the rest. */
  ghost predicate Halfway(index: map<Id, Message>, before: Mailbox, now: Mailbox, c: Config, history: seq<HistoryReply>, k: nat)
    requires k <= |history|
  {
    forall id :: Lookup(index, id) == Wanted(if TouchedBefore(history, k, id) then now else before, c, id)
  }

  lemma {:induction false} UpsertEffect(index: map<Id, Message>, items: seq<Item>, id: Id)
    requires forall i, j :: 0 <= i < j < |items| ==> items[i].id != items[j].id
    ensures id in Upsert(index, items) <==> id in index || id in Ids(items)
    ensures id !in Ids(items) && id in index ==> Upsert(index, items)[id] == index[id]
    ensures forall i :: i in items && i.id == id ==> id in Upsert(index, items) && Upsert(index, items)[id] == i.message
    decreases |items|
  {
    if items != [] {
      var front, last := items[..|items| - 1], items[|items| - 1];
      assert items == front + [last];
      UpsertEffect(index, front, id);
      assert Ids(items) == Ids(front) + {last.id};
    }
  }

  /** One page sets a touched message to what the mailbox has and leaves every other alone. */
  lemma PageEffect(s: Store, p: Page, events: seq<Event>, now: Mailbox, c: Config, id: Id)
    requires Reports(p, events, now, c)
    ensures Lookup(ApplyPage(s, p).index, id) ==
            if Changed(events, id) || id in p.deleted then Wanted(if Deleted(events, id) then map[] else now, c, id)
            else Lookup(s.index, id)
  {
    UpsertEffect(s.index, p.items, id);
    if id in Ids(p.items) {
      var i :| i in p.items && i.id == id;
      assert Upsert(s.index, p.items)[id] == now[id];
    }
  }

  lemma TouchedStep(history: seq<HistoryReply>, k: nat, id: Id)
    requires k < |history| && history[k].History?
    ensures TouchedBefore(history, k + 1, id) <==> TouchedBefore(history, k, id) || Touched(history[k].events, id)
  {}

  /** One page of history brings exactly the messages it touches up to date. */
  lemma PageAdvances(s: Store, p: Page, before: Mailbox, now: Mailbox, c: Config, history: seq<HistoryReply>, k: nat)
    requires k < |history| && history[k].History? && Reports(p, history[k].events, now, c)
    requires HistoryCovers(before, now, history) && Halfway(s.index, before, now, c, history, k)
    ensures Halfway(ApplyPage(s, p).index, before, now, c, history, k + 1)
  {
    forall id
      ensures Lookup(ApplyPage(s, p).index, id) == Wanted(if TouchedBefore(history, k + 1, id) then now else before, c, id)
    {
      PageEffect(s, p, history[k].events, now, c, id);
      TouchedStep(history, k, id);
      assert Lookup(s.index, id) == Wanted(if TouchedBefore(history, k, id) then now else before, c, id);
    }
  }

  /** Applying the reported pages from page `k` on completes an index that was right up to there. */
  lemma {:induction false} PagesAdvance(s: Store, pages: seq<Page>, before: Mailbox, now: Mailbox, c: Config, history: seq<HistoryReply>, k: nat)
    requires ReportsHistory(pages, k, history, now, c)
    requires HistoryCovers(before, now, history) && Halfway(s.index, before, now, c, history, k)
    ensures Halfway(Apply(s, pages).index, before, now, c, history, k + |pages|)
    ensures forall id :: id in Apply(s, pages).seen ==> id in s.seen || IsSelected(now, c, id)
    decreases |pages|
  {
    if pages != [] {
      var front := pages[..|pages| - 1];
      PagesAdvance(s, front, before, now, c, history, k);
      var p := pages[|pages| - 1];
      assert ReportsReply(p, k + |front|, history, now, c);
      PageAdvances(Apply(s, front), p, before, now, c, history, k + |front|);
      forall id | id in Ids(p.items) ensures IsSelected(now, c, id) {}
    }
  }

  /**
   Applying all pages of history to an index that was exact when the history starts makes it exact for
   the mailbox as it is, whether the run starts at the first page or resumes after a crash at any page
   `k`, with the index that the pages before left.
   */
  lemma HistoryConverges(s: Store, earlier: seq<Page>, pages: seq<Page>, before: Mailbox, now: Mailbox, c: Config, history: seq<HistoryReply>)
    requires s.index == Exact(before, c)
    requires ReportsHistory(earlier, 0, history, now, c) && ReportsHistory(pages, |earlier|, history, now, c)
    requires |earlier| + |pages| == |history| && HistoryCovers(before, now, history)
    ensures Apply(Apply(s, earlier), pages).index == Exact(now, c)
    ensures forall p :: p in pages ==> Ids(p.items) !! p.deleted
  {
    forall id ensures Lookup(s.index, id) == Wanted(before, c, id) {}
    assert Halfway(s.index, before, now, c, history, 0);
    PagesAdvance(s, earlier, before, now, c, history, 0);
    PagesAdvance(Apply(s, earlier), pages, before, now, c, history, |earlier|);
    HalfwayEnds(Apply(Apply(s, earlier), pages).index, before, now, c, history);
  }

  lemma HalfwayEnds(index: map<Id, Message>, before: Mailbox, now: Mailbox, c: Config, history: seq<HistoryReply>)
    requires HistoryCovers(before, now, history) && Halfway(index, before, now, c, history, |history|)
    ensures index == Exact(now, c)
  {
    forall id ensures Lookup(index, id) == Wanted(now, c, id) {
      if !TouchedBefore(history, |history|, id) {
        assert !Differs(before, now, id);
      }
    }
    forall id ensures Lookup(index, id) == Lookup(Exact(now, c), id) {
      assert Lookup(index, id) == Wanted(now, c, id);
    }
    SameLookups(index, Exact(now, c));
  }

  lemma SameLookups(a: map<Id, Message>, b: map<Id, Message>)
    requires forall id :: Lookup(a, id) == Lookup(b, id)
    ensures a == b
  {
    forall id ensures (id in a <==> id in b) && (id in a ==> a[id] == b[id]) {
      assert Lookup(a, id) == Lookup(b, id);
    }
  }

  // ---------------------------------------------------------------------------------------------
  // Full scan.

  /** The first `n` selected messages in the order of `ids`. */
  function FirstSelected(ids: seq<Id>, box: Mailbox, c: Config, n: int): seq<Item>
    decreases |ids|
  {
    if ids == [] then []
    else
      var items := FirstSelected(ids[..|ids| - 1], box, c, n);
      var id := ids[|ids| - 1];
      if |items| < n && IsSelected(box, c, id) then items + [Item(id, box[id])] else items
  }

  lemma {:induction false} FirstSelectedSound(ids: seq<Id>, box: Mailbox, c: Config, n: int)
    ensures forall i :: i in FirstSelected(ids, box, c, n) ==> i.id in ids && IsSelected(box, c, i.id) && i.message == box[i.id]
    decreases |ids|
  {
    if ids != [] { FirstSelectedSound(ids[..|ids| - 1], box, c, n); }
  }

  lemma {:induction false} FirstSelectedEnough(ids: seq<Id>, more: seq<Id>, box: Mailbox, c: Config, n: int)
    requires |FirstSelected(ids, box, c, n)| >= n
    ensures FirstSelected(ids + more, box, c, n) == FirstSelected(ids, box, c, n)
    decreases |more|
  {
    if more == [] {
      assert ids + more == ids;
    } else {
      var all := ids + more;
      assert all[..|all| - 1] == ids + more[..|more| - 1];
      FirstSelectedEnough(ids, more[..|more| - 1], box, c, n);
    }
  }

  /** The ids of the first `k` listing pages, in order. */
  function Listed(listing: seq<Option<seq<Id>>>, k: nat): seq<Id>
    requires k <= |listing|
  {
    if k == 0 then []
    else Listed(listing, k - 1) + (if listing[k - 1].Some? then listing[k - 1].value else [])
  }

  lemma {:induction false} ListedSplit(listing: seq<Option<seq<Id>>>, k: nat, n: nat) returns (rest: seq<Id>)
    requires k <= n <= |listing|
    ensures Listed(listing, n) == Listed(listing, k) + rest
    decreases n
  {
    if k == n {
      rest := [];
    } else {
      rest := ListedSplit(listing, k, n - 1);
      rest := rest + (if listing[n - 1].Some? then listing[n - 1].value else []);
    }
  }

  function AllItems(pages: seq<Page>): seq<Item>
    decreases |pages|
  {
    if pages == [] then [] else AllItems(pages[..|pages| - 1]) + pages[|pages| - 1].items
  }

  /** A full scan deletes nothing page by page; its last page, and only that, reconciles and completes. */
  ghost predicate ScanPages(pages: seq<Page>, historyId: string) {
    forall k :: 0 <= k < |pages| ==>
      var p := pages[k];
      var last := k == |pages| - 1;
      && p.deleted == {} && p.complete == p.reconcileMissing == last
      && p.checkpoint == (if last then Some(historyId) else None)
      && p.continuation == if last then None else Some(Full)
  }

  /** Pages of a scan that has not finished. */
  ghost predicate OpenPages(pages: seq<Page>) {
    forall k :: 0 <= k < |pages| ==>
      var p := pages[k];
      p.deleted == {} && !p.complete && !p.reconcileMissing && p.checkpoint == None && p.continuation == Some(Full)
  }

  /** The inner loop of the scan: one page of the listing. `before` are the ids listed so far. */
  method ScanPage(refs: seq<Id>, ghost before: seq<Id>, count: int, scanned: nat, box: Mailbox, unreadable: set<Id>, c: Config)
    returns (r: Result<(seq<Item>, int, nat), Failure>)
    requires count == |FirstSelected(before, box, c, Limit(c))| && count < Limit(c) && scanned == |before|
    requires !c.after.InvalidDate?
    ensures r.Ok? ==>
              && FirstSelected(before + refs, box, c, Limit(c)) == FirstSelected(before, box, c, Limit(c)) + r.value.0
              && r.value.1 == count + |r.value.0|
              && (r.value.1 < Limit(c) ==> r.value.2 == |before + refs|)
    ensures r.Err? ==>
              || (r.error == RequestFailed && unreadable != {})
              || (r.error == ScopeTooBroad && |before + refs| >= MAX_SCANNED)
  {
    var limit := Limit(c);
    var items: seq<Item> := [];
    var total, seen := count, scanned;
    ghost var done := before;
    for k := 0 to |refs|
      invariant done == before + refs[..k] && seen == |done|
      invariant FirstSelected(done, box, c, limit) == FirstSelected(before, box, c, limit) + items
      invariant total == count + |items| < limit
    {
      var id := refs[k];
      seen := seen + 1;
      done := before + refs[..k + 1];
      assert done[..|done| - 1] == before + refs[..k] && done[|done| - 1] == id;
      if id in unreadable { return Err(RequestFailed); }
      if id !in box { continue; }
      var chosen := Selected(box[id], c);
      if chosen == Ok(true) {
        items := items + [Item(id, box[id])];
        total := total + 1;
      }
      if total >= limit {
        assert before + refs == done + refs[k + 1..];
        FirstSelectedEnough(done, refs[k + 1..], box, c, limit);
        return Ok((items, total, seen));
      }
      if seen >= MAX_SCANNED { return Err(ScopeTooBroad); }
    }
    assert refs[..|refs|] == refs;
    r := Ok((items, total, seen));
  }

  /** One more page, the last one if it is complete. */
  lemma OnePageMore(pages: seq<Page>, p: Page, historyId: string)
    requires OpenPages(pages) && p.deleted == {} && p.complete == p.reconcileMissing
    requires p.checkpoint == (if p.complete then Some(historyId) else None)
    requires p.continuation == if p.complete then None else Some(Full)
    ensures AllItems(pages + [p]) == AllItems(pages) + p.items
    ensures if p.complete then ScanPages(pages + [p], historyId) else OpenPages(pages + [p])
  {
    assert (pages + [p])[..|pages|] == pages;
  }

  lemma ListedNext(listing: seq<Option<seq<Id>>>, k: nat)
    requires k < |listing| && listing[k].Some?
    ensures Listed(listing, k + 1) == Listed(listing, k) + listing[k].value
  {}

  /** Once the limit is reached, or the listing is at its end, the rest of it adds nothing. */
  lemma NoMoreSelected(listing: seq<Option<seq<Id>>>, k: nat, box: Mailbox, c: Config, limit: int)
    requires k <= |listing| && (k == |listing| || |FirstSelected(Listed(listing, k), box, c, limit)| >= limit)
    ensures FirstSelected(Listed(listing, |listing|), box, c, limit) == FirstSelected(Listed(listing, k), box, c, limit)
  {
    if k < |listing| {
      var rest := ListedSplit(listing, k, |listing|);
      FirstSelectedEnough(Listed(listing, k), rest, box, c, limit);
    }
  }

  /** A page on which the scan may fail for being too long lists no more than there is. */
  lemma ListedAtMost(listing: seq<Option<seq<Id>>>, k: nat)
    requires k <= |listing|
    ensures |Listed(listing, k)| <= |Listed(listing, |listing|)|
  {
    var rest := ListedSplit(listing, k, |listing|);
  }

  /** The second half of `discoverPages`. */
  method FullScan(listing: seq<Option<seq<Id>>>, historyId: string, box: Mailbox, unreadable: set<Id>, c: Config)
    returns (pages: seq<Page>, outcome: Outcome)
    requires listing != []
    ensures outcome.Done? ==>
              && ScanPages(pages, historyId) && pages != []
              && AllItems(pages) == FirstSelected(Listed(listing, |listing|), box, c, Limit(c))
    ensures outcome.Threw? ==> OpenPages(pages)
    ensures outcome.Threw? ==>
              || (outcome.failure == BadDate && c.after.InvalidDate?)
              || (outcome.failure == RequestFailed && (unreadable != {} || None in listing))
              || (outcome.failure == ScopeTooBroad && |Listed(listing, |listing|)| >= MAX_SCANNED)
  {
    pages := [];
    var k, count, scanned := 0, 0, 0;
    var limit := Limit(c);
    if c.after.InvalidDate? { return pages, Threw(BadDate); }
    while true
      invariant 0 <= k < |listing| && |pages| == k
      invariant OpenPages(pages)
      invariant AllItems(pages) == FirstSelected(Listed(listing, k), box, c, limit)
      invariant count == |AllItems(pages)| < limit && scanned == |Listed(listing, k)|
      decreases |listing| - k
    {
      if listing[k].None? { return pages, Threw(RequestFailed); }
      var found := ScanPage(listing[k].value, Listed(listing, k), count, scanned, box, unreadable, c);
      ListedNext(listing, k);
      ListedAtMost(listing, k + 1);
      if found.Err? { return pages, Threw(found.error); }
      count, scanned := found.value.1, found.value.2;
      var complete := k == |listing| - 1 || count >= limit;
      var page := Page(found.value.0, {}, if complete then None else Some(Full),
                       if complete then Some(historyId) else None, complete, complete);
      OnePageMore(pages, page, historyId);
      pages := pages + [page];
      if complete {
        NoMoreSelected(listing, k + 1, box, c, limit);
        return pages, Done;
      }
      k := k + 1;
    }
  }

  ghost predicate DistinctIds(ids: seq<Id>) {
    forall i, j :: 0 <= i < j < |ids| ==> ids[i] != ids[j]
  }

  function SelectedAmong(ids: seq<Id>, box: Mailbox, c: Config): set<Id> {
    set id | id in ids && IsSelected(box, c, id)
  }

  /** Of distinct ids, the first `n` selected ones are all of them, or exactly `n`. */
  lemma {:induction false} FirstSelectedCount(ids: seq<Id>, box: Mailbox, c: Config, n: nat)
    requires DistinctIds(ids)
    ensures |FirstSelected(ids, box, c, n)| == AtMost(|SelectedAmong(ids, box, c)|, n)
    ensures |Ids(FirstSelected(ids, box, c, n))| == |FirstSelected(ids, box, c, n)|
    ensures Ids(FirstSelected(ids, box, c, n)) <= SelectedAmong(ids, box, c)
    decreases |ids|
  {
    if ids == [] {
      assert SelectedAmong(ids, box, c) == {} && Ids([]) == {};
    } else {
      var front, id := ids[..|ids| - 1], ids[|ids| - 1];
      assert DistinctIds(front);
      FirstSelectedCount(front, box, c, n);
      SelectedAmongLast(ids, box, c);
      if IsSelected(box, c, id) { IdsAppend(FirstSelected(front, box, c, n), Item(id, box[id])); }
    }
  }

  function AtMost(k: nat, n: nat): nat {
    if k <= n then k else n
  }

  lemma IdsAppend(items: seq<Item>, i: Item)
    ensures Ids(items + [i]) == Ids(items) + {i.id}
  {
    assert (items + [i])[|items|] == i;
    forall x | x in items ensures x in items + [i] {}
  }

  lemma SelectedAmongLast(ids: seq<Id>, box: Mailbox, c: Config)
    requires DistinctIds(ids) && ids != []
    ensures var front, id := ids[..|ids| - 1], ids[|ids| - 1];
            id !in SelectedAmong(front, box, c)
            && SelectedAmong(ids, box, c) == SelectedAmong(front, box, c) + (if IsSelected(box, c, id) then {id} else {})
  {
    var front, id := ids[..|ids| - 1], ids[|ids| - 1];
    assert ids == front + [id];
    assert id !in front;
  }

  lemma {:induction false} UpsertScan(index: map<Id, Message>, items: seq<Item>, box: Mailbox, id: Id)
    requires forall i :: i in items ==> i.id in box && i.message == box[i.id]
    ensures Lookup(Upsert(index, items), id) == if id in Ids(items) then Some(box[id]) else Lookup(index, id)
    decreases |items|
  {
    if items != [] {
      var front, last := items[..|items| - 1], items[|items| - 1];
      assert items == front + [last];
      assert Ids(items) == Ids(front) + {last.id};
      UpsertScan(index, front, box, id);
    }
  }

  lemma {:induction false} UpsertConcat(index: map<Id, Message>, a: seq<Item>, b: seq<Item>)
    ensures Upsert(index, a + b) == Upsert(Upsert(index, a), b)
    decreases |b|
  {
    if b == [] {
      assert a + b == a;
    } else {
      var all := a + b;
      assert all[..|all| - 1] == a + b[..|b| - 1];
      UpsertConcat(index, a, b[..|b| - 1]);
    }
  }

  lemma {:induction false} ApplyOpen(s: Store, pages: seq<Page>)
    requires OpenPages(pages)
    ensures Apply(s, pages) == Store(Upsert(s.index, AllItems(pages)), s.seen + Ids(AllItems(pages)))
    decreases |pages|
  {
    if pages == [] {
      assert Ids([]) == {};
    } else {
      var front, p := pages[..|pages| - 1], pages[|pages| - 1];
      ApplyOpen(s, front);
      UpsertConcat(s.index, AllItems(front), p.items);
      IdsConcat(AllItems(front), p.items);
      assert Upsert(s.index, AllItems(pages)) - {} == Upsert(s.index, AllItems(pages));
    }
  }

  lemma IdsConcat(a: seq<Item>, b: seq<Item>)
    ensures Ids(a + b) == Ids(a) + Ids(b)
  {}

  /** A finished scan upserts all its items and then drops everything that this run has not seen. */
  lemma ApplyScan(s: Store, pages: seq<Page>, historyId: string)
    requires ScanPages(pages, historyId) && pages != []
    ensures var seen := s.seen + Ids(AllItems(pages));
            var index := Upsert(s.index, AllItems(pages));
            Apply(s, pages).index == map id | id in index && id in seen :: index[id]
  {
    var front, p := pages[..|pages| - 1], pages[|pages| - 1];
    assert OpenPages(front) by {
      forall k | 0 <= k < |front| ensures front[k] == pages[k] {}
    }
    ApplyOpen(s, front);
    UpsertConcat(s.index, AllItems(front), p.items);
    IdsConcat(AllItems(front), p.items);
    var index := Upsert(s.index, AllItems(pages));
    assert index - {} == index;
  }

  /** The listing shows every selected message, each id once. */
  ghost predicate ListingCovers(ids: seq<Id>, box: Mailbox, c: Config) {
    DistinctIds(ids) && forall id :: IsSelected(box, c, id) ==> id in ids
  }

  /**
   A full scan brings any index, whatever it held, to the exact one, provided the selected set fits
   the limit; messages that pages of expired history put in before it do no harm. With a larger
   selected set and nothing seen before, the result is never the exact index.
   */
  lemma FullScanConverges(s: Store, pages: seq<Page>, ids: seq<Id>, box: Mailbox, c: Config, historyId: string)
    requires ScanPages(pages, historyId) && pages != [] && AllItems(pages) == FirstSelected(ids, box, c, Limit(c))
    requires ListingCovers(ids, box, c)
    requires forall id :: id in s.seen ==> IsSelected(box, c, id)
    ensures |Exact(box, c)| <= Limit(c) ==> Apply(s, pages).index == Exact(box, c)
    ensures s.seen == {} ==> (Apply(s, pages).index == Exact(box, c) <==> |Exact(box, c)| <= Limit(c))
  {
    var items := AllItems(pages);
    ApplyScan(s, pages, historyId);
    FirstSelectedSound(ids, box, c, Limit(c));
    FirstSelectedCount(ids, box, c, Limit(c));
    ExactKeys(ids, box, c);
    if |Exact(box, c)| <= Limit(c) {
      SameSizeSubset(Ids(items), Exact(box, c).Keys);
      ScanFits(s, items, Apply(s, pages).index, box, c);
    } else if s.seen == {} {
      ScanTooLarge(s, items, Apply(s, pages).index, box);
    }
  }

  lemma ExactKeys(ids: seq<Id>, box: Mailbox, c: Config)
    requires ListingCovers(ids, box, c)
    ensures SelectedAmong(ids, box, c) == Exact(box, c).Keys
  {}

  lemma ScanFits(s: Store, items: seq<Item>, index: map<Id, Message>, box: Mailbox, c: Config)
    requires forall i :: i in items ==> i.id in box && i.message == box[i.id]
    requires Ids(items) == Exact(box, c).Keys && s.seen <= Ids(items)
    requires var all := Upsert(s.index, items); index == map id | id in all && id in s.seen + Ids(items) :: all[id]
    ensures index == Exact(box, c)
  {
    forall id ensures Lookup(index, id) == Lookup(Exact(box, c), id) {
      UpsertScan(s.index, items, box, id);
    }
    SameLookups(index, Exact(box, c));
  }

  lemma ScanTooLarge(s: Store, items: seq<Item>, index: map<Id, Message>, box: Mailbox)
    requires forall i :: i in items ==> i.id in box && i.message == box[i.id]
    requires s.seen == {}
    requires var all := Upsert(s.index, items); index == map id | id in all && id in s.seen + Ids(items) :: all[id]
    ensures index.Keys == Ids(items)
  {
    forall id ensures id in index <==> id in Ids(items) {
      UpsertScan(s.index, items, box, id);
    }
  }

  lemma {:induction false} SameSizeSubset(a: set<Id>, b: set<Id>)
    requires a <= b && |a| == |b|
    ensures a == b
  {
    if x :| x in b && x !in a {
      SubsetSize(a, b - {x});
    }
  }

  /**
   A run may begin at page `start` with `s`: the pages before it, which an earlier run applied to the index that
   was exact for the mailbox as the history starts, have left this index, and what counts as seen is selected.
   */
  ghost predicate MayBegin(s: Store, earlier: seq<Page>, before: Mailbox, start: nat, history: seq<HistoryReply>, now: Mailbox, c: Config) {
    && |earlier| == start && ReportsHistory(earlier, 0, history, now, c) && HistoryCovers(before, now, history)
    && s.index == Apply(Store(Exact(before, c), {}), earlier).index
    && forall id :: id in s.seen ==> IsSelected(now, c, id)
  }

  /** The pages of a finished run: history to its end, or as far as it goes and then a whole scan of `ids`. */
  ghost predicate FinishedRun(pages: seq<Page>, scanned: seq<Page>, start: nat, history: seq<HistoryReply>, ids: seq<Id>,
                              now: Mailbox, c: Config, historyId: string)
  {
    && scanned <= pages && ReportsHistory(scanned, start, history, now, c)
    && if start + |scanned| == |history| then pages == scanned
       else pages != scanned && ScanPages(pages[|scanned|..], historyId)
            && AllItems(pages[|scanned|..]) == FirstSelected(ids, now, c, Limit(c))
  }

  /** The pages of history, applied where a run may begin. */
  lemma AfterHistory(s: Store, earlier: seq<Page>, pages: seq<Page>, before: Mailbox, start: nat, history: seq<HistoryReply>,
                     now: Mailbox, c: Config)
    requires MayBegin(s, earlier, before, start, history, now, c) && ReportsHistory(pages, start, history, now, c)
    ensures Halfway(Apply(s, pages).index, before, now, c, history, start + |pages|)
    ensures forall id :: id in Apply(s, pages).seen ==> IsSelected(now, c, id)
  {
    var exact := Store(Exact(before, c), {});
    forall id ensures Lookup(exact.index, id) == Wanted(before, c, id) {}
    assert Halfway(exact.index, before, now, c, history, 0);
    PagesAdvance(exact, earlier, before, now, c, history, 0);
    PagesAdvance(s, pages, before, now, c, history, start);
  }

  lemma HistoryHeldOut(s: Store, earlier: seq<Page>, pages: seq<Page>, before: Mailbox, start: nat, history: seq<HistoryReply>,
                       now: Mailbox, c: Config)
    requires MayBegin(s, earlier, before, start, history, now, c) && ReportsHistory(pages, start, history, now, c)
    requires start + |pages| == |history|
    ensures Apply(s, pages).index == Exact(now, c)
  {
    AfterHistory(s, earlier, pages, before, start, history, now, c);
    HalfwayEnds(Apply(s, pages).index, before, now, c, history);
  }

  lemma ScanTakesOver(s: Store, earlier: seq<Page>, scanned: seq<Page>, more: seq<Page>, before: Mailbox, start: nat,
                      history: seq<HistoryReply>, ids: seq<Id>, now: Mailbox, c: Config, historyId: string)
    requires MayBegin(s, earlier, before, start, history, now, c) && ReportsHistory(scanned, start, history, now, c)
    requires ScanPages(more, historyId) && more != [] && AllItems(more) == FirstSelected(ids, now, c, Limit(c))
    requires ListingCovers(ids, now, c) && |Exact(now, c)| <= Limit(c)
    ensures Apply(s, scanned + more).index == Exact(now, c)
  {
    AfterHistory(s, earlier, scanned, before, start, history, now, c);
    ApplyConcat(s, scanned, more);
    FullScanConverges(Apply(s, scanned), more, ids, now, c, historyId);
  }

  /**
   Both ways lead to the same index: applying the pages of a finished run, begun at the first page or
   resumed at any other, gives the exact index of the mailbox, whether the history held out or expired on the
   way and the full scan took over.
   */
  lemma BothModesAgree(s: Store, earlier: seq<Page>, pages: seq<Page>, scanned: seq<Page>, start: nat, history: seq<HistoryReply>,
                       ids: seq<Id>, before: Mailbox, now: Mailbox, c: Config, historyId: string)
    requires MayBegin(s, earlier, before, start, history, now, c)
    requires FinishedRun(pages, scanned, start, history, ids, now, c, historyId)
    requires start + |scanned| == |history| || (ListingCovers(ids, now, c) && |Exact(now, c)| <= Limit(c))
    ensures Apply(s, pages).index == Exact(now, c)
  {
    if start + |scanned| == |history| {
      HistoryHeldOut(s, earlier, pages, before, start, history, now, c);
    } else {
      assert pages == scanned + pages[|scanned|..];
      ScanTakesOver(s, earlier, scanned, pages[|scanned|..], before, start, history, ids, now, c, historyId);
    }
  }

  /** From wherever a run may begin, these pages lead to the right index. */
  ghost predicate LeadsToRight(pages: seq<Page>, start: nat, history: seq<HistoryReply>, now: Mailbox, c: Config) {
    forall s: Store, earlier: seq<Page>, before: Mailbox :: MayBegin(s, earlier, before, start, history, now, c) ==>
      IsRight(Apply(s, pages).index, now, c)
  }

  lemma FinishedLeadsToRight(pages: seq<Page>, scanned: seq<Page>, start: nat, history: seq<HistoryReply>, ids: seq<Id>,
                             now: Mailbox, c: Config, historyId: string)
    requires FinishedRun(pages, scanned, start, history, ids, now, c, historyId)
    ensures start + |scanned| == |history| || (ListingCovers(ids, now, c) && |Exact(now, c)| <= Limit(c)) ==>
              LeadsToRight(pages, start, history, now, c)
  {
    if start + |scanned| == |history| || (ListingCovers(ids, now, c) && |Exact(now, c)| <= Limit(c)) {
      forall s: Store, earlier: seq<Page>, before: Mailbox | MayBegin(s, earlier, before, start, history, now, c)
        ensures IsRight(Apply(s, pages).index, now, c)
      {
        BothModesAgree(s, earlier, pages, scanned, start, history, ids, before, now, c, historyId);
        ExactIsRight(Apply(s, pages).index, now, c);
      }
    }
  }

  /**
   `discoverPages` for a connector that has completed a run before (`start` is the continuation's page,
   0 for a new run): history, and the full scan if the history has expired. What a finished call yields leads to
   the right index, by way of the full scan provided the listing shows all and the selected set fits the limit.
   */
  method DiscoverPages(history: seq<HistoryReply>, start: nat, listing: seq<Option<seq<Id>>>, historyId: string,
                       box: Mailbox, unreadable: set<Id>, c: Config)
    returns (pages: seq<Page>, ghost scanned: seq<Page>, outcome: Outcome)
    requires start < |history| && listing != []
    ensures !c.indexingEnabled ==> pages == [Page([], {}, None, None, true, false)] && outcome.Done?
    ensures c.indexingEnabled ==> scanned <= pages && ReportsHistory(scanned, start, history, box, c)
    ensures c.indexingEnabled && outcome.Done? ==>
              && FinishedRun(pages, scanned, start, history, Listed(listing, |listing|), box, c, historyId)
              && (start + |scanned| < |history| ==> history[start + |scanned|].Expired?)
    ensures c.indexingEnabled && outcome.Done?
            && (start + |scanned| == |history| || (ListingCovers(Listed(listing, |listing|), box, c) && |Exact(box, c)| <= Limit(c))) ==>
              LeadsToRight(pages, start, history, box, c)
    ensures outcome.Threw? ==>
              || (outcome.failure == BadDate && c.after.InvalidDate?)
              || (outcome.failure == RequestFailed && (unreadable != {} || HistoryFailed in history || None in listing))
              || (outcome.failure == ScopeTooBroad && |Listed(listing, |listing|)| >= MAX_SCANNED)
  {
    if !c.indexingEnabled {
      return [Page([], {}, None, None, true, false)], [], Done;
    }
    var ended: Ended;
    pages, ended := DiscoverHistory(history, start, historyId, box, unreadable, c);
    scanned := pages;
    if ended.Stopped? { return pages, scanned, Threw(ended.failure); }
    outcome := Done;
    if ended.FellThrough? {
      var more: seq<Page>;
      more, outcome := FullScan(listing, historyId, box, unreadable, c);
      pages := pages + more;
      assert pages[|scanned|..] == more;
    }
    if outcome.Done? {
      FinishedLeadsToRight(pages, scanned, start, history, Listed(listing, |listing|), box, c, historyId);
    }
  }
}
