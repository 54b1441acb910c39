/**
 Splitting a static sitemap into documents of bounded length. A text stands for the sequence of its
 UTF-8 bytes.
 */
module Sitemap {
  import opened Wrappers

  const SITEMAP_MAX_URLS := 50_000
  const SITEMAP_MAX_BYTES := 50 * 1024 * 1024
  const URLSET := "<?xml version=\"1.0\" encoding=\"UTF-8\"?>\n<urlset xmlns=\"http://www.sitemaps.org/schemas/sitemap/0.9\" xmlns:xhtml=\"http://www.w3.org/1999/xhtml\">\n"
  const END := "</urlset>"

  /** The bytes a document has beside its rows. */
  const OVERHEAD := 152

  function Join(rows: seq<string>): string
    decreases |rows|
  {
    if rows == [] then "" else Join(rows[..|rows| - 1]) + rows[|rows| - 1]
  }

  /** A document is known by its rows. */
  datatype Document = UrlSet(rows: seq<string>)

  function Print(document: Document): string {
    URLSET + Join(document.rows) + END
  }

  /** The bytes of the first `k` rows. */
  function Total(rows: seq<string>, k: nat): nat
    requires k <= |rows|
  {
    if k == 0 then 0 else Total(rows, k - 1) + |rows[k - 1]|
  }

  lemma {:induction false} TotalGrows(rows: seq<string>, i: nat, j: nat)
    requires i <= j <= |rows|
    ensures Total(rows, i) <= Total(rows, j)
    decreases j - i
  {
    if i < j { TotalGrows(rows, i, j - 1); }
  }

  lemma {:induction false} JoinSize(rows: seq<string>, from: nat, to: nat)
    requires from <= to <= |rows|
    ensures |Join(rows[from..to])| == Total(rows, to) - Total(rows, from)
    decreases |rows[from..to]|
  {
    if from < to {
      assert rows[from..to][..to - from - 1] == rows[from..to - 1];
      JoinSize(rows, from, to - 1);
    }
  }

  lemma PrintSize(document: Document)
    ensures |Print(document)| == OVERHEAD + |Join(document.rows)|
  {
    assert |URLSET| + |END| == OVERHEAD;
  }

  // ---------------------------------------------------------------------------------------------
  // Splits. A split of rows into shards is given by where its shards end.

  /** How many rows a document may hold, and how many bytes they may have together. */
  datatype Limits = Limits(rows: int, bytes: int)

  predicate Fits(rows: seq<string>, from: nat, to: nat, limits: Limits)
    requires from <= to <= |rows|
  {
    to - from <= limits.rows && Total(rows, to) - Total(rows, from) <= limits.bytes
  }

  function Start(cuts: seq<nat>, i: nat): nat
    requires i <= |cuts|
  {
    if i == 0 then 0 else cuts[i - 1]
  }

  /** The shard is not empty and both limits allow it. */
  predicate ShardFits(cuts: seq<nat>, i: nat, rows: seq<string>, limits: Limits)
    requires i < |cuts|
  {
    Start(cuts, i) < cuts[i] <= |rows| && Fits(rows, Start(cuts, i), cuts[i], limits)
  }

  /** The shards are the first `end` rows in order. */
  ghost predicate IsSplit(cuts: seq<nat>, rows: seq<string>, end: nat, limits: Limits) {
    Start(cuts, |cuts|) == end <= |rows| && forall i :: 0 <= i < |cuts| ==> ShardFits(cuts, i, rows, limits)
  }

  /** The shard has no room for the row that begins the next one. */
  predicate ShardIsFull(cuts: seq<nat>, i: nat, rows: seq<string>, limits: Limits)
    requires i < |cuts|
  {
    Start(cuts, i) <= cuts[i] < |rows| && !Fits(rows, Start(cuts, i), cuts[i] + 1, limits)
  }

  ghost predicate IsFull(cuts: seq<nat>, rows: seq<string>, limits: Limits) {
    forall i :: 0 <= i < |cuts| - 1 ==> ShardIsFull(cuts, i, rows, limits)
  }

  /** The split into full shards, and no split has fewer. */
  ghost predicate BestSplit(cuts: seq<nat>, rows: seq<string>, limits: Limits) {
    && IsSplit(cuts, rows, |rows|, limits) && IsFull(cuts, rows, limits)
    && forall other :: IsSplit(other, rows, |rows|, limits) ==> |cuts| <= |other|
  }

  /** What does not fit does not fit with more around it either. */
  lemma FitsInside(rows: seq<string>, from: nat, i: nat, j: nat, to: nat, limits: Limits)
    requires from <= i <= j <= to <= |rows| && Fits(rows, from, to, limits)
    ensures Fits(rows, i, j, limits)
  {
    TotalGrows(rows, from, i);
    TotalGrows(rows, j, to);
  }

  lemma {:induction false} CutsAscend(cuts: seq<nat>, rows: seq<string>, end: nat, limits: Limits, i: nat)
    requires IsSplit(cuts, rows, end, limits) && i <= |cuts|
    ensures Start(cuts, i) <= end
    decreases |cuts| - i
  {
    if i < |cuts| {
      assert ShardFits(cuts, i, rows, limits);
      CutsAscend(cuts, rows, end, limits, i + 1);
    }
  }

  lemma BeforeEnd(cuts: seq<nat>, rows: seq<string>, end: nat, limits: Limits, i: nat)
    requires IsSplit(cuts, rows, end, limits) && i < |cuts|
    ensures Start(cuts, i) < end
  {
    assert ShardFits(cuts, i, rows, limits);
    CutsAscend(cuts, rows, end, limits, i + 1);
  }

  /** The first shards of a split are a split. */
  lemma DropLast(cuts: seq<nat>, rows: seq<string>, end: nat, limits: Limits)
    requires IsSplit(cuts, rows, end, limits) && cuts != []
    ensures IsSplit(cuts[..|cuts| - 1], rows, Start(cuts, |cuts| - 1), limits)
  {
    var front := cuts[..|cuts| - 1];
    CutsAscend(cuts, rows, end, limits, |front|);
    forall i | 0 <= i < |front| ensures ShardFits(front, i, rows, limits) {
      assert ShardFits(cuts, i, rows, limits);
    }
  }

  /** No `n` shards that meet the limits reach beyond the first `reach` rows. */
  ghost predicate Ahead(rows: seq<string>, n: nat, reach: nat, limits: Limits) {
    forall cuts, end: nat :: |cuts| <= n && IsSplit(cuts, rows, end, limits) ==> end <= reach
  }

  lemma StaysAhead(rows: seq<string>, n: nat, reach: nat, k: nat, limits: Limits)
    requires Ahead(rows, n, reach, limits) && reach <= k < |rows|
    requires !Fits(rows, reach, k + 1, limits)
    ensures Ahead(rows, n + 1, k, limits)
  {
    forall cuts, end: nat | |cuts| <= n + 1 && IsSplit(cuts, rows, end, limits) ensures end <= k {
      if |cuts| == n + 1 && end > k {
        DropLast(cuts, rows, end, limits);
        assert ShardFits(cuts, n, rows, limits);
        FitsInside(rows, Start(cuts, n), reach, k + 1, end, limits);
        assert false;
      }
    }
  }

  /** A full shard is as long as any split that agrees so far can make it. */
  lemma FullShardIsLongest(a: seq<nat>, b: seq<nat>, i: nat, rows: seq<string>, limits: Limits)
    requires IsSplit(a, rows, |rows|, limits) && IsFull(a, rows, limits) && IsSplit(b, rows, |rows|, limits)
    requires i < |a| && i < |b| && Start(a, i) == Start(b, i)
    ensures b[i] <= a[i]
  {
    CutsAscend(b, rows, |rows|, limits, i + 1);
    if a[i] < b[i] {
      assert ShardIsFull(a, i, rows, limits) && ShardFits(b, i, rows, limits);
      FitsInside(rows, Start(b, i), Start(b, i), a[i] + 1, b[i], limits);
      assert false;
    }
  }

  lemma {:induction false} FullSplitsAgree(a: seq<nat>, b: seq<nat>, i: nat, rows: seq<string>, limits: Limits)
    requires IsSplit(a, rows, |rows|, limits) && IsFull(a, rows, limits)
    requires IsSplit(b, rows, |rows|, limits) && IsFull(b, rows, limits)
    requires i <= |a| && i <= |b|
    ensures a[..i] == b[..i]
    decreases i
  {
    if i > 0 {
      FullSplitsAgree(a, b, i - 1, rows, limits);
      assert i > 1 ==> a[..i - 1][i - 2] == b[..i - 1][i - 2];
      FullShardIsLongest(a, b, i - 1, rows, limits);
      FullShardIsLongest(b, a, i - 1, rows, limits);
      assert a[..i] == a[..i - 1] + [a[i - 1]] && b[..i] == b[..i - 1] + [b[i - 1]];
    }
  }

  lemma NoMoreShards(a: seq<nat>, b: seq<nat>, rows: seq<string>, limits: Limits)
    requires IsSplit(a, rows, |rows|, limits) && IsFull(a, rows, limits)
    requires IsSplit(b, rows, |rows|, limits) && IsFull(b, rows, limits)
    requires |a| <= |b|
    ensures a == b
  {
    FullSplitsAgree(a, b, |a|, rows, limits);
    assert a[..|a|] == a;
    if |a| < |b| {
      BeforeEnd(b, rows, |rows|, limits, |a|);
      assert false;
    }
    assert b[..|b|] == b;
  }

  /** There is only one split into full shards. */
  lemma FullSplitIsUnique(a: seq<nat>, b: seq<nat>, rows: seq<string>, limits: Limits)
    requires IsSplit(a, rows, |rows|, limits) && IsFull(a, rows, limits)
    requires IsSplit(b, rows, |rows|, limits) && IsFull(b, rows, limits)
    ensures a == b
  {
    if |a| <= |b| { NoMoreShards(a, b, rows, limits); } else { NoMoreShards(b, a, rows, limits); }
  }

  // ---------------------------------------------------------------------------------------------
  // What the loop keeps: the first `from` rows are split, those from there to `k` are collected.

  ghost predicate Progress(rows: seq<string>, cuts: seq<nat>, from: nat, k: nat, limits: Limits) {
    && from <= k <= |rows| && (from == k ==> k == 0 && cuts == []) && Fits(rows, from, k, limits)
    && IsSplit(cuts, rows, from, limits)
    && (forall i :: 0 <= i < |cuts| ==> ShardIsFull(cuts, i, rows, limits))
    && Ahead(rows, |cuts|, from, limits)
  }

  lemma Begin(rows: seq<string>, limits: Limits)
    requires 0 <= limits.rows && 0 <= limits.bytes
    ensures Progress(rows, [], 0, 0, limits)
  {}

  lemma AddCut(rows: seq<string>, cuts: seq<nat>, from: nat, k: nat, limits: Limits)
    requires Progress(rows, cuts, from, k, limits) && from < k
    ensures IsSplit(cuts + [k], rows, k, limits) && IsFull(cuts + [k], rows, limits)
  {
    var more := cuts + [k];
    forall i | 0 <= i < |more| ensures ShardFits(more, i, rows, limits) {
      if i < |cuts| { assert ShardFits(cuts, i, rows, limits); }
    }
    forall i | 0 <= i < |cuts| ensures ShardIsFull(more, i, rows, limits) {
      assert ShardIsFull(cuts, i, rows, limits);
    }
  }

  lemma CloseShard(rows: seq<string>, cuts: seq<nat>, from: nat, k: nat, limits: Limits)
    requires Progress(rows, cuts, from, k, limits) && from < k < |rows|
    requires !Fits(rows, from, k + 1, limits) && Fits(rows, k, k + 1, limits)
    ensures Progress(rows, cuts + [k], k, k + 1, limits)
  {
    AddCut(rows, cuts, from, k, limits);
    StaysAhead(rows, |cuts|, from, k, limits);
    var more := cuts + [k];
    forall i | 0 <= i < |more| ensures ShardIsFull(more, i, rows, limits) {
      if i == |cuts| { assert Start(more, i) == from; }
    }
  }

  /** One turn of the loop. */
  lemma AddOrClose(rows: seq<string>, cuts: seq<nat>, from: nat, k: nat, limits: Limits)
    requires Progress(rows, cuts, from, k, limits) && k < |rows| && 1 <= limits.rows && |rows[k]| <= limits.bytes
    ensures if from < k && (k - from >= limits.rows || Total(rows, k) - Total(rows, from) + |rows[k]| > limits.bytes)
            then Progress(rows, cuts + [k], k, k + 1, limits)
            else Progress(rows, cuts, from, k + 1, limits)
  {
    assert Total(rows, k + 1) == Total(rows, k) + |rows[k]|;
    if from < k && (k - from >= limits.rows || Total(rows, k) - Total(rows, from) + |rows[k]| > limits.bytes) {
      CloseShard(rows, cuts, from, k, limits);
    }
  }

  lemma Finish(rows: seq<string>, cuts: seq<nat>, from: nat, limits: Limits)
    requires Progress(rows, cuts, from, |rows|, limits)
    ensures BestSplit(if from < |rows| then cuts + [|rows|] else cuts, rows, limits)
  {
    if from < |rows| {
      AddCut(rows, cuts, from, |rows|, limits);
      forall other | IsSplit(other, rows, |rows|, limits) ensures |cuts| + 1 <= |other| {}
    }
  }

  // ---------------------------------------------------------------------------------------------
  // The split.

  /** The errors; an entry that cannot be printed has its own. */
  datatype Problem = InvalidShardSize | InvalidByteLimit | EntryTooLarge | Unprintable(error: string)

  function Wrong(entry: Result<string, string>, room: int): Option<Problem> {
    match entry
    case Err(error) => Some(Unprintable(error))
    case Ok(row) => if |row| > room then Some(EntryTooLarge) else None
  }

  /** The first thing wrong with the entries. */
  function FirstProblem(entries: seq<Result<string, string>>, room: int): Option<Problem> {
    if entries == [] then None
    else if Wrong(entries[0], room).Some? then Wrong(entries[0], room)
    else FirstProblem(entries[1..], room)
  }

  /** A limit that is no integer is None. */
  function WhatIsWrong(entries: seq<Result<string, string>>, target: Option<int>, maxBytes: Option<int>): Option<Problem> {
    if target.None? || !(1 <= target.value <= SITEMAP_MAX_URLS) then Some(InvalidShardSize)
    else if maxBytes.None? || !(1 <= maxBytes.value <= SITEMAP_MAX_BYTES) then Some(InvalidByteLimit)
    else FirstProblem(entries, maxBytes.value - OVERHEAD)
  }

  /** The printed entries. */
  function Rows(entries: seq<Result<string, string>>): (rows: seq<string>)
    ensures |rows| == |entries|
    ensures forall i :: 0 <= i < |entries| && entries[i].Ok? ==> rows[i] == entries[i].value
  {
    seq(|entries|, i requires 0 <= i < |entries| => if entries[i].Ok? then entries[i].value else "")
  }

  lemma ProblemFrom(entries: seq<Result<string, string>>, k: nat, room: int)
    requires k < |entries|
    ensures FirstProblem(entries[k..], room) ==
            if Wrong(entries[k], room).Some? then Wrong(entries[k], room) else FirstProblem(entries[k + 1..], room)
  {
    assert entries[k..][1..] == entries[k + 1..];
  }

  lemma {:induction false} NoProblem(entries: seq<Result<string, string>>, room: int)
    ensures FirstProblem(entries, room).None? <==>
            forall k :: 0 <= k < |entries| ==> entries[k].Ok? && |entries[k].value| <= room
    decreases |entries|
  {
    if entries != [] {
      NoProblem(entries[1..], room);
      var rest := entries[1..];
      assert forall k :: 0 < k < |entries| ==> entries[k] == rest[k - 1];
      assert forall k :: 0 <= k < |rest| ==> rest[k] == entries[k + 1];
    }
  }

  lemma {:induction false} ShardOfRow(cuts: seq<nat>, rows: seq<string>, end: nat, limits: Limits, k: nat)
    requires IsSplit(cuts, rows, end, limits) && k < end
    ensures |rows[k]| <= limits.bytes
    decreases |cuts|
  {
    var n := |cuts| - 1;
    if k < Start(cuts, n) {
      DropLast(cuts, rows, end, limits);
      ShardOfRow(cuts[..n], rows, Start(cuts, n), limits, k);
    } else {
      assert ShardFits(cuts, n, rows, limits);
      FitsInside(rows, Start(cuts, n), k, k + 1, end, limits);
    }
  }

  function Singles(n: nat): (cuts: seq<nat>)
    ensures |cuts| == n && forall i :: 0 <= i < n ==> cuts[i] == i + 1
  {
    seq(n, i requires 0 <= i < n => i + 1)
  }

  /** Nothing is wrong with the entries exactly when all can be printed and their rows can be split at all. */
  lemma NoProblemMeansSplittable(entries: seq<Result<string, string>>, limits: Limits)
    requires 1 <= limits.rows
    ensures FirstProblem(entries, limits.bytes).None? <==>
            (forall k :: 0 <= k < |entries| ==> entries[k].Ok?) && exists cuts :: IsSplit(cuts, Rows(entries), |entries|, limits)
  {
    NoProblem(entries, limits.bytes);
    var rows := Rows(entries);
    if FirstProblem(entries, limits.bytes).None? {
      var cuts := Singles(|entries|);
      forall i | 0 <= i < |cuts| ensures ShardFits(cuts, i, rows, limits) {
        assert Total(rows, i + 1) == Total(rows, i) + |rows[i]|;
      }
      assert IsSplit(cuts, rows, |entries|, limits);
    }
    if cuts :| IsSplit(cuts, rows, |entries|, limits) {
      forall k | 0 <= k < |entries| ensures |rows[k]| <= limits.bytes {
        ShardOfRow(cuts, rows, |entries|, limits, k);
      }
    }
  }

  predicate IsDocument(documents: seq<Document>, i: nat, rows: seq<string>, cuts: seq<nat>)
    requires i < |documents| == |cuts|
  {
    Start(cuts, i) <= cuts[i] <= |rows| && documents[i] == UrlSet(rows[Start(cuts, i)..cuts[i]])
  }

  /** The documents of the shards, in order. */
  ghost predicate AreDocuments(documents: seq<Document>, rows: seq<string>, cuts: seq<nat>) {
    && |documents| == |cuts|
    && forall i :: 0 <= i < |cuts| ==> IsDocument(documents, i, rows, cuts)
  }

  lemma AddDocument(documents: seq<Document>, rows: seq<string>, cuts: seq<nat>, k: nat)
    requires AreDocuments(documents, rows, cuts) && Start(cuts, |cuts|) <= k <= |rows|
    ensures AreDocuments(documents + [UrlSet(rows[Start(cuts, |cuts|)..k])], rows, cuts + [k])
  {
    var more := documents + [UrlSet(rows[Start(cuts, |cuts|)..k])];
    forall i | 0 <= i < |more| ensures IsDocument(more, i, rows, cuts + [k]) {
      if i < |cuts| { assert IsDocument(documents, i, rows, cuts); }
    }
  }

  /** Every document, as printed, meets the limits asked for, and so those of the sitemap format. */
  lemma DocumentsMeetLimits(documents: seq<Document>, rows: seq<string>, cuts: seq<nat>, target: int, maxBytes: int, i: nat)
    requires AreDocuments(documents, rows, cuts) && IsSplit(cuts, rows, |rows|, Limits(target, maxBytes - OVERHEAD))
    requires i < |documents| && target <= SITEMAP_MAX_URLS && maxBytes <= SITEMAP_MAX_BYTES
    ensures 0 < |documents[i].rows| <= target <= SITEMAP_MAX_URLS
    ensures |Print(documents[i])| <= maxBytes <= SITEMAP_MAX_BYTES
  {
    assert ShardFits(cuts, i, rows, Limits(target, maxBytes - OVERHEAD)) && IsDocument(documents, i, rows, cuts);
    JoinSize(rows, Start(cuts, i), cuts[i]);
    PrintSize(documents[i]);
  }

  predicate InRange(limit: Option<int>, max: int) {
    match limit case None => false case Some(n) => 1 <= n && n <= max
  }

  /** The entry can be printed, and a document holding nothing else has no more than `maxBytes` bytes. */
  predicate CanBePlaced(entry: Result<string, string>, maxBytes: int) {
    match entry case Err(_) => false case Ok(row) => OVERHEAD + |row| <= maxBytes
  }

  /** Every entry before the `k`-th can be placed, and this is why that one cannot. */
  ghost predicate IsFirstProblem(entries: seq<Result<string, string>>, k: nat, maxBytes: int, problem: Problem)
    requires k < |entries|
  {
    && (forall i :: 0 <= i < k ==> CanBePlaced(entries[i], maxBytes)) && !CanBePlaced(entries[k], maxBytes)
    && problem == match entries[k] case Err(error) => Unprintable(error) case Ok(_) => EntryTooLarge
  }

  lemma {:induction false} FirstProblemMeans(entries: seq<Result<string, string>>, maxBytes: int)
    ensures var problem := FirstProblem(entries, maxBytes - OVERHEAD);
            && (problem.None? <==> forall k :: 0 <= k < |entries| ==> CanBePlaced(entries[k], maxBytes))
            && (problem.Some? ==> exists k :: 0 <= k < |entries| && IsFirstProblem(entries, k, maxBytes, problem.value))
    decreases |entries|
  {
    if entries != [] {
      var rest := entries[1..];
      FirstProblemMeans(rest, maxBytes);
      assert CanBePlaced(entries[0], maxBytes) <==> Wrong(entries[0], maxBytes - OVERHEAD).None?;
      forall k | 0 < k < |entries| ensures entries[k] == rest[k - 1] {}
      if CanBePlaced(entries[0], maxBytes) {
        var problem := FirstProblem(rest, maxBytes - OVERHEAD);
        if problem.Some? {
          var k :| 0 <= k < |rest| && IsFirstProblem(rest, k, maxBytes, problem.value);
          assert IsFirstProblem(entries, k + 1, maxBytes, problem.value);
        } else {
          forall k | 0 <= k < |entries| ensures CanBePlaced(entries[k], maxBytes) {
            if k > 0 { assert CanBePlaced(rest[k - 1], maxBytes); }
          }
        }
      } else {
        assert IsFirstProblem(entries, 0, maxBytes, Wrong(entries[0], maxBytes - OVERHEAD).value);
      }
    }
  }

  /**
   `splitStaticSitemap`. It fails with the first problem, if there is one. Otherwise the documents are
   those of the split of the rows into full shards, and no other split has fewer shards.
   */
  method SplitStaticSitemap(entries: seq<Result<string, string>>, target: Option<int>, maxBytes: Option<int>)
    returns (result: Result<seq<Document>, Problem>, ghost cuts: seq<nat>)
    ensures result.Err? <==> WhatIsWrong(entries, target, maxBytes).Some?
    ensures result.Err? ==> result.error == WhatIsWrong(entries, target, maxBytes).value
    ensures result.Ok? <==>
              && InRange(target, SITEMAP_MAX_URLS) && InRange(maxBytes, SITEMAP_MAX_BYTES)
              && forall k :: 0 <= k < |entries| ==> CanBePlaced(entries[k], maxBytes.value)
    ensures !InRange(target, SITEMAP_MAX_URLS) ==> result == Err(InvalidShardSize)
    ensures InRange(target, SITEMAP_MAX_URLS) && !InRange(maxBytes, SITEMAP_MAX_BYTES) ==> result == Err(InvalidByteLimit)
    ensures result.Err? && InRange(target, SITEMAP_MAX_URLS) && InRange(maxBytes, SITEMAP_MAX_BYTES) ==>
              exists k :: 0 <= k < |entries| && IsFirstProblem(entries, k, maxBytes.value, result.error)
    ensures result.Ok? ==> BestSplit(cuts, Rows(entries), Limits(target.value, maxBytes.value - OVERHEAD))
    ensures result.Ok? ==> AreDocuments(result.value, Rows(entries), cuts)
  {
    if InRange(target, SITEMAP_MAX_URLS) && InRange(maxBytes, SITEMAP_MAX_BYTES) {
      FirstProblemMeans(entries, maxBytes.value);
    }
    if target.None? || !(1 <= target.value <= SITEMAP_MAX_URLS) {
      return Err(InvalidShardSize), [];
    }
    if maxBytes.None? || !(1 <= maxBytes.value <= SITEMAP_MAX_BYTES) {
      return Err(InvalidByteLimit), [];
    }
    result, cuts := SplitRows(entries, target.value, maxBytes.value, OVERHEAD);
  }

  /** The loop after `k` rows: those from `from` on are in `rows`, those before in `documents`. */
  ghost predicate Collected(all: seq<string>, k: nat, documents: seq<Document>, cuts: seq<nat>, from: nat, rows: seq<string>, limits: Limits) {
    && from <= k <= |all| && (from == k ==> k == 0) && (k == 0 ==> cuts == [])
    && (k > 0 ==> Progress(all, cuts, from, k, limits))
    && from == Start(cuts, |cuts|) && AreDocuments(documents, all, cuts) && rows == all[from..k]
  }

  lemma CollectedNext(all: seq<string>, k: nat, documents: seq<Document>, cuts: seq<nat>, from: nat, rows: seq<string>, limits: Limits)
    requires Collected(all, k, documents, cuts, from, rows, limits)
    requires k < |all| && 1 <= limits.rows && |all[k]| <= limits.bytes
    ensures Total(all, k + 1) == Total(all, k) + |all[k]|
    ensures if |rows| > 0 && (|rows| >= limits.rows || Total(all, k) - Total(all, from) + |all[k]| > limits.bytes)
            then Collected(all, k + 1, documents + [UrlSet(rows)], cuts + [k], k, [] + [all[k]], limits)
            else Collected(all, k + 1, documents, cuts, from, rows + [all[k]], limits)
  {
    if k == 0 { Begin(all, limits); }
    AddOrClose(all, cuts, from, k, limits);
    AddDocument(documents, all, cuts, k);
    assert all[from..k] + [all[k]] == all[from..k + 1] && all[k..k + 1] == [all[k]];
  }

  lemma CollectedAll(all: seq<string>, documents: seq<Document>, cuts: seq<nat>, from: nat, rows: seq<string>, limits: Limits)
    requires Collected(all, |all|, documents, cuts, from, rows, limits)
    ensures if |rows| > 0 then BestSplit(cuts + [|all|], all, limits) && AreDocuments(documents + [UrlSet(rows)], all, cuts + [|all|])
            else BestSplit(cuts, all, limits) && AreDocuments(documents, all, cuts)
  {
    if |rows| > 0 {
      Finish(all, cuts, from, limits);
      AddDocument(documents, all, cuts, |all|);
    }
  }

  /** The part after the limits have been checked; `overhead` is what a document has beside its rows. */
  method SplitRows(entries: seq<Result<string, string>>, target: int, maxBytes: int, overhead: int)
    returns (result: Result<seq<Document>, Problem>, ghost cuts: seq<nat>)
    requires 1 <= target
    ensures result.Err? <==> FirstProblem(entries, maxBytes - overhead).Some?
    ensures result.Err? ==> result.error == FirstProblem(entries, maxBytes - overhead).value
    ensures result.Ok? ==> BestSplit(cuts, Rows(entries), Limits(target, maxBytes - overhead))
    ensures result.Ok? ==> AreDocuments(result.value, Rows(entries), cuts)
  {
    cuts := [];
    ghost var all, limits, from := Rows(entries), Limits(target, maxBytes - overhead), 0;
    var documents: seq<Document> := [];
    var rows: seq<string> := [];
    var bytes := overhead;
    var k := 0;
    assert entries[0..] == entries;
    while k < |entries|
      invariant 0 <= k <= |entries|
      invariant FirstProblem(entries, maxBytes - overhead) == FirstProblem(entries[k..], maxBytes - overhead)
      invariant Collected(all, k, documents, cuts, from, rows, limits)
      invariant bytes == overhead + Total(all, k) - Total(all, from)
    {
      ProblemFrom(entries, k, maxBytes - overhead);
      if entries[k].Err? {
        return Err(Unprintable(entries[k].error)), [];
      }
      var row := entries[k].value;
      if |row| + overhead > maxBytes {
        return Err(EntryTooLarge), [];
      }
      CollectedNext(all, k, documents, cuts, from, rows, limits);
      if |rows| > 0 && (|rows| >= target || bytes + |row| > maxBytes) {
        documents, cuts, from := documents + [UrlSet(rows)], cuts + [k], k;
        rows := [];
        bytes := overhead;
      }
      rows := rows + [row];
      bytes := bytes + |row|;
      k := k + 1;
    }
    CollectedAll(all, documents, cuts, from, rows, limits);
    if |rows| > 0 {
      documents, cuts := documents + [UrlSet(rows)], cuts + [k];
    }
    return Ok(documents), cuts;
  }
}
