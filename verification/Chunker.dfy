/**
 Cutting a document into chunks: the pieces a splitter gives are located in the text, and those too
 short are merged into a neighbour. `blank` tells which characters `trim` removes.
 */
module Chunker {
  import opened Wrappers

  const MIN_CHUNK_SIZE := 200
  const DEFAULT_CHUNK_OVERLAP := 150

  datatype Range = Range(start: nat, end: nat)

  // ---------------------------------------------------------------------------------------------
  // Strings.

  /** `slice` with bounds that may lie beyond the end. */
  function Slice(s: string, from: nat, to: nat): string {
    var end := if to < |s| then to else |s|;
    if from < end then s[from..end] else ""
  }

  /** Where the first character that is not blank stands. */
  function First(s: string, blank: char -> bool): (i: nat)
    ensures i <= |s| && (i < |s| ==> !blank(s[i]))
    ensures forall j :: 0 <= j < i ==> blank(s[j])
  {
    if s == "" then 0 else if blank(s[0]) then 1 + First(s[1..], blank) else 0
  }

  /** Where the part after the last such character begins. */
  function After(s: string, blank: char -> bool): (i: nat)
    ensures i <= |s| && (i > 0 ==> !blank(s[i - 1]))
    ensures forall j :: i <= j < |s| ==> blank(s[j])
    decreases |s|
  {
    if s == "" then 0 else if blank(s[|s| - 1]) then After(s[..|s| - 1], blank) else |s|
  }

  function Trim(s: string, blank: char -> bool): string {
    if First(s, blank) < After(s, blank) then s[First(s, blank)..After(s, blank)] else ""
  }

  predicate AllBlank(s: string, blank: char -> bool) {
    forall i :: 0 <= i < |s| ==> blank(s[i])
  }

  /** What is left of a text has no blank at either end, and what has gone is blank. */
  lemma TrimMeans(s: string, blank: char -> bool)
    ensures exists i, j :: 0 <= i <= j <= |s| && AllBlank(s[..i], blank) && Trim(s, blank) == s[i..j] && AllBlank(s[j..], blank)
    ensures var t := Trim(s, blank); t != "" ==> !blank(t[0]) && !blank(t[|t| - 1])
    ensures Trim(s, blank) == "" <==> AllBlank(s, blank)
  {
    var f, g := First(s, blank), After(s, blank);
    if f < g {
      assert AllBlank(s[..f], blank) && Trim(s, blank) == s[f..g] && AllBlank(s[g..], blank);
    } else {
      assert AllBlank(s, blank);
      assert AllBlank(s[..0], blank) && Trim(s, blank) == s[0..0] && AllBlank(s[0..], blank);
    }
  }

  /** A longer text does not trim to less. */
  lemma TrimGrows(s: string, more: string, blank: char -> bool)
    ensures |Trim(s, blank)| <= |Trim(s + more, blank)|
  {
    if First(s, blank) < After(s, blank) {
      var f, g := First(s, blank), After(s, blank);
      var t := s + more;
      assert t[f] == s[f] && t[g - 1] == s[g - 1];
      assert forall j :: 0 <= j < |s| ==> t[j] == s[j];
      assert First(t, blank) <= f && g <= After(t, blank);
      assert First(t, blank) >= f;
    }
  }

  lemma SliceGrows(s: string, from: nat, to: nat, later: nat)
    requires to <= later
    ensures exists more :: Slice(s, from, later) == Slice(s, from, to) + more
  {
    var a, b := Slice(s, from, to), Slice(s, from, later);
    if a == "" {
      assert b == a + b;
    } else {
      var end, end' := Min(to, |s|), Min(later, |s|);
      assert b == s[from..end] + s[end..end'];
    }
  }

  predicate IsLong(content: string, r: Range, blank: char -> bool) {
    |Trim(Slice(content, r.start, r.end), blank)| >= MIN_CHUNK_SIZE
  }

  lemma LongerIsLong(content: string, r: Range, end: nat, blank: char -> bool)
    requires IsLong(content, r, blank) && r.end <= end
    ensures IsLong(content, Range(r.start, end), blank)
  {
    SliceGrows(content, r.start, r.end, end);
    var more :| Slice(content, r.start, end) == Slice(content, r.start, r.end) + more;
    TrimGrows(Slice(content, r.start, r.end), more, blank);
  }

  // ---------------------------------------------------------------------------------------------
  // Merging.

  function Min(a: nat, b: nat): nat { if a < b then a else b }

  function Max(a: nat, b: nat): nat { if a < b then b else a }

  /** A range once the short ranges just before it have been merged into it; `isLong` tells which are not short. */
  function Grown(ranges: seq<Range>, i: nat, isLong: Range -> bool): Range
    requires i < |ranges|
  {
    if i == 0 then ranges[0]
    else
      var before := Grown(ranges, i - 1, isLong);
      Range(if isLong(before) then ranges[i].start else Min(ranges[i].start, before.start), ranges[i].end)
  }

  /** Those of the first `k` ranges, grown, that are long enough. */
  function Kept(ranges: seq<Range>, k: nat, isLong: Range -> bool): seq<Range>
    requires k <= |ranges|
    decreases k
  {
    if k == 0 then []
    else
      var r := Grown(ranges, k - 1, isLong);
      Kept(ranges, k - 1, isLong) + if isLong(r) then [r] else []
  }

  /** A last range still too short goes to the chunk before it, if there is one. */
  function WithLast(kept: seq<Range>, last: Range, isLong: Range -> bool): (chunks: seq<Range>)
    ensures chunks != []
  {
    if isLong(last) || kept == [] then kept + [last]
    else kept[|kept| - 1 := Range(kept[|kept| - 1].start, Max(kept[|kept| - 1].end, last.end))]
  }

  function Merged(ranges: seq<Range>, isLong: Range -> bool): seq<Range> {
    if |ranges| <= 1 then ranges
    else WithLast(Kept(ranges, |ranges| - 1, isLong), Grown(ranges, |ranges| - 1, isLong), isLong)
  }

  lemma {:induction false} KeptAreLong(ranges: seq<Range>, k: nat, isLong: Range -> bool)
    requires k <= |ranges|
    ensures forall c :: c in Kept(ranges, k, isLong) ==> isLong(c)
    decreases k
  {
    if k > 0 { KeptAreLong(ranges, k - 1, isLong); }
  }

  function LongIn(content: string, blank: char -> bool): Range -> bool {
    r => IsLong(content, r, blank)
  }

  /** A range does not become short by ending later. */
  ghost predicate LongStaysLong(isLong: Range -> bool) {
    forall r: Range, end: nat :: isLong(r) && r.end <= end ==> isLong(Range(r.start, end))
  }

  /** Whatever the ranges are, a chunk that is too short is the only one. */
  lemma OnlyASingleChunkIsShort(ranges: seq<Range>, isLong: Range -> bool)
    requires LongStaysLong(isLong)
    ensures var chunks := Merged(ranges, isLong);
            (ranges != [] ==> chunks != []) && forall c :: c in chunks ==> isLong(c) || |chunks| == 1
  {
    if |ranges| > 1 {
      var kept, last := Kept(ranges, |ranges| - 1, isLong), Grown(ranges, |ranges| - 1, isLong);
      KeptAreLong(ranges, |ranges| - 1, isLong);
      if kept != [] {
        var previous := kept[|kept| - 1];
        assert isLong(Range(previous.start, Max(previous.end, last.end)));
      }
    }
  }

  lemma LongInStaysLong(content: string, blank: char -> bool)
    ensures LongStaysLong(LongIn(content, blank))
  {
    var isLong := LongIn(content, blank);
    forall r: Range, end: nat | isLong(r) && r.end <= end ensures isLong(Range(r.start, end)) {
      LongerIsLong(content, r, end, blank);
    }
  }

  predicate Ascend(r: Range, q: Range) {
    r.start <= q.start && r.end <= q.end
  }

  /** In the order of their starts and of their ends. */
  ghost predicate Ascending(ranges: seq<Range>) {
    forall i, j :: 0 <= i < j < |ranges| ==> Ascend(ranges[i], ranges[j])
  }

  predicate Holds(r: Range, p: nat) {
    r.start <= p < r.end
  }

  ghost predicate Covers(ranges: seq<Range>, p: nat) {
    exists i :: 0 <= i < |ranges| && Holds(ranges[i], p)
  }

  /** A range grows no further back than the ranges kept before it. */
  lemma {:induction false} GrownFollows(ranges: seq<Range>, i: nat, isLong: Range -> bool)
    requires Ascending(ranges) && i < |ranges|
    ensures Grown(ranges, i, isLong).start <= ranges[i].start && Grown(ranges, i, isLong).end == ranges[i].end
    ensures forall k :: 0 <= k < |Kept(ranges, i, isLong)| ==> Ascend(Kept(ranges, i, isLong)[k], Grown(ranges, i, isLong))
    decreases i
  {
    if i > 0 {
      GrownFollows(ranges, i - 1, isLong);
      assert Ascend(ranges[i - 1], ranges[i]);
      var front, before, grown := Kept(ranges, i - 1, isLong), Grown(ranges, i - 1, isLong), Grown(ranges, i, isLong);
      forall k | 0 <= k < |Kept(ranges, i, isLong)| ensures Ascend(Kept(ranges, i, isLong)[k], grown) {
        if k < |front| { assert Ascend(front[k], before); }
      }
    }
  }

  /** Up to a range, whatever was covered is covered by what is kept or by that range, grown. */
  lemma {:induction false} KeptCovers(ranges: seq<Range>, i: nat, isLong: Range -> bool, j: nat, p: nat)
    requires Ascending(ranges) && j <= i < |ranges| && Holds(ranges[j], p)
    ensures Covers(Kept(ranges, i, isLong), p) || Holds(Grown(ranges, i, isLong), p)
    decreases i
  {
    GrownFollows(ranges, i, isLong);
    if j < i {
      KeptCovers(ranges, i - 1, isLong, j, p);
      GrownFollows(ranges, i - 1, isLong);
      assert Ascend(ranges[i - 1], ranges[i]);
      var front, kept, before := Kept(ranges, i - 1, isLong), Kept(ranges, i, isLong), Grown(ranges, i - 1, isLong);
      if Covers(front, p) {
        var k :| 0 <= k < |front| && Holds(front[k], p);
        assert kept[k] == front[k];
      } else if isLong(before) {
        assert kept[|front|] == before;
      }
    }
  }

  lemma {:induction false} KeptAscends(ranges: seq<Range>, i: nat, isLong: Range -> bool)
    requires Ascending(ranges) && i <= |ranges|
    ensures Ascending(Kept(ranges, i, isLong))
    decreases i
  {
    if i > 0 {
      KeptAscends(ranges, i - 1, isLong);
      GrownFollows(ranges, i - 1, isLong);
      var front, kept := Kept(ranges, i - 1, isLong), Kept(ranges, i, isLong);
      forall j, k | 0 <= j < k < |kept| ensures Ascend(kept[j], kept[k]) {
        assert kept[j] == front[j];
        if k < |front| { assert kept[k] == front[k]; }
      }
    }
  }

  lemma {:induction false} KeptBegins(ranges: seq<Range>, i: nat, isLong: Range -> bool)
    requires Ascending(ranges) && i < |ranges|
    ensures var kept := Kept(ranges, i, isLong);
            if kept == [] then Grown(ranges, i, isLong).start == ranges[0].start else kept[0].start == ranges[0].start
    decreases i
  {
    if i > 0 {
      KeptBegins(ranges, i - 1, isLong);
      assert Ascend(ranges[0], ranges[i]);
    }
  }

  lemma LastCovers(kept: seq<Range>, last: Range, isLong: Range -> bool, p: nat)
    requires forall k :: 0 <= k < |kept| ==> Ascend(kept[k], last)
    requires Covers(kept, p) || Holds(last, p)
    ensures Covers(WithLast(kept, last, isLong), p)
  {
    var chunks := WithLast(kept, last, isLong);
    if Covers(kept, p) {
      var k :| 0 <= k < |kept| && Holds(kept[k], p);
      assert Holds(chunks[k], p);
    } else {
      assert Holds(chunks[|chunks| - 1], p);
    }
  }

  /**
   For ranges in ascending order the chunks are in ascending order, begin where the first range began,
   end where the last one ended, and leave out nothing that was covered.
   */
  lemma MergingKeepsAll(ranges: seq<Range>, isLong: Range -> bool)
    requires Ascending(ranges) && ranges != []
    ensures var chunks := Merged(ranges, isLong);
            && chunks != [] && Ascending(chunks)
            && chunks[0].start == ranges[0].start && chunks[|chunks| - 1].end == ranges[|ranges| - 1].end
            && forall p: nat :: Covers(ranges, p) ==> Covers(chunks, p)
  {
    if |ranges| > 1 {
      var n := |ranges| - 1;
      KeptAscends(ranges, n, isLong);
      GrownFollows(ranges, n, isLong);
      KeptBegins(ranges, n, isLong);
      forall p: nat | Covers(ranges, p) ensures Covers(Merged(ranges, isLong), p) {
        var j :| 0 <= j < |ranges| && Holds(ranges[j], p);
        KeptCovers(ranges, n, isLong, j, p);
        LastCovers(Kept(ranges, n, isLong), Grown(ranges, n, isLong), isLong, p);
      }
    }
  }

  // Where each range goes.

  /** The range that closes the group of the `j`-th: the first from there on that has grown long enough, or the last. */
  function Closer(ranges: seq<Range>, j: nat, isLong: Range -> bool): (c: nat)
    requires j < |ranges|
    ensures j <= c < |ranges| && (c + 1 < |ranges| ==> isLong(Grown(ranges, c, isLong)))
    decreases |ranges| - j
  {
    if j + 1 == |ranges| || isLong(Grown(ranges, j, isLong)) then j else Closer(ranges, j + 1, isLong)
  }

  /** The last of the first `k` ranges that is kept. */
  function LastKept(ranges: seq<Range>, k: nat, isLong: Range -> bool): (last: Option<nat>)
    requires k <= |ranges|
    ensures last.Some? ==> last.value < k && isLong(Grown(ranges, last.value, isLong))
    decreases k
  {
    if k == 0 then None else if isLong(Grown(ranges, k - 1, isLong)) then Some(k - 1) else LastKept(ranges, k - 1, isLong)
  }

  /** Whether the last group is too short by itself and is joined to the one before it. */
  predicate JoinsPrevious(ranges: seq<Range>, isLong: Range -> bool)
    requires ranges != []
  {
    !isLong(Grown(ranges, |ranges| - 1, isLong)) && LastKept(ranges, |ranges| - 1, isLong).Some?
  }

  /** The index of the chunk that the `j`-th range is merged into. */
  function Host(ranges: seq<Range>, j: nat, isLong: Range -> bool): (h: nat)
    requires j < |ranges|
    ensures h < |Merged(ranges, isLong)|
  {
    Min(|Kept(ranges, Closer(ranges, j, isLong), isLong)|, |Merged(ranges, isLong)| - 1)
  }

  /**
   Where that chunk ends: where the range that closes the group ends, except that two groups joined at the
   end of the text end where the later of their closing ranges does.
   */
  function GroupEnd(ranges: seq<Range>, j: nat, isLong: Range -> bool): nat
    requires j < |ranges|
  {
    var c, n := Closer(ranges, j, isLong), |ranges| - 1;
    var p := LastKept(ranges, n, isLong);
    if JoinsPrevious(ranges, isLong) && (c == n || c == p.value) then Max(ranges[p.value].end, ranges[n].end)
    else ranges[c].end
  }

  /** The first range of the group: the one behind the last before it that has grown long enough. */
  function Opener(ranges: seq<Range>, j: nat, isLong: Range -> bool): (o: nat)
    requires j < |ranges|
    ensures o <= j
  {
    if j == 0 || isLong(Grown(ranges, j - 1, isLong)) then j else Opener(ranges, j - 1, isLong)
  }

  /** Where the chunk of the `j`-th range begins: where its group does, or the group that the last one is joined to. */
  function GroupStart(ranges: seq<Range>, j: nat, isLong: Range -> bool): nat
    requires j < |ranges|
  {
    var n := |ranges| - 1;
    if JoinsPrevious(ranges, isLong) && Closer(ranges, j, isLong) == n
    then ranges[Opener(ranges, LastKept(ranges, n, isLong).value, isLong)].start
    else ranges[Opener(ranges, j, isLong)].start
  }

  predicate StartsAscend(ranges: seq<Range>) {
    forall i, j :: 0 <= i < j < |ranges| ==> ranges[i].start <= ranges[j].start
  }

  predicate Inside(r: Range, q: Range) {
    q.start <= r.start && r.end <= q.end
  }

  lemma {:induction false} KeptPrefix(ranges: seq<Range>, i: nat, k: nat, isLong: Range -> bool)
    requires i <= k <= |ranges|
    ensures Kept(ranges, i, isLong) <= Kept(ranges, k, isLong)
    decreases k
  {
    if i < k { KeptPrefix(ranges, i, k - 1, isLong); }
  }

  lemma KeptAt(ranges: seq<Range>, c: nat, k: nat, isLong: Range -> bool)
    requires c < k <= |ranges| && isLong(Grown(ranges, c, isLong))
    ensures var kept, at := Kept(ranges, k, isLong), |Kept(ranges, c, isLong)|;
            at < |kept| && kept[at] == Grown(ranges, c, isLong)
  {
    KeptPrefix(ranges, c + 1, k, isLong);
  }

  lemma {:induction false} LastKeptIsLast(ranges: seq<Range>, k: nat, isLong: Range -> bool)
    requires k <= |ranges|
    ensures var kept, last := Kept(ranges, k, isLong), LastKept(ranges, k, isLong);
            if last.None? then kept == [] else |kept| == |Kept(ranges, last.value, isLong)| + 1
    decreases k
  {
    if k > 0 && !isLong(Grown(ranges, k - 1, isLong)) { LastKeptIsLast(ranges, k - 1, isLong); }
  }

  lemma {:induction false} CloserIsFirst(ranges: seq<Range>, j: nat, i: nat, isLong: Range -> bool)
    requires j <= i < |ranges| && isLong(Grown(ranges, i, isLong))
    ensures Closer(ranges, j, isLong) <= i
    decreases i - j
  {
    if j < i && !isLong(Grown(ranges, j, isLong)) { CloserIsFirst(ranges, j + 1, i, isLong); }
  }

  lemma {:induction false} NoneAfterLastKept(ranges: seq<Range>, i: nat, k: nat, isLong: Range -> bool)
    requires i < k <= |ranges| && isLong(Grown(ranges, i, isLong))
    ensures LastKept(ranges, k, isLong).Some? && i <= LastKept(ranges, k, isLong).value
    decreases k
  {
    if !isLong(Grown(ranges, k - 1, isLong)) { NoneAfterLastKept(ranges, i, k - 1, isLong); }
  }

  lemma GrownEnd(ranges: seq<Range>, i: nat, isLong: Range -> bool)
    requires i < |ranges|
    ensures Grown(ranges, i, isLong).end == ranges[i].end && Grown(ranges, i, isLong).start <= ranges[i].start
  {}

  /** Up to the one that closes the group, each range grows back to the start of each before it in the group. */
  lemma {:induction false} GrownReaches(ranges: seq<Range>, j: nat, i: nat, isLong: Range -> bool)
    requires j <= i < |ranges| && i <= Closer(ranges, j, isLong)
    ensures Grown(ranges, i, isLong).start <= ranges[j].start
    decreases i
  {
    if j < i {
      GrownReaches(ranges, j, i - 1, isLong);
      if isLong(Grown(ranges, i - 1, isLong)) { CloserIsFirst(ranges, j, i - 1, isLong); }
    } else {
      GrownEnd(ranges, i, isLong);
    }
  }

  /** For starts in order a range grows back to the start of the first in its group, and no further. */
  lemma {:induction false} GrownStart(ranges: seq<Range>, i: nat, isLong: Range -> bool)
    requires StartsAscend(ranges) && i < |ranges|
    ensures Grown(ranges, i, isLong).start == ranges[Opener(ranges, i, isLong)].start
    decreases i
  {
    if i > 0 { GrownStart(ranges, i - 1, isLong); }
  }

  lemma {:induction false} OneOpener(ranges: seq<Range>, j: nat, i: nat, isLong: Range -> bool)
    requires j <= i < |ranges| && i <= Closer(ranges, j, isLong)
    ensures Opener(ranges, i, isLong) == Opener(ranges, j, isLong)
    decreases i
  {
    if j < i {
      OneOpener(ranges, j, i - 1, isLong);
      if isLong(Grown(ranges, i - 1, isLong)) { CloserIsFirst(ranges, j, i - 1, isLong); }
    }
  }

  /** A group before the last, kept by itself or joined by the last. */
  lemma HostOfKept(ranges: seq<Range>, c: nat, isLong: Range -> bool)
    requires c + 1 < |ranges| && isLong(Grown(ranges, c, isLong))
    ensures var chunks, h, n := Merged(ranges, isLong), |Kept(ranges, c, isLong)|, |ranges| - 1;
            && h < |chunks| && chunks[h].start == Grown(ranges, c, isLong).start
            && chunks[h].end == if JoinsPrevious(ranges, isLong) && LastKept(ranges, n, isLong) == Some(c)
                                then Max(ranges[c].end, ranges[n].end) else ranges[c].end
  {
    var n := |ranges| - 1;
    KeptAt(ranges, c, n, isLong);
    GrownEnd(ranges, c, isLong);
    GrownEnd(ranges, n, isLong);
    LastKeptIsLast(ranges, n, isLong);
    NoneAfterLastKept(ranges, c, n, isLong);
    var p := LastKept(ranges, n, isLong).value;
    if c < p { KeptAt(ranges, c, p, isLong); }
  }

  /** The last group, when it is long or the only one. */
  lemma HostOfLast(ranges: seq<Range>, isLong: Range -> bool)
    requires ranges != [] && !JoinsPrevious(ranges, isLong)
    ensures var chunks, h, n := Merged(ranges, isLong), |Kept(ranges, |ranges| - 1, isLong)|, |ranges| - 1;
            h + 1 == |chunks| && chunks[h] == Range(Grown(ranges, n, isLong).start, ranges[n].end)
  {
    LastKeptIsLast(ranges, |ranges| - 1, isLong);
    GrownEnd(ranges, |ranges| - 1, isLong);
  }

  /** The last group, when it joins the one before it. */
  lemma HostOfJoined(ranges: seq<Range>, isLong: Range -> bool)
    requires ranges != [] && JoinsPrevious(ranges, isLong)
    ensures var chunks, kept, n := Merged(ranges, isLong), Kept(ranges, |ranges| - 1, isLong), |ranges| - 1;
            var p := LastKept(ranges, n, isLong).value;
            |chunks| == |kept| == |Kept(ranges, p, isLong)| + 1
  {
    var n := |ranges| - 1;
    assert n > 0;
    var kept, last := Kept(ranges, n, isLong), Grown(ranges, n, isLong);
    LastKeptIsLast(ranges, n, isLong);
    assert |WithLast(kept, last, isLong)| == |kept|;
  }

  /** Where each range goes. */
  lemma HostOf(ranges: seq<Range>, j: nat, isLong: Range -> bool)
    requires StartsAscend(ranges) && j < |ranges|
    ensures var chunk := Merged(ranges, isLong)[Host(ranges, j, isLong)];
            && chunk == Range(GroupStart(ranges, j, isLong), GroupEnd(ranges, j, isLong))
            && chunk.start <= ranges[j].start
  {
    var c, n := Closer(ranges, j, isLong), |ranges| - 1;
    GrownReaches(ranges, j, c, isLong);
    GrownStart(ranges, c, isLong);
    OneOpener(ranges, j, c, isLong);
    if c < n {
      HostOfKept(ranges, c, isLong);
    } else if !JoinsPrevious(ranges, isLong) {
      HostOfLast(ranges, isLong);
    } else {
      var p := LastKept(ranges, n, isLong).value;
      HostOfJoined(ranges, isLong);
      HostOfKept(ranges, p, isLong);
      GrownStart(ranges, p, isLong);
      GrownEnd(ranges, p, isLong);
      if j <= p { CloserIsFirst(ranges, j, p, isLong); }
    }
  }

  /**
   For starts in order, the chunk a range is merged into begins where its group begins and ends where the group ends;
   the range starts within it, and lies inside it exactly if it ends no later than its group.
   */
  lemma RangeInItsChunk(ranges: seq<Range>, j: nat, isLong: Range -> bool)
    requires StartsAscend(ranges) && j < |ranges|
    ensures var chunk := Merged(ranges, isLong)[Host(ranges, j, isLong)];
            && chunk == Range(GroupStart(ranges, j, isLong), GroupEnd(ranges, j, isLong)) && chunk.start <= ranges[j].start
            && (Inside(ranges[j], chunk) <==> ranges[j].end <= GroupEnd(ranges, j, isLong))
  {
    HostOf(ranges, j, isLong);
  }

  predicate StaysInside(ranges: seq<Range>, j: nat, isLong: Range -> bool)
    requires j < |ranges|
  {
    Inside(ranges[j], Merged(ranges, isLong)[Host(ranges, j, isLong)])
  }

  /**
   So all ranges lie inside their chunks exactly when none ends later than its group does, and then merging
   leaves out nothing that was covered.
   */
  lemma NothingIsCutOff(ranges: seq<Range>, isLong: Range -> bool)
    requires StartsAscend(ranges)
    ensures (forall j: nat :: j < |ranges| ==> StaysInside(ranges, j, isLong)) <==>
            (forall j: nat :: j < |ranges| ==> ranges[j].end <= GroupEnd(ranges, j, isLong))
    ensures (forall j: nat :: j < |ranges| ==> ranges[j].end <= GroupEnd(ranges, j, isLong)) ==>
            forall p: nat :: Covers(ranges, p) ==> Covers(Merged(ranges, isLong), p)
  {
    forall j: nat | j < |ranges| ensures StaysInside(ranges, j, isLong) <==> ranges[j].end <= GroupEnd(ranges, j, isLong) {
      RangeInItsChunk(ranges, j, isLong);
    }
    if forall j: nat :: j < |ranges| ==> ranges[j].end <= GroupEnd(ranges, j, isLong) {
      forall p: nat | Covers(ranges, p) ensures Covers(Merged(ranges, isLong), p) {
        var j :| 0 <= j < |ranges| && Holds(ranges[j], p);
        assert StaysInside(ranges, j, isLong);
        assert Holds(Merged(ranges, isLong)[Host(ranges, j, isLong)], p);
      }
    }
  }

  lemma OneShortChunk(r: Range, q: Range, isLong: Range -> bool)
    requires !isLong(r) && !isLong(Range(Min(r.start, q.start), q.end))
    ensures Merged([r, q], isLong) == [Range(Min(r.start, q.start), q.end)]
  {
    var ranges := [r, q];
    assert Grown(ranges, 0, isLong) == r;
    assert Kept(ranges, 0, isLong) == [] && Kept(ranges, 1, isLong) == [];
    assert Grown(ranges, 1, isLong) == Range(Min(r.start, q.start), q.end);
  }

  /** `mergeShortChunks`. */
  method MergeShortChunks(ranges: seq<Range>, isLong: Range -> bool) returns (result: seq<Range>)
    ensures result == Merged(ranges, isLong)
  {
    if |ranges| <= 1 { return ranges; }
    var pending := new Range[|ranges|](i requires 0 <= i < |ranges| => ranges[i]);
    var merged: seq<Range> := [];
    var index := 0;
    while index < pending.Length
      invariant 0 <= index <= pending.Length == |ranges|
      invariant forall j :: index < j < |ranges| ==> pending[j] == ranges[j]
      invariant index < |ranges| ==> pending[index] == Grown(ranges, index, isLong) && merged == Kept(ranges, index, isLong)
      invariant index == |ranges| ==> merged == Merged(ranges, isLong)
    {
      var range := pending[index];
      if isLong(range) {
        merged := merged + [range];
      } else if index + 1 < pending.Length {
        pending[index + 1] := Range(Min(pending[index + 1].start, range.start), pending[index + 1].end);
      } else if |merged| > 0 {
        var previous := merged[|merged| - 1];
        merged := merged[|merged| - 1 := Range(previous.start, Max(previous.end, range.end))];
      } else {
        merged := merged + [range];
      }
      index := index + 1;
    }
    return merged;
  }

  // ---------------------------------------------------------------------------------------------
  // Locating.

  predicate Occurs(content: string, text: string, i: nat) {
    i + |text| <= |content| && content[i..i + |text|] == text
  }

  function IndexOf(content: string, text: string, from: nat): (found: Option<nat>)
    ensures found.Some? ==> from <= found.value && Occurs(content, text, found.value)
    ensures forall i: nat :: from <= i && (found.Some? ==> i < found.value) ==> !Occurs(content, text, i)
    decreases |content| - from
  {
    if from + |text| > |content| then None
    else if Occurs(content, text, from) then Some(from)
    else IndexOf(content, text, from + 1)
  }

  function Locate(content: string, text: string, searchStart: nat): Range {
    var ahead := IndexOf(content, text, searchStart);
    var anywhere := IndexOf(content, text, 0);
    var start := if ahead.Some? then ahead.value else if anywhere.Some? then anywhere.value else searchStart;
    Range(start, start + |text|)
  }

  function NextSearch(r: Range): nat {
    Max(r.start + 1, if r.end >= DEFAULT_CHUNK_OVERLAP then r.end - DEFAULT_CHUNK_OVERLAP else 0)
  }

  function Located(content: string, texts: seq<string>, searchStart: nat, blank: char -> bool): seq<Range>
    decreases |texts|
  {
    if texts == [] then []
    else if |Trim(texts[0], blank)| == 0 then Located(content, texts[1..], searchStart, blank)
    else
      var r := Locate(content, texts[0], searchStart);
      [r] + Located(content, texts[1..], NextSearch(r), blank)
  }

  lemma LocatedFrom(content: string, texts: seq<string>, k: nat, searchStart: nat, blank: char -> bool)
    requires k < |texts|
    ensures Located(content, texts[k..], searchStart, blank) ==
            if |Trim(texts[k], blank)| == 0 then Located(content, texts[k + 1..], searchStart, blank)
            else var r := Locate(content, texts[k], searchStart);
                 [r] + Located(content, texts[k + 1..], NextSearch(r), blank)
  {
    assert texts[k..][1..] == texts[k + 1..];
  }

  /** `toRanges`. */
  method ToRanges(content: string, splitTexts: seq<string>, blank: char -> bool) returns (ranges: seq<Range>)
    ensures ranges == Located(content, splitTexts, 0, blank)
  {
    ranges := [];
    var searchStart := 0;
    assert splitTexts[0..] == splitTexts;
    for k := 0 to |splitTexts|
      invariant ranges + Located(content, splitTexts[k..], searchStart, blank) == Located(content, splitTexts, 0, blank)
    {
      var text := splitTexts[k];
      LocatedFrom(content, splitTexts, k, searchStart, blank);
      if |Trim(text, blank)| == 0 { continue; }
      var range := Locate(content, text, searchStart);
      ranges := ranges + [range];
      searchStart := NextSearch(range);
    }
  }

  /** No piece had to be looked for again from the beginning, and found there. */
  predicate FoundAhead(content: string, texts: seq<string>, searchStart: nat, blank: char -> bool)
    decreases |texts|
  {
    texts == [] ||
    if |Trim(texts[0], blank)| == 0 then FoundAhead(content, texts[1..], searchStart, blank)
    else
      && (IndexOf(content, texts[0], searchStart).Some? || IndexOf(content, texts[0], 0).None?)
      && FoundAhead(content, texts[1..], NextSearch(Locate(content, texts[0], searchStart)), blank)
  }

  /** Every piece but blank ones is at least as long as the overlap. */
  predicate Overlapping(texts: seq<string>, blank: char -> bool) {
    forall k :: 0 <= k < |texts| && |Trim(texts[k], blank)| > 0 ==> |texts[k]| >= DEFAULT_CHUNK_OVERLAP
  }

  ghost predicate StartFrom(ranges: seq<Range>, from: nat) {
    && (forall i :: 0 <= i < |ranges| ==> from <= ranges[i].start)
    && (forall i, j :: 0 <= i < j < |ranges| ==> ranges[i].start < ranges[j].start)
  }

  lemma StartBefore(r: Range, later: seq<Range>, from: nat, next: nat)
    requires StartFrom(later, next) && from <= r.start < next
    ensures StartFrom([r] + later, from)
  {}

  /** As long as no piece is found behind where the search began, every range starts later than the one before. */
  lemma {:induction false} LocatedAscends(content: string, texts: seq<string>, searchStart: nat, blank: char -> bool)
    requires FoundAhead(content, texts, searchStart, blank)
    ensures StartFrom(Located(content, texts, searchStart, blank), searchStart)
    decreases |texts|
  {
    if texts != [] {
      if |Trim(texts[0], blank)| == 0 {
        LocatedAscends(content, texts[1..], searchStart, blank);
      } else {
        var r := Locate(content, texts[0], searchStart);
        LocatedAscends(content, texts[1..], NextSearch(r), blank);
        StartBefore(r, Located(content, texts[1..], NextSearch(r), blank), searchStart, NextSearch(r));
      }
    }
  }

  lemma FirstAscends(r: Range, later: seq<Range>)
    requires Ascending(later) && forall i :: 0 <= i < |later| ==> Ascend(r, later[i])
    ensures Ascending([r] + later)
  {}

  /** And when besides every piece is as long as the overlap, none ends earlier, so that merging loses nothing. */
  lemma {:induction false} OverlappingAscends(content: string, texts: seq<string>, searchStart: nat, blank: char -> bool)
    requires FoundAhead(content, texts, searchStart, blank) && Overlapping(texts, blank)
    ensures var ranges := Located(content, texts, searchStart, blank);
            Ascending(ranges) && forall i :: 0 <= i < |ranges| ==> searchStart + DEFAULT_CHUNK_OVERLAP <= ranges[i].end
    decreases |texts|
  {
    if texts != [] {
      assert Overlapping(texts[1..], blank);
      if |Trim(texts[0], blank)| == 0 {
        OverlappingAscends(content, texts[1..], searchStart, blank);
      } else {
        var r := Locate(content, texts[0], searchStart);
        var later := Located(content, texts[1..], NextSearch(r), blank);
        OverlappingAscends(content, texts[1..], NextSearch(r), blank);
        LocatedAscends(content, texts[1..], NextSearch(r), blank);
        FirstAscends(r, later);
      }
    }
  }

  /** So such pieces are all in some chunk, and the chunks are in order. */
  lemma OverlappingPiecesAreKept(content: string, texts: seq<string>, blank: char -> bool)
    requires FoundAhead(content, texts, 0, blank) && Overlapping(texts, blank)
    ensures var ranges := Located(content, texts, 0, blank);
            var chunks := Merged(ranges, LongIn(content, blank));
            Ascending(chunks) && forall p: nat :: Covers(ranges, p) ==> Covers(chunks, p)
  {
    OverlappingAscends(content, texts, 0, blank);
    var ranges := Located(content, texts, 0, blank);
    if ranges != [] { MergingKeepsAll(ranges, LongIn(content, blank)); }
  }

  /** A piece that occurs in the text at all is what its range cuts out. */
  lemma LocatesTheText(content: string, text: string, searchStart: nat)
    ensures Slice(content, Locate(content, text, searchStart).start, Locate(content, text, searchStart).end) == text
            || (text != "" && forall i: nat :: !Occurs(content, text, i))
  {
    var r := Locate(content, text, searchStart);
    if IndexOf(content, text, searchStart).Some? || IndexOf(content, text, 0).Some? {
      assert Occurs(content, text, r.start);
    }
  }

  // ---------------------------------------------------------------------------------------------
  // The whole.

  datatype Chunk = Chunk(text: string, start: nat, end: nat, tokenCount: nat)

  function TokenCount(text: string): nat { Max(1, (|text| + 3) / 4) }

  /** Every four characters, or part of four, count as a token, and there is always one. */
  lemma TokenCountMeans(text: string)
    ensures TokenCount(text) >= 1 && 4 * TokenCount(text) >= |text|
    ensures TokenCount(text) > 1 ==> 4 * (TokenCount(text) - 1) < |text|
  {}

  function Specs(content: string, ranges: seq<Range>): (chunks: seq<Chunk>)
    ensures |chunks| == |ranges|
  {
    seq(|ranges|, i requires 0 <= i < |ranges| =>
      var text := Slice(content, ranges[i].start, ranges[i].end);
      Chunk(text, ranges[i].start, ranges[i].end, TokenCount(text)))
  }

  function ChunksFrom(content: string, texts: seq<string>, blank: char -> bool): seq<Chunk> {
    Specs(content, Merged(Located(content, texts, 0, blank), LongIn(content, blank)))
  }

  /** The chunks of a text; `split` is the splitter. */
  function ChunksOf(contentText: string, split: string -> seq<string>, blank: char -> bool): seq<Chunk> {
    var content := Trim(contentText, blank);
    if content == "" then [] else ChunksFrom(content, split(content), blank)
  }

  /** `chunkSourceContent`: whatever the splitter does, several chunks are never too short. */
  method ChunkSourceContent(contentText: string, split: string -> seq<string>, blank: char -> bool) returns (chunks: seq<Chunk>)
    ensures chunks == ChunksOf(contentText, split, blank)
    ensures chunks == [] <==> (forall i :: 0 <= i < |contentText| ==> blank(contentText[i]))
                              || Located(Trim(contentText, blank), split(Trim(contentText, blank)), 0, blank) == []
    ensures forall c :: c in chunks ==> c.text == Slice(Trim(contentText, blank), c.start, c.end)
    ensures |chunks| > 1 ==> forall c :: c in chunks ==> |Trim(c.text, blank)| >= MIN_CHUNK_SIZE
  {
    var normalized := Trim(contentText, blank);
    TrimMeans(contentText, blank);
    if normalized == "" { return []; }
    var located := ToRanges(normalized, split(normalized), blank);
    var ranges := MergeShortChunks(located, LongIn(normalized, blank));
    LongInStaysLong(normalized, blank);
    OnlyASingleChunkIsShort(located, LongIn(normalized, blank));
    chunks := Specs(normalized, ranges);
    forall c | c in chunks ensures c.text == Slice(normalized, c.start, c.end) && (|chunks| > 1 ==> |Trim(c.text, blank)| >= MIN_CHUNK_SIZE) {
      var i :| 0 <= i < |chunks| && chunks[i] == c;
      assert ranges[i] in ranges;
    }
  }

  // ---------------------------------------------------------------------------------------------
  // A text that loses its end.

  predicate Distinct(s: string) {
    forall i, j :: 0 <= i < j < |s| ==> s[i] != s[j]
  }

  predicate Solid(s: string, blank: char -> bool) {
    forall i :: 0 <= i < |s| ==> !blank(s[i])
  }

  lemma SolidTrims(s: string, blank: char -> bool)
    requires Solid(s, blank)
    ensures Trim(s, blank) == s
  {
    if s != "" {
      assert !blank(s[0]) && !blank(s[|s| - 1]);
    }
  }

  lemma FoundWhereItIs(content: string, from: nat, to: nat, searchStart: nat)
    requires Distinct(content) && searchStart <= from < to <= |content|
    ensures Locate(content, content[from..to], searchStart) == Range(from, to)
  {
    var text := content[from..to];
    assert Occurs(content, text, from);
    var found := IndexOf(content, text, searchStart);
    assert found.Some?;
    var at := found.value;
    assert content[at] == content[at..at + |text|][0] == text[0] == content[from];
  }

  /** The search for the second piece starts behind the first position, so that it is found where it was cut out. */
  lemma BothAreLocated(content: string, blank: char -> bool)
    requires |content| == 100 && Distinct(content) && Solid(content, blank)
    ensures Located(content, [content, content[50..90]], 0, blank) == [Range(0, 100), Range(50, 90)]
  {
    var piece := content[50..90];
    assert content[0..100] == content;
    SolidTrims(content, blank);
    SolidTrims(piece, blank);
    FoundWhereItIs(content, 0, 100, 0);
    FoundWhereItIs(content, 50, 90, 1);
    assert [content, piece][1..] == [piece] && [piece][1..] == [];
    assert NextSearch(Range(0, 100)) == 1;
    var none: seq<string> := [];
    assert Located(content, none, NextSearch(Range(50, 90)), blank) == [];
    assert Located(content, [piece], 1, blank) == [Range(50, 90)];
  }

  lemma TooShortBy(content: string, r: Range, blank: char -> bool)
    requires |content| < MIN_CHUNK_SIZE
    ensures !IsLong(content, r, blank)
  {
    var cut := Slice(content, r.start, r.end);
    assert |Trim(cut, blank)| <= |cut| <= |content|;
  }

  lemma BothAreMerged(content: string, blank: char -> bool)
    requires |content| == 100
    ensures Specs(content, Merged([Range(0, 100), Range(50, 90)], LongIn(content, blank))) == [Chunk(content[..90], 0, 90, 23)]
  {
    TooShortBy(content, Range(0, 100), blank);
    TooShortBy(content, Range(0, 90), blank);
    OneShortChunk(Range(0, 100), Range(50, 90), LongIn(content, blank));
  }

  /**
   A text of 100 different characters, none of them blank, that a splitter gives back whole and then a part of
   it: both are found where they are, both are too short, and the end of the text is in no chunk.
   */
  lemma EndIsLost(content: string, split: string -> seq<string>, blank: char -> bool)
    requires |content| == 100 && Distinct(content) && Solid(content, blank)
    requires split(content) == [content, content[50..90]]
    ensures Covers(Located(content, split(content), 0, blank), 95)
    ensures ChunksOf(content, split, blank) == [Chunk(content[..90], 0, 90, 23)]
  {
    BothAreLocated(content, blank);
    BothAreMerged(content, blank);
    assert Holds(Located(content, split(content), 0, blank)[0], 95);
    assert ChunksFrom(content, split(content), blank) == [Chunk(content[..90], 0, 90, 23)];
    SolidTrims(content, blank);
  }

  function LosingText(): string {
    seq(100, i requires 0 <= i < 100 => (33 + i) as char)
  }

  function WholeAndPart(text: string): seq<string> {
    if |text| < 90 then [text] else [text, text[50..90]]
  }

  /** There are such a text and such a splitter. */
  lemma EndIsLostOnce()
    ensures var content, blank := LosingText(), (c: char) => c == ' ';
            && Covers(Located(content, WholeAndPart(content), 0, blank), 95)
            && ChunksOf(content, WholeAndPart, blank) == [Chunk(content[..90], 0, 90, 23)]
  {
    EndIsLost(LosingText(), WholeAndPart, (c: char) => c == ' ');
  }
}
