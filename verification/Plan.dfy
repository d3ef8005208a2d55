/**
 The plan for one client window: which chunks it touches, which bytes of each, and how
 consecutive chunks of one kind group into runs.
 */
module Plan {
  import opened Outcomes
  import opened Grid
  import opened Intervals

  /** One touched chunk's share of the window; both bounds are inclusive. */
  datatype ChunkSeg = ChunkSeg(index: nat, start: nat, end: nat, present: bool)

  datatype RunKind = Local | Fetch

  /** A run covers `segments[segFrom..segTo]` and the inclusive window `[start, end]`. */
  datatype PlanRun = PlanRun(kind: RunKind, start: nat, end: nat, segFrom: nat, segTo: nat)

  /** First offset after the window once the window is clipped to the end of the file. */
  function WindowStop(g: ChunkGrid, end: nat): nat {
    Min(end + 1, g.fileSize)
  }

  /** The segments cover `[lo, stop)` in order, without gap, overlap or empty segment. */
  ghost predicate Tiles(segs: seq<ChunkSeg>, lo: nat, stop: nat) {
    && (|segs| == 0 ==> stop <= lo)
    && (|segs| > 0 ==> segs[0].start == lo && segs[|segs| - 1].end + 1 == stop)
    && (forall k :: 0 <= k < |segs| ==> segs[k].start <= segs[k].end)
    && (forall k :: 0 < k < |segs| ==> segs[k].start == segs[k - 1].end + 1)
  }

  /** Every byte of a segment belongs to the segment's chunk, and one chunk has one segment. */
  ghost predicate OnGrid(g: ChunkGrid, segs: seq<ChunkSeg>) {
    && (forall k, o: nat :: 0 <= k < |segs| && segs[k].start <= o <= segs[k].end ==> Holds(g, segs[k].index, o))
    && (forall k :: 0 < k < |segs| ==> segs[k].index == segs[k - 1].index + 1)
  }

  /** What a plan promises: an exact tiling of the clipped window, cut along the grid. */
  ghost predicate IsPlan(g: ChunkGrid, present: set<nat>, start: nat, end: nat, segs: seq<ChunkSeg>) {
    && Tiles(segs, start, WindowStop(g, end))
    && OnGrid(g, segs)
    && (forall k :: 0 <= k < |segs| ==> (segs[k].present <==> segs[k].index in present))
  }

  /** The plan after `n` of the touched chunks. */
  ghost predicate PlanSoFar(g: ChunkGrid, present: set<nat>, start: nat, end: nat, segs: seq<ChunkSeg>, n: nat)
    requires n <= |ChunksTouching(g, start, end)|
  {
    var indices := ChunksTouching(g, start, end);
    && |segs| == n
    && (n > 0 ==> Tiles(segs, start, Min(end + 1, ChunkStart(g, indices[n - 1]) + ChunkLen(g, indices[n - 1]))))
    && OnGrid(g, segs)
    && (forall k :: 0 <= k < n ==> segs[k].index == indices[k])
    && (forall k :: 0 <= k < |segs| ==> (segs[k].present <==> segs[k].index in present))
  }

  /** The planning loop of `plan_chunks`, over the indices the window touches. */
  method BuildSegments(g: ChunkGrid, start: nat, end: nat, present: set<nat>) returns (segs: seq<ChunkSeg>)
    ensures IsPlan(g, present, start, end, segs)
  {
    var indices := ChunksTouching(g, start, end);
    segs := [];
    var n := 0;
    while n < |indices|
      invariant 0 <= n <= |indices|
      invariant PlanSoFar(g, present, start, end, segs, n)
    {
      var i := indices[n];
      TouchedChunk(g, start, end, n);
      match ChunkEnd(g, i) {
        case None =>
          assert false;
        case Some(ce) =>
          var s, e := Max(start, ChunkStart(g, i)), Min(end, ce);
          PlanGrows(g, present, start, end, segs, n);
          segs := segs + [ChunkSeg(i, s, e, i in present)];
      }
      n := n + 1;
    }
    PlanComplete(g, present, start, end, segs);
  }

  lemma {:induction false} PlanComplete(g: ChunkGrid, present: set<nat>, start: nat, end: nat, segs: seq<ChunkSeg>)
    requires PlanSoFar(g, present, start, end, segs, |ChunksTouching(g, start, end)|)
    ensures IsPlan(g, present, start, end, segs)
  {
    var touching := ChunksTouching(g, start, end);
    if |touching| == 0 {
      NothingTouched(g, start, end);
    } else {
      WindowEnds(g, start, end);
      assert Tiles(segs, start, WindowStop(g, end));
    }
  }

  lemma {:induction false} NothingTouched(g: ChunkGrid, start: nat, end: nat)
    requires ChunksTouching(g, start, end) == []
    ensures WindowStop(g, end) <= start
  {
    if start <= end && start < g.fileSize {
      TouchingRange(g, start, end, IndexOf(g, start));
      IndexMonotone(g, start, Min(end, g.fileSize - 1));
    }
  }

  lemma {:induction false} PlanGrows(g: ChunkGrid, present: set<nat>, start: nat, end: nat, segs: seq<ChunkSeg>, n: nat)
    requires n < |ChunksTouching(g, start, end)| && PlanSoFar(g, present, start, end, segs, n)
    ensures var i := ChunksTouching(g, start, end)[n];
      ChunkLen(g, i) > 0 &&
      var seg := ChunkSeg(i, Max(start, ChunkStart(g, i)), Min(end, ChunkEnd(g, i).value), i in present);
      PlanSoFar(g, present, start, end, segs + [seg], n + 1)
  {
    hide ChunkStart, ChunkLen, ChunksTouching;
    var indices := ChunksTouching(g, start, end);
    var i := indices[n];
    TouchedChunk(g, start, end, n);
    var seg := ChunkSeg(i, Max(start, ChunkStart(g, i)), Min(end, ChunkEnd(g, i).value), i in present);
    var more := segs + [seg];
    SegmentOnChunk(g, seg);
    if n > 0 {
      TouchedChunk(g, start, end, n - 1);
      assert seg.start == segs[n - 1].end + 1;
      assert seg.index == segs[n - 1].index + 1;
    }
    TilesGrow(segs, start, seg);
    GridGrows(g, segs, seg);
    hide Tiles, OnGrid;
    assert forall k :: 0 <= k < n + 1 ==> more[k].index == indices[k];
  }

  lemma {:induction false} TilesGrow(segs: seq<ChunkSeg>, lo: nat, seg: ChunkSeg)
    requires segs != [] ==> Tiles(segs, lo, seg.start)
    requires seg.start <= seg.end && (segs == [] ==> seg.start == lo)
    ensures Tiles(segs + [seg], lo, seg.end + 1)
  {
  }

  lemma {:induction false} GridGrows(g: ChunkGrid, segs: seq<ChunkSeg>, seg: ChunkSeg)
    requires OnGrid(g, segs) && forall o: nat :: seg.start <= o <= seg.end ==> Holds(g, seg.index, o)
    requires segs != [] ==> seg.index == segs[|segs| - 1].index + 1
    ensures OnGrid(g, segs + [seg])
  {
    hide Holds;
  }

  /** Where the `n`-th touched chunk lies relative to the window. */
  lemma {:induction false} TouchedChunk(g: ChunkGrid, start: nat, end: nat, n: nat)
    requires n < |ChunksTouching(g, start, end)|
    ensures var i := ChunksTouching(g, start, end)[n];
      && i == IndexOf(g, start) + n
      && start <= end
      && ChunkLen(g, i) > 0
      && ChunkStart(g, i) <= end
      && start < ChunkStart(g, i) + ChunkLen(g, i)
      && (n > 0 ==> start < ChunkStart(g, i))
      && (n > 0 ==> ChunkStart(g, i) == ChunkStart(g, i - 1) + ChunkLen(g, i - 1))
      && (n == 0 ==> ChunkStart(g, i) <= start)
  {
    var last := Min(end, g.fileSize - 1);
    IndexMonotone(g, start, last);
    var i := ChunksTouching(g, start, end)[n];
    hide ChunksTouching, ChunkStart, ChunkLen, IndexOf;
    var o := SharedByte(g, start, end, i);
    ChunksPartition(g, i, o);
    ChunksPartition(g, IndexOf(g, start), start);
    if n > 0 { LaterChunk(g, start, i); }
  }

  lemma {:induction false} LaterChunk(g: ChunkGrid, start: nat, i: nat)
    requires IndexOf(g, start) < i && ChunkLen(g, i) > 0
    ensures start < ChunkStart(g, i) == ChunkStart(g, i - 1) + ChunkLen(g, i - 1)
  {
    IndexBounds(g, start);
    MulMonotone(IndexOf(g, start) + 1, i, g.chunkSize);
    assert i * g.chunkSize == (i - 1) * g.chunkSize + g.chunkSize;
    hide IndexOf;
  }

  /** The last touched chunk reaches the end of the clipped window. */
  lemma {:induction false} WindowEnds(g: ChunkGrid, start: nat, end: nat)
    requires ChunksTouching(g, start, end) != []
    ensures var t := ChunksTouching(g, start, end); var i := t[|t| - 1];
      Min(end + 1, ChunkStart(g, i) + ChunkLen(g, i)) == WindowStop(g, end)
  {
    var last := Min(end, g.fileSize - 1);
    IndexMonotone(g, start, last);
    ChunksPartition(g, IndexOf(g, last), last);
  }

  lemma {:induction false} SegmentOnChunk(g: ChunkGrid, seg: ChunkSeg)
    requires ChunkStart(g, seg.index) <= seg.start && seg.end < ChunkStart(g, seg.index) + ChunkLen(g, seg.index)
    ensures forall o: nat :: seg.start <= o <= seg.end ==> Holds(g, seg.index, o)
  {
  }

  // ---- the plan is determined by what it promises ----

  lemma {:induction false} PlanUnique(g: ChunkGrid, present: set<nat>, start: nat, end: nat,
                                      a: seq<ChunkSeg>, b: seq<ChunkSeg>)
    requires IsPlan(g, present, start, end, a) && IsPlan(g, present, start, end, b)
    ensures a == b
    decreases |a|
  {
    hide *;
    PlanEmpty(g, present, start, end, a);
    PlanEmpty(g, present, start, end, b);
    if a != [] {
      SameHead(g, present, start, end, a, b);
      PlanTail(g, present, start, end, a);
      PlanTail(g, present, start, end, b);
      PlanUnique(g, present, a[0].end + 1, end, a[1..], b[1..]);
      assert a == [a[0]] + a[1..] && b == [b[0]] + b[1..];
    }
  }

  lemma {:induction false} PlanEmpty(g: ChunkGrid, present: set<nat>, start: nat, end: nat, a: seq<ChunkSeg>)
    requires IsPlan(g, present, start, end, a)
    ensures a == [] <==> WindowStop(g, end) <= start
  {
    hide OnGrid;
    if a != [] { StopAfter(a, start, WindowStop(g, end), 0); }
  }

  lemma {:induction false} SameHead(g: ChunkGrid, present: set<nat>, start: nat, end: nat, a: seq<ChunkSeg>,
                                    b: seq<ChunkSeg>)
    requires IsPlan(g, present, start, end, a) && IsPlan(g, present, start, end, b) && a != [] && b != []
    ensures a[0] == b[0]
  {
    hide IndexOf, ChunkStart, ChunkLen, WindowStop;
    ChunksPartition(g, a[0].index, start);
    ChunksPartition(g, b[0].index, start);
    SameHeadEnd(g, present, start, end, a, b);
    SameHeadEnd(g, present, start, end, b, a);
  }

  lemma {:induction false} PlanTail(g: ChunkGrid, present: set<nat>, start: nat, end: nat, a: seq<ChunkSeg>)
    requires IsPlan(g, present, start, end, a) && a != []
    ensures IsPlan(g, present, a[0].end + 1, end, a[1..])
  {
    var t := a[1..];
    forall k | 0 < k < |t| ensures t[k].start == t[k - 1].end + 1 && t[k].index == t[k - 1].index + 1 {
      assert t[k] == a[k + 1] && t[k - 1] == a[k];
    }
  }

  lemma {:induction false} SameHeadEnd(g: ChunkGrid, present: set<nat>, start: nat, end: nat, a: seq<ChunkSeg>,
                                       b: seq<ChunkSeg>)
    requires IsPlan(g, present, start, end, a) && IsPlan(g, present, start, end, b) && a != [] && b != []
    requires a[0].index == b[0].index
    ensures a[0].end >= b[0].end
  {
    if a[0].end < b[0].end {
      var o := a[0].end + 1;
      assert Holds(g, b[0].index, o);
      StopAfter(b, start, WindowStop(g, end), 0);
      assert |a| > 1;
      assert Holds(g, a[1].index, a[1].start);
      ChunksPartition(g, a[1].index, o);
      ChunksPartition(g, b[0].index, o);
    }
  }

  lemma {:induction false} StopAfter(segs: seq<ChunkSeg>, lo: nat, stop: nat, k: nat)
    requires Tiles(segs, lo, stop) && k < |segs|
    ensures segs[k].end < stop && lo <= segs[k].start
    decreases |segs| - k
  {
    if k + 1 < |segs| {
      StopAfter(segs, lo, stop, k + 1);
    }
    StartBefore(segs, lo, stop, k);
  }

  lemma {:induction false} StartBefore(segs: seq<ChunkSeg>, lo: nat, stop: nat, k: nat)
    requires Tiles(segs, lo, stop) && k < |segs|
    ensures lo <= segs[k].start
  {
    if k > 0 {
      StartBefore(segs, lo, stop, k - 1);
    }
  }

  function IndicesOf(segs: seq<ChunkSeg>): seq<nat> {
    seq(|segs|, k requires 0 <= k < |segs| => segs[k].index)
  }

  /** A plan has one segment for each touched chunk and no other. */
  lemma {:induction false} PlanTouches(g: ChunkGrid, present: set<nat>, start: nat, end: nat, segs: seq<ChunkSeg>)
    requires IsPlan(g, present, start, end, segs)
    ensures IndicesOf(segs) == ChunksTouching(g, start, end)
  {
    if segs != [] {
      var last := |segs| - 1;
      StopAfter(segs, start, WindowStop(g, end), 0);
      StopAfter(segs, start, WindowStop(g, end), last);
      assert Holds(g, segs[0].index, start) && Holds(g, segs[last].index, segs[last].end);
      ChunksPartition(g, segs[0].index, start);
      ChunksPartition(g, segs[last].index, segs[last].end);
      IndexMonotone(g, start, segs[last].end);
      forall k | 0 <= k < |segs| ensures segs[k].index == segs[0].index + k {
        IndexStep(g, segs, k);
      }
    }
  }

  lemma {:induction false} IndexStep(g: ChunkGrid, segs: seq<ChunkSeg>, k: nat)
    requires OnGrid(g, segs) && k < |segs|
    ensures segs[k].index == segs[0].index + k
  {
    if k > 0 {
      IndexStep(g, segs, k - 1);
    }
  }

  // ---- runs ----

  predicate IsFullHit(segs: seq<ChunkSeg>) {
    segs != [] && forall k :: 0 <= k < |segs| ==> segs[k].present
  }

  function KindOf(seg: ChunkSeg): RunKind {
    if seg.present then Local else Fetch
  }

  /** A run is a nonempty stretch of segments of its own kind and carries their outer bounds. */
  ghost predicate RunOver(segs: seq<ChunkSeg>, r: PlanRun) {
    && r.segFrom < r.segTo <= |segs|
    && r.start == segs[r.segFrom].start
    && r.end == segs[r.segTo - 1].end
    && (forall k :: r.segFrom <= k < r.segTo ==> KindOf(segs[k]) == r.kind)
  }

  /** The runs cut the segments up to `n` into maximal stretches of one kind. */
  ghost predicate MaximalRuns(segs: seq<ChunkSeg>, runs: seq<PlanRun>, n: nat) {
    && (|runs| == 0 <==> n == 0)
    && (|runs| > 0 ==> runs[0].segFrom == 0 && runs[|runs| - 1].segTo == n)
    && (forall r :: 0 <= r < |runs| ==> RunOver(segs, runs[r]))
    && (forall r :: 0 < r < |runs| ==> runs[r].segFrom == runs[r - 1].segTo && runs[r].kind != runs[r - 1].kind)
  }

  method Runs(segs: seq<ChunkSeg>) returns (runs: seq<PlanRun>)
    ensures MaximalRuns(segs, runs, |segs|)
  {
    runs := [];
    var i := 0;
    hide RunOver;
    while i < |segs|
      invariant 0 <= i <= |segs|
      invariant MaximalRuns(segs, runs, i)
      invariant 0 < i < |segs| ==> KindOf(segs[i]) != KindOf(segs[i - 1])
    {
      var kind := KindOf(segs[i]);
      var j := i;
      while j + 1 < |segs| && segs[j + 1].present == segs[i].present
        invariant i <= j < |segs|
        invariant forall k :: i <= k <= j ==> KindOf(segs[k]) == kind
      {
        j := j + 1;
      }
      NextRun(segs, runs, i, j);
      hide MaximalRuns;
      runs := runs + [PlanRun(kind, segs[i].start, segs[j].end, i, j + 1)];
      i := j + 1;
    }
  }

  lemma {:induction false} NextRun(segs: seq<ChunkSeg>, runs: seq<PlanRun>, i: nat, j: nat)
    requires MaximalRuns(segs, runs, i) && i <= j < |segs|
    requires i > 0 ==> KindOf(segs[i]) != KindOf(segs[i - 1])
    requires forall k :: i <= k <= j ==> KindOf(segs[k]) == KindOf(segs[i])
    ensures MaximalRuns(segs, runs + [PlanRun(KindOf(segs[i]), segs[i].start, segs[j].end, i, j + 1)], j + 1)
  {
    var run := PlanRun(KindOf(segs[i]), segs[i].start, segs[j].end, i, j + 1);
    assert RunOver(segs, run);
    if runs != [] {
      assert RunOver(segs, runs[|runs| - 1]);
      assert KindOf(segs[i - 1]) == runs[|runs| - 1].kind;
    }
    hide RunOver, KindOf;
  }

  /** The runs cover `[lo, stop)` in order, without gap or overlap. */
  ghost predicate RunsTile(runs: seq<PlanRun>, lo: nat, stop: nat) {
    && (|runs| == 0 ==> stop <= lo)
    && (|runs| > 0 ==> runs[0].start == lo && runs[|runs| - 1].end + 1 == stop)
    && (forall r :: 0 <= r < |runs| ==> runs[r].start <= runs[r].end)
    && (forall r :: 0 < r < |runs| ==> runs[r].start == runs[r - 1].end + 1)
  }

  lemma {:induction false} RunsTileWindow(segs: seq<ChunkSeg>, runs: seq<PlanRun>, lo: nat, stop: nat)
    requires Tiles(segs, lo, stop) && MaximalRuns(segs, runs, |segs|)
    ensures RunsTile(runs, lo, stop)
  {
    forall r | 0 <= r < |runs| ensures runs[r].start <= runs[r].end {
      assert RunOver(segs, runs[r]);
      StartsOrdered(segs, lo, stop, runs[r].segFrom, runs[r].segTo - 1);
    }
    forall r | 0 < r < |runs| ensures runs[r].start == runs[r - 1].end + 1 {
      assert RunOver(segs, runs[r]) && RunOver(segs, runs[r - 1]);
    }
    if runs != [] {
      assert RunOver(segs, runs[0]) && RunOver(segs, runs[|runs| - 1]);
    }
  }

  lemma {:induction false} StartsOrdered(segs: seq<ChunkSeg>, lo: nat, stop: nat, i: nat, j: nat)
    requires Tiles(segs, lo, stop) && i <= j < |segs|
    ensures segs[i].start <= segs[j].start <= segs[j].end
    decreases j
  {
    if i < j {
      StartsOrdered(segs, lo, stop, i, j - 1);
    }
  }

  /** Chunk indices covered by one run, ascending. */
  function RunIndices(segs: seq<ChunkSeg>, r: PlanRun): seq<nat>
    requires r.segFrom <= r.segTo <= |segs|
  {
    IndicesOf(segs[r.segFrom..r.segTo])
  }

  ghost function ConcatRunIndices(segs: seq<ChunkSeg>, runs: seq<PlanRun>): seq<nat>
    requires forall r :: 0 <= r < |runs| ==> RunOver(segs, runs[r])
  {
    if runs == [] then []
    else
      assert RunOver(segs, runs[|runs| - 1]);
      ConcatRunIndices(segs, runs[..|runs| - 1]) + RunIndices(segs, runs[|runs| - 1])
  }

  /** Taken together in order, the runs name every touched chunk exactly once. */
  lemma {:induction false} RunIndicesConcat(segs: seq<ChunkSeg>, runs: seq<PlanRun>, n: nat)
    requires n <= |segs| && MaximalRuns(segs, runs, n)
    ensures ConcatRunIndices(segs, runs) == IndicesOf(segs[..n])
    decreases |runs|
  {
    if runs != [] {
      var r := runs[|runs| - 1];
      var front := runs[..|runs| - 1];
      assert RunOver(segs, r);
      if front != [] {
        assert RunOver(segs, front[|front| - 1]);
        assert front[|front| - 1] == runs[|runs| - 2];
      }
      RunIndicesConcat(segs, front, r.segFrom);
      assert segs[..n] == segs[..r.segFrom] + segs[r.segFrom..r.segTo];
    }
  }

  /** Bytes of the window that the plan found durable. */
  function LocalBytes(segs: seq<ChunkSeg>): int {
    if segs == [] then 0
    else LocalBytes(segs[..|segs| - 1]) +
         if segs[|segs| - 1].present then segs[|segs| - 1].end - segs[|segs| - 1].start + 1 else 0
  }

  /** The window offsets whose chunk is present. */
  ghost function LocalOffsets(g: ChunkGrid, present: set<nat>, lo: nat, stop: nat): set<int> {
    set o: int | lo <= o < stop && IndexOf(g, o) in present
  }

  /** The plan's count of durable bytes is the number of window offsets that lie in present chunks. */
  lemma {:induction false} LocalBytesCounts(g: ChunkGrid, present: set<nat>, lo: nat, stop: nat, segs: seq<ChunkSeg>)
    requires Tiles(segs, lo, stop) && OnGrid(g, segs)
    requires forall k :: 0 <= k < |segs| ==> (segs[k].present <==> segs[k].index in present)
    ensures LocalBytes(segs) == |LocalOffsets(g, present, lo, stop)|
    decreases |segs|
  {
    if segs == [] {
      assert LocalOffsets(g, present, lo, stop) == {};
    } else {
      var front, s := segs[..|segs| - 1], segs[|segs| - 1];
      StopAfter(segs, lo, stop, |segs| - 1);
      FrontTiles(segs, lo, stop);
      LocalBytesCounts(g, present, lo, s.start, front);
      LocalOffsetsSplit(g, present, lo, s);
    }
  }

  lemma {:induction false} FrontTiles(segs: seq<ChunkSeg>, lo: nat, stop: nat)
    requires Tiles(segs, lo, stop) && segs != []
    ensures Tiles(segs[..|segs| - 1], lo, segs[|segs| - 1].start)
  {
    if |segs| > 1 {
      assert segs[..|segs| - 1][|segs| - 2] == segs[|segs| - 2];
    }
  }

  lemma {:induction false} LocalOffsetsSplit(g: ChunkGrid, present: set<nat>, lo: nat, s: ChunkSeg)
    requires lo <= s.start <= s.end && (s.present <==> s.index in present)
    requires forall o: nat :: s.start <= o <= s.end ==> Holds(g, s.index, o)
    ensures |LocalOffsets(g, present, lo, s.end + 1)|
         == |LocalOffsets(g, present, lo, s.start)| + if s.present then s.end - s.start + 1 else 0
  {
    hide IndexOf, Interval, Holds;
    SegmentIndex(g, s);
    var before, after := LocalOffsets(g, present, lo, s.start), LocalOffsets(g, present, lo, s.end + 1);
    var span := if s.present then Interval(s.start, s.end + 1) else {};
    forall o: int ensures o in after <==> o in before + span {
      if s.start <= o <= s.end { assert IndexOf(g, o) == s.index; }
    }
    assert before !! span;
    hide LocalOffsets;
    assert after == before + span;
    if s.present { SpanAdds(before, s.start, s.end + 1 - s.start); }
  }

  lemma {:induction false} SegmentIndex(g: ChunkGrid, s: ChunkSeg)
    requires forall o: nat :: s.start <= o <= s.end ==> Holds(g, s.index, o)
    ensures forall o: nat :: s.start <= o <= s.end ==> IndexOf(g, o) == s.index
  {
    hide Holds, IndexOf;
    forall o: nat | s.start <= o <= s.end ensures IndexOf(g, o) == s.index {
      ChunksPartition(g, s.index, o);
    }
  }

  /** A full hit is exactly a plan that is one local run. */
  lemma {:induction false} FullHitIsOneLocalRun(segs: seq<ChunkSeg>, runs: seq<PlanRun>)
    requires MaximalRuns(segs, runs, |segs|)
    ensures IsFullHit(segs) <==> |runs| == 1 && runs[0].kind == Local
  {
    if |runs| == 1 {
      assert RunOver(segs, runs[0]);
    } else if |runs| > 1 {
      assert RunOver(segs, runs[0]) && RunOver(segs, runs[1]);
      assert KindOf(segs[runs[0].segFrom]) != KindOf(segs[runs[1].segFrom]);
    }
  }
}
