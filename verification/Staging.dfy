/**
 What a stager has staged so far, as values: the offsets written, the open and the parked
 temporary files, and how they change when a span is written.
 */
module StagingProgress {
  import opened Outcomes
  import opened Intervals
  import opened Grid
  import opened Chunks
  import opened Keys
  import opened Disk

  datatype OpenChunk = OpenChunk(index: nat, expected: nat, written: nat)

  /** The open chunk and, for chunks left incomplete earlier, how many bytes they have. */
  datatype Progress = Progress(cur: Option<OpenChunk>, pending: map<nat, nat>)

  /** Writing `data` at position `at` of a file: what lies before and after stays, a gap reads as zeros. */
  function Overwrite(f: Bytes, at: nat, data: Bytes): (r: Bytes)
    ensures |r| == Max(|f|, at + |data|)
  {
    (if at <= |f| then f[..at] else f + Zeros(at - |f|)) + data
      + (if at + |data| < |f| then f[at + |data|..] else [])
  }

  lemma {:induction false} OverwriteAt(f: Bytes, at: nat, data: Bytes, k: nat)
    requires k < |Overwrite(f, at, data)|
    ensures at <= k < at + |data| ==> Overwrite(f, at, data)[k] == data[k - at]
    ensures k < |f| && !(at <= k < at + |data|) ==> Overwrite(f, at, data)[k] == f[k]
    ensures |f| <= k < at ==> Overwrite(f, at, data)[k] == 0
  {
  }

  /** The staged offsets that belong to chunk `i`. */
  ghost function InChunk(g: ChunkGrid, staged: set<int>, i: nat): set<int> {
    set o | o in staged && Holds(g, i, o)
  }

  /** The file has the right byte at every staged offset of the chunk; elsewhere it may hold anything. */
  ghost predicate Holding(g: ChunkGrid, bytes: Bytes, staged: set<int>, i: nat, f: Bytes) {
    && |f| <= ChunkLen(g, i)
    && (forall o :: o in staged && Holds(g, i, o) ==>
          o < |bytes| && o - ChunkStart(g, i) < |f| && f[o - ChunkStart(g, i)] == bytes[o])
  }

  /** Chunk `i` is strictly partial: `w` counts its staged offsets and its file holds them. */
  ghost predicate Partly(g: ChunkGrid, bytes: Bytes, staged: set<int>, files: Files, key: string, tag: nat, i: nat,
                         w: nat) {
    var path := Staging(ChunkId(key, i), tag);
    && w == |InChunk(g, staged, i)| < ChunkLen(g, i)
    && path in files && Holding(g, bytes, staged, i, files[path])
  }

  /** Every offset of the chunk was staged. */
  ghost predicate Full(g: ChunkGrid, staged: set<int>, i: nat) {
    ChunkLen(g, i) > 0 && |InChunk(g, staged, i)| == ChunkLen(g, i)
  }

  /** Nothing of chunk `i` is staged, or all of it. */
  ghost predicate Settled(g: ChunkGrid, staged: set<int>, i: nat) { InChunk(g, staged, i) == {} || Full(g, staged, i) }

  ghost predicate IsOpen(p: Progress, i: nat) { p.cur.Some? && p.cur.value.index == i }

  ghost predicate ProgressOk(g: ChunkGrid, bytes: Bytes, staged: set<int>, files: Files, key: string, tag: nat,
                             p: Progress) {
    && (p.cur.Some? ==>
          && p.cur.value.index !in p.pending && p.cur.value.expected == ChunkLen(g, p.cur.value.index)
          && Partly(g, bytes, staged, files, key, tag, p.cur.value.index, p.cur.value.written))
    && (forall i :: i in p.pending ==> Partly(g, bytes, staged, files, key, tag, i, p.pending[i]))
    && (forall i :: i !in p.pending && !IsOpen(p, i) ==> Settled(g, staged, i))
  }

  /** Counting is enough: a full count covers every offset of the chunk. */
  lemma {:induction false} FullMeansAll(g: ChunkGrid, staged: set<int>, i: nat)
    ensures |InChunk(g, staged, i)| <= ChunkLen(g, i)
    ensures Full(g, staged, i) <==> ChunkLen(g, i) > 0 && (forall o: int :: Holds(g, i, o) ==> o in staged)
  {
    hide ChunkStart, ChunkLen;
    var lo, len := ChunkStart(g, i), ChunkLen(g, i);
    FullCover(InChunk(g, staged, i), lo, lo + len);
    if forall o: int :: Holds(g, i, o) ==> o in staged {
      assert InChunk(g, staged, i) == Interval(lo, lo + len);
    }
    if Full(g, staged, i) {
      forall o: int | Holds(g, i, o) ensures o in staged {
        assert o in Interval(lo, lo + len);
      }
    }
  }

  /** A chunk whose file holds all of its offsets is the chunk's content, whatever the file held before. */
  lemma {:induction false} HeldFileIsContent(g: ChunkGrid, bytes: Bytes, staged: set<int>, i: nat, f: Bytes)
    requires g.fileSize == |bytes| && Full(g, staged, i) && Holding(g, bytes, staged, i, f)
    ensures ChunkStart(g, i) + ChunkLen(g, i) <= |bytes|
    ensures f == bytes[ChunkStart(g, i)..ChunkStart(g, i) + ChunkLen(g, i)]
  {
    hide ChunkStart, InChunk;
    var lo, len := ChunkStart(g, i), ChunkLen(g, i);
    FullMeansAll(g, staged, i);
    assert 0 < len && lo + len <= |bytes|;
    hide ChunkLen, Full;
    HeldSlice(bytes, staged, lo, len, f);
  }

  lemma {:induction false} HeldSlice(bytes: Bytes, staged: set<int>, lo: nat, len: nat, f: Bytes)
    requires 0 < len && lo + len <= |bytes| && |f| <= len
    requires forall o: int :: lo <= o < lo + len ==> o in staged
    requires forall o :: o in staged && lo <= o < lo + len ==> o - lo < |f| && f[o - lo] == bytes[o]
    ensures f == bytes[lo..lo + len]
  {
    assert lo + len - 1 in staged;
    forall k | 0 <= k < len ensures f[k] == bytes[lo + k] {
      assert lo + k in staged;
    }
  }

  // ---- switching to another chunk ----

  /** Park the open chunk and take up chunk `i`, new or parked earlier. */
  function Switched(p: Progress, i: nat, len: nat): Progress {
    var pending := if p.cur.Some? then p.pending[p.cur.value.index := p.cur.value.written] else p.pending;
    Progress(Some(OpenChunk(i, len, if i in pending then pending[i] else 0)), pending - {i})
  }

  /** Opening without truncation: an existing file keeps its bytes. */
  function WithFile(files: Files, path: Path): Files {
    if path in files then files else files[path := []]
  }

  lemma {:induction false} SwitchKeepsOk(g: ChunkGrid, bytes: Bytes, staged: set<int>, files: Files, key: string,
                                         tag: nat, p: Progress, i: nat)
    requires ProgressOk(g, bytes, staged, files, key, tag, p)
    requires !IsOpen(p, i) && ChunkLen(g, i) > 0 && !Full(g, staged, i)
    requires var path := Staging(ChunkId(key, i), tag); path in files ==> |files[path]| <= ChunkLen(g, i)
    ensures ProgressOk(g, bytes, staged, WithFile(files, Staging(ChunkId(key, i), tag)), key, tag,
                       Switched(p, i, ChunkLen(g, i)))
  {
    hide ChunkLen, ChunkStart;
    var path := Staging(ChunkId(key, i), tag);
    var after := WithFile(files, path);
    var q := Switched(p, i, ChunkLen(g, i));
    forall j, w | Partly(g, bytes, staged, files, key, tag, j, w)
      ensures Partly(g, bytes, staged, after, key, tag, j, w) {
    }
    if i !in p.pending {
      assert InChunk(g, staged, i) == {};
      assert forall o :: o in staged && Holds(g, i, o) ==> o in InChunk(g, staged, i);
    }
  }

  // ---- writing a span inside one chunk ----

  /** The span adds its length to its own chunk. */
  lemma {:induction false} SpanCounts(g: ChunkGrid, staged: set<int>, i: nat, off: nat, n: nat)
    requires Interval(off, off + n) !! staged && forall o: int :: off <= o < off + n ==> Holds(g, i, o)
    ensures |InChunk(g, staged + Interval(off, off + n), i)| == |InChunk(g, staged, i)| + n
  {
    hide ChunkLen, ChunkStart, Holds, InChunk;
    var span := Interval(off, off + n);
    InChunkOfUnion(g, staged, span, i);
    AllInChunk(g, span, i);
    hide Interval;
    SpanAdds(InChunk(g, staged, i), off, n);
  }

  lemma {:induction false} InChunkOfUnion(g: ChunkGrid, a: set<int>, b: set<int>, i: nat)
    ensures InChunk(g, a + b, i) == InChunk(g, a, i) + InChunk(g, b, i) && InChunk(g, a, i) <= a
  {
    hide Holds;
  }

  lemma {:induction false} AllInChunk(g: ChunkGrid, b: set<int>, i: nat)
    requires forall o :: o in b ==> Holds(g, i, o)
    ensures InChunk(g, b, i) == b
  {
    hide Holds;
  }

  /** ... and nothing to any other. */
  lemma {:induction false} SpanElsewhere(g: ChunkGrid, staged: set<int>, i: nat, off: nat, n: nat, j: nat)
    requires j != i && forall o: int :: off <= o < off + n ==> Holds(g, i, o)
    ensures InChunk(g, staged + Interval(off, off + n), j) == InChunk(g, staged, j)
  {
    forall o: nat | off <= o < off + n ensures !Holds(g, j, o) {
      assert Holds(g, i, o);
      ChunksPartition(g, i, o);
      ChunksPartition(g, j, o);
    }
  }

  /** After the write the file holds the old offsets and the new span. */
  lemma {:induction false} WriteHolds(g: ChunkGrid, bytes: Bytes, staged: set<int>, i: nat, f: Bytes, off: nat,
                                      data: Bytes)
    requires Holding(g, bytes, staged, i, f) && Interval(off, off + |data|) !! staged
    requires ChunkStart(g, i) <= off && off + |data| <= ChunkStart(g, i) + ChunkLen(g, i)
    requires off + |data| <= |bytes| && data == bytes[off..off + |data|]
    ensures Holding(g, bytes, staged + Interval(off, off + |data|), i, Overwrite(f, off - ChunkStart(g, i), data))
  {
    hide ChunkLen, ChunkStart, Overwrite;
    var lo := ChunkStart(g, i);
    var r := Overwrite(f, off - lo, data);
    forall o | o in staged + Interval(off, off + |data|) && Holds(g, i, o)
      ensures o < |bytes| && o - lo < |r| && r[o - lo] == bytes[o]
    {
      if off <= o < off + |data| {
        assert data[o - off] == bytes[o];
      } else {
        assert o in staged;
      }
      OverwriteAt(f, off - lo, data, o - lo);
    }
    hide Interval;
  }

  function Wrote(c: OpenChunk, n: nat): OpenChunk { c.(written := c.written + n) }

  /** A span inside the open chunk: the count stays exact, and it reaches the length only with the last offset. */
  lemma {:induction false} WriteKeepsOk(g: ChunkGrid, bytes: Bytes, staged: set<int>, files: Files, key: string,
                                        tag: nat, p: Progress, off: nat, data: Bytes)
    requires g.fileSize == |bytes| && ProgressOk(g, bytes, staged, files, key, tag, p) && p.cur.Some?
    requires Interval(off, off + |data|) !! staged
    requires var i := p.cur.value.index; ChunkStart(g, i) <= off && off + |data| <= ChunkStart(g, i) + ChunkLen(g, i)
    requires off + |data| <= |bytes| && data == bytes[off..off + |data|]
    ensures var c := p.cur.value; var path := Staging(ChunkId(key, c.index), tag);
      var f := Overwrite(files[path], off - ChunkStart(g, c.index), data);
      var after, more := files[path := f], staged + Interval(off, off + |data|);
      && c.written + |data| <= c.expected
      && (c.written + |data| == c.expected <==> Full(g, more, c.index))
      && Holding(g, bytes, more, c.index, f)
      && (c.written + |data| < c.expected ==>
          ProgressOk(g, bytes, more, after, key, tag, p.(cur := Some(Wrote(c, |data|)))))
      && (c.written + |data| == c.expected ==> ProgressOk(g, bytes, more, after - {path}, key, tag, p.(cur := None)))
  {
    hide ChunkStart, ChunkLen, Interval, Holding, Overwrite, ProgressOk, InChunk, Full, Partly, Holds, Settled;
    var c := p.cur.value;
    var i, path := c.index, Staging(ChunkId(key, c.index), tag);
    OpenParts(g, bytes, staged, files, key, tag, p);
    var f := Overwrite(files[path], off - ChunkStart(g, i), data);
    var after, more := files[path := f], staged + Interval(off, off + |data|);
    WriteHolds(g, bytes, staged, i, files[path], off, data);
    WriteCounts(g, staged, i, off, |data|);
    RestKept(g, bytes, staged, files, after, key, tag, p, off, |data|);
    RestKept(g, bytes, staged, files, after - {path}, key, tag, p, off, |data|);
    if c.written + |data| < c.expected {
      PartlyFromParts(g, bytes, more, after, key, tag, i, c.written + |data|);
      OkFromParts(g, bytes, more, after, key, tag, p.(cur := Some(Wrote(c, |data|))));
    } else {
      FullIsSettled(g, more, i);
      OkFromParts(g, bytes, more, after - {path}, key, tag, p.(cur := None));
    }
  }

  lemma {:induction false} OpenParts(g: ChunkGrid, bytes: Bytes, staged: set<int>, files: Files, key: string, tag: nat,
                                     p: Progress)
    requires ProgressOk(g, bytes, staged, files, key, tag, p) && p.cur.Some?
    ensures var c := p.cur.value; var path := Staging(ChunkId(key, c.index), tag);
      && c.index !in p.pending && c.expected == ChunkLen(g, c.index)
      && c.written == |InChunk(g, staged, c.index)| < c.expected
      && path in files && Holding(g, bytes, staged, c.index, files[path])
  {
    hide Holding, InChunk, ChunkLen;
  }

  lemma {:induction false} FullIsSettled(g: ChunkGrid, staged: set<int>, i: nat)
    requires Full(g, staged, i)
    ensures Settled(g, staged, i)
  {
  }

  lemma {:induction false} PartlyFromParts(g: ChunkGrid, bytes: Bytes, staged: set<int>, files: Files, key: string,
                                           tag: nat, i: nat, w: nat)
    requires var path := Staging(ChunkId(key, i), tag);
      w == |InChunk(g, staged, i)| < ChunkLen(g, i) && path in files && Holding(g, bytes, staged, i, files[path])
    ensures Partly(g, bytes, staged, files, key, tag, i, w)
  {
    hide InChunk, Holding, ChunkLen;
  }

  lemma {:induction false} WriteCounts(g: ChunkGrid, staged: set<int>, i: nat, off: nat, n: nat)
    requires Interval(off, off + n) !! staged && |InChunk(g, staged, i)| < ChunkLen(g, i)
    requires ChunkStart(g, i) <= off && off + n <= ChunkStart(g, i) + ChunkLen(g, i)
    ensures var more := staged + Interval(off, off + n);
      && |InChunk(g, more, i)| == |InChunk(g, staged, i)| + n <= ChunkLen(g, i)
      && (|InChunk(g, more, i)| == ChunkLen(g, i) <==> Full(g, more, i))
  {
    hide ChunkStart, ChunkLen, Interval, InChunk;
    SpanCounts(g, staged, i, off, n);
    FullMeansAll(g, staged + Interval(off, off + n), i);
  }

  /** Every other chunk is as it was. */
  lemma {:induction false} RestKept(g: ChunkGrid, bytes: Bytes, staged: set<int>, files: Files, after: Files,
                                    key: string, tag: nat, p: Progress, off: nat, n: nat)
    requires ProgressOk(g, bytes, staged, files, key, tag, p) && p.cur.Some?
    requires var i := p.cur.value.index; ChunkStart(g, i) <= off && off + n <= ChunkStart(g, i) + ChunkLen(g, i)
    requires forall path :: path != Staging(ChunkId(key, p.cur.value.index), tag) && path in files ==>
               path in after && after[path] == files[path]
    ensures var more, i := staged + Interval(off, off + n), p.cur.value.index;
      && (forall j :: j in p.pending ==> Partly(g, bytes, more, after, key, tag, j, p.pending[j]))
      && (forall j :: j !in p.pending && j != i ==> Settled(g, more, j))
  {
    hide ChunkStart, ChunkLen, Interval, Partly, Settled, InChunk;
    var more, i := staged + Interval(off, off + n), p.cur.value.index;
    forall j: nat | j != i ensures InChunk(g, more, j) == InChunk(g, staged, j) {
      SpanElsewhere(g, staged, i, off, n, j);
    }
    OthersUndisturbed(g, bytes, staged, more, files, after, key, tag, p, i);
    OthersSettled(g, staged, more, p, i);
  }

  lemma {:induction false} OthersSettled(g: ChunkGrid, staged: set<int>, more: set<int>, p: Progress, i: nat)
    requires forall j :: j != i ==> InChunk(g, more, j) == InChunk(g, staged, j)
    requires forall j :: j !in p.pending && j != i ==> Settled(g, staged, j)
    ensures forall j :: j !in p.pending && j != i ==> Settled(g, more, j)
  {
    hide InChunk, ChunkLen;
    forall j: nat | j !in p.pending && j != i ensures Settled(g, more, j) {
      assert InChunk(g, more, j) == InChunk(g, staged, j) && Settled(g, staged, j);
    }
  }

  lemma {:induction false} OkFromParts(g: ChunkGrid, bytes: Bytes, staged: set<int>, files: Files, key: string,
                                       tag: nat, p: Progress)
    requires p.cur.Some? ==>
      && p.cur.value.index !in p.pending && p.cur.value.expected == ChunkLen(g, p.cur.value.index)
      && Partly(g, bytes, staged, files, key, tag, p.cur.value.index, p.cur.value.written)
    requires forall i :: i in p.pending ==> Partly(g, bytes, staged, files, key, tag, i, p.pending[i])
    requires forall i :: i !in p.pending && !IsOpen(p, i) ==> Settled(g, staged, i)
    ensures ProgressOk(g, bytes, staged, files, key, tag, p)
  {
    hide Partly, Full, InChunk;
  }

  /** Parked chunks other than `i` do not notice a write to chunk `i`. */
  lemma {:induction false} OthersUndisturbed(g: ChunkGrid, bytes: Bytes, staged: set<int>, more: set<int>, files: Files,
                                             after: Files, key: string, tag: nat, p: Progress, i: nat)
    requires forall j :: j != i ==> InChunk(g, more, j) == InChunk(g, staged, j)
    requires forall path :: path != Staging(ChunkId(key, i), tag) && path in files ==>
      path in after && after[path] == files[path]
    requires forall j :: j in p.pending ==> j != i && Partly(g, bytes, staged, files, key, tag, j, p.pending[j])
    ensures forall j :: j in p.pending ==> Partly(g, bytes, more, after, key, tag, j, p.pending[j])
  {
    hide ChunkLen, ChunkStart;
    forall j | j in p.pending ensures Partly(g, bytes, more, after, key, tag, j, p.pending[j]) {
      assert Partly(g, bytes, staged, files, key, tag, j, p.pending[j]);
      forall o | o in more && Holds(g, j, o) ensures o in staged {
        assert o in InChunk(g, more, j);
      }
    }
  }

  /** Progress looks at the temporary files of its own tag only. */
  lemma {:induction false} OthersIgnored(g: ChunkGrid, bytes: Bytes, staged: set<int>, files: Files, after: Files,
                                         key: string, tag: nat, p: Progress)
    requires ProgressOk(g, bytes, staged, files, key, tag, p)
    requires forall id :: Staging(id, tag) in files ==>
      Staging(id, tag) in after && after[Staging(id, tag)] == files[Staging(id, tag)]
    ensures ProgressOk(g, bytes, staged, after, key, tag, p)
  {
    hide ChunkLen, ChunkStart;
    forall i | i in p.pending ensures Partly(g, bytes, staged, after, key, tag, i, p.pending[i]) {
      assert Partly(g, bytes, staged, files, key, tag, i, p.pending[i]);
    }
  }

  // ---- discarding ----

  /** The staged offsets that are left when chunk `i` is given up. */
  ghost function Without(g: ChunkGrid, staged: set<int>, i: nat): set<int> {
    set o | o in staged && !Holds(g, i, o)
  }

  lemma {:induction false} WithoutCounts(g: ChunkGrid, staged: set<int>, i: nat, j: nat)
    ensures InChunk(g, Without(g, staged, i), j) == if j == i then {} else InChunk(g, staged, j)
  {
    if j != i {
      forall o | o in InChunk(g, staged, j) ensures !Holds(g, i, o) {
        ChunksPartition(g, i, o);
        ChunksPartition(g, j, o);
      }
    }
  }

  /** The open chunk and its file go; everything parked stays as it is. */
  lemma {:induction false} DiscardKeepsOk(g: ChunkGrid, bytes: Bytes, staged: set<int>, files: Files, key: string,
                                          tag: nat, p: Progress)
    requires ProgressOk(g, bytes, staged, files, key, tag, p) && p.cur.Some?
    ensures var i := p.cur.value.index;
      ProgressOk(g, bytes, Without(g, staged, i), files - {Staging(ChunkId(key, i), tag)}, key, tag, p.(cur := None))
  {
    hide ChunkLen, ChunkStart;
    var i := p.cur.value.index;
    forall j ensures InChunk(g, Without(g, staged, i), j) == if j == i then {} else InChunk(g, staged, j) {
      WithoutCounts(g, staged, i, j);
    }
    OthersUndisturbed(g, bytes, staged, Without(g, staged, i), files, files - {Staging(ChunkId(key, i), tag)}, key, tag,
                      p, i);
  }

  /** The staged offsets of complete chunks only. */
  ghost function OnlyFull(g: ChunkGrid, staged: set<int>): set<int> {
    set o | o in staged && o >= 0 && Full(g, staged, IndexOf(g, o))
  }

  lemma {:induction false} OnlyFullCounts(g: ChunkGrid, staged: set<int>, i: nat)
    ensures InChunk(g, OnlyFull(g, staged), i) == if Full(g, staged, i) then InChunk(g, staged, i) else {}
  {
    forall o | o in staged && Holds(g, i, o) ensures IndexOf(g, o) == i {
      ChunksPartition(g, i, o);
    }
  }

  lemma {:induction false} ForgetKeepsOk(g: ChunkGrid, bytes: Bytes, staged: set<int>, files: Files, key: string,
                                         tag: nat)
    ensures ProgressOk(g, bytes, OnlyFull(g, staged), files, key, tag, Progress(None, map[]))
  {
    var p := Progress(None, map[]);
    forall i ensures InChunk(g, OnlyFull(g, staged), i) == {} || Full(g, OnlyFull(g, staged), i) {
      OnlyFullCounts(g, staged, i);
    }
  }

  // ---- one span, as a function ----

  /** Bytes counted so far for chunk `i`. */
  ghost function CountOf(p: Progress, i: nat): nat {
    if IsOpen(p, i) then p.cur.value.written else if i in p.pending then p.pending[i] else 0
  }

  /** The progress with chunk `i` open. */
  ghost function Opened(p: Progress, i: nat, len: nat): Progress { if IsOpen(p, i) then p else Switched(p, i, len) }

  lemma {:induction false} OpenedCounts(p: Progress, i: nat, len: nat)
    ensures var q := Opened(p, i, len); IsOpen(q, i) && q.cur.value.written == CountOf(p, i)
  {
  }

  /** The progress after `n` bytes for chunk `i`. */
  ghost function SpanProgress(p: Progress, i: nat, len: nat, n: nat): Progress {
    var q := Opened(p, i, len);
    Progress(if CountOf(p, i) + n == len then None else Some(Wrote(q.cur.value, n)), q.pending)
  }

  /** The files after the temporary file of chunk `id` was opened and written, and renamed if that completes it. */
  function SpanFiles(files: Files, id: ChunkId, tag: nat, at: nat, data: Bytes, complete: bool): Files {
    var path := Staging(id, tag);
    var f := Overwrite(WithFile(files, path)[path], at, data);
    if complete then files[path := f][Final(id) := f] - {path} else files[path := f]
  }

  /** Opening first makes no difference. */
  lemma {:induction false} SpanFilesOpened(files: Files, id: ChunkId, tag: nat, at: nat, data: Bytes)
    ensures forall complete ::
      SpanFiles(WithFile(files, Staging(id, tag)), id, tag, at, data, complete)
      == SpanFiles(files, id, tag, at, data, complete)
  {
    hide Overwrite;
  }

  // ---- why counting bytes is enough, and only then ----

  /** A span written into a chunk, relative to the chunk's start. */
  datatype Span = Span(at: nat, len: nat)

  ghost function Written(spans: seq<Span>): set<int> {
    if spans == [] then {}
    else
      Written(spans[..|spans| - 1]) + Covers(spans[|spans| - 1])
  }

  ghost function Covers(s: Span): set<int> { Interval(s.at, s.at + s.len) }

  function Count(spans: seq<Span>): nat {
    if spans == [] then 0 else Count(spans[..|spans| - 1]) + spans[|spans| - 1].len
  }

  /** No span writes an offset that an earlier one already wrote. */
  ghost predicate NothingTwice(spans: seq<Span>) {
    spans == [] ||
    (NothingTwice(spans[..|spans| - 1]) && Covers(spans[|spans| - 1]) !! Written(spans[..|spans| - 1]))
  }

  lemma {:induction false} WrittenWithin(spans: seq<Span>, len: nat)
    requires forall i :: 0 <= i < |spans| ==> spans[i].at + spans[i].len <= len
    ensures Written(spans) <= Interval(0, len)
  {
    if spans != [] {
      WrittenWithin(spans[..|spans| - 1], len);
    }
  }

  /** The count never falls short of the offsets written, and it is exact only if none was written twice. */
  lemma {:induction false} CountExactIffNothingTwice(spans: seq<Span>)
    ensures |Written(spans)| <= Count(spans)
    ensures |Written(spans)| == Count(spans) <==> NothingTwice(spans)
  {
    hide Interval;
    if spans != [] {
      var front, last := spans[..|spans| - 1], spans[|spans| - 1];
      CountExactIffNothingTwice(front);
      IntervalSize(last.at, last.at + last.len);
      assert Written(spans) == Written(front) + Covers(last) && Count(spans) == Count(front) + last.len;
      assert NothingTwice(spans) <==> NothingTwice(front) && Covers(last) !! Written(front);
      OneMore(Written(front), Covers(last), Count(front), last.len);
      hide Written, Covers, Count, NothingTwice, Interval;
    }
  }

  lemma {:induction false} OneMore(w: set<int>, mine: set<int>, count: nat, len: nat)
    requires |w| <= count && |mine| == len
    ensures |w + mine| <= count + len
    ensures |w + mine| == count + len <==> |w| == count && mine !! w
  {
    UnionSize(w, mine);
  }

  /** When the byte count reaches the chunk's length the chunk is complete exactly if no offset was
      written twice; the code relies on its callers for that. */
  lemma {:induction false} FullCountCompletesIffNothingTwice(spans: seq<Span>, len: nat)
    requires Count(spans) == len
    requires forall i :: 0 <= i < |spans| ==> spans[i].at + spans[i].len <= len
    ensures Written(spans) == Interval(0, len) <==> NothingTwice(spans)
  {
    CountExactIffNothingTwice(spans);
    WrittenWithin(spans, len);
    FullCover(Written(spans), 0, len);
  }
}
