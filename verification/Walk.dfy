/**
 The chunk-by-chunk walk that `stage` and `pread` make over a byte range: one turn of either loop with
 its 64-bit subtraction as a release build computes it, and what becomes of the walk on every range.
 */
module Walk {
  import opened Outcomes
  import opened Grid

  /** `a - b` on `u64` without overflow checks. */
  function WrapSub(a: nat, b: nat): nat
    requires b <= a + U64_RANGE
  {
    if b <= a then a - b else a + U64_RANGE - b
  }

  /** Bytes left in the chunk of `offset`, as `stage` computes them. */
  function Room(g: ChunkGrid, offset: nat): nat
    requires offset <= U64_RANGE
  {
    IndexBounds(g, offset);
    WrapSub(ChunkLen(g, IndexOf(g, offset)), offset - ChunkStart(g, IndexOf(g, offset)))
  }

  /** `e - offset + 1` on `u64` without overflow checks, as `pread` computes the bytes of one step. */
  function StepLength(offset: nat, e: nat): nat
    requires offset <= U64_RANGE
  {
    (WrapSub(e, offset) + 1) % U64_RANGE
  }

  datatype Loop = ToStage | ToRead

  /** Where a walk is: at an offset, stopped by a missing chunk, or asking for a buffer of `bytes` bytes. */
  datatype Place = At(offset: nat) | Missing(offset: nat) | Huge(bytes: nat)

  /** One turn of the loop over `[.., stop)`. A reader whose step runs backwards asks for a huge buffer first. */
  function Turn(loop: Loop, g: ChunkGrid, stop: nat, p: Place): (q: Place)
    requires stop <= U64_RANGE && (p.At? ==> p.offset <= stop)
    ensures q.At? ==> q.offset <= stop
  {
    if !p.At? || p.offset >= stop then p
    else if ChunkLen(g, IndexOf(g, p.offset)) == 0 then Missing(p.offset)
    else if loop == ToStage then At(p.offset + Min(stop - p.offset, Room(g, p.offset)))
    else
      var e := Min(stop - 1, ChunkEnd(g, IndexOf(g, p.offset)).value);
      if e + 1 < p.offset then Huge(StepLength(p.offset, e)) else At(e + 1)
  }

  /** The place after `k` turns. */
  function After(loop: Loop, g: ChunkGrid, start: nat, stop: nat, k: nat): (p: Place)
    requires start <= stop <= U64_RANGE
    ensures p.At? ==> p.offset <= stop
  {
    if k == 0 then At(start) else Turn(loop, g, stop, After(loop, g, start, stop, k - 1))
  }

  /** From some turn on the walk is at `p` for good. */
  ghost predicate ComesToRest(loop: Loop, g: ChunkGrid, start: nat, stop: nat, p: Place)
    requires start <= stop <= U64_RANGE
  {
    exists k: nat :: RestsAfter(loop, g, start, stop, p, k)
  }

  ghost predicate RestsAfter(loop: Loop, g: ChunkGrid, start: nat, stop: nat, p: Place, k: nat)
    requires start <= stop <= U64_RANGE
  {
    forall m: nat :: m >= k ==> After(loop, g, start, stop, m) == p
  }

  /** The slot of `offset` belongs to a chunk, although `offset` may be at or past the end of the file. */
  predicate InSomeSlot(g: ChunkGrid, offset: nat) { ChunkLen(g, IndexOf(g, offset)) > 0 }

  /** A range that leaves the file meets its end where a missing chunk is seen. */
  predicate EndIsSeen(g: ChunkGrid, start: nat, stop: nat) {
    stop <= g.fileSize || !InSomeSlot(g, Max(start, g.fileSize))
  }

  /** The range begins past the end of the file, in the slot of its short last chunk. */
  predicate Overruns(g: ChunkGrid, start: nat, stop: nat) {
    g.fileSize < start < stop && InSomeSlot(g, start)
  }

  /** The range leaves the file from within, and the end is not seen. */
  predicate Stalls(g: ChunkGrid, start: nat, stop: nat) {
    start <= g.fileSize < stop && InSomeSlot(g, g.fileSize)
  }

  /** What becomes of the walk over `[start, stop)`. */
  function Fate(loop: Loop, g: ChunkGrid, start: nat, stop: nat): Place
    requires start <= stop <= U64_RANGE
  {
    if start == stop || stop <= g.fileSize then At(stop)
    else if !InSomeSlot(g, Max(start, g.fileSize)) then Missing(Max(start, g.fileSize))
    else if start <= g.fileSize then At(g.fileSize)
    else if loop == ToStage then At(stop)
    else Huge(U64_RANGE - (start - g.fileSize))
  }

  /** In a slot of a chunk, the chunk ends behind `offset` exactly inside the file; past the end it ends at the
      end of the file. */
  lemma {:induction false} SlotEnds(g: ChunkGrid, offset: nat)
    requires InSomeSlot(g, offset)
    ensures var i := IndexOf(g, offset); var stop := ChunkStart(g, i) + ChunkLen(g, i);
      && ChunkStart(g, i) <= offset && stop <= g.fileSize
      && (offset < g.fileSize ==> offset < stop)
      && (offset >= g.fileSize ==> stop == g.fileSize)
  {
    IndexBounds(g, offset);
  }

  /** A chunk is missing only at or past the end of the file. */
  lemma {:induction false} MissingAtEnd(g: ChunkGrid, offset: nat)
    requires !InSomeSlot(g, offset)
    ensures offset >= g.fileSize
  {
    IndexBounds(g, offset);
  }

  /** The offsets up to the end of a chunk share its index. */
  lemma {:induction false} SameSlot(g: ChunkGrid, offset: nat, last: nat)
    requires InSomeSlot(g, offset) && last < ChunkStart(g, IndexOf(g, offset)) + ChunkLen(g, IndexOf(g, offset))
    ensures forall o: nat :: offset <= o <= last ==> IndexOf(g, o) == IndexOf(g, offset)
  {
    SlotEnds(g, offset);
    hide ChunkStart, ChunkLen, IndexOf;
    forall o: nat | offset <= o <= last ensures IndexOf(g, o) == IndexOf(g, offset) {
      ChunksPartition(g, IndexOf(g, offset), o);
    }
  }

  /** Inside the file a turn goes to the end of the chunk or of the range. */
  lemma {:induction false} TurnInside(loop: Loop, g: ChunkGrid, stop: nat, offset: nat)
    requires offset < stop <= U64_RANGE && offset < g.fileSize
    ensures var i := IndexOf(g, offset);
      && InSomeSlot(g, offset) && offset < ChunkStart(g, i) + ChunkLen(g, i) <= g.fileSize
      && Turn(loop, g, stop, At(offset)) == At(Min(stop, ChunkStart(g, i) + ChunkLen(g, i)))
  {
    ChunksPartition(g, IndexOf(g, offset), offset);
    SlotEnds(g, offset);
    hide ChunkStart, ChunkLen, IndexOf;
  }

  /** A walk that starts inside the file comes to its end or to the end of the range. */
  lemma {:induction false} WalksInside(loop: Loop, g: ChunkGrid, start: nat, stop: nat, k: nat, offset: nat)
    returns (n: nat)
    requires start <= stop <= U64_RANGE && After(loop, g, start, stop, k) == At(offset)
    requires offset <= Min(stop, g.fileSize)
    ensures n >= k && After(loop, g, start, stop, n) == At(Min(stop, g.fileSize))
    decreases stop - offset
  {
    n := k;
    if offset < Min(stop, g.fileSize) {
      TurnInside(loop, g, stop, offset);
      var i := IndexOf(g, offset);
      assert After(loop, g, start, stop, k + 1) == Turn(loop, g, stop, At(offset));
      hide After, ChunkStart, ChunkLen, IndexOf;
      n := WalksInside(loop, g, start, stop, k + 1, Min(stop, ChunkStart(g, i) + ChunkLen(g, i)));
    }
  }

  /** At the end of the file, in the slot of a chunk, a turn changes nothing. */
  lemma {:induction false} TurnAtEnd(loop: Loop, g: ChunkGrid, stop: nat)
    requires g.fileSize < stop <= U64_RANGE && InSomeSlot(g, g.fileSize)
    ensures Room(g, g.fileSize) == 0 && Turn(loop, g, stop, At(g.fileSize)) == At(g.fileSize)
  {
    SlotEnds(g, g.fileSize);
    hide ChunkStart, ChunkLen, IndexOf;
  }

  /** The bytes of one reading step: up to the end of chunk or range inside the file, none at its end, and
      nearly 2^64 past it. */
  lemma {:induction false} StepLengths(g: ChunkGrid, offset: nat, stop: nat)
    requires InSomeSlot(g, offset) && offset < stop <= U64_RANGE && g.fileSize < U64_RANGE
    ensures var i := IndexOf(g, offset);
      var e := Min(stop - 1, ChunkEnd(g, i).value);
      && ChunkStart(g, i) <= offset && e < ChunkStart(g, i) + ChunkLen(g, i) <= g.fileSize
      && StepLength(offset, e) == (if offset <= g.fileSize then e + 1 - offset else U64_RANGE - (offset - g.fileSize))
      && (e + 1 < offset <==> offset > g.fileSize) && (e + 1 == offset <==> offset == g.fileSize)
  {
    SlotEnds(g, offset);
    hide ChunkStart, ChunkLen, IndexOf;
    var e := Min(stop - 1, ChunkEnd(g, IndexOf(g, offset)).value);
    if offset < g.fileSize {
      assert e >= offset;
    } else {
      assert e + 1 == g.fileSize;
    }
  }

  /** Past the end, in the slot of a chunk, the first turn takes the whole range to stage and asks for a
      buffer of nearly 2^64 bytes to read. */
  lemma {:induction false} TurnPastEnd(loop: Loop, g: ChunkGrid, start: nat, stop: nat)
    requires stop <= U64_RANGE && Overruns(g, start, stop)
    ensures Room(g, start) == U64_RANGE - (start - g.fileSize) >= stop - start
    ensures Turn(loop, g, stop, At(start)) ==
      if loop == ToStage then At(stop) else Huge(U64_RANGE - (start - g.fileSize))
  {
    SlotEnds(g, start);
    hide ChunkStart, ChunkLen, IndexOf;
  }

  /** A place that a turn does not change is where the walk stays. */
  lemma {:induction false} FixedForGood(loop: Loop, g: ChunkGrid, start: nat, stop: nat, k: nat, p: Place, m: nat)
    requires start <= stop <= U64_RANGE && (p.At? ==> p.offset <= stop)
    requires After(loop, g, start, stop, k) == p && Turn(loop, g, stop, p) == p && m >= k
    ensures After(loop, g, start, stop, m) == p
    decreases m
  {
    if m > k {
      FixedForGood(loop, g, start, stop, k, p, m - 1);
      hide Turn;
    }
  }

  lemma {:induction false} Rests(loop: Loop, g: ChunkGrid, start: nat, stop: nat, k: nat, p: Place)
    requires start <= stop <= U64_RANGE && (p.At? ==> p.offset <= stop)
    requires After(loop, g, start, stop, k) == p && Turn(loop, g, stop, p) == p
    ensures ComesToRest(loop, g, start, stop, p)
  {
    hide After, Turn;
    forall m: nat | m >= k ensures After(loop, g, start, stop, m) == p {
      FixedForGood(loop, g, start, stop, k, p, m);
    }
    assert RestsAfter(loop, g, start, stop, p, k);
  }

  /** On every range the walk comes to rest, and this is where. */
  lemma {:induction false} WalkMeetsItsFate(loop: Loop, g: ChunkGrid, start: nat, stop: nat)
    requires start <= stop <= U64_RANGE
    ensures ComesToRest(loop, g, start, stop, Fate(loop, g, start, stop))
  {
    hide ChunkStart, ChunkLen, IndexOf, Room;
    assert After(loop, g, start, stop, 0) == At(start);
    if start == stop {
      Rests(loop, g, start, stop, 0, At(stop));
    } else if start <= g.fileSize {
      var n := WalksInside(loop, g, start, stop, 0, start);
      if stop <= g.fileSize {
        Rests(loop, g, start, stop, n, At(stop));
      } else if InSomeSlot(g, g.fileSize) {
        TurnAtEnd(loop, g, stop);
        Rests(loop, g, start, stop, n, At(g.fileSize));
      } else {
        assert After(loop, g, start, stop, n + 1) == Missing(g.fileSize);
        Rests(loop, g, start, stop, n + 1, Missing(g.fileSize));
      }
    } else {
      var next := Turn(loop, g, stop, At(start));
      assert After(loop, g, start, stop, 1) == next;
      if InSomeSlot(g, start) { TurnPastEnd(loop, g, start, stop); }
      Rests(loop, g, start, stop, 1, next);
    }
  }

  lemma {:induction false} OneRestingPlace(loop: Loop, g: ChunkGrid, start: nat, stop: nat, p: Place, q: Place)
    requires start <= stop <= U64_RANGE
    requires ComesToRest(loop, g, start, stop, p) && ComesToRest(loop, g, start, stop, q)
    ensures p == q
  {
    hide After;
    var j: nat :| RestsAfter(loop, g, start, stop, p, j);
    var k: nat :| RestsAfter(loop, g, start, stop, q, k);
    assert After(loop, g, start, stop, Max(j, k)) == p;
    assert After(loop, g, start, stop, Max(j, k)) == q;
  }

  /** A walk that leaves the file ends with the error exactly if the end is seen; one that leaves it from
      within and does not see the end stands at the end of the file for ever. */
  lemma {:induction false} ErrorExactlyIfEndIsSeen(loop: Loop, g: ChunkGrid, start: nat, stop: nat)
    requires start < stop <= U64_RANGE
    ensures (exists offset :: ComesToRest(loop, g, start, stop, Missing(offset)))
       <==> g.fileSize < stop && EndIsSeen(g, start, stop)
    ensures g.fileSize < stop ==> (ComesToRest(loop, g, start, stop, At(g.fileSize)) <==> Stalls(g, start, stop))
  {
    hide ComesToRest;
    var fate := Fate(loop, g, start, stop);
    WalkMeetsItsFate(loop, g, start, stop);
    forall p | ComesToRest(loop, g, start, stop, p) ensures p == fate {
      OneRestingPlace(loop, g, start, stop, p, fate);
    }
  }

  /** For a range that crosses the end of the file, the end is seen exactly if the file fills whole chunks. */
  lemma {:induction false} AlignedEndIsSeen(g: ChunkGrid, start: nat, stop: nat)
    requires start <= g.fileSize < stop
    ensures EndIsSeen(g, start, stop) <==> g.fileSize % g.chunkSize == 0
  {
    IndexBounds(g, g.fileSize);
    assert g.fileSize == g.fileSize / g.chunkSize * g.chunkSize + g.fileSize % g.chunkSize;
  }

  /** Six bytes cut by four: staging from offset zero stands at six for ever, and two bytes staged at offset
      seven are taken in one turn, as many as the short chunk expects. */
  lemma {:induction false} SixBytesCutByFour()
    ensures var g := Grid(4, 6);
      && ComesToRest(ToStage, g, 0, 8, At(6)) && ComesToRest(ToRead, g, 0, 8, At(6))
      && After(ToStage, g, 7, 9, 1) == At(9) && ChunkLen(g, IndexOf(g, 7)) == 9 - 7
      && After(ToRead, g, 7, 9, 1) == Huge(U64_RANGE - 1)
  {
    var g := Grid(4, 6);
    assert IndexOf(g, 6) == 1 && IndexOf(g, 7) == 1;
    WalkMeetsItsFate(ToStage, g, 0, 8);
    WalkMeetsItsFate(ToRead, g, 0, 8);
    assert After(ToStage, g, 7, 9, 0) == At(7) && After(ToRead, g, 7, 9, 0) == At(7);
    TurnPastEnd(ToStage, g, 7, 9);
    TurnPastEnd(ToRead, g, 7, 9);
  }
}
