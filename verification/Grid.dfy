/**
 The fixed grid over one remote file: chunk `i` covers `[i * chunkSize, i * chunkSize + len(i))`,
 where only the last chunk may be shorter than `chunkSize`.
 */
module Grid {
  import opened Outcomes

  datatype RawGrid = Grid(chunkSize: nat, fileSize: nat)

  // `ChunkGrid::new` asserts a positive stride.
  type ChunkGrid = g: RawGrid | g.chunkSize > 0 witness Grid(1, 0)

  function ChunkCount(g: ChunkGrid): nat {
    if g.fileSize == 0 then 0 else (g.fileSize + g.chunkSize - 1) / g.chunkSize
  }

  function ChunkStart(g: ChunkGrid, i: nat): nat {
    i * g.chunkSize
  }

  /** Expected length of chunk `i`; zero for a chunk that does not exist. */
  function ChunkLen(g: ChunkGrid, i: nat): nat {
    if ChunkStart(g, i) >= g.fileSize then 0 else Min(g.chunkSize, g.fileSize - ChunkStart(g, i))
  }

  /** Inclusive end offset of chunk `i`, if the chunk exists. */
  function ChunkEnd(g: ChunkGrid, i: nat): Option<nat> {
    if ChunkLen(g, i) == 0 then None else Some(ChunkStart(g, i) + ChunkLen(g, i) - 1)
  }

  function IndexOf(g: ChunkGrid, offset: nat): nat {
    offset / g.chunkSize
  }

  /** The consecutive numbers `lo, lo + 1, .., hi`. */
  function Ascending(lo: nat, hi: int): seq<nat>
    requires lo <= hi + 1
  {
    seq(hi + 1 - lo, k requires 0 <= k => lo + k)
  }

  function ChunksTouching(g: ChunkGrid, start: nat, end: nat): seq<nat> {
    if g.fileSize == 0 || start > end || start > Min(end, g.fileSize - 1) then []
    else
      IndexMonotone(g, start, Min(end, g.fileSize - 1));
      Ascending(IndexOf(g, start), IndexOf(g, Min(end, g.fileSize - 1)))
  }

  /** `i` is the chunk that holds `offset`, reading offsets past the end of the file too. */
  predicate Holds(g: ChunkGrid, i: nat, offset: int) {
    ChunkStart(g, i) <= offset < ChunkStart(g, i) + ChunkLen(g, i)
  }

  // ---- arithmetic of the stride ----

  lemma {:induction false} MulMonotone(a: nat, b: nat, c: nat)
    requires a <= b
    ensures a * c <= b * c
  {
    assert b * c == a * c + (b - a) * c;
  }

  lemma {:induction false} IndexBounds(g: ChunkGrid, offset: nat)
    ensures ChunkStart(g, IndexOf(g, offset)) <= offset < ChunkStart(g, IndexOf(g, offset)) + g.chunkSize
    ensures ChunkStart(g, IndexOf(g, offset) + 1) == ChunkStart(g, IndexOf(g, offset)) + g.chunkSize
  {
    var q := offset / g.chunkSize;
    assert offset == q * g.chunkSize + offset % g.chunkSize;
    assert (q + 1) * g.chunkSize == q * g.chunkSize + g.chunkSize;
  }

  lemma {:induction false} IndexUnique(g: ChunkGrid, i: nat, offset: nat)
    requires ChunkStart(g, i) <= offset < ChunkStart(g, i) + g.chunkSize
    ensures IndexOf(g, offset) == i
  {
    var q := IndexOf(g, offset);
    IndexBounds(g, offset);
    assert (i + 1) * g.chunkSize == i * g.chunkSize + g.chunkSize;
    if q < i {
      MulMonotone(q + 1, i, g.chunkSize);
    } else if q > i {
      MulMonotone(i + 1, q, g.chunkSize);
    }
  }

  lemma {:induction false} IndexMonotone(g: ChunkGrid, a: nat, b: nat)
    requires a <= b
    ensures IndexOf(g, a) <= IndexOf(g, b)
  {
    IndexBounds(g, a);
    IndexBounds(g, b);
    if IndexOf(g, b) < IndexOf(g, a) {
      MulMonotone(IndexOf(g, b) + 1, IndexOf(g, a), g.chunkSize);
    }
  }

  // ---- the chunks partition the file ----

  /** Every offset of the file lies in exactly one chunk, the one the index division names. */
  lemma {:induction false} ChunksPartition(g: ChunkGrid, i: nat, offset: nat)
    ensures Holds(g, i, offset) <==> offset < g.fileSize && i == IndexOf(g, offset)
  {
    IndexBounds(g, offset);
    if Holds(g, i, offset) {
      IndexUnique(g, i, offset);
    }
  }

  /** A chunk exists exactly below the chunk count, and only the last one is short. */
  lemma {:induction false} ChunkExists(g: ChunkGrid, i: nat)
    ensures ChunkLen(g, i) > 0 <==> i < ChunkCount(g)
    ensures i + 1 < ChunkCount(g) ==> ChunkLen(g, i) == g.chunkSize
    ensures ChunkLen(g, i) <= g.chunkSize
  {
    if g.fileSize > 0 {
      var q := (g.fileSize + g.chunkSize - 1) / g.chunkSize;
      CountBounds(g);
      if i < q {
        MulMonotone(i, q - 1, g.chunkSize);
        if i + 1 < q {
          MulMonotone(i + 1, q - 1, g.chunkSize);
          assert (i + 1) * g.chunkSize == i * g.chunkSize + g.chunkSize;
        }
      } else {
        MulMonotone(q, i, g.chunkSize);
      }
    }
  }

  lemma {:induction false} CountBounds(g: ChunkGrid)
    requires g.fileSize > 0
    ensures ChunkCount(g) > 0
    ensures ChunkStart(g, ChunkCount(g) - 1) < g.fileSize <= ChunkStart(g, ChunkCount(g))
  {
    var n := g.fileSize + g.chunkSize - 1;
    var q := n / g.chunkSize;
    assert n == q * g.chunkSize + n % g.chunkSize;
    assert q > 0 by { if q == 0 { assert false; } }
    assert (q - 1) * g.chunkSize == q * g.chunkSize - g.chunkSize;
  }

  /** Bytes in the first `n` chunks. */
  function BytesBefore(g: ChunkGrid, n: nat): nat {
    if n == 0 then 0 else BytesBefore(g, n - 1) + ChunkLen(g, n - 1)
  }

  lemma {:induction false} PrefixLength(g: ChunkGrid, n: nat)
    ensures BytesBefore(g, n) == Min(ChunkStart(g, n), g.fileSize)
  {
    if n > 0 {
      PrefixLength(g, n - 1);
      assert ChunkStart(g, n) == ChunkStart(g, n - 1) + g.chunkSize;
    }
  }

  /** Nothing of the file is missed and nothing is counted twice: the lengths add up. */
  lemma {:induction false} LengthsSumToFile(g: ChunkGrid)
    ensures BytesBefore(g, ChunkCount(g)) == g.fileSize
  {
    PrefixLength(g, ChunkCount(g));
    if g.fileSize > 0 {
      CountBounds(g);
    }
  }

  /** `ChunksTouching` as a range of indices. */
  lemma {:induction false} TouchingRange(g: ChunkGrid, start: nat, end: nat, i: nat)
    requires start <= end && start < g.fileSize
    ensures i in ChunksTouching(g, start, end)
       <==> IndexOf(g, start) <= i <= IndexOf(g, Min(end, g.fileSize - 1))
  {
    var lo, hi := IndexOf(g, start), IndexOf(g, Min(end, g.fileSize - 1));
    IndexMonotone(g, start, Min(end, g.fileSize - 1));
    assert ChunksTouching(g, start, end) == Ascending(lo, hi);
    if lo <= i <= hi {
      assert Ascending(lo, hi)[i - lo] == i;
    }
  }

  lemma {:induction false} TouchingEnds(g: ChunkGrid, start: nat, end: nat)
    requires ChunksTouching(g, start, end) != []
    ensures var t := ChunksTouching(g, start, end); forall i :: i in t <==> t[0] <= i <= t[|t| - 1]
  {
    IndexMonotone(g, start, Min(end, g.fileSize - 1));
    var lo, hi := IndexOf(g, start), IndexOf(g, Min(end, g.fileSize - 1));
    var t := Ascending(lo, hi);
    assert t == ChunksTouching(g, start, end);
    assert t[0] == lo && t[|t| - 1] == hi;
    forall i ensures i in t <==> lo <= i <= hi {
      TouchingRange(g, start, end, i);
    }
  }

  /** A chunk between the first and the last index of a window shares a byte with it. */
  lemma {:induction false} SharedByte(g: ChunkGrid, start: nat, end: nat, i: nat) returns (o: nat)
    requires start <= end && start < g.fileSize
    requires IndexOf(g, start) <= i <= IndexOf(g, Min(end, g.fileSize - 1))
    ensures start <= o <= end && o < g.fileSize && IndexOf(g, o) == i
  {
    var last := Min(end, g.fileSize - 1);
    IndexBounds(g, start);
    IndexBounds(g, last);
    o := Max(start, ChunkStart(g, i));
    MulMonotone(i, IndexOf(g, last), g.chunkSize);
    assert (i + 1) * g.chunkSize == i * g.chunkSize + g.chunkSize;
    MulMonotone(IndexOf(g, start), i, g.chunkSize);
    IndexUnique(g, i, o);
  }

  /** `ChunksTouching` lists exactly the chunks that share a byte with the window. */
  lemma {:induction false} TouchingExact(g: ChunkGrid, start: nat, end: nat, i: nat)
    ensures i in ChunksTouching(g, start, end)
       <==> exists o: nat :: start <= o <= end && Holds(g, i, o)
  {
    if start <= end && start < g.fileSize {
      TouchingRange(g, start, end, i);
      if i in ChunksTouching(g, start, end) {
        var o := SharedByte(g, start, end, i);
        ChunksPartition(g, i, o);
        assert start <= o <= end && Holds(g, i, o);
      }
      if o: nat :| start <= o <= end && Holds(g, i, o) {
        ChunksPartition(g, i, o);
        IndexMonotone(g, start, o);
        IndexMonotone(g, o, Min(end, g.fileSize - 1));
      }
    } else {
      forall o: nat | start <= o <= end ensures !Holds(g, i, o) {
        ChunksPartition(g, i, o);
      }
    }
  }
}
