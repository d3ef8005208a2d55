/** The cache engine: rows, files, open handles, the byte budget and the value ledger. */
module Engine {
  import opened Outcomes
  import opened Grid
  import opened Walk
  import opened Plan
  import opened Chunks
  import opened Sums
  import opened Disk
  import opened InFlight
  import opened ChunkValue

  /** A file as a reader names it: its cache key and its exact size. */
  datatype FileId = FileId(key: string, size: nat)

  datatype IoError = PastEof | NoFile(index: nat) | ShortFile(index: nat)

  /** What a read comes to: the bytes, an error, a loop that never ends, or a request for more memory than
      there is. */
  datatype ReadOutcome = Got(bytes: Bytes) | Failed(error: IoError) | Spins | Aborts(wanted: nat)

  /** `SELECT SUM(size) FROM chunks`. */
  method SumOfSizes(rows: Rows) returns (total: nat)
    ensures total == Sum(RowSizes(rows))
  {
    var left := rows;
    total := 0;
    while left.Keys != {}
      invariant total + Sum(RowSizes(left)) == Sum(RowSizes(rows))
      decreases |left.Keys|
    {
      var id :| id in left.Keys;
      RemovedRowSizes(left, id);
      Shrinks(RowSizes(left), id);
      assert RowSizes(left).Keys == left.Keys && RowSizes(left - {id}).Keys == (left - {id}).Keys;
      total := total + left[id].size;
      left := left - {id};
    }
    assert RowSizes(left) == map[];
  }

  /** The rows in the order the eviction query returns them: each once, coldest first. */
  ghost predicate ColdestFirst(order: seq<ChunkId>, rows: Rows) {
    && (forall id :: id in order <==> id in rows)
    && (forall i, j :: 0 <= i < j < |order| ==>
          order[i] != order[j] && rows[order[i]].lastAccess <= rows[order[j]].lastAccess)
  }

  /** The candidates without a live fill, in order. */
  function Idle(order: seq<ChunkId>, live: map<ChunkId, RecordId>): seq<ChunkId> {
    if order == [] then []
    else
      var front := Idle(order[..|order| - 1], live);
      if order[|order| - 1] in live then front else front + [order[|order| - 1]]
  }

  ghost function SizeOfAll(rows: Rows, ids: seq<ChunkId>): nat
    requires forall id :: id in ids ==> id in rows
  {
    if ids == [] then 0 else SizeOfAll(rows, ids[..|ids| - 1]) + rows[ids[|ids| - 1]].size
  }

  // ---- the store as a value ----

  /** Rows, files, open handles, the byte counter and the value ledger. */
  datatype Store = Store(rows: Rows, files: Files, handles: map<ChunkId, Bytes>, currentBytes: nat, ledger: Ledger)

  /** Everything on disk and behind an open handle is sound; the counter and the ledger agree with the rows. */
  ghost predicate StoreOk(content: Content, st: Store) {
    && Sound(content, st.rows, st.files)
    && (forall id :: id in st.handles ==> Complete(content, id, st.handles[id]))
    && st.currentBytes == Sum(RowSizes(st.rows))
    && InStep(st.ledger, RowSizes(st.rows))
  }

  function Touched(rows: Rows, key: string, lo: nat, hi: nat, now: nat): Rows {
    map id | id in rows :: if id.key == key && lo <= id.index <= hi then rows[id].(lastAccess := now) else rows[id]
  }

  lemma {:induction false} TouchKeepsOk(content: Content, st: Store, key: string, lo: nat, hi: nat, now: nat)
    requires StoreOk(content, st)
    ensures StoreOk(content, st.(rows := Touched(st.rows, key, lo, hi, now)))
  {
    assert RowSizes(Touched(st.rows, key, lo, hi, now)) == RowSizes(st.rows);
  }

  /** The window `[start, end]` shares a byte with chunk `i`. */
  ghost predicate InWindow(g: ChunkGrid, start: nat, end: nat, i: nat) {
    exists o: nat :: start <= o <= end && Holds(g, i, o)
  }

  /** The rows of the chunks a window shares bytes with were used `now`; nothing else about any row changed. */
  ghost predicate Refreshed(was: Rows, rows: Rows, g: ChunkGrid, key: string, start: nat, end: nat, now: nat) {
    && rows.Keys == was.Keys
    && forall id :: id in was ==>
         && rows[id].size == was[id].size
         && rows[id].lastAccess ==
              if id.key == key && InWindow(g, start, end, id.index) then now else was[id].lastAccess
  }

  /** One update over the range from the first to the last touched chunk refreshes exactly those. */
  lemma {:induction false} RangeRefreshes(rows: Rows, g: ChunkGrid, key: string, start: nat, end: nat, now: nat)
    ensures var t := ChunksTouching(g, start, end);
      Refreshed(rows, if t == [] then rows else Touched(rows, key, t[0], t[|t| - 1], now), g, key, start, end, now)
  {
    var t := ChunksTouching(g, start, end);
    if t != [] { TouchingEnds(g, start, end); }
    forall id | id in rows ensures InWindow(g, start, end, id.index) <==> id.index in t {
      TouchingExact(g, start, end, id.index);
    }
    hide ChunksTouching, InWindow;
  }

  /** A chunk that already has a row is not charged again. */
  function Published(st: Store, id: ChunkId, expected: nat, now: nat): Store {
    if id in st.rows then st
    else st.(rows := st.rows[id := Row(expected, now)], currentBytes := st.currentBytes + expected)
  }

  lemma {:induction false} PublishKeepsOk(content: Content, st: Store, id: ChunkId, expected: nat, now: nat)
    requires StoreOk(content, st)
    requires Final(id) in st.files && expected == |st.files[Final(id)]|
    ensures StoreOk(content, Published(st, id, expected, now))
  {
    if id !in st.rows {
      InsertedRowSizes(st.rows, id, Row(expected, now));
      NewRowKeepsStep(st.ledger, RowSizes(st.rows), id, expected);
    }
  }

  /** A chunk that is already gone changes nothing. */
  function Evicted(st: Store, id: ChunkId, size: nat): Store {
    if id !in st.rows then st
    else Store(st.rows - {id}, st.files - {Final(id)}, st.handles - {id}, Minus(st.currentBytes, size),
               Evict(st.ledger, id, size))
  }

  lemma {:induction false} EvictKeepsOk(content: Content, st: Store, id: ChunkId, size: nat)
    requires StoreOk(content, st) && (id in st.rows ==> size == st.rows[id].size)
    ensures StoreOk(content, Evicted(st, id, size))
    ensures Evicted(st, id, size).currentBytes + (if id in st.rows then size else 0) == st.currentBytes
  {
    if id in st.rows {
      RemovedRowSizes(st.rows, id);
      SumAtLeast(RowSizes(st.rows), id);
      EvictKeepsStep(st.ledger, RowSizes(st.rows), id, size);
    }
  }

  /** Evicting a list of chunks one after the other, each with the size its row had at the outset. */
  function Swept(st: Store, ids: seq<ChunkId>): Store {
    if ids == [] then st
    else
      var last := ids[|ids| - 1];
      Evicted(Swept(st, ids[..|ids| - 1]), last, if last in st.rows then st.rows[last].size else 0)
  }

  ghost predicate Distinct(ids: seq<ChunkId>) {
    forall i, j :: 0 <= i < j < |ids| ==> ids[i] != ids[j]
  }

  /** Handles go with their rows, and no file changes its bytes. */
  ghost predicate KeepsTheRest(st: Store, swept: Store, ids: seq<ChunkId>) {
    && (forall id :: id in swept.handles <==> id in st.handles && id !in ids)
    && (forall id :: id in swept.handles ==> swept.handles[id] == st.handles[id])
    && (forall p :: p in swept.files ==> p in st.files && swept.files[p] == st.files[p])
  }

  lemma {:induction false} SweepKeepsTheRest(st: Store, ids: seq<ChunkId>)
    requires Distinct(ids) && forall id :: id in ids ==> id in st.rows
    ensures KeepsTheRest(st, Swept(st, ids), ids)
    ensures forall id :: id in Swept(st, ids).rows <==> id in st.rows && id !in ids
  {
    hide Evict;
    if ids != [] {
      SweepKeepsTheRest(st, ids[..|ids| - 1]);
    }
  }

  /** A sweep removes exactly the listed rows with their files and handles, and gives back exactly their bytes. */
  lemma {:induction false} SweepRemoves(content: Content, st: Store, ids: seq<ChunkId>)
    requires StoreOk(content, st) && Distinct(ids) && forall id :: id in ids ==> id in st.rows
    ensures StoreOk(content, Swept(st, ids))
    ensures forall id :: id in Swept(st, ids).rows <==> id in st.rows && id !in ids
    ensures forall id :: id in Swept(st, ids).rows ==> Swept(st, ids).rows[id] == st.rows[id]
    ensures forall p :: p in Swept(st, ids).files <==> p in st.files && !(p.Final? && p.id in ids)
    ensures Swept(st, ids).currentBytes + SizeOfAll(st.rows, ids) == st.currentBytes
    ensures KeepsTheRest(st, Swept(st, ids), ids)
  {
    hide StoreOk;
    SweepKeepsTheRest(st, ids);
    hide KeepsTheRest;
    if ids != [] {
      var front, last := ids[..|ids| - 1], ids[|ids| - 1];
      SweepRemoves(content, st, front);
      EvictKeepsOk(content, Swept(st, front), last, st.rows[last].size);
    }
  }

  function PresentIn(rows: Rows, key: string): set<nat> {
    set id | id in rows && id.key == key :: id.index
  }

  /** Looking up only the rows between the first and the last touched chunk gives the same plan. */
  lemma {:induction false} PlanFromRange(g: ChunkGrid, rows: Rows, key: string, start: nat, end: nat, present: set<nat>,
                                         plan: seq<ChunkSeg>)
    requires IsPlan(g, present, start, end, plan)
    requires var t := ChunksTouching(g, start, end);
      forall i :: i in t ==> (i in present <==> ChunkId(key, i) in rows)
    ensures IsPlan(g, PresentIn(rows, key), start, end, plan)
  {
    PlanTouches(g, present, start, end, plan);
    forall k | 0 <= k < |plan| ensures plan[k].index in present <==> plan[k].index in PresentIn(rows, key) {
      assert IndicesOf(plan)[k] == plan[k].index;
      if plan[k].index in PresentIn(rows, key) {
        assert ChunkId(key, plan[k].index) in rows;
      }
    }
  }

  lemma {:induction false} TouchKeepsPresence(rows: Rows, key: string, lo: nat, hi: nat, now: nat)
    ensures PresentIn(Touched(rows, key, lo, hi, now), key) == PresentIn(rows, key)
  {
    var touched := Touched(rows, key, lo, hi, now);
    forall i ensures i in PresentIn(touched, key) <==> i in PresentIn(rows, key) {
      assert ChunkId(key, i) in rows <==> ChunkId(key, i) in touched;
      assert i in PresentIn(rows, key) <==> ChunkId(key, i) in rows;
      assert i in PresentIn(touched, key) <==> ChunkId(key, i) in touched;
    }
  }

  /** Plan a window against the rows, looking up only those between the first and the last touched chunk. */
  method PlanAgainst(g: ChunkGrid, rows: Rows, key: string, start: nat, end: nat) returns (plan: seq<ChunkSeg>)
    ensures IsPlan(g, PresentIn(rows, key), start, end, plan)
  {
    var indices := ChunksTouching(g, start, end);
    var present: set<nat> := {};
    if indices != [] {
      var lo, hi := indices[0], indices[|indices| - 1];
      present := set id | id in rows && id.key == key && lo <= id.index <= hi :: id.index;
      TouchingEnds(g, start, end);
      forall i | i in indices ensures i in present <==> ChunkId(key, i) in rows {
        assert ChunkId(key, i).index == i;
      }
    }
    plan := BuildSegments(g, start, end, present);
    PlanFromRange(g, rows, key, start, end, present, plan);
  }

  /** Every chunk that the offsets `[from, stop)` belong to can be opened. */
  ghost predicate AllIn(open: set<ChunkId>, g: ChunkGrid, key: string, from: nat, stop: nat) {
    forall o: nat :: from <= o < stop ==> ChunkId(key, IndexOf(g, o)) in open
  }

  /** What a read of `[start, stop)` must come to, given the remote bytes and the chunks that can be opened. */
  ghost predicate ReadComesTo(g: ChunkGrid, key: string, bytes: Bytes, open: set<ChunkId>, start: nat, stop: nat,
                              r: ReadOutcome)
    requires start <= stop && g.fileSize == |bytes|
  {
    match r
    case Got(got) => stop <= |bytes| && got == bytes[start..stop] && AllIn(open, g, key, start, stop)
    case Failed(PastEof) => g.fileSize < stop && EndIsSeen(g, start, stop) && AllIn(open, g, key, start, g.fileSize)
    case Failed(NoFile(i)) =>
      exists o: nat :: start <= o < stop && i == IndexOf(g, o) && InSomeSlot(g, o) && ChunkId(key, i) !in open
                       && AllIn(open, g, key, start, o)
    case Failed(ShortFile(_)) => false
    case Spins => Stalls(g, start, stop) && AllIn(open, g, key, start, g.fileSize + 1)
    case Aborts(wanted) =>
      && Overruns(g, start, stop) && ChunkId(key, IndexOf(g, start)) in open
      && wanted == U64_RANGE - (start - g.fileSize)
  }

  /** The read has got from `start` to `pos`. */
  ghost predicate ReadSoFar(g: ChunkGrid, key: string, bytes: Bytes, open: set<ChunkId>, start: nat, pos: nat,
                            out: Bytes)
    requires start <= pos
  {
    AllIn(open, g, key, start, pos) && out == if pos <= |bytes| then bytes[start..pos] else []
  }

  lemma {:induction false} NothingRead(g: ChunkGrid, key: string, bytes: Bytes, open: set<ChunkId>, start: nat)
    ensures ReadSoFar(g, key, bytes, open, start, start, [])
  {
  }

  lemma {:induction false} ReadGrows(g: ChunkGrid, key: string, bytes: Bytes, open: set<ChunkId>, start: nat, pos: nat,
                                     out: Bytes, next: nat)
    requires start <= pos < next <= |bytes| && ReadSoFar(g, key, bytes, open, start, pos, out)
    requires InSomeSlot(g, pos) && next <= ChunkStart(g, IndexOf(g, pos)) + ChunkLen(g, IndexOf(g, pos))
    requires ChunkId(key, IndexOf(g, pos)) in open
    ensures ReadSoFar(g, key, bytes, open, start, next, out + bytes[pos..next])
  {
    SameSlot(g, pos, next - 1);
    hide ChunkStart, ChunkLen, IndexOf;
  }

  lemma {:induction false} ReadEnds(g: ChunkGrid, key: string, bytes: Bytes, open: set<ChunkId>, start: nat, stop: nat,
                                    out: Bytes)
    requires start < stop <= g.fileSize == |bytes| && ReadSoFar(g, key, bytes, open, start, stop, out)
    ensures ReadComesTo(g, key, bytes, open, start, stop, Got(out))
  {
    hide AllIn;
  }

  /** Inside the file, with every chunk to be opened, a read comes to the bytes and to nothing else. */
  lemma {:induction false} ReadInside(g: ChunkGrid, key: string, bytes: Bytes, open: set<ChunkId>, start: nat,
                                      stop: nat, r: ReadOutcome)
    requires start < stop <= g.fileSize == |bytes| && AllIn(open, g, key, start, stop)
    requires ReadComesTo(g, key, bytes, open, start, stop, r)
    ensures r == Got(bytes[start..stop])
  {
  }

  /** What the read comes to if it stops at `pos`. */
  lemma {:induction false} ReadStops(g: ChunkGrid, key: string, bytes: Bytes, open: set<ChunkId>, start: nat, stop: nat,
                                     pos: nat, out: Bytes)
    requires start <= pos < stop <= U64_RANGE && (pos <= g.fileSize || pos == start) && g.fileSize == |bytes|
    requires ReadSoFar(g, key, bytes, open, start, pos, out)
    ensures var i := IndexOf(g, pos);
      && (!InSomeSlot(g, pos) ==> ReadComesTo(g, key, bytes, open, start, stop, Failed(PastEof)))
      && (InSomeSlot(g, pos) && ChunkId(key, i) !in open ==>
            ReadComesTo(g, key, bytes, open, start, stop, Failed(NoFile(i))))
      && (InSomeSlot(g, pos) && ChunkId(key, i) in open && pos == g.fileSize ==>
            ReadComesTo(g, key, bytes, open, start, stop, Spins))
      && (InSomeSlot(g, pos) && ChunkId(key, i) in open && pos > g.fileSize ==>
            ReadComesTo(g, key, bytes, open, start, stop, Aborts(U64_RANGE - (pos - g.fileSize))))
  {
    if !InSomeSlot(g, pos) { MissingAtEnd(g, pos); }
    hide IndexOf, ChunkLen;
  }

  class CacheEngine {
    const stride: nat
    const maxBytes: nat
    const inflight: InFlightMap
    const ledger: ChunkValueLedger
    ghost const remote: Remote
    ghost const content: Content
    var rows: Rows
    var files: Files
    var version: Option<nat>
    var storedStride: Option<nat>
    var handles: map<ChunkId, Bytes>
    var currentBytes: nat
    var nextTag: nat

    ghost predicate Valid()
      reads this, ledger.Footprint()
    {
      && stride > 0 && ledger.Valid()
      && version == Some(FORMAT_VERSION) && storedStride == Some(stride)
      && StoreOk(content, Value())
    }

    ghost function Value(): Store
      requires ledger.Valid()
      reads this, ledger.Footprint()
    {
      Store(rows, files, handles, currentBytes, ledger.Value())
    }

    ghost function OnDisk(): Disk
      reads this
    {
      Disk(rows, files, version, storedStride)
    }

    ghost predicate Names(file: FileId) {
      file.size == |remote(file.key)| < U64_RANGE
    }

    function GridFor(file: FileId): ChunkGrid
      requires stride > 0
    {
      Grid(stride, file.size)
    }

    // ---- opening ----

    /** Keep the store if both marks fit, otherwise reset it to clean, and recount the budget. */
    constructor Open(disk: Disk, stride: nat, maxBytes: nat, ghost remote: Remote)
      requires stride > 0 && Trustworthy(remote, disk)
      ensures Valid() && fresh(inflight) && fresh(ledger.Footprint())
      ensures this.stride == stride && this.maxBytes == maxBytes && this.remote == remote
      ensures Mirrors(content, remote, stride)
      ensures ledger.Value() == FRESH && inflight.Value() == Flight(map[], 0) && handles == map[]
      ensures OnDisk() == if disk.version == Some(FORMAT_VERSION) && disk.stride == Some(stride) then disk
                          else Disk(map[], map[], Some(FORMAT_VERSION), Some(stride))
    {
      this.stride, this.maxBytes, this.remote := stride, maxBytes, remote;
      content := ContentFor(remote, stride);
      inflight := new InFlightMap();
      ledger := new ChunkValueLedger();
      rows, files, version, storedStride := disk.rows, disk.files, disk.version, disk.stride;
      handles, currentBytes, nextTag := map[], 0, 1;
      new;
      if version != Some(FORMAT_VERSION) || storedStride != Some(stride) {
        ResetStore();
        version := Some(FORMAT_VERSION);
        storedStride := Some(stride);
      }
      currentBytes := SumOfSizes(rows);
      FreshInStep(RowSizes(rows));
    }

    method ResetStore()
      modifies this`rows, this`files, this`handles, this`currentBytes
      ensures rows == map[] && files == map[] && handles == map[] && currentBytes == 0
    {
      rows, files, handles, currentBytes := map[], map[], map[], 0;
    }

    // ---- planning ----

    /** Refresh the access time of every row the request touches. */
    method Touch(key: string, lo: nat, hi: nat, now: nat)
      requires Valid()
      modifies this`rows
      ensures Valid() && rows == Touched(old(rows), key, lo, hi, now)
      ensures forall id :: id in rows ==>
        rows[id].lastAccess == if id.key == key && lo <= id.index <= hi then now else old(rows)[id].lastAccess
    {
      TouchKeepsOk(content, Value(), key, lo, hi, now);
      rows := map id | id in rows ::
        if id.key == key && lo <= id.index <= hi then rows[id].(lastAccess := now) else rows[id];
    }

    /** Plan a window: exactly the wanted bytes, cut along the grid, each chunk marked by its row. */
    method PlanChunks(file: FileId, start: nat, end: nat, now: nat) returns (plan: seq<ChunkSeg>)
      requires Valid() && Names(file)
      modifies this`rows
      ensures Valid()
      ensures IsPlan(GridFor(file), PresentIn(rows, file.key), start, end, plan)
      ensures Refreshed(old(rows), rows, GridFor(file), file.key, start, end, now)
    {
      hide IsPlan, ChunksTouching, Refreshed;
      RangeRefreshes(rows, GridFor(file), file.key, start, end, now);
      plan := PlanAgainst(GridFor(file), rows, file.key, start, end);
      var indices := ChunksTouching(GridFor(file), start, end);
      if indices != [] {
        TouchKeepsPresence(rows, file.key, indices[0], indices[|indices| - 1], now);
        Touch(file.key, indices[0], indices[|indices| - 1], now);
      }
    }

    // ---- reading ----

    /** The chunks that can be opened: through a cached handle or through their published file. */
    ghost function OpenIds(): set<ChunkId>
      reads this
    {
      handles.Keys + set p | p in files && p.Final? :: p.id
    }

    lemma {:induction false} RowsAreOpen(file: FileId, start: nat, stop: nat)
      requires Valid()
      requires forall o: nat :: start <= o < stop ==> ChunkId(file.key, IndexOf(GridFor(file), o)) in rows
      ensures AllIn(OpenIds(), GridFor(file), file.key, start, stop)
    {
      forall id | id in rows ensures id in OpenIds() {
        assert Final(id) in files && Final(id).id == id;
      }
    }

    method OpenChunkFile(id: ChunkId) returns (r: Result<Bytes, IoError>)
      requires Valid()
      modifies this`handles
      ensures Valid()
      ensures r.Ok? ==> Complete(content, id, r.value)
      ensures r.Ok? <==> id in old(OpenIds())
      ensures OpenIds() == old(OpenIds())
      ensures handles == if r.Ok? then old(handles)[id := r.value] else old(handles)
      ensures r.Err? ==> r.error == NoFile(id.index)
    {
      if id in handles {
        return Ok(handles[id]);
      }
      if Final(id) !in files {
        return Err(NoFile(id.index));
      }
      handles := handles[id := files[Final(id)]];
      return Ok(files[Final(id)]);
    }

    /** Read a window chunk by chunk. Whatever was evicted or reopened since the plan, the result is the
        remote file's bytes or an error, unless the window leaves the file without the loop seeing it. */
    method Pread(file: FileId, start: nat, end: nat) returns (r: ReadOutcome)
      requires Valid() && Names(file) && Mirrors(content, remote, stride)
      requires start <= end < U64_RANGE
      modifies this`handles
      ensures Valid()
      ensures ReadComesTo(GridFor(file), file.key, remote(file.key), old(OpenIds()), start, end + 1, r)
    {
      hide StoreOk, Mirrors, ChunkLen, ChunkStart, IndexOf, ReadComesTo, AllIn, ReadSoFar, OpenIds, StepLength;
      assert stride > 0;
      hide Valid;
      var g := GridFor(file);
      var out: Bytes := [];
      var pos := start;
      NothingRead(g, file.key, remote(file.key), OpenIds(), start);
      while pos <= end
        invariant start <= pos <= end + 1 && (pos <= file.size || pos == start)
        invariant ReadSoFar(g, file.key, remote(file.key), OpenIds(), start, pos, out)
        invariant Valid() && OpenIds() == old(OpenIds())
        decreases end + 1 - pos
      {
        ReadStops(g, file.key, remote(file.key), OpenIds(), start, end + 1, pos, out);
        var idx := IndexOf(g, pos);
        match ChunkEnd(g, idx) {
          case None =>
            return Failed(PastEof);
          case Some(ce) =>
            StepLengths(g, pos, end + 1);
            var e := Min(end, ce);
            var chunk := OpenChunkFile(ChunkId(file.key, idx));
            if chunk.Err? {
              return Failed(chunk.error);
            }
            var n := StepLength(pos, e);
            if e + 1 < pos {
              return Aborts(n);
            }
            if n == 0 {
              return Spins;
            }
            ContentSlice(content, remote, stride, ChunkId(file.key, idx), pos, e + 1);
            var from := pos - ChunkStart(g, idx);
            if from + n > |chunk.value| {
              return Failed(ShortFile(idx));
            }
            ReadGrows(g, file.key, remote(file.key), OpenIds(), start, pos, out, e + 1);
            out := out + chunk.value[from..from + n];
            pos := e + 1;
        }
      }
      ReadEnds(g, file.key, remote(file.key), OpenIds(), start, end + 1, out);
      return Got(out);
    }

    // ---- publishing ----

    /** `INSERT OR IGNORE`: a new row is charged to the budget, an existing one is left alone. */
    method InsertRow(id: ChunkId, expected: nat, now: nat) returns (inserted: bool)
      modifies this`rows, this`currentBytes
      ensures inserted <==> id !in old(rows)
      ensures rows == if inserted then old(rows)[id := Row(expected, now)] else old(rows)
      ensures currentBytes == old(currentBytes) + if inserted then expected else 0
    {
      if id in rows {
        return false;
      }
      rows := rows[id := Row(expected, now)];
      currentBytes := currentBytes + expected;
      return true;
    }

    /** Insert the row of a chunk whose complete file is in place. */
    method PublishChunk(id: ChunkId, expected: nat, now: nat) returns (published: bool)
      requires Valid() && Final(id) in files && expected == |files[Final(id)]|
      modifies this`rows, this`currentBytes
      ensures Valid() && Value() == Published(old(Value()), id, expected, now)
      ensures published <==> id !in old(rows)
    {
      PublishKeepsOk(content, Value(), id, expected, now);
      published := InsertRow(id, expected, now);
    }

    // ---- evicting ----

    /** The row goes first, then the handle and the file. */
    method DropEntry(id: ChunkId, size: nat)
      modifies this`rows, this`handles, this`files, this`currentBytes
      ensures rows == old(rows) - {id} && handles == old(handles) - {id} && files == old(files) - {Final(id)}
      ensures currentBytes == Minus(old(currentBytes), size)
    {
      rows := rows - {id};
      handles := handles - {id};
      files := files - {Final(id)};
      currentBytes := Minus(currentBytes, size);
    }

    method EvictChunk(id: ChunkId, size: nat)
      requires Valid() && (id in rows ==> size == rows[id].size)
      modifies this, ledger.Footprint()
      ensures Valid() && Value() == Evicted(old(Value()), id, size) && nextTag == old(nextTag)
    {
      EvictKeepsOk(content, Value(), id, size);
      hide StoreOk, Evict, Minus;
      if id in rows {
        DropEntry(id, size);
        ledger.RecordEvict(id, size);
      }
    }

    /** One candidate of a sweep. */
    method SweepOne(ghost before: Store, order: seq<ChunkId>, n: nat, k: nat) returns (evicted: nat)
      requires Valid() && n < |order| && SweptSoFar(before, order, inflight.live, maxBytes, n, k, Value())
      requires currentBytes > maxBytes
      requires StoreOk(content, before) && Candidates(before, order)
      modifies this, ledger.Footprint()
      ensures Valid() && nextTag == old(nextTag)
      ensures SweptSoFar(before, order, inflight.live, maxBytes, n + 1, evicted, Value())
    {
      hide StoreOk, Evicted, Candidates, SweptSoFar;
      SweepGoesOn(content, before, order, inflight.live, maxBytes, n, k, Value());
      if order[n] in inflight.live {
        return k;
      }
      EvictChunk(order[n], rows[order[n]].size);
      return k + 1;
    }

    /** Evict the coldest idle chunks until the budget holds. `order` is what the query over the rows returns. */
    method MaybeEvict(order: seq<ChunkId>) returns (evicted: nat)
      requires Valid() && ColdestFirst(order, rows)
      modifies this, ledger.Footprint()
      ensures Valid() && nextTag == old(nextTag)
      ensures var idle := Idle(order, inflight.live);
        && evicted <= |idle| && Value() == Swept(old(Value()), idle[..evicted])
        && (currentBytes <= maxBytes || evicted == |idle|)
        && OverBudget(old(Value()), idle, maxBytes, evicted)
      ensures ColdestWent(old(rows), rows, inflight.live)
    {
      hide StoreOk, Idle, Swept, OverBudget, SweptSoFar, Distinct, Candidates, ColdestFirst, ColdestWent;
      RowsAreCandidates(Value(), order);
      ghost var before := Value();
      NothingSwept(before, order, inflight.live, maxBytes);
      var n := 0;
      evicted := 0;
      while n < |order| && currentBytes > maxBytes
        invariant 0 <= n <= |order| && Valid() && nextTag == old(nextTag)
        invariant SweptSoFar(before, order, inflight.live, maxBytes, n, evicted, Value())
      {
        evicted := SweepOne(before, order, n, evicted);
        n := n + 1;
      }
      SweepEnds(before, order, inflight.live, maxBytes, n, evicted, Value());
      ColderGoFirst(content, before, order, inflight.live, evicted);
    }
  }

  /** What a sweep may be given: some rows, each once. */
  ghost predicate Candidates(before: Store, order: seq<ChunkId>) {
    Distinct(order) && forall id :: id in order ==> id in before.rows
  }

  lemma {:induction false} RowsAreCandidates(st: Store, order: seq<ChunkId>)
    requires ColdestFirst(order, st.rows)
    ensures Candidates(st, order)
  {
  }

  /** After `n` candidates the sweep has evicted the first `k` idle ones, each while the budget was exceeded. */
  ghost predicate SweptSoFar(before: Store, order: seq<ChunkId>, live: map<ChunkId, RecordId>, maxBytes: nat, n: nat,
                             k: nat, st: Store)
    requires n <= |order|
  {
    var idle := Idle(order, live);
    && k <= |idle| && idle[..k] == Idle(order[..n], live)
    && st == Swept(before, idle[..k])
    && OverBudget(before, idle, maxBytes, k)
  }

  lemma {:induction false} NothingSwept(before: Store, order: seq<ChunkId>, live: map<ChunkId, RecordId>, maxBytes: nat)
    ensures SweptSoFar(before, order, live, maxBytes, 0, 0, before)
  {
    assert Idle(order, live)[..0] == [] && order[..0] == [];
  }

  lemma {:induction false} SweepEnds(before: Store, order: seq<ChunkId>, live: map<ChunkId, RecordId>, maxBytes: nat,
                                     n: nat, k: nat, st: Store)
    requires n <= |order| && SweptSoFar(before, order, live, maxBytes, n, k, st)
    ensures var idle := Idle(order, live);
      && k <= |idle| && st == Swept(before, idle[..k])
      && OverBudget(before, idle, maxBytes, k) && (n == |order| ==> k == |idle|)
  {
    hide Swept, OverBudget;
    if n == |order| { assert order[..n] == order; }
    hide Idle;
  }

  /** Before each of the first `k` evictions the budget was exceeded. */
  ghost predicate OverBudget(before: Store, idle: seq<ChunkId>, maxBytes: nat, k: nat)
    requires k <= |idle|
  {
    forall j :: 0 <= j < k ==> Swept(before, idle[..j]).currentBytes > maxBytes
  }

  /** The next candidate is passed over if it has a live fill; otherwise it still has its row and is the next to go. */
  lemma {:induction false} SweepGoesOn(content: Content, before: Store, order: seq<ChunkId>,
                                       live: map<ChunkId, RecordId>, maxBytes: nat, n: nat, k: nat, st: Store)
    requires n < |order| && SweptSoFar(before, order, live, maxBytes, n, k, st) && st.currentBytes > maxBytes
    requires StoreOk(content, before) && Candidates(before, order)
    ensures var id := order[n];
      if id in live then SweptSoFar(before, order, live, maxBytes, n + 1, k, st)
      else id in st.rows
           && SweptSoFar(before, order, live, maxBytes, n + 1, k + 1, Evicted(st, id, st.rows[id].size))
  {
    hide StoreOk, Swept, Evicted, Idle, Distinct, OverBudget;
    LiveIsSkipped(order, live, n);
    if order[n] !in live {
      NextIdle(order, live, n, k);
      SweepGrows(content, before, order, live, n, k);
      OverBudgetGrows(before, Idle(order, live), maxBytes, k);
    }
  }

  lemma {:induction false} OverBudgetGrows(before: Store, idle: seq<ChunkId>, maxBytes: nat, k: nat)
    requires k < |idle| && OverBudget(before, idle, maxBytes, k) && Swept(before, idle[..k]).currentBytes > maxBytes
    ensures OverBudget(before, idle, maxBytes, k + 1)
  {
    hide Swept;
  }

  lemma {:induction false} SweepGrows(content: Content, before: Store, order: seq<ChunkId>,
                                      live: map<ChunkId, RecordId>, n: nat, k: nat)
    requires n < |order| && order[n] !in live && StoreOk(content, before)
    requires Distinct(order) && forall id :: id in order ==> id in before.rows
    requires var idle := Idle(order, live);
      && k < |idle| && idle[..k] == Idle(order[..n], live)
      && idle[..k + 1] == idle[..k] + [order[n]] && order[n] !in idle[..k]
    ensures var id, st := order[n], Swept(before, Idle(order, live)[..k]);
      id in st.rows && Swept(before, Idle(order, live)[..k + 1]) == Evicted(st, id, st.rows[id].size)
  {
    IdleFromOrder(order[..n], live);
    var victims := Idle(order, live)[..k];
    assert Distinct(order[..n]);
    hide StoreOk, Swept, Evicted, Idle, Distinct;
    NextVictim(content, before, victims, order[n]);
  }

  /** A sweep that spent every idle candidate leaves only chunks with a live fill. */
  lemma {:induction false} SpentSweepLeavesLive(content: Content, st: Store, order: seq<ChunkId>,
                                                live: map<ChunkId, RecordId>, id: ChunkId)
    requires StoreOk(content, st) && ColdestFirst(order, st.rows)
    ensures id in Swept(st, Idle(order, live)).rows <==> id in st.rows && id in live
  {
    IdleFromOrder(order, live);
    SweepRemoves(content, st, Idle(order, live));
    if id in order && id !in live {
      IdleComplete(order, live, id);
    }
  }

  lemma {:induction false} IdleFromOrder(order: seq<ChunkId>, live: map<ChunkId, RecordId>)
    ensures forall id :: id in Idle(order, live) ==> id in order && id !in live
    ensures Distinct(order) ==> Distinct(Idle(order, live))
  {
    if order != [] {
      IdleFromOrder(order[..|order| - 1], live);
    }
  }

  lemma {:induction false} IdleComplete(order: seq<ChunkId>, live: map<ChunkId, RecordId>, id: ChunkId)
    requires id in order && id !in live
    ensures id in Idle(order, live)
  {
    if order[|order| - 1] != id {
      IdleComplete(order[..|order| - 1], live, id);
    }
  }

  ghost predicate ByAge(ids: seq<ChunkId>, rows: Rows) {
    && (forall id :: id in ids ==> id in rows)
    && (forall i, j :: 0 <= i < j < |ids| ==> rows[ids[i]].lastAccess <= rows[ids[j]].lastAccess)
  }

  /** The idle candidates keep their order. */
  lemma {:induction false} IdleByAge(order: seq<ChunkId>, live: map<ChunkId, RecordId>, rows: Rows)
    requires ByAge(order, rows)
    ensures ByAge(Idle(order, live), rows)
  {
    if order != [] {
      var front := order[..|order| - 1];
      IdleByAge(front, live, rows);
      IdleFromOrder(front, live);
      forall i | 0 <= i < |Idle(front, live)|
        ensures rows[Idle(front, live)[i]].lastAccess <= rows[order[|order| - 1]].lastAccess
      {
        assert Idle(front, live)[i] in front;
      }
    }
  }

  /** No row went while an idle one that was used less recently stays. */
  ghost predicate ColdestWent(was: Rows, left: Rows, live: map<ChunkId, RecordId>) {
    forall a, b :: a in left && a in was && a !in live && b in was && b !in left ==>
      was[b].lastAccess <= was[a].lastAccess
  }

  lemma {:induction false} ColderGoFirst(content: Content, st: Store, order: seq<ChunkId>,
                                         live: map<ChunkId, RecordId>, k: nat)
    requires StoreOk(content, st) && ColdestFirst(order, st.rows) && k <= |Idle(order, live)|
    ensures ColdestWent(st.rows, Swept(st, Idle(order, live)[..k]).rows, live)
  {
    hide StoreOk, Swept, Idle, KeepsTheRest, ColdestFirst, ByAge;
    var idle := Idle(order, live);
    OrderByAge(order, st.rows);
    IdleByAge(order, live, st.rows);
    IdleFromOrder(order, live);
    SweepRemoves(content, st, idle[..k]);
    forall a, b | a in st.rows && a !in idle[..k] && a !in live && b in idle[..k]
      ensures st.rows[b].lastAccess <= st.rows[a].lastAccess
    {
      IdleComplete(order, live, a);
      LaterIsYounger(idle, st.rows, k, a, b);
    }
  }

  lemma {:induction false} OrderByAge(order: seq<ChunkId>, rows: Rows)
    requires ColdestFirst(order, rows)
    ensures ByAge(order, rows) && Distinct(order) && forall id :: id in order <==> id in rows
  {
  }

  lemma {:induction false} LaterIsYounger(ids: seq<ChunkId>, rows: Rows, k: nat, a: ChunkId, b: ChunkId)
    requires ByAge(ids, rows) && k <= |ids| && a in ids && a !in ids[..k] && b in ids[..k]
    ensures a in rows && b in rows && rows[b].lastAccess <= rows[a].lastAccess
  {
    var i :| 0 <= i < |ids| && ids[i] == a;
    var j :| 0 <= j < k && ids[j] == b;
  }

  /** The chunks just read go last: in any order the query may return they come after all the others, and a sweep
      takes one of them only when no other idle chunk is left. */
  lemma {:induction false} JustReadGoLast(content: Content, was: Rows, st: Store, g: ChunkGrid, key: string, start: nat,
                                          end: nat, now: nat, order: seq<ChunkId>, live: map<ChunkId, RecordId>,
                                          k: nat)
    requires Refreshed(was, st.rows, g, key, start, end, now) && StoreOk(content, st)
    requires forall id :: id in was ==> was[id].lastAccess < now
    requires ColdestFirst(order, st.rows) && k <= |Idle(order, live)|
    ensures forall i, j :: 0 <= i < j < |order| && order[i].key == key && InWindow(g, start, end, order[i].index) ==>
              order[j].key == key && InWindow(g, start, end, order[j].index)
    ensures var left := Swept(st, Idle(order, live)[..k]).rows;
      (exists b :: b in st.rows && b !in left && b.key == key && InWindow(g, start, end, b.index)) ==>
        forall a :: a in left && a !in live ==> a.key == key && InWindow(g, start, end, a.index)
  {
    hide StoreOk, InWindow, Swept, Idle;
    ColderGoFirst(content, st, order, live, k);
    IdleFromOrder(order, live);
    SweepRemoves(content, st, Idle(order, live)[..k]);
  }

  /** The idle candidates of a prefix are a prefix of the idle candidates. */
  lemma {:induction false} IdlePrefix(order: seq<ChunkId>, live: map<ChunkId, RecordId>, n: nat)
    requires n <= |order|
    ensures |Idle(order[..n], live)| <= |Idle(order, live)|
    ensures Idle(order[..n], live) == Idle(order, live)[..|Idle(order[..n], live)|]
    decreases |order|
  {
    if n < |order| {
      IdlePrefix(order[..|order| - 1], live, n);
      assert order[..|order| - 1][..n] == order[..n];
    } else {
      assert order[..n] == order;
    }
  }

  lemma {:induction false} LiveIsSkipped(order: seq<ChunkId>, live: map<ChunkId, RecordId>, n: nat)
    requires n < |order|
    ensures order[n] in live ==> Idle(order[..n + 1], live) == Idle(order[..n], live)
  {
    assert order[..n + 1][..n] == order[..n];
  }

  lemma {:induction false} NextIdle(order: seq<ChunkId>, live: map<ChunkId, RecordId>, n: nat, k: nat)
    requires n < |order| && order[n] !in live && Distinct(order)
    requires var idle := Idle(order, live); k <= |idle| && idle[..k] == Idle(order[..n], live)
    ensures var idle := Idle(order, live);
      && k < |idle| && idle[..k + 1] == Idle(order[..n + 1], live)
      && idle[..k + 1] == idle[..k] + [order[n]] && order[n] !in idle[..k]
  {
    var idle := Idle(order, live);
    IdleFromOrder(order[..n], live);
    IdlePrefix(order, live, n + 1);
    assert order[..n + 1][..n] == order[..n];
    assert Idle(order[..n + 1], live) == idle[..k] + [order[n]];
  }

  /** The next idle candidate still has its row and extends the victims by itself. */
  lemma {:induction false} NextVictim(content: Content, st: Store, victims: seq<ChunkId>, id: ChunkId)
    requires StoreOk(content, st) && Distinct(victims) && id !in victims && id in st.rows
    requires forall v :: v in victims ==> v in st.rows
    ensures id in Swept(st, victims).rows && Swept(st, victims).rows[id] == st.rows[id]
    ensures Swept(st, victims + [id]) == Evicted(Swept(st, victims), id, st.rows[id].size)
  {
    SweepRemoves(content, st, victims);
    assert (victims + [id])[..|victims|] == victims;
  }
}
