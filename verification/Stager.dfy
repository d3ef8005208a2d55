/**
 Staging and publication: upstream bytes arrive in spans, chunks fill up in temporary files,
 and a chunk is renamed and published when its byte count reaches the expected length.
 */
module Stager {
  import opened Outcomes
  import opened Intervals
  import opened Grid
  import opened Walk
  import opened Chunks
  import opened Disk
  import opened ChunkValue
  import opened Engine
  import opened StagingProgress

  /** How staging a span ends: with the chunks it published, with an error, or not at all. */
  datatype StageOutcome = Done(published: seq<nat>) | NoSuchChunk(offset: nat) | Stuck

  // ---- what staging does to the store ----

  lemma {:induction false} StagingWriteKeepsOk(content: Content, st: Store, id: ChunkId, tag: nat, f: Bytes)
    requires StoreOk(content, st) && |f| <= |content(id)|
    ensures StoreOk(content, st.(files := st.files[Staging(id, tag) := f]))
  {
    hide InStep;
  }

  /** A file longer than its chunk is neither a chunk nor on the way to one. */
  lemma {:induction false} LongFileBreaks(content: Content, st: Store, path: Path)
    requires path in st.files && |st.files[path]| > |content(path.id)|
    ensures !StoreOk(content, st)
  {
    hide InStep;
  }

  /** The store after the complete temporary file has taken the chunk's name. */
  function Renamed(st: Store, id: ChunkId, tag: nat): Store
    requires Staging(id, tag) in st.files
  {
    st.(files := st.files[Final(id) := st.files[Staging(id, tag)]] - {Staging(id, tag)})
  }

  lemma {:induction false} RenameKeepsOk(content: Content, st: Store, id: ChunkId, tag: nat)
    requires StoreOk(content, st) && Staging(id, tag) in st.files && Complete(content, id, st.files[Staging(id, tag)])
    ensures StoreOk(content, Renamed(st, id, tag))
  {
    hide InStep;
  }

  /** A new row also enters the value ledger; an existing one is left alone. */
  function Promoted(st: Store, id: ChunkId, size: nat, source: ChunkSource, now: nat): Store {
    if id in st.rows then st
    else Published(st, id, size, now).(ledger := Populate(st.ledger, id, size, source, now))
  }

  lemma {:induction false} PromoteKeepsOk(content: Content, st: Store, id: ChunkId, size: nat, source: ChunkSource,
                                          now: nat)
    requires StoreOk(content, st) && Final(id) in st.files && size == |st.files[Final(id)]|
    ensures StoreOk(content, Promoted(st, id, size, source, now))
  {
    PublishKeepsOk(content, st, id, size, now);
    if id !in st.rows {
      InsertedRowSizes(st.rows, id, Row(size, now));
      PopulateKeepsStep(st.ledger, RowSizes(st.rows), id, size, source, now);
      hide InStep, Populate;
    }
  }

  /** Only chunk `i` can become full by a span inside it, and it was not full before. */
  lemma {:induction false} FullGrows(g: ChunkGrid, staged: set<int>, i: nat, off: nat, n: nat, j: nat)
    requires n > 0 && Interval(off, off + n) !! staged && forall o: int :: off <= o < off + n ==> Holds(g, i, o)
    ensures j != i ==> (Full(g, staged + Interval(off, off + n), j) <==> Full(g, staged, j))
    ensures !Full(g, staged, i)
  {
    if j != i {
      SpanElsewhere(g, staged, i, off, n, j);
    }
    FullMeansAll(g, staged, i);
    assert Holds(g, i, off) && off in Interval(off, off + n);
  }

  /** Only this stager's temporary files and chunks of its own file changed. */
  ghost predicate SameElsewhere(before: Files, after: Files, key: string, tag: nat) {
    forall path: Path ::
      path.id.key != key || (path.Staging? && path.tag != tag) ==>
        (path in before <==> path in after) && (path in after ==> after[path] == before[path])
  }

  /** The chunk is full now and was not before. */
  ghost predicate BecameFull(g: ChunkGrid, before: set<int>, staged: set<int>, i: nat) {
    Full(g, staged, i) && !Full(g, before, i)
  }

  /** Between two moments exactly the chunks that became full got rows, and no row went. */
  ghost predicate RowsGrew(g: ChunkGrid, key: string, before: set<int>, staged: set<int>, rowsBefore: Rows,
                           rows: Rows) {
    && before <= staged
    && (forall id :: id in rows <==> id in rowsBefore || (id.key == key && BecameFull(g, before, staged, id.index)))
    && (forall id :: id in rowsBefore ==> id in rows && rows[id] == rowsBefore[id])
  }

  ghost predicate ListsNewRows(key: string, rowsBefore: Rows, rows: Rows, here: seq<nat>) {
    forall i :: i in here <==> ChunkId(key, i) in rows && ChunkId(key, i) !in rowsBefore
  }

  lemma {:induction false} SpanRows(g: ChunkGrid, key: string, s0: set<int>, s1: set<int>, s2: set<int>,
                                    rows0: Rows, rows1: Rows, rows2: Rows, here: seq<nat>,
                                    i: nat, off: nat, n: nat, published: bool)
    requires RowsGrew(g, key, s0, s1, rows0, rows1) && ListsNewRows(key, rows0, rows1, here)
    requires n > 0 && s2 == s1 + Interval(off, off + n) && Interval(off, off + n) !! s1
    requires forall o: int :: off <= o < off + n ==> Holds(g, i, o)
    requires published <==> Full(g, s2, i) && ChunkId(key, i) !in rows1
    requires published ==> ChunkId(key, i) in rows2 && rows2 == rows1[ChunkId(key, i) := rows2[ChunkId(key, i)]]
    requires !published ==> rows2 == rows1
    ensures RowsGrew(g, key, s0, s2, rows0, rows2)
    ensures ListsNewRows(key, rows0, rows2, if published then here + [i] else here)
  {
    FullMeansAll(g, s0, i);
    FullMeansAll(g, s1, i);
    hide Full, Holds;
    forall j: nat ensures j != i ==> (Full(g, s2, j) <==> Full(g, s1, j)) {
      FullGrows(g, s1, i, off, n, j);
    }
    FullGrows(g, s1, i, off, n, i);
    forall id ensures id in rows2 <==> id in rows0 || (id.key == key && BecameFull(g, s0, s2, id.index)) {
      assert id in rows1 <==> id in rows0 || (id.key == key && BecameFull(g, s0, s1, id.index));
    }
  }

  lemma {:induction false} NothingStagedYet(g: ChunkGrid, key: string, staged: set<int>, rows: Rows)
    ensures RowsGrew(g, key, staged, staged, rows, rows) && ListsNewRows(key, rows, rows, [])
  {
  }

  lemma {:induction false} ElsewhereRefl(files: Files, key: string, tag: nat)
    ensures SameElsewhere(files, files, key, tag)
  {
  }

  lemma {:induction false} ElsewhereTwice(a: Files, b: Files, c: Files, key: string, tag: nat)
    requires SameElsewhere(a, b, key, tag) && SameElsewhere(b, c, key, tag)
    ensures SameElsewhere(a, c, key, tag)
  {
  }

  lemma {:induction false} SpanData(data: Bytes, bytes: Bytes, offset: nat, off: nat, n: nat)
    requires offset <= off && off + n <= offset + |data| && off + n <= |bytes|
    requires forall k :: 0 <= k < |data| && offset + k < |bytes| ==> data[k] == bytes[offset + k]
    ensures data[off - offset..][..n] == bytes[off..off + n]
  {
  }

  /** Inside the file the room is what is left of the chunk. */
  lemma {:induction false} SpanFits(g: ChunkGrid, stop: nat, off: nat)
    requires off < g.fileSize && off < stop <= U64_RANGE
    ensures var i, n := IndexOf(g, off), Min(stop - off, Room(g, off));
      && n > 0 && ChunkStart(g, i) <= off && off + n <= ChunkStart(g, i) + ChunkLen(g, i) <= g.fileSize
      && (forall o: int :: off <= o < off + n ==> Holds(g, i, o))
      && Turn(ToStage, g, stop, At(off)) == At(off + n)
  {
    TurnInside(ToStage, g, stop, off);
    SlotEnds(g, off);
    hide ChunkStart, ChunkLen, IndexOf;
  }

  /** Past the end the whole span fits the wrapped room and lies behind its chunk. */
  lemma {:induction false} PastEndSpan(g: ChunkGrid, off: nat, n: nat)
    requires Overruns(g, off, off + n) && off + n <= U64_RANGE
    ensures var i := IndexOf(g, off);
      Min(n, Room(g, off)) == n && ChunkStart(g, i) <= off && 0 < ChunkLen(g, i) < off + n - ChunkStart(g, i)
  {
    SlotEnds(g, off);
    TurnPastEnd(ToStage, g, off, off + n);
    hide ChunkStart, ChunkLen, IndexOf, Room;
  }

  /** Staging `[start, stop)` ends as the walk does. */
  predicate OutcomeFits(g: ChunkGrid, start: nat, stop: nat, r: StageOutcome) {
    match r
    case Done(_) => start == stop || stop <= g.fileSize || Overruns(g, start, stop)
    case NoSuchChunk(offset) =>
      start < stop && g.fileSize < stop && EndIsSeen(g, start, stop) && offset == Max(start, g.fileSize)
    case Stuck => Stalls(g, start, stop)
  }

  /** Where the loop stops at `off`, or goes on inside the file. */
  lemma {:induction false} StagingStops(g: ChunkGrid, start: nat, stop: nat, off: nat)
    requires start <= off < stop <= U64_RANGE && !Overruns(g, start, stop) && (off <= g.fileSize || off == start)
    ensures var room := Min(stop - off, Room(g, off));
      && (!InSomeSlot(g, off) ==> off >= g.fileSize && OutcomeFits(g, start, stop, NoSuchChunk(off)))
      && (InSomeSlot(g, off) && room == 0 ==> off == g.fileSize && OutcomeFits(g, start, stop, Stuck))
      && (InSomeSlot(g, off) && room > 0 ==> off < g.fileSize)
  {
    if InSomeSlot(g, off) { SlotEnds(g, off); } else { MissingAtEnd(g, off); }
    hide ChunkStart, ChunkLen, IndexOf;
  }

  lemma {:induction false} StagingEnds(g: ChunkGrid, start: nat, stop: nat, here: seq<nat>)
    requires start == stop || stop <= g.fileSize
    ensures OutcomeFits(g, start, stop, Done(here))
  {
  }

  lemma {:induction false} SpanIsNew(s0: set<int>, s1: set<int>, offset: nat, off: nat, n: nat, len: nat, size: nat)
    requires Interval(offset, offset + len) !! s0 && s1 == s0 + Interval(offset, Min(off, size))
    requires offset <= off && off + n <= offset + len && off + n <= size
    ensures Interval(off, off + n) !! s1
    ensures s1 + Interval(off, off + n) == s0 + Interval(offset, Min(off + n, size))
  {
    forall o | o in Interval(off, off + n) ensures o !in s1 {
      assert o in Interval(offset, offset + len);
    }
  }

  /** `promoted` lists each chunk in `granted` once, and each of them is full. */
  ghost predicate Lists(g: ChunkGrid, staged: set<int>, promoted: seq<nat>, granted: set<nat>) {
    && (forall i :: i in promoted <==> i in granted)
    && (forall j, k :: 0 <= j < k < |promoted| ==> promoted[j] != promoted[k])
    && (forall i :: i in granted ==> Full(g, staged, i))
  }

  lemma {:induction false} ListsMore(g: ChunkGrid, staged: set<int>, more: set<int>, promoted: seq<nat>,
                                     granted: set<nat>)
    requires Lists(g, staged, promoted, granted) && staged <= more
    ensures Lists(g, more, promoted, granted)
  {
    forall i | i in granted ensures Full(g, more, i) {
      FullMeansAll(g, staged, i);
      FullMeansAll(g, more, i);
    }
    hide Full;
  }

  lemma {:induction false} ListsOneMore(g: ChunkGrid, staged: set<int>, promoted: seq<nat>, granted: set<nat>, i: nat)
    requires Lists(g, staged, promoted, granted) && Full(g, staged, i) && i !in granted
    ensures Lists(g, staged, promoted + [i], granted + {i})
  {
    hide Full;
  }

  /** Giving up a chunk that is not full takes nothing off the list. */
  lemma {:induction false} ListsWithout(g: ChunkGrid, staged: set<int>, promoted: seq<nat>, granted: set<nat>, i: nat)
    requires Lists(g, staged, promoted, granted) && !Full(g, staged, i)
    ensures Lists(g, Without(g, staged, i), promoted, granted)
  {
    forall j | j in granted ensures Full(g, Without(g, staged, i), j) {
      WithoutCounts(g, staged, i, j);
      hide InChunk, Without, ChunkLen;
    }
    hide Full;
  }

  lemma {:induction false} ListsOnlyFull(g: ChunkGrid, staged: set<int>, promoted: seq<nat>, granted: set<nat>)
    requires Lists(g, staged, promoted, granted)
    ensures Lists(g, OnlyFull(g, staged), promoted, granted)
  {
    forall j | j in granted ensures Full(g, OnlyFull(g, staged), j) {
      OnlyFullCounts(g, staged, j);
      hide InChunk, OnlyFull, ChunkLen;
    }
    hide Full;
  }

  /** Publishing one chunk touches no other chunk's record, and files the new one under the source. */
  ghost predicate RecordFiled(was: Ledger, l: Ledger, id: ChunkId, published: bool, source: ChunkSource) {
    if published then id in l.live && l.live == was.live[id := l.live[id]] && l.live[id].source == source else l == was
  }

  lemma {:induction false} PopulateFiles(l: Ledger, id: ChunkId, size: nat, source: ChunkSource, now: nat)
    ensures RecordFiled(l, Populate(l, id, size, source, now), id, true, source)
  {
  }

  /** The chunks listed have their records under this source. */
  ghost predicate FiledUnder(l: Ledger, key: string, ids: seq<nat>, source: ChunkSource) {
    forall k :: 0 <= k < |ids| ==> ChunkId(key, ids[k]) in l.live && l.live[ChunkId(key, ids[k])].source == source
  }

  lemma {:induction false} FiledMore(was: Ledger, key: string, ids: seq<nat>, i: nat, source: ChunkSource)
    requires FiledUnder(was, key, ids, source)
    ensures forall l, published :: RecordFiled(was, l, ChunkId(key, i), published, source) ==>
      FiledUnder(l, key, if published then ids + [i] else ids, source)
  {
  }

  class ChunkStager {
    const engine: CacheEngine
    const file: FileId
    const tag: nat
    var cur: Option<OpenChunk>
    var pending: map<nat, nat>
    var promoted: seq<nat>
    var source: ChunkSource
    var postDisconnect: bool
    /** Every offset staged so far whose chunk has not been given up since. */
    ghost var staged: set<int>
    /** Every chunk that this stager gave a row. */
    ghost var granted: set<nat>

    ghost function Grid(): ChunkGrid
      requires engine.stride > 0
    {
      engine.GridFor(file)
    }

    ghost predicate Mirroring() {
      engine.stride > 0 && engine.Names(file) && Mirrors(engine.content, engine.remote, engine.stride)
    }

    ghost predicate Tracking()
      requires engine.stride > 0
      reads this, engine`files
    {
      ProgressOk(Grid(), engine.remote(file.key), staged, engine.files, file.key, tag, Progress(cur, pending))
    }

    ghost predicate Valid()
      reads this, engine, engine.ledger.Footprint()
    {
      && Mirroring() && engine.Valid() && Tracking() && tag < engine.nextTag
      && (forall o :: o in staged ==> 0 <= o < file.size)
      && Lists(Grid(), staged, promoted, granted)
    }

    /** `begin_stage`: the tag is this process's next one, so no other stager writes the same temporary files. */
    constructor (engine: CacheEngine, file: FileId)
      requires engine.Valid() && engine.Names(file) && Mirrors(engine.content, engine.remote, engine.stride)
      modifies engine`nextTag
      ensures Valid() && this.engine == engine && this.file == file
      ensures tag == old(engine.nextTag) && engine.nextTag == tag + 1
      ensures cur == None && pending == map[] && staged == {} && promoted == [] && granted == {}
      ensures source == DemandServe && !postDisconnect
    {
      this.engine, this.file, this.tag := engine, file, engine.nextTag;
      cur, pending, promoted := None, map[], [];
      source, postDisconnect := DemandServe, false;
      staged, granted := {}, {};
      new;
      engine.nextTag := engine.nextTag + 1;
    }

    method SetSource(s: ChunkSource)
      modifies this`source
      ensures source == s
    {
      source := s;
    }

    method SetPostDisconnect()
      modifies this`postDisconnect
      ensures postDisconnect
    {
      postDisconnect := true;
    }

    function ResolvedSource(): ChunkSource
      reads this
    {
      if postDisconnect then PostDisconnect else source
    }

    ghost function IdOf(i: nat): ChunkId { ChunkId(file.key, i) }

    method Publish(i: nat, expected: nat, now: nat) returns (published: bool)
      requires engine.Valid() && Final(IdOf(i)) in engine.files && expected == |engine.files[Final(IdOf(i))]|
      modifies this`granted, engine, engine.ledger.Footprint()
      ensures granted == old(granted) + if published then {i} else {}
      ensures engine.Valid()
              && engine.Value() == Promoted(old(engine.Value()), IdOf(i), expected,
                                            if postDisconnect then PostDisconnect else source, now)
      ensures published <==> IdOf(i) !in old(engine.rows)
      ensures engine.rows ==
        if published then old(engine.rows)[IdOf(i) := Row(expected, now)] else old(engine.rows)
      ensures engine.files == old(engine.files) && engine.nextTag == old(engine.nextTag)
      ensures RecordFiled(old(engine.ledger.Value()), engine.ledger.Value(), IdOf(i), published, ResolvedSource())
    {
      hide StoreOk, Populate;
      PopulateFiles(engine.ledger.Value(), IdOf(i), expected, ResolvedSource(), now);
      PromoteKeepsOk(engine.content, engine.Value(), IdOf(i), expected, ResolvedSource(), now);
      published := engine.PublishChunk(ChunkId(file.key, i), expected, now);
      if published {
        granted := granted + {i};
        engine.ledger.RecordPopulate(ChunkId(file.key, i), expected, ResolvedSource(), now);
      }
    }

    // ---- the open chunk ----

    /** `close_current` and `open_chunk`: park the open chunk and open another, keeping whatever bytes its
        temporary file has. */
    method TakeUp(i: nat, expected: nat)
      requires cur.Some? ==> cur.value.written < cur.value.expected
      modifies this`cur, this`pending, engine`files
      ensures Progress(cur, pending) == Switched(old(Progress(cur, pending)), i, expected)
      ensures engine.files == WithFile(old(engine.files), Staging(IdOf(i), tag))
    {
      if cur.Some? {
        pending := pending[cur.value.index := cur.value.written];
      }
      var written := if i in pending then pending[i] else 0;
      pending := pending - {i};
      var path := Staging(ChunkId(file.key, i), tag);
      if path !in engine.files {
        engine.files := engine.files[path := []];
      }
      cur := Some(OpenChunk(i, expected, written));
    }

    method SwitchTo(i: nat, expected: nat)
      requires Valid() && !IsOpen(Progress(cur, pending), i)
      requires expected == ChunkLen(Grid(), i) > 0 && !Full(Grid(), staged, i)
      modifies this`cur, this`pending, engine`files
      ensures Valid() && IsOpen(Progress(cur, pending), i)
      ensures Progress(cur, pending) == Switched(old(Progress(cur, pending)), i, expected)
      ensures engine.files == WithFile(old(engine.files), Staging(IdOf(i), tag))
    {
      hide StoreOk, ProgressOk, ChunkStart, ChunkLen, Full, Lists;
      var path := Staging(ChunkId(file.key, i), tag);
      ContentLength(i);
      StagingBounded(engine.content, engine.Value(), path.id, tag);
      SwitchKeepsOk(Grid(), engine.remote(file.key), staged, engine.files, file.key, tag, Progress(cur, pending), i);
      StagingWriteKeepsOk(engine.content, engine.Value(), path.id, tag,
                          if path in engine.files then engine.files[path] else []);
      if cur.Some? {
        OpenFileExists(Grid(), engine.remote(file.key), staged, engine.files, file.key, tag, Progress(cur, pending));
      }
      TakeUp(i, expected);
      assert path in old(engine.files) ==> old(engine.files)[path := old(engine.files)[path]] == old(engine.files);
    }

    /** Make chunk `i` the open one, if it is not already. */
    method OpenFor(i: nat)
      requires Valid() && ChunkLen(Grid(), i) > 0 && !Full(Grid(), staged, i)
      modifies this`cur, this`pending, engine`files
      ensures Valid() && IsOpen(Progress(cur, pending), i)
      ensures Progress(cur, pending) == Opened(old(Progress(cur, pending)), i, ChunkLen(Grid(), i))
      ensures engine.files == WithFile(old(engine.files), Staging(IdOf(i), tag))
      ensures SameElsewhere(old(engine.files), engine.files, file.key, tag)
    {
      hide StoreOk, ProgressOk, ChunkStart, ChunkLen, Full;
      if cur.None? || cur.value.index != i {
        SwitchTo(i, ChunkLen(engine.GridFor(file), i));
      } else {
        OpenFileExists(Grid(), engine.remote(file.key), staged, engine.files, file.key, tag, Progress(cur, pending));
      }
    }

    /** Seek, write and count; a chunk whose count reaches the expected length is closed and renamed. */
    method Append(at: nat, data: Bytes) returns (complete: bool)
      requires cur.Some? && Staging(IdOf(cur.value.index), tag) in engine.files
      modifies this`cur, engine`files
      ensures var c, path := old(cur).value, Staging(IdOf(old(cur).value.index), tag);
        var f := Overwrite(old(engine.files)[path], at, data);
        && complete == (c.written + |data| == c.expected)
        && cur == (if complete then None else Some(Wrote(c, |data|)))
        && engine.files == if complete then old(engine.files)[path := f][Final(path.id) := f] - {path}
                           else old(engine.files)[path := f]
    {
      hide Overwrite;
      var c := cur.value;
      var path := Staging(ChunkId(file.key, c.index), tag);
      engine.files := engine.files[path := Overwrite(engine.files[path], at, data)];
      cur := Some(Wrote(c, |data|));
      complete := cur.value.written == c.expected;
      if complete {
        cur := None;
        engine.files := engine.files[Final(path.id) := engine.files[path]] - {path};
      }
    }

    /** Write a span into the open chunk. The last missing byte closes the file and renames it into place. */
    method WriteSpan(off: nat, data: Bytes) returns (complete: bool)
      requires Valid() && cur.Some? && data != [] && Interval(off, off + |data|) !! staged
      requires var i := cur.value.index;
        ChunkStart(Grid(), i) <= off && off + |data| <= ChunkStart(Grid(), i) + ChunkLen(Grid(), i)
      requires off + |data| <= file.size && data == engine.remote(file.key)[off..off + |data|]
      modifies this`cur, this`staged, engine`files
      ensures Valid() && staged == old(staged) + Interval(off, off + |data|)
      ensures complete <==> Full(Grid(), staged, old(cur).value.index)
      ensures complete <==> old(cur).value.written + |data| == old(cur).value.expected
      ensures cur == if complete then None else Some(Wrote(old(cur).value, |data|))
      ensures var i := old(cur).value.index;
        engine.files == SpanFiles(old(engine.files), IdOf(i), tag, off - ChunkStart(Grid(), i), data, complete)
      ensures SameElsewhere(old(engine.files), engine.files, file.key, tag)
      ensures var id := IdOf(old(cur).value.index);
        complete ==> Final(id) in engine.files && engine.files[Final(id)] == engine.content(id)
    {
      hide StoreOk, ProgressOk, ChunkLen, Overwrite, Full, Holding, Interval, Lists;
      var c := cur.value;
      ghost var path := Staging(ChunkId(file.key, c.index), tag);
      OpenFileExists(Grid(), engine.remote(file.key), staged, engine.files, file.key, tag, Progress(cur, pending));
      WriteKeepsOk(Grid(), engine.remote(file.key), staged, engine.files, file.key, tag, Progress(cur, pending), off,
                   data);
      HeldFits(c.index, off, data);
      ListsMore(Grid(), staged, staged + Interval(off, off + |data|), promoted, granted);
      complete := Append(off - ChunkStart(engine.GridFor(file), c.index), data);
      staged := staged + Interval(off, off + |data|);
      if complete {
        ghost var f := Overwrite(old(engine.files)[path], off - ChunkStart(Grid(), c.index), data);
        ghost var closed := old(engine.files)[path := f] - {path};
        OthersIgnored(Grid(), engine.remote(file.key), staged, closed, engine.files, file.key, tag,
                      Progress(cur, pending));
      }
    }

    /** The written file fits its chunk, and once every offset is in it is the chunk's content. */
    lemma {:induction false} HeldFits(i: nat, off: nat, data: Bytes)
      requires Valid() && Staging(IdOf(i), tag) in engine.files && off >= ChunkStart(Grid(), i)
      requires var f := Overwrite(engine.files[Staging(IdOf(i), tag)], off - ChunkStart(Grid(), i), data);
        Holding(Grid(), engine.remote(file.key), staged + Interval(off, off + |data|), i, f)
      ensures var path := Staging(IdOf(i), tag);
        var f := Overwrite(engine.files[path], off - ChunkStart(Grid(), i), data);
        var st := engine.Value().(files := engine.files[path := f]);
        && StoreOk(engine.content, st)
        && (Full(Grid(), staged + Interval(off, off + |data|), i) ==>
             f == engine.content(IdOf(i)) && f != [] && StoreOk(engine.content, Renamed(st, IdOf(i), tag)))
    {
      hide StoreOk, ProgressOk, Overwrite;
      var more := staged + Interval(off, off + |data|);
      var path := Staging(IdOf(i), tag);
      var f := Overwrite(engine.files[path], off - ChunkStart(Grid(), i), data);
      ContentLength(i);
      StagingWriteKeepsOk(engine.content, engine.Value(), IdOf(i), tag, f);
      if Full(Grid(), more, i) {
        HeldFileIsContent(Grid(), engine.remote(file.key), more, i, f);
        assert engine.content(IdOf(i)) == ContentOf(engine.remote, engine.stride, IdOf(i));
        RenameKeepsOk(engine.content, engine.Value().(files := engine.files[path := f]), IdOf(i), tag);
      }
    }

    /** One turn of the staging loop: a span inside chunk `i`. The chunk is published when it becomes full. */
    method StageSpan(i: nat, off: nat, data: Bytes, now: nat) returns (published: bool)
      requires Valid() && data != [] && Interval(off, off + |data|) !! staged
      requires ChunkStart(Grid(), i) <= off && off + |data| <= ChunkStart(Grid(), i) + ChunkLen(Grid(), i)
      requires off + |data| <= file.size && data == engine.remote(file.key)[off..off + |data|]
      modifies this, engine, engine.ledger.Footprint()
      ensures Valid() && staged == old(staged) + Interval(off, off + |data|)
      ensures published <==> Full(Grid(), staged, i) && IdOf(i) !in old(engine.rows)
      ensures engine.rows ==
        if published then old(engine.rows)[IdOf(i) := Row(ChunkLen(Grid(), i), now)] else old(engine.rows)
      ensures promoted == if published then old(promoted) + [i] else old(promoted)
      ensures SameElsewhere(old(engine.files), engine.files, file.key, tag)
      ensures engine.nextTag == old(engine.nextTag) && ResolvedSource() == old(ResolvedSource())
      ensures RecordFiled(old(engine.ledger.Value()), engine.ledger.Value(), IdOf(i), published, ResolvedSource())
      ensures var p, len := old(Progress(cur, pending)), ChunkLen(Grid(), i);
        && Progress(cur, pending) == SpanProgress(p, i, len, |data|)
        && engine.files == SpanFiles(old(engine.files), IdOf(i), tag, off - ChunkStart(Grid(), i), data,
                                     CountOf(p, i) + |data| == len)
    {
      hide StoreOk, ProgressOk, ChunkStart, ChunkLen, Full, SameElsewhere, Interval, Lists;
      NotYetFull(i, off, |data|);
      hide Valid, CacheEngine.Valid, SpanFiles, SpanProgress, CountOf;
      var complete := FillSpan(i, off, data);
      published := false;
      if complete {
        published := PublishFull(i, now);
      }
    }

    /** Open chunk `i`, write the span, and rename the file if that completes it. */
    method FillSpan(i: nat, off: nat, data: Bytes) returns (complete: bool)
      requires Valid() && data != [] && Interval(off, off + |data|) !! staged && !Full(Grid(), staged, i)
      requires ChunkStart(Grid(), i) <= off && off + |data| <= ChunkStart(Grid(), i) + ChunkLen(Grid(), i)
      requires off + |data| <= file.size && data == engine.remote(file.key)[off..off + |data|]
      modifies this`cur, this`pending, this`staged, engine`files
      ensures Valid() && staged == old(staged) + Interval(off, off + |data|)
      ensures complete <==> Full(Grid(), staged, i)
      ensures complete ==> Final(IdOf(i)) in engine.files && |engine.files[Final(IdOf(i))]| == ChunkLen(Grid(), i)
      ensures SameElsewhere(old(engine.files), engine.files, file.key, tag)
      ensures var p, len := old(Progress(cur, pending)), ChunkLen(Grid(), i);
        && complete == (CountOf(p, i) + |data| == len)
        && Progress(cur, pending) == SpanProgress(p, i, len, |data|)
        && engine.files == SpanFiles(old(engine.files), IdOf(i), tag, off - ChunkStart(Grid(), i), data, complete)
    {
      hide StoreOk, ProgressOk, ChunkStart, ChunkLen, Full, SameElsewhere, Interval, InChunk, Lists;
      OpenedCounts(Progress(cur, pending), i, ChunkLen(Grid(), i));
      OpenFor(i);
      OpenIsPartial(i);
      ContentLength(i);
      hide Opened, CountOf, Overwrite, WithFile;
      ghost var mid := engine.files;
      SpanFilesOpened(old(engine.files), IdOf(i), tag, off - ChunkStart(Grid(), i), data);
      complete := WriteSpan(off, data);
      ElsewhereTwice(old(engine.files), mid, engine.files, file.key, tag);
      hide SpanFiles;
    }

    method PublishFull(i: nat, now: nat) returns (published: bool)
      requires Valid() && Final(IdOf(i)) in engine.files && |engine.files[Final(IdOf(i))]| == ChunkLen(Grid(), i)
      requires Full(Grid(), staged, i) && i !in granted
      modifies this`promoted, this`granted, this`pending, engine, engine.ledger.Footprint()
      ensures Valid() && engine.files == old(engine.files) && pending == old(pending)
      ensures published <==> IdOf(i) !in old(engine.rows)
      ensures engine.rows ==
        if published then old(engine.rows)[IdOf(i) := Row(ChunkLen(Grid(), i), now)] else old(engine.rows)
      ensures promoted == if published then old(promoted) + [i] else old(promoted)
      ensures engine.nextTag == old(engine.nextTag)
      ensures RecordFiled(old(engine.ledger.Value()), engine.ledger.Value(), IdOf(i), published, ResolvedSource())
    {
      hide StoreOk, ProgressOk, ChunkStart, ChunkLen, Full, Populate, Lists, RecordFiled, Promoted;
      ListsOneMore(Grid(), staged, promoted, granted, i);
      published := Publish(i, ChunkLen(engine.GridFor(file), i), now);
      assert !published ==> granted == old(granted);
      if published {
        promoted := promoted + [i];
        FullIsNotParked(Grid(), engine.remote(file.key), staged, engine.files, file.key, tag, Progress(cur, pending),
                        i);
        assert pending - {i} == pending;
        pending := pending - {i};
      }
    }

    lemma {:induction false} NotYetFull(i: nat, off: nat, n: nat)
      requires engine.stride > 0 && Lists(Grid(), staged, promoted, granted) && n > 0
               && Interval(off, off + n) !! staged
      requires ChunkStart(Grid(), i) <= off && off + n <= ChunkStart(Grid(), i) + ChunkLen(Grid(), i)
      ensures !Full(Grid(), staged, i) && ChunkLen(Grid(), i) > 0 && i !in granted
    {
      FullGrows(Grid(), staged, i, off, n, i);
    }

    /**
     Stage `data` at `offset`. The spans of one stager are pairwise disjoint and carry the remote file's
     bytes, in any order. A chunk gets a row exactly when its last missing offset arrives; bytes beyond the
     end of the file are refused if the loop can see the end, and keep it from ending if it leaves the file
     from within without seeing the end. A span that begins past an end it cannot see breaks the store.
     */
    method Stage(offset: nat, data: Bytes, now: nat) returns (r: StageOutcome)
      requires Valid() && Interval(offset, offset + |data|) !! staged && offset + |data| <= U64_RANGE
      requires forall k :: 0 <= k < |data| && offset + k < file.size ==> data[k] == engine.remote(file.key)[offset + k]
      modifies this, engine, engine.ledger.Footprint()
      ensures OutcomeFits(Grid(), offset, offset + |data|, r)
      ensures engine.Valid() <==> !Overruns(Grid(), offset, offset + |data|)
      ensures !Overruns(Grid(), offset, offset + |data|) ==>
        && Valid() && staged == old(staged) + Interval(offset, Min(offset + |data|, file.size))
        && RowsGrew(Grid(), file.key, old(staged), staged, old(engine.rows), engine.rows)
        && ListsNewRows(file.key, old(engine.rows), engine.rows, PromotedSince(old(promoted)))
        && FiledUnder(engine.ledger.Value(), file.key, PromotedSince(old(promoted)), ResolvedSource())
        && SameElsewhere(old(engine.files), engine.files, file.key, tag)
      ensures old(promoted) <= promoted && (r.Done? ==> r.published == PromotedSince(old(promoted)))
      ensures engine.nextTag == old(engine.nextTag) && ResolvedSource() == old(ResolvedSource())
    {
      if Overruns(engine.GridFor(file), offset, offset + |data|) {
        r := StagePastEnd(offset, data, now);
      } else {
        r := StageWithin(offset, data, now);
      }
    }

    /** The staging loop on every other span. */
    method StageWithin(offset: nat, data: Bytes, now: nat) returns (r: StageOutcome)
      requires Valid() && Interval(offset, offset + |data|) !! staged && offset + |data| <= U64_RANGE
      requires forall k :: 0 <= k < |data| && offset + k < file.size ==> data[k] == engine.remote(file.key)[offset + k]
      requires !Overruns(Grid(), offset, offset + |data|)
      modifies this, engine, engine.ledger.Footprint()
      ensures OutcomeFits(Grid(), offset, offset + |data|, r)
      ensures Valid() && staged == old(staged) + Interval(offset, Min(offset + |data|, file.size))
      ensures RowsGrew(Grid(), file.key, old(staged), staged, old(engine.rows), engine.rows)
      ensures ListsNewRows(file.key, old(engine.rows), engine.rows, PromotedSince(old(promoted)))
      ensures FiledUnder(engine.ledger.Value(), file.key, PromotedSince(old(promoted)), ResolvedSource())
      ensures old(promoted) <= promoted && (r.Done? ==> r.published == PromotedSince(old(promoted)))
      ensures SameElsewhere(old(engine.files), engine.files, file.key, tag)
      ensures engine.nextTag == old(engine.nextTag) && ResolvedSource() == old(ResolvedSource())
    {
      hide StoreOk, ProgressOk, ChunkStart, ChunkLen, Full, RowsGrew, ListsNewRows, SameElsewhere, IndexOf, Room, Lists;
      hide Overruns, OutcomeFits;
      NothingStagedYet(Grid(), file.key, staged, engine.rows);
      ElsewhereRefl(engine.files, file.key, tag);
      var here: seq<nat> := [];
      var off := offset;
      assert Interval(offset, Min(offset, file.size)) == {};
      hide Interval, Holds;
      while off < offset + |data|
        invariant Valid() && engine.nextTag == old(engine.nextTag) && ResolvedSource() == old(ResolvedSource())
        invariant offset <= off <= offset + |data| && (off <= file.size || off == offset)
        invariant staged == old(staged) + Interval(offset, Min(off, file.size))
        invariant SameElsewhere(old(engine.files), engine.files, file.key, tag)
        invariant RowsGrew(Grid(), file.key, old(staged), staged, old(engine.rows), engine.rows)
        invariant ListsNewRows(file.key, old(engine.rows), engine.rows, here) && promoted == old(promoted) + here
        invariant FiledUnder(engine.ledger.Value(), file.key, here, ResolvedSource())
      {
        StagingStops(Grid(), offset, offset + |data|, off);
        if ChunkLen(engine.GridFor(file), IndexOf(engine.GridFor(file), off)) == 0 {
          return NoSuchChunk(off);
        }
        if Min(offset + |data| - off, Room(engine.GridFor(file), off)) == 0 {
          return Stuck;
        }
        off, here := StageTurn(old(staged), old(engine.rows), old(engine.files), offset, data, off, here, now);
      }
      StagingEnds(Grid(), offset, offset + |data|, here);
      r := Done(here);
    }

    function PromotedSince(before: seq<nat>): seq<nat>
      reads this
    {
      if before <= promoted then promoted[|before|..] else promoted
    }

    /** One turn of the staging loop inside the file: a span up to the end of the chunk or of the data. */
    method StageTurn(ghost s0: set<int>, ghost rows0: Rows, ghost files0: Files, offset: nat, data: Bytes, off: nat,
                     here: seq<nat>, now: nat) returns (next: nat, more: seq<nat>)
      requires Valid() && Interval(offset, offset + |data|) !! s0 && offset + |data| <= U64_RANGE
      requires forall k :: 0 <= k < |data| && offset + k < file.size ==> data[k] == engine.remote(file.key)[offset + k]
      requires offset <= off < offset + |data| && off < file.size
      requires staged == s0 + Interval(offset, Min(off, file.size))
               && SameElsewhere(files0, engine.files, file.key, tag)
      requires RowsGrew(Grid(), file.key, s0, staged, rows0, engine.rows)
               && ListsNewRows(file.key, rows0, engine.rows, here)
               && FiledUnder(engine.ledger.Value(), file.key, here, ResolvedSource())
      modifies this, engine, engine.ledger.Footprint()
      ensures Valid() && engine.nextTag == old(engine.nextTag) && ResolvedSource() == old(ResolvedSource())
      ensures Turn(ToStage, Grid(), offset + |data|, At(off)) == At(next) && off < next <= offset + |data|
              && next <= file.size
      ensures staged == s0 + Interval(offset, Min(next, file.size))
              && SameElsewhere(files0, engine.files, file.key, tag)
      ensures RowsGrew(Grid(), file.key, s0, staged, rows0, engine.rows)
              && ListsNewRows(file.key, rows0, engine.rows, more)
              && FiledUnder(engine.ledger.Value(), file.key, more, ResolvedSource())
      ensures |more| >= |here| && more[..|here|] == here && promoted == old(promoted) + more[|here|..]
    {
      hide StoreOk, ProgressOk, ChunkStart, ChunkLen, Full, RowsGrew, ListsNewRows, SameElsewhere;
      hide Room, IndexOf, Interval, Holds, Lists;
      var i := IndexOf(engine.GridFor(file), off);
      SpanFits(Grid(), offset + |data|, off);
      var rest := data[off - offset..];
      var n := Min(|rest|, Room(engine.GridFor(file), off));
      SpanIsNew(s0, staged, offset, off, n, |data|, file.size);
      SpanData(data, engine.remote(file.key), offset, off, n);
      ghost var before, rowsBefore, mid := staged, engine.rows, engine.files;
      FiledMore(engine.ledger.Value(), file.key, here, i, ResolvedSource());
      hide RecordFiled, FiledUnder;
      var published := StageSpan(i, off, rest[..n], now);
      SpanRows(Grid(), file.key, s0, before, staged, rows0, rowsBefore, engine.rows, here, i, off, n, published);
      ElsewhereTwice(files0, mid, engine.files, file.key, tag);
      more := if published then here + [i] else here;
      next := off + n;
    }

    /** Bytes counted so far for chunk `i`. */
    ghost function Counted(i: nat): nat
      reads this
    {
      CountOf(Progress(cur, pending), i)
    }

    /** Take up chunk `i` if it is not the open one, and append. */
    method AppendTo(i: nat, expected: nat, at: nat, data: Bytes) returns (complete: bool)
      requires cur.Some? ==> cur.value.written < cur.value.expected
      requires IsOpen(Progress(cur, pending), i) ==>
        cur.value.expected == expected && Staging(IdOf(i), tag) in engine.files
      modifies this`cur, this`pending, engine`files
      ensures complete == (old(Counted(i)) + |data| == expected)
      ensures var id, path := IdOf(i), Staging(IdOf(i), tag);
        var f := Overwrite(WithFile(old(engine.files), path)[path], at, data);
        if complete then Final(id) in engine.files && engine.files[Final(id)] == f
        else path in engine.files && engine.files[path] == f
    {
      hide Overwrite;
      if cur.None? || cur.value.index != i {
        TakeUp(i, expected);
      }
      complete := Append(at, data);
    }

    /** The one turn of a span that begins past the end of the file, in the slot of its short last chunk: the
        wrapped room takes the whole span. Its bytes land behind the chunk's end and are counted as the
        chunk's own, so a file that is not the chunk is renamed and given a row exactly if the count fits. */
    method StagePastEnd(offset: nat, data: Bytes, now: nat) returns (r: StageOutcome)
      requires Valid() && Overruns(Grid(), offset, offset + |data|) && offset + |data| <= U64_RANGE
      modifies this, engine, engine.ledger.Footprint()
      ensures !engine.Valid() && r.Done? && promoted == old(promoted) + r.published
      ensures engine.nextTag == old(engine.nextTag) && ResolvedSource() == old(ResolvedSource())
      ensures var i := IndexOf(Grid(), offset); var id, path := IdOf(i), Staging(IdOf(i), tag);
        var f := Overwrite(WithFile(old(engine.files), path)[path], offset - ChunkStart(Grid(), i), data);
        && |f| > ChunkLen(Grid(), i) == |engine.content(id)|
        && if old(Counted(i)) + |data| == ChunkLen(Grid(), i)
           then Final(id) in engine.files && engine.files[Final(id)] == f && id in engine.rows
                && r.published == if id in old(engine.rows) then [] else [i]
           else path in engine.files && engine.files[path] == f && engine.rows == old(engine.rows) && r.published == []
    {
      hide StoreOk, ProgressOk, Valid, CacheEngine.Valid, Lists, Overruns, Counted, WithFile;
      hide IndexOf, ChunkLen, ChunkStart, Room, Overwrite;
      PastEndFacts(offset, |data|);
      var g := engine.GridFor(file);
      var i := IndexOf(g, offset);
      assert data[..|data|] == data;
      var complete := AppendTo(i, ChunkLen(g, i), offset - ChunkStart(g, i), data[..Min(|data|, Room(g, offset))]);
      r := Done([]);
      if complete {
        r := PromotePastEnd(i, ChunkLen(g, i), now);
      }
      Broken(if complete then Final(IdOf(i)) else Staging(IdOf(i), tag));
    }

    lemma {:induction false} PastEndFacts(offset: nat, n: nat)
      requires Valid() && Overruns(Grid(), offset, offset + n) && offset + n <= U64_RANGE
      ensures engine.stride > 0 && engine.ledger.Valid() && Grid() == engine.GridFor(file)
      ensures var g := Grid(); var i := IndexOf(g, offset);
        && Min(n, Room(g, offset)) == n && ChunkStart(g, i) <= offset && ChunkLen(g, i) < offset + n - ChunkStart(g, i)
        && |engine.content(IdOf(i))| == ChunkLen(g, i)
        && Final(IdOf(i)).id == Staging(IdOf(i), tag).id == IdOf(i)
        && (cur.Some? ==> cur.value.written < cur.value.expected)
        && (IsOpen(Progress(cur, pending), i) ==>
              cur.value.expected == ChunkLen(g, i) && Staging(IdOf(i), tag) in engine.files)
    {
      hide StoreOk, ProgressOk, ChunkStart, ChunkLen, IndexOf, Lists;
      ContentLength(IndexOf(Grid(), offset));
      PastEndSpan(Grid(), offset, n);
      OpenIsPartial(IndexOf(Grid(), offset));
    }

    lemma {:induction false} OpenIsPartial(i: nat)
      requires Valid()
      ensures cur.Some? ==> cur.value.written < cur.value.expected
      ensures IsOpen(Progress(cur, pending), i) ==>
        cur.value.expected == ChunkLen(Grid(), i) && Staging(IdOf(i), tag) in engine.files
    {
      hide StoreOk, ProgressOk, ChunkStart, ChunkLen, Lists;
      if cur.Some? {
        OpenFileExists(Grid(), engine.remote(file.key), staged, engine.files, file.key, tag, Progress(cur, pending));
      }
    }

    lemma {:induction false} Broken(path: Path)
      requires engine.stride > 0 && path in engine.files && |engine.files[path]| > |engine.content(path.id)|
      ensures !engine.Valid()
    {
      if engine.Valid() { LongFileBreaks(engine.content, engine.Value(), path); }
    }

    /** `publish` and the bookkeeping after it, with nothing known about the file. */
    method PromotePastEnd(i: nat, expected: nat, now: nat) returns (r: StageOutcome)
      requires engine.ledger.Valid()
      modifies this`promoted, this`granted, this`pending, engine`rows, engine`currentBytes, engine.ledger.Footprint()
      ensures engine.ledger.Valid() && IdOf(i) in engine.rows
      ensures r == Done(if IdOf(i) in old(engine.rows) then [] else [i]) && promoted == old(promoted) + r.published
    {
      hide Populate;
      r := Done([]);
      var published := engine.InsertRow(ChunkId(file.key, i), expected, now);
      if published {
        engine.ledger.RecordPopulate(ChunkId(file.key, i), expected, ResolvedSource(), now);
        granted, promoted, pending := granted + {i}, promoted + [i], pending - {i};
        r := Done([i]);
      }
    }

    /** Close the open chunk without keeping it: its file and its offsets are given up. */
    method DiscardCurrent()
      requires Valid()
      modifies this`cur, this`staged, engine`files
      ensures Valid() && cur == None
      ensures old(cur).None? ==> staged == old(staged) && engine.files == old(engine.files)
      ensures old(cur).Some? ==> var i := old(cur).value.index;
        staged == Without(Grid(), old(staged), i) && engine.files == old(engine.files) - {Staging(IdOf(i), tag)}
    {
      hide StoreOk, ProgressOk, ChunkStart, ChunkLen, Lists;
      if cur.Some? {
        var i := cur.value.index;
        OpenIsNotFull(Grid(), engine.remote(file.key), staged, engine.files, file.key, tag, Progress(cur, pending));
        ListsWithout(Grid(), staged, promoted, granted, i);
        DiscardKeepsOk(Grid(), engine.remote(file.key), staged, engine.files, file.key, tag, Progress(cur, pending));
        RemovalKeepsOk(engine.content, engine.Value(), IdOf(i), tag);
        engine.files := engine.files - {Staging(ChunkId(file.key, i), tag)};
        staged := Without(Grid(), staged, i);
        cur := None;
      }
    }

    /** The open chunk is always short of bytes, so finishing only discards it: it publishes nothing and
        returns what was promoted before. */
    method Finish(now: nat) returns (all: seq<nat>)
      requires Valid()
      modifies this`cur, this`staged, engine`files
      ensures Valid() && cur == None && all == promoted
      ensures forall i :: i in all <==> i in granted
      ensures forall j, k :: 0 <= j < k < |all| ==> all[j] != all[k]
      ensures old(cur).Some? ==> old(cur).value.written < old(cur).value.expected
      ensures old(cur).Some? ==> engine.files == old(engine.files) - {Staging(IdOf(old(cur).value.index), tag)}
      ensures old(cur).None? ==> engine.files == old(engine.files)
    {
      hide StoreOk, ProgressOk, ChunkStart, ChunkLen;
      if cur.Some? {
        OpenFileExists(Grid(), engine.remote(file.key), staged, engine.files, file.key, tag, Progress(cur, pending));
        if cur.value.written == cur.value.expected {
          assert false;
        } else {
          DiscardCurrent();
        }
      }
      all := promoted;
    }

    /** Forget every incomplete chunk. Only the open chunk's temporary file is removed: those of parked
        chunks stay on disk. */
    method Abort()
      requires Valid()
      modifies this`cur, this`pending, this`staged, engine`files
      ensures Valid() && cur == None && pending == map[]
      ensures old(cur).Some? ==> engine.files == old(engine.files) - {Staging(IdOf(old(cur).value.index), tag)}
      ensures old(cur).None? ==> engine.files == old(engine.files)
      ensures forall i :: i in old(pending) ==> Staging(IdOf(i), tag) in engine.files
    {
      hide StoreOk, ChunkStart, ChunkLen, Lists;
      ParkedFilesExist(Grid(), engine.remote(file.key), staged, engine.files, file.key, tag, Progress(cur, pending));
      DiscardCurrent();
      ForgetKeepsOk(Grid(), engine.remote(file.key), staged, engine.files, file.key, tag);
      ListsOnlyFull(Grid(), staged, promoted, granted);
      pending := map[];
      staged := OnlyFull(Grid(), staged);
    }

    /** A sweep that takes rows away beside a stager disturbs none of its chunks. */
    twostate lemma SweepKeepsValid(ids: seq<ChunkId>)
      requires old(Valid()) && engine.Valid() && engine.nextTag == old(engine.nextTag)
      requires unchanged(this) && Distinct(ids) && forall id :: id in ids ==> id in old(engine.rows)
      requires engine.Value() == Swept(old(engine.Value()), ids)
      ensures Valid()
    {
      hide StoreOk, ProgressOk, Lists, Swept;
      var before := old(engine.Value());
      SweepRemoves(engine.content, before, ids);
      KeepsValid();
    }

    /** Nothing but its own temporary files and the engine's soundness matters to a stager. */
    twostate lemma KeepsValid()
      requires old(Valid()) && engine.Valid() && engine.nextTag >= old(engine.nextTag) && unchanged(this)
      requires forall id :: Staging(id, tag) in old(engine.files) ==>
        Staging(id, tag) in engine.files && engine.files[Staging(id, tag)] == old(engine.files)[Staging(id, tag)]
      ensures Valid()
    {
      hide StoreOk, ProgressOk, Lists;
      OthersIgnored(Grid(), engine.remote(file.key), staged, old(engine.files), engine.files, file.key, tag,
                    Progress(cur, pending));
    }

    lemma {:induction false} ContentLength(i: nat)
      requires Mirroring()
      ensures |engine.content(IdOf(i))| == ChunkLen(Grid(), i)
    {
      assert engine.content(IdOf(i)) == ContentOf(engine.remote, engine.stride, IdOf(i));
    }
  }

  lemma {:induction false} StagingBounded(content: Content, st: Store, id: ChunkId, tag: nat)
    requires StoreOk(content, st)
    ensures Staging(id, tag) in st.files ==> |st.files[Staging(id, tag)]| <= |content(id)|
  {
    hide InStep;
  }

  lemma {:induction false} OpenFileExists(g: ChunkGrid, bytes: Bytes, staged: set<int>, files: Files, key: string,
                                          tag: nat, p: Progress)
    requires ProgressOk(g, bytes, staged, files, key, tag, p) && p.cur.Some?
    ensures Staging(ChunkId(key, p.cur.value.index), tag) in files
    ensures p.cur.value.expected == ChunkLen(g, p.cur.value.index)
    ensures p.cur.value.written < p.cur.value.expected
  {
  }

  lemma {:induction false} OpenIsNotFull(g: ChunkGrid, bytes: Bytes, staged: set<int>, files: Files, key: string,
                                         tag: nat, p: Progress)
    requires ProgressOk(g, bytes, staged, files, key, tag, p) && p.cur.Some?
    ensures !Full(g, staged, p.cur.value.index)
  {
  }

  lemma {:induction false} FullIsNotParked(g: ChunkGrid, bytes: Bytes, staged: set<int>, files: Files, key: string,
                                           tag: nat, p: Progress, i: nat)
    requires ProgressOk(g, bytes, staged, files, key, tag, p) && Full(g, staged, i)
    ensures i !in p.pending
  {
  }

  lemma {:induction false} ParkedFilesExist(g: ChunkGrid, bytes: Bytes, staged: set<int>, files: Files, key: string,
                                            tag: nat, p: Progress)
    requires ProgressOk(g, bytes, staged, files, key, tag, p)
    ensures forall i :: i in p.pending ==> Staging(ChunkId(key, i), tag) in files && !IsOpen(p, i)
  {
    forall i | i in p.pending ensures Staging(ChunkId(key, i), tag) in files {
      assert Partly(g, bytes, staged, files, key, tag, i, p.pending[i]);
    }
  }

  lemma {:induction false} RemovalKeepsOk(content: Content, st: Store, id: ChunkId, tag: nat)
    requires StoreOk(content, st)
    ensures StoreOk(content, st.(files := st.files - {Staging(id, tag)}))
  {
    hide InStep;
  }

  /** Stagers of one engine have different tags, so one can stage without disturbing another. */
  method StageBeside(s: ChunkStager, other: ChunkStager, offset: nat, data: Bytes, now: nat) returns (r: StageOutcome)
    requires s.Valid() && other.Valid() && s.engine == other.engine && s.tag != other.tag && s != other
    requires Interval(offset, offset + |data|) !! s.staged && offset + |data| <= U64_RANGE
    requires forall k :: 0 <= k < |data| && offset + k < s.file.size ==>
      data[k] == s.engine.remote(s.file.key)[offset + k]
    modifies s, s.engine, s.engine.ledger.Footprint()
    ensures OutcomeFits(s.Grid(), offset, offset + |data|, r)
    ensures !Overruns(s.Grid(), offset, offset + |data|) ==> s.Valid() && other.Valid()
  {
    hide StoreOk, ProgressOk, Lists, RowsGrew, ListsNewRows, OutcomeFits, Overruns;
    label before:
    r := s.Stage(offset, data, now);
    if !Overruns(s.Grid(), offset, offset + |data|) {
      other.KeepsValid@before();
    }
  }

  /** `maybe_evict` while a stager is at work: the sweep and the stager do not disturb each other. */
  method EvictBeside(s: ChunkStager, order: seq<ChunkId>) returns (evicted: nat)
    requires s.Valid() && ColdestFirst(order, s.engine.rows)
    modifies s.engine, s.engine.ledger.Footprint()
    ensures s.Valid() && evicted <= |Idle(order, s.engine.inflight.live)|
    ensures s.engine.Value() == Swept(old(s.engine.Value()), Idle(order, s.engine.inflight.live)[..evicted])
  {
    hide StoreOk, ProgressOk, Lists, Swept;
    IdleFromOrder(order, s.engine.inflight.live);
    evicted := s.engine.MaybeEvict(order);
    s.SweepKeepsValid(Idle(order, s.engine.inflight.live)[..evicted]);
  }
}
