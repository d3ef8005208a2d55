/** Serving one window: local runs are read from the cache, fetch runs come from upstream. */
module Serving {
  import opened Grid
  import opened Plan
  import opened Chunks
  import opened Disk
  import opened Engine

  /** Every byte of a run lies in one of the run's segments. */
  lemma {:induction false} RunByteInSegment(segs: seq<ChunkSeg>, lo: nat, stop: nat, first: nat, stopAt: nat, o: nat)
    returns (k: nat)
    requires Tiles(segs, lo, stop) && first < stopAt <= |segs|
    requires segs[first].start <= o <= segs[stopAt - 1].end
    ensures first <= k < stopAt && segs[k].start <= o <= segs[k].end
    decreases stopAt
  {
    if segs[stopAt - 1].start <= o {
      k := stopAt - 1;
    } else {
      k := RunByteInSegment(segs, lo, stop, first, stopAt - 1, o);
    }
  }

  /** A local run touches only chunks that have a row, any other run only chunks that have none. */
  lemma {:induction false} KindTellsRows(g: ChunkGrid, rows: Rows, key: string, start: nat, end: nat,
                                         segs: seq<ChunkSeg>, r: PlanRun, o: nat)
    requires IsPlan(g, PresentIn(rows, key), start, end, segs) && RunOver(segs, r)
    requires r.start <= o <= r.end
    ensures ChunkId(key, IndexOf(g, o)) in rows <==> r.kind == Local
  {
    var k := RunByteInSegment(segs, start, WindowStop(g, end), r.segFrom, r.segTo, o);
    assert KindOf(segs[k]) == r.kind;
    assert Holds(g, segs[k].index, o);
    ChunksPartition(g, segs[k].index, o);
    assert segs[k].index in PresentIn(rows, key) <==> ChunkId(key, segs[k].index) in rows by {
      assert ChunkId(key, segs[k].index).index == segs[k].index;
    }
  }

  lemma {:induction false} RunInsideWindow(g: ChunkGrid, present: set<nat>, start: nat, end: nat,
                                           segs: seq<ChunkSeg>, r: PlanRun)
    requires IsPlan(g, present, start, end, segs) && RunOver(segs, r)
    ensures start <= r.start <= r.end < WindowStop(g, end)
  {
    StopAfter(segs, start, WindowStop(g, end), r.segFrom);
    StopAfter(segs, start, WindowStop(g, end), r.segTo - 1);
    StartsOrdered(segs, start, WindowStop(g, end), r.segFrom, r.segTo - 1);
  }

  /** A range whose chunks all have rows is read from disk, and its bytes are the remote file's. */
  method ReadLocal(engine: CacheEngine, file: FileId, from: nat, last: nat) returns (piece: Bytes)
    requires engine.Valid() && engine.Names(file) && Mirrors(engine.content, engine.remote, engine.stride)
    requires from <= last < file.size
    requires forall o: nat :: from <= o <= last ==> ChunkId(file.key, IndexOf(engine.GridFor(file), o)) in engine.rows
    modifies engine`handles
    ensures engine.Valid() && piece == engine.remote(file.key)[from..last + 1]
  {
    hide StoreOk, Mirrors;
    ghost var open := engine.OpenIds();
    engine.RowsAreOpen(file, from, last + 1);
    var got := engine.Pread(file, from, last);
    ReadInside(engine.GridFor(file), file.key, engine.remote(file.key), open, from, last + 1, got);
    piece := got.bytes;
  }

  /** The bytes of one run, from disk or from upstream, are the remote file's; upstream is asked for them exactly if
      the plan says so. */
  method ServeRun(engine: CacheEngine, file: FileId, ghost start: nat, ghost end: nat, ghost plan: seq<ChunkSeg>,
                  r: PlanRun,
                  upstream: (nat, nat) -> Bytes) returns (piece: Bytes, asked: seq<(nat, nat)>)
    requires engine.Valid() && engine.Names(file) && Mirrors(engine.content, engine.remote, engine.stride)
    requires forall a: nat, b: nat :: a <= b < file.size ==> upstream(a, b) == engine.remote(file.key)[a..b + 1]
    requires IsPlan(engine.GridFor(file), PresentIn(engine.rows, file.key), start, end, plan) && RunOver(plan, r)
    modifies engine`handles
    ensures engine.Valid()
    ensures start <= r.start <= r.end < WindowStop(engine.GridFor(file), end) && r.end < file.size
    ensures piece == engine.remote(file.key)[r.start..r.end + 1]
    ensures asked == if r.kind == Fetch then [(r.start, r.end)] else []
  {
    ghost var g := engine.GridFor(file);
    assert WindowStop(g, end) <= file.size;
    hide IsPlan, RunOver, StoreOk, Mirrors, IndexOf, WindowStop, PresentIn;
    RunInsideWindow(g, PresentIn(engine.rows, file.key), start, end, plan, r);
    if r.kind == Fetch {
      return upstream(r.start, r.end), [(r.start, r.end)];
    }
    forall o: nat | r.start <= o <= r.end ensures ChunkId(file.key, IndexOf(g, o)) in engine.rows {
      KindTellsRows(g, engine.rows, file.key, start, end, plan, r, o);
    }
    piece := ReadLocal(engine, file, r.start, r.end);
    asked := [];
  }

  /** The runs of a plan, one after another. */
  method ServeRuns(engine: CacheEngine, file: FileId, ghost start: nat, ghost end: nat, ghost plan: seq<ChunkSeg>,
                   runs: seq<PlanRun>, upstream: (nat, nat) -> Bytes) returns (served: Bytes, asked: seq<(nat, nat)>)
    requires engine.Valid() && engine.Names(file) && Mirrors(engine.content, engine.remote, engine.stride)
    requires forall a: nat, b: nat :: a <= b < file.size ==> upstream(a, b) == engine.remote(file.key)[a..b + 1]
    requires IsPlan(engine.GridFor(file), PresentIn(engine.rows, file.key), start, end, plan)
    requires MaximalRuns(plan, runs, |plan|) && RunsTile(runs, start, WindowStop(engine.GridFor(file), end))
    modifies engine`handles
    ensures engine.Valid()
    ensures Served(engine.remote(file.key), start, PosAfter(runs, start, |runs|), |runs|, served)
    ensures asked == Fetches(runs)
  {
    hide StoreOk, Mirrors, IsPlan, WindowStop, MaximalRuns, RunsTile, RunOver, PresentIn, Served;
    served, asked := [], [];
    NothingServed(engine.remote(file.key), runs, start);
    for n := 0 to |runs|
      invariant engine.Valid()
      invariant Served(engine.remote(file.key), start, PosAfter(runs, start, n), n, served)
      invariant asked == Fetches(runs[..n])
    {
      RunIsOver(plan, runs, n);
      assert runs[..n + 1][..n] == runs[..n];
      var piece, more := ServeRun(engine, file, start, end, plan, runs[n], upstream);
      ServedGrows(engine.remote(file.key), runs, start, WindowStop(engine.GridFor(file), end), n, served, piece);
      served, asked := served + piece, asked + more;
    }
    assert runs[..|runs|] == runs;
  }

  /** The ranges that the plan wants from upstream. */
  function Fetches(runs: seq<PlanRun>): seq<(nat, nat)> {
    if runs == [] then []
    else
      var last := runs[|runs| - 1];
      Fetches(runs[..|runs| - 1]) + if last.kind == Fetch then [(last.start, last.end)] else []
  }

  ghost predicate AskedFor(asked: seq<(nat, nat)>, o: nat) {
    exists k :: 0 <= k < |asked| && asked[k].0 <= o <= asked[k].1
  }

  /** The ranges come one after another and never meet. */
  ghost predicate Apart(asked: seq<(nat, nat)>) { forall j, k :: 0 <= j < k < |asked| ==> asked[j].1 < asked[k].0 }

  /** A run that is fetched holds the offset. */
  ghost predicate InFetchRun(runs: seq<PlanRun>, o: nat) {
    exists n :: 0 <= n < |runs| && runs[n].kind == Fetch && runs[n].start <= o <= runs[n].end
  }

  lemma {:induction false} AskedForMore(asked: seq<(nat, nat)>, x: (nat, nat), o: nat)
    ensures AskedFor(asked + [x], o) <==> AskedFor(asked, o) || x.0 <= o <= x.1
  {
    var more := asked + [x];
    assert more[|asked|] == x && forall k :: 0 <= k < |asked| ==> more[k] == asked[k];
  }

  lemma {:induction false} InFetchRunMore(runs: seq<PlanRun>, r: PlanRun, o: nat)
    ensures InFetchRun(runs + [r], o) <==> InFetchRun(runs, o) || (r.kind == Fetch && r.start <= o <= r.end)
  {
    var more := runs + [r];
    assert more[|runs|] == r && forall n :: 0 <= n < |runs| ==> more[n] == runs[n];
  }

  lemma {:induction false} FetchedInRun(runs: seq<PlanRun>, o: nat)
    ensures AskedFor(Fetches(runs), o) <==> InFetchRun(runs, o)
  {
    if runs != [] {
      var front, last := runs[..|runs| - 1], runs[|runs| - 1];
      FetchedInRun(front, o);
      assert runs == front + [last] && Fetches(front) + [] == Fetches(front);
      AskedForMore(Fetches(front), (last.start, last.end), o);
      InFetchRunMore(front, last, o);
      hide AskedFor, InFetchRun;
    }
  }

  lemma {:induction false} FetchesApart(runs: seq<PlanRun>, lo: nat, stop: nat)
    requires RunsTile(runs, lo, stop)
    ensures Apart(Fetches(runs)) && forall k :: 0 <= k < |Fetches(runs)| ==> Fetches(runs)[k].1 < stop
  {
    if |runs| > 1 {
      FetchesApart(runs[..|runs| - 1], lo, runs[|runs| - 1].start);
    }
  }

  lemma {:induction false} RunAt(runs: seq<PlanRun>, lo: nat, stop: nat, o: nat) returns (n: nat)
    requires RunsTile(runs, lo, stop) && lo <= o < stop
    ensures n < |runs| && runs[n].start <= o <= runs[n].end
  {
    n := |runs| - 1;
    if o < runs[n].start {
      n := RunAt(runs[..n], lo, runs[n].start, o);
    }
  }

  /** Upstream is asked for exactly the bytes of the window whose chunks have no row. */
  lemma {:induction false} FetchesAbsent(g: ChunkGrid, rows: Rows, key: string, start: nat, end: nat,
                                         plan: seq<ChunkSeg>, runs: seq<PlanRun>, o: nat)
    requires IsPlan(g, PresentIn(rows, key), start, end, plan)
    requires MaximalRuns(plan, runs, |plan|) && RunsTile(runs, start, WindowStop(g, end))
    ensures AskedFor(Fetches(runs), o) <==>
      start <= o < WindowStop(g, end) && ChunkId(key, IndexOf(g, o)) !in rows
  {
    FetchedInRun(runs, o);
    hide IsPlan, PresentIn, IndexOf, Fetches, RunsTile, AskedFor;
    forall n | 0 <= n < |runs| && runs[n].start <= o <= runs[n].end
      ensures start <= o < WindowStop(g, end) && (ChunkId(key, IndexOf(g, o)) in rows <==> runs[n].kind == Local)
    {
      RunInsideWindow(g, PresentIn(rows, key), start, end, plan, runs[n]);
      KindTellsRows(g, rows, key, start, end, plan, runs[n], o);
    }
    if start <= o < WindowStop(g, end) {
      var n := RunAt(runs, start, WindowStop(g, end), o);
    }
  }

  /** Serving refines the remote file: for every window and every state of the cache, the bytes of the runs,
      one after another, are exactly the remote file's bytes of the window clipped to the end of the file, and
      upstream is asked for exactly those of them whose chunks have no row, each once and in order. */
  method ServeWindow(engine: CacheEngine, file: FileId, start: nat, end: nat, now: nat, upstream: (nat, nat) -> Bytes)
    returns (served: Bytes, asked: seq<(nat, nat)>)
    requires engine.Valid() && engine.Names(file) && Mirrors(engine.content, engine.remote, engine.stride)
    requires forall a: nat, b: nat :: a <= b < file.size ==> upstream(a, b) == engine.remote(file.key)[a..b + 1]
    modifies engine`rows, engine`handles
    ensures engine.Valid()
    ensures Refreshed(old(engine.rows), engine.rows, engine.GridFor(file), file.key, start, end, now)
    ensures served == if start < WindowStop(engine.GridFor(file), end)
                      then engine.remote(file.key)[start..WindowStop(engine.GridFor(file), end)] else []
    ensures Apart(asked)
    ensures forall o: nat :: AskedFor(asked, o) <==>
      start <= o < WindowStop(engine.GridFor(file), end)
      && ChunkId(file.key, IndexOf(engine.GridFor(file), o)) !in old(engine.rows)
  {
    hide StoreOk, Mirrors, IsPlan, WindowStop, MaximalRuns, RunsTile, Tiles, PresentIn, Served, Refreshed, IndexOf;
    hide AskedFor, Apart, Fetches;
    var plan := engine.PlanChunks(file, start, end, now);
    var runs := Runs(plan);
    ghost var stop := WindowStop(engine.GridFor(file), end);
    PlanTiles(engine.GridFor(file), PresentIn(engine.rows, file.key), start, end, plan);
    RunsTileWindow(plan, runs, start, stop);
    served, asked := ServeRuns(engine, file, start, end, plan, runs, upstream);
    FetchesApart(runs, start, stop);
    forall o: nat ensures AskedFor(asked, o) <==>
        start <= o < stop && ChunkId(file.key, IndexOf(engine.GridFor(file), o)) !in engine.rows {
      FetchesAbsent(engine.GridFor(file), engine.rows, file.key, start, end, plan, runs, o);
    }
    RefreshedKeys(old(engine.rows), engine.rows, engine.GridFor(file), file.key, start, end, now);
    AllServed(engine.remote(file.key), runs, start, stop, served);
  }

  lemma {:induction false} RefreshedKeys(was: Rows, rows: Rows, g: ChunkGrid, key: string, start: nat, end: nat,
                                         now: nat)
    requires Refreshed(was, rows, g, key, start, end, now)
    ensures rows.Keys == was.Keys
  {
  }

  /** Where the serving stands after `n` runs. */
  ghost function PosAfter(runs: seq<PlanRun>, start: nat, n: nat): nat
    requires n <= |runs|
  {
    if n == 0 then start else runs[n - 1].end + 1
  }

  /** The bytes from `start` up to `pos` have been served, after `n` runs. */
  ghost predicate Served(bytes: Bytes, start: nat, pos: nat, n: nat, served: Bytes) {
    start <= pos && (n > 0 ==> pos <= |bytes|) && served == if n == 0 then [] else bytes[start..pos]
  }

  lemma {:induction false} NothingServed(bytes: Bytes, runs: seq<PlanRun>, start: nat)
    ensures Served(bytes, start, PosAfter(runs, start, 0), 0, [])
  {
  }

  lemma {:induction false} ServedGrows(bytes: Bytes, runs: seq<PlanRun>, start: nat, stop: nat, n: nat, served: Bytes,
                                       piece: Bytes)
    requires n < |runs| && Served(bytes, start, PosAfter(runs, start, n), n, served) && RunsTile(runs, start, stop)
    requires runs[n].start <= runs[n].end < |bytes| && piece == bytes[runs[n].start..runs[n].end + 1]
    ensures Served(bytes, start, PosAfter(runs, start, n + 1), n + 1, served + piece)
  {
    assert runs[n].start == PosAfter(runs, start, n);
    if n > 0 { Appended(bytes, start, runs[n].start, runs[n].end + 1); }
  }

  lemma {:induction false} AllServed(bytes: Bytes, runs: seq<PlanRun>, start: nat, stop: nat, served: Bytes)
    requires Served(bytes, start, PosAfter(runs, start, |runs|), |runs|, served) && RunsTile(runs, start, stop)
    ensures served == (if start < stop then bytes[start..stop] else []) && (start < stop ==> stop <= |bytes|)
  {
  }

  lemma {:induction false} RunIsOver(plan: seq<ChunkSeg>, runs: seq<PlanRun>, n: nat)
    requires MaximalRuns(plan, runs, |plan|) && n < |runs|
    ensures RunOver(plan, runs[n])
  {
  }

  lemma {:induction false} PlanTiles(g: ChunkGrid, present: set<nat>, start: nat, end: nat, plan: seq<ChunkSeg>)
    requires IsPlan(g, present, start, end, plan)
    ensures Tiles(plan, start, WindowStop(g, end))
  {
  }

  lemma {:induction false} Appended(bytes: Bytes, a: nat, b: nat, c: nat)
    requires a <= b <= c <= |bytes|
    ensures bytes[a..b] + bytes[b..c] == bytes[a..c]
  {
  }
}
