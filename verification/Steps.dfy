/**
 The objects and the crash machine do the same to the disk: opening a store, staging a span, giving up chunks
 and evicting a chunk are sequences of single disk operations, each allowed when its turn comes.
 */
module Steps {
  import opened Outcomes
  import opened Intervals
  import opened Grid
  import opened Chunks
  import opened Disk
  import opened Engine
  import opened StagingProgress
  import opened Stager
  import opened Crash

  ghost predicate Allowed(remote: Remote, w: World, a: Action) { Enabled(remote, w, a) && Exclusive(w, a) }

  /** The machine gets from `w` to `n` by these actions. */
  ghost predicate Reaches(remote: Remote, w: World, actions: seq<Action>, n: World)
    decreases |actions|
  {
    if actions == [] then n == w
    else Allowed(remote, w, actions[0]) && Reaches(remote, Act(remote, w, actions[0]), actions[1..], n)
  }

  lemma {:induction false} OneStep(remote: Remote, w: World, a: Action)
    requires Allowed(remote, w, a)
    ensures Reaches(remote, w, [a], Act(remote, w, a))
  {
    assert Reaches(remote, Act(remote, w, a), [][..], Act(remote, w, a));
    hide Enabled, Exclusive, Act;
  }

  lemma {:induction false} ReachesFurther(remote: Remote, w: World, first: seq<Action>, m: World, rest: seq<Action>,
                                          n: World)
    requires Reaches(remote, w, first, m) && Reaches(remote, m, rest, n)
    ensures Reaches(remote, w, first + rest, n)
    decreases |first|
  {
    hide Act, Enabled, Exclusive;
    if first == [] {
      assert first + rest == rest;
    } else {
      ReachesFurther(remote, Act(remote, w, first[0]), first[1..], m, rest, n);
      assert (first + rest)[1..] == first[1..] + rest;
    }
  }

  /** Cut off between any two of the steps, the disk can still be trusted. */
  lemma {:induction false} CutOffAnywhere(remote: Remote, w: World, actions: seq<Action>, n: World, k: nat)
    returns (m: World)
    requires Inv(remote, w) && Reaches(remote, w, actions, n) && k <= |actions|
    ensures Reaches(remote, w, actions[..k], m) && Inv(remote, m)
    decreases k
  {
    hide Act, Enabled, Exclusive, Inv;
    if k == 0 {
      m := w;
    } else {
      ActKeepsInv(remote, w, actions[0]);
      m := CutOffAnywhere(remote, Act(remote, w, actions[0]), actions[1..], n, k - 1);
      assert actions[..k][1..] == actions[1..][..k - 1];
    }
  }

  // ---- the machine beside a stager ----

  /** An open store between two operations: nothing is being removed and nothing waits between rename and row. */
  ghost predicate AtRest(w: World, stride: nat) {
    && w.process.Up? && w.process.stride == stride > 0 && w.process.removing == {}
    && forall job :: job in w.process.jobs ==> w.process.jobs[job].phase == Writing
  }

  /** The staged offsets of a chunk, counted from its start. */
  ghost function Relative(g: ChunkGrid, staged: set<int>, i: nat): set<int> {
    set o | o in InChunk(g, staged, i) :: o - ChunkStart(g, i)
  }

  ghost predicate InHand(p: Progress, i: nat) { IsOpen(p, i) || i in p.pending }

  /** The machine writes a chunk exactly while the stager has it open or parked, with the same count. */
  ghost predicate FollowsAll(jobs: map<JobName, Job>, key: string, tag: nat, g: ChunkGrid, staged: set<int>,
                             p: Progress) {
    && (forall i :: InHand(p, i) <==> JobName(ChunkId(key, i), tag) in jobs)
    && (forall i :: InHand(p, i) ==>
          jobs[JobName(ChunkId(key, i), tag)] == Job(Writing, CountOf(p, i), Relative(g, staged, i)))
  }

  ghost predicate Follows(w: World, s: ChunkStager)
    requires s.engine.stride > 0
    reads s, s.engine
  {
    && w.disk == s.engine.OnDisk() && AtRest(w, s.engine.stride)
    && FollowsAll(w.process.jobs, s.file.key, s.tag, s.Grid(), s.staged, Progress(s.cur, s.pending))
  }

  /** A new stager has a tag of its own, so the machine follows it from the start. */
  method BeginInSteps(e: CacheEngine, file: FileId, ghost w: World) returns (s: ChunkStager)
    requires e.Valid() && e.Names(file) && Mirrors(e.content, e.remote, e.stride)
    requires w.disk == e.OnDisk() && AtRest(w, e.stride)
    requires forall job :: job in w.process.jobs ==> job.tag < e.nextTag
    modifies e`nextTag
    ensures fresh(s) && s.engine == e && s.file == file && s.Valid() && Follows(w, s)
    ensures forall job :: job in w.process.jobs ==> job.tag < s.tag < e.nextTag
  {
    hide StoreOk, ProgressOk, Lists;
    s := new ChunkStager(e, file);
  }

  // ---- the steps of one span, on the machine ----

  function JobOr(jobs: map<JobName, Job>, job: JobName): Job {
    if job in jobs then jobs[job] else Job(Writing, 0, {})
  }

  /** Create or find the temporary file. */
  lemma {:induction false} OpenSteps(remote: Remote, w: World, stride: nat, job: JobName)
    returns (actions: seq<Action>, n: World)
    requires AtRest(w, stride) && ContentFor(remote, stride)(job.id) != []
    requires job in w.process.jobs ==> TempOf(job) in w.disk.files
    ensures Reaches(remote, w, actions, n) && AtRest(n, stride)
    ensures n.disk == w.disk.(files := WithFile(w.disk.files, TempOf(job)))
    ensures n.process.jobs == w.process.jobs[job := JobOr(w.process.jobs, job)]
  {
    if job in w.process.jobs {
      actions, n := [], w;
      assert w.process.jobs[job := w.process.jobs[job]] == w.process.jobs;
    } else {
      actions, n := [OpenTemp(job)], Act(remote, w, OpenTemp(job));
      OneStep(remote, w, OpenTemp(job));
    }
  }

  lemma {:induction false} WriteStep(remote: Remote, w: World, stride: nat, job: JobName, at: nat, len: nat)
    returns (n: World)
    requires AtRest(w, stride) && job in w.process.jobs && TempOf(job) in w.disk.files
    requires at + len <= |ContentFor(remote, stride)(job.id)|
    requires Interval(at, at + len) !! w.process.jobs[job].covered
    ensures Reaches(remote, w, [Write(job, at, len)], n) && AtRest(n, stride)
    ensures var data := ContentFor(remote, stride)(job.id)[at..at + len];
      n.disk == w.disk.(files := w.disk.files[TempOf(job) := Overwrite(w.disk.files[TempOf(job)], at, data)])
    ensures var j := w.process.jobs[job];
      n.process.jobs == w.process.jobs[job := Job(Writing, j.written + len, j.covered + Interval(at, at + len))]
  {
    hide ContentFor, Overwrite, Interval;
    n := Act(remote, w, Write(job, at, len));
    OneStep(remote, w, Write(job, at, len));
  }

  function Promotion(job: JobName, now: nat): seq<Action> {
    [Sync(job), Rename(job)] + [SyncDir(job), InsertRow(job, now)]
  }

  lemma {:induction false} TwoSteps(remote: Remote, w: World, a: Action, m: World, b: Action)
    requires Allowed(remote, w, a) && m == Act(remote, w, a) && Allowed(remote, m, b)
    ensures Reaches(remote, w, [a, b], Act(remote, m, b))
  {
    hide Reaches, Act, Enabled, Exclusive;
    OneStep(remote, w, a);
    OneStep(remote, m, b);
    ReachesFurther(remote, w, [a], m, [b], Act(remote, m, b));
    assert [a, b] == [a] + [b];
  }

  /** Sync and rename. */
  lemma {:induction false} RenameSteps(remote: Remote, w: World, job: JobName) returns (n: World)
    requires HasJob(w, job, Writing) && TempOf(job) in w.disk.files && w.process.stride > 0
    requires w.process.removing == {}
    requires w.process.jobs[job].written == |ContentFor(remote, w.process.stride)(job.id)|
    ensures Reaches(remote, w, [Sync(job), Rename(job)], n)
    ensures var files := w.disk.files;
      n.disk == w.disk.(files := files[Final(job.id) := files[TempOf(job)]] - {TempOf(job)})
    ensures n.process == w.process.(jobs := w.process.jobs[job := w.process.jobs[job].(phase := Renamed)])
  {
    hide ContentFor, Reaches;
    var m := Act(remote, w, Sync(job));
    n := Act(remote, m, Rename(job));
    TwoSteps(remote, w, Sync(job), m, Rename(job));
  }

  /** Sync the directory and insert the row. */
  lemma {:induction false} RowSteps(remote: Remote, w: World, job: JobName, now: nat) returns (n: World)
    requires HasJob(w, job, Renamed) && w.process.stride > 0
    ensures Reaches(remote, w, [SyncDir(job), InsertRow(job, now)], n)
    ensures var size := |ContentFor(remote, w.process.stride)(job.id)|;
      n.disk == w.disk.(rows := WithRow(w.disk.rows, job.id, Row(size, now)))
    ensures n.process == w.process.(jobs := w.process.jobs - {job})
  {
    hide ContentFor, Reaches;
    var m := Act(remote, w, SyncDir(job));
    n := Act(remote, m, InsertRow(job, now));
    TwoSteps(remote, w, SyncDir(job), m, InsertRow(job, now));
    assert n.process.jobs == w.process.jobs - {job};
  }

  /** Both, in this order. */
  lemma {:induction false} PromotionSteps(remote: Remote, w: World, stride: nat, job: JobName, now: nat)
    returns (n: World)
    requires AtRest(w, stride) && job in w.process.jobs && TempOf(job) in w.disk.files
    requires w.process.jobs[job].written == |ContentFor(remote, stride)(job.id)|
    ensures Reaches(remote, w, Promotion(job, now), n) && AtRest(n, stride)
    ensures var files, size := w.disk.files, |ContentFor(remote, stride)(job.id)|;
      n.disk == w.disk.(files := files[Final(job.id) := files[TempOf(job)]] - {TempOf(job)},
                        rows := WithRow(w.disk.rows, job.id, Row(size, now)))
    ensures n.process.jobs == w.process.jobs - {job}
  {
    hide ContentFor, Reaches, WithRow;
    var m := RenameSteps(remote, w, job);
    n := RowSteps(remote, m, job, now);
    ReachesFurther(remote, w, [Sync(job), Rename(job)], m, [SyncDir(job), InsertRow(job, now)], n);
    assert n.process.jobs == w.process.jobs - {job};
  }

  /** A row that is already there stays as it is. */
  function WithRow(rows: Rows, id: ChunkId, row: Row): Rows { if id in rows then rows else rows[id := row] }

  /** The machine after a span of a chunk's bytes. */
  ghost predicate SpanWorld(content: Bytes, w: World, job: JobName, at: nat, len: nat, now: nat, n: World)
    requires w.process.Up? && n.process.Up? && at + len <= |content|
  {
    var j := JobOr(w.process.jobs, job);
    var complete := j.written + len == |content|;
    && n.disk == w.disk.(
         files := SpanFiles(w.disk.files, job.id, job.tag, at, content[at..at + len], complete),
         rows := if complete then WithRow(w.disk.rows, job.id, Row(|content|, now)) else w.disk.rows)
    && n.process.jobs == if complete then w.process.jobs - {job}
                         else w.process.jobs[job := Job(Writing, j.written + len, j.covered + Interval(at, at + len))]
  }

  /** A span is: open the temporary file unless the chunk is in hand, write, and promote if that completes it. */
  lemma {:induction false} SpanSteps(remote: Remote, w: World, stride: nat, job: JobName, at: nat, len: nat, now: nat)
    returns (actions: seq<Action>, n: World)
    requires AtRest(w, stride) && len > 0
    requires job in w.process.jobs ==> TempOf(job) in w.disk.files
    requires at + len <= |ContentFor(remote, stride)(job.id)|
    requires Interval(at, at + len) !! JobOr(w.process.jobs, job).covered
    ensures Reaches(remote, w, actions, n) && AtRest(n, stride)
    ensures SpanWorld(ContentFor(remote, stride)(job.id), w, job, at, len, now, n)
  {
    hide ContentFor, Overwrite, Interval, Reaches;
    var content := ContentFor(remote, stride)(job.id);
    var opening, m := OpenSteps(remote, w, stride, job);
    n := WriteStep(remote, m, stride, job, at, len);
    ReachesFurther(remote, w, opening, m, [Write(job, at, len)], n);
    actions := opening + [Write(job, at, len)];
    if n.process.jobs[job].written == |content| {
      var end := PromotionSteps(remote, n, stride, job, now);
      ReachesFurther(remote, w, actions, n, Promotion(job, now), end);
      actions, n := actions + Promotion(job, now), end;
    }
  }

  // ---- the same span, on the stager ----

  lemma {:induction false} RelativeGrows(g: ChunkGrid, staged: set<int>, i: nat, off: nat, n: nat)
    requires ChunkStart(g, i) <= off && off + n <= ChunkStart(g, i) + ChunkLen(g, i)
    ensures var at := off - ChunkStart(g, i);
      Relative(g, staged + Interval(off, off + n), i) == Relative(g, staged, i) + Interval(at, at + n)
  {
    hide ChunkStart, ChunkLen;
    var lo := ChunkStart(g, i);
    var more := staged + Interval(off, off + n);
    forall o | o in Interval(off - lo, off - lo + n) ensures o in Relative(g, more, i) {
      assert o + lo in InChunk(g, more, i);
    }
    forall o | o in Relative(g, staged, i) ensures o in Relative(g, more, i) {
      assert o + lo in InChunk(g, more, i);
    }
    forall o | o in InChunk(g, more, i) && o !in Interval(off, off + n) ensures o - lo in Relative(g, staged, i) {
      assert o in InChunk(g, staged, i);
    }
  }

  lemma {:induction false} RelativeMisses(g: ChunkGrid, staged: set<int>, i: nat, off: nat, n: nat)
    requires Interval(off, off + n) !! staged && ChunkStart(g, i) <= off
    ensures var at := off - ChunkStart(g, i); Interval(at, at + n) !! Relative(g, staged, i)
  {
    hide ChunkStart, ChunkLen;
    var lo := ChunkStart(g, i);
    forall o | o in Relative(g, staged, i) ensures o !in Interval(off - lo, off - lo + n) {
      assert o + lo in staged && o + lo !in Interval(off, off + n);
    }
  }

  /** Nothing of a chunk that is neither in hand nor full is staged. */
  lemma {:induction false} NothingInHand(g: ChunkGrid, bytes: Bytes, staged: set<int>, files: Files, key: string,
                                         tag: nat, p: Progress, i: nat)
    requires ProgressOk(g, bytes, staged, files, key, tag, p) && !Full(g, staged, i)
    ensures !InHand(p, i) ==> Relative(g, staged, i) == {} && CountOf(p, i) == 0
    ensures InHand(p, i) ==> Staging(ChunkId(key, i), tag) in files
  {
    hide ChunkStart, ChunkLen, InChunk, Full, Holding;
    if i in p.pending { assert Partly(g, bytes, staged, files, key, tag, i, p.pending[i]); }
    assert !InHand(p, i) ==> Settled(g, staged, i);
  }

  /** What the stager has in hand after a span, and with which counts. */
  lemma {:induction false} InHandAfter(p: Progress, i: nat, len: nat, n: nat, j: nat)
    requires p.cur.Some? ==> p.cur.value.index !in p.pending
    ensures var q := SpanProgress(p, i, len, n);
      if j == i then
        (InHand(q, j) <==> CountOf(p, i) + n != len) && (InHand(q, j) ==> CountOf(q, j) == CountOf(p, i) + n)
      else (InHand(q, j) <==> InHand(p, j)) && CountOf(q, j) == CountOf(p, j)
  {
  }

  /** The jobs after a span of chunk `i` are those of the stager after it. */
  lemma {:induction false} SpanFollows(jobs: map<JobName, Job>, after: map<JobName, Job>, key: string, tag: nat,
                                       g: ChunkGrid, staged: set<int>, p: Progress, i: nat, off: nat, n: nat)
    requires FollowsAll(jobs, key, tag, g, staged, p) && (p.cur.Some? ==> p.cur.value.index !in p.pending)
    requires ChunkStart(g, i) <= off && off + n <= ChunkStart(g, i) + ChunkLen(g, i)
    requires !InHand(p, i) ==> Relative(g, staged, i) == {}
    requires var job := JobName(ChunkId(key, i), tag); var j := JobOr(jobs, job); var at := off - ChunkStart(g, i);
      after == if CountOf(p, i) + n == ChunkLen(g, i) then jobs - {job}
               else jobs[job := Job(Writing, j.written + n, j.covered + Interval(at, at + n))]
    ensures FollowsAll(after, key, tag, g, staged + Interval(off, off + n), SpanProgress(p, i, ChunkLen(g, i), n))
  {
    hide ChunkStart, ChunkLen, InHand, CountOf, SpanProgress, Interval, Relative;
    var more, q := staged + Interval(off, off + n), SpanProgress(p, i, ChunkLen(g, i), n);
    CountedInHand(p, i);
    RelativeGrows(g, staged, i, off, n);
    forall j: nat ensures InHand(q, j) <==> JobName(ChunkId(key, j), tag) in after {
      InHandAfter(p, i, ChunkLen(g, i), n, j);
    }
    forall j: nat | InHand(q, j)
      ensures after[JobName(ChunkId(key, j), tag)] == Job(Writing, CountOf(q, j), Relative(g, more, j))
    {
      InHandAfter(p, i, ChunkLen(g, i), n, j);
      if j != i { RelativeElsewhere(g, staged, i, off, n, j); }
    }
  }

  lemma {:induction false} CountedInHand(p: Progress, i: nat)
    ensures !InHand(p, i) ==> CountOf(p, i) == 0
  {
  }

  lemma {:induction false} RelativeElsewhere(g: ChunkGrid, staged: set<int>, i: nat, off: nat, n: nat, j: nat)
    requires j != i && ChunkStart(g, i) <= off && off + n <= ChunkStart(g, i) + ChunkLen(g, i)
    ensures Relative(g, staged + Interval(off, off + n), j) == Relative(g, staged, j)
  {
    SpanElsewhere(g, staged, i, off, n, j);
    hide ChunkStart, ChunkLen, InChunk;
  }

  lemma {:induction false} CountIsExact(g: ChunkGrid, bytes: Bytes, staged: set<int>, files: Files, key: string,
                                        tag: nat, p: Progress, i: nat)
    requires ProgressOk(g, bytes, staged, files, key, tag, p) && !Full(g, staged, i)
    ensures CountOf(p, i) == |InChunk(g, staged, i)| && (p.cur.Some? ==> p.cur.value.index !in p.pending)
  {
    hide ChunkStart, ChunkLen, InChunk, Full, Holding;
    if i in p.pending { assert Partly(g, bytes, staged, files, key, tag, i, p.pending[i]); }
    assert !InHand(p, i) ==> Settled(g, staged, i);
  }

  /** The machine takes the steps of a span and follows the stager again. */
  lemma {:induction false} SpanMachine(s: ChunkStager, w: World, i: nat, off: nat, n: nat, now: nat)
    returns (actions: seq<Action>, v: World)
    requires s.Valid() && Follows(w, s) && n > 0 && Interval(off, off + n) !! s.staged && !Full(s.Grid(), s.staged, i)
    requires ChunkStart(s.Grid(), i) <= off && off + n <= ChunkStart(s.Grid(), i) + ChunkLen(s.Grid(), i)
    requires off + n <= s.file.size
    ensures Reaches(s.engine.remote, w, actions, v) && AtRest(v, s.engine.stride)
    ensures var p, more, len := Progress(s.cur, s.pending), s.staged + Interval(off, off + n), ChunkLen(s.Grid(), i);
      var data, complete := s.engine.remote(s.file.key)[off..off + n], CountOf(p, i) + n == len;
      && v.disk == w.disk.(
           files := SpanFiles(w.disk.files, s.IdOf(i), s.tag, off - ChunkStart(s.Grid(), i), data, complete),
           rows := if complete then WithRow(w.disk.rows, s.IdOf(i), Row(len, now)) else w.disk.rows)
      && (complete <==> Full(s.Grid(), more, i))
      && FollowsAll(v.process.jobs, s.file.key, s.tag, s.Grid(), more, SpanProgress(p, i, len, n))
  {
    hide StoreOk, ProgressOk, Lists, Reaches, SpanFiles, SpanProgress, CountOf, Full, Relative, InHand;
    hide ChunkStart, ChunkLen, Interval, InChunk;
    var g, p, job := s.Grid(), Progress(s.cur, s.pending), JobName(s.IdOf(i), s.tag);
    var at := off - ChunkStart(g, i);
    SpanOfContent(s, i, off, n);
    NothingInHand(g, s.engine.remote(s.file.key), s.staged, s.engine.files, s.file.key, s.tag, p, i);
    CountIsExact(g, s.engine.remote(s.file.key), s.staged, s.engine.files, s.file.key, s.tag, p, i);
    RelativeMisses(g, s.staged, i, off, n);
    actions, v := SpanSteps(s.engine.remote, w, s.engine.stride, job, at, n, now);
    CountsAfter(g, s.staged, i, off, n);
    SpanFollows(w.process.jobs, v.process.jobs, s.file.key, s.tag, g, s.staged, p, i, off, n);
  }

  lemma {:induction false} CountsAfter(g: ChunkGrid, staged: set<int>, i: nat, off: nat, n: nat)
    requires Interval(off, off + n) !! staged && !Full(g, staged, i) && n > 0
    requires ChunkStart(g, i) <= off && off + n <= ChunkStart(g, i) + ChunkLen(g, i)
    ensures |InChunk(g, staged, i)| + n == ChunkLen(g, i) <==> Full(g, staged + Interval(off, off + n), i)
  {
    FullMeansAll(g, staged, i);
    hide ChunkStart, InChunk, Interval;
    WriteCounts(g, staged, i, off, n);
  }

  /** The bytes of the span are the chunk's own. */
  lemma {:induction false} SpanOfContent(s: ChunkStager, i: nat, off: nat, n: nat)
    requires s.Mirroring() && n > 0
    requires ChunkStart(s.Grid(), i) <= off && off + n <= ChunkStart(s.Grid(), i) + ChunkLen(s.Grid(), i)
    ensures var content, at := ContentFor(s.engine.remote, s.engine.stride)(s.IdOf(i)), off - ChunkStart(s.Grid(), i);
      && off + n <= s.file.size && |content| == ChunkLen(s.Grid(), i)
      && content[at..at + n] == s.engine.remote(s.file.key)[off..off + n]
  {
    hide ChunkStart, ChunkLen;
    s.ContentLength(i);
    ContentSlice(ContentFor(s.engine.remote, s.engine.stride), s.engine.remote, s.engine.stride, s.IdOf(i), off,
                 off + n);
  }

  /** One turn of the staging loop is a sequence of single disk operations, each allowed when its turn comes. */
  method StageSpanInSteps(s: ChunkStager, i: nat, off: nat, data: Bytes, now: nat, ghost w: World)
    returns (published: bool, ghost actions: seq<Action>, ghost n: World)
    requires s.Valid() && Follows(w, s) && data != [] && Interval(off, off + |data|) !! s.staged
    requires ChunkStart(s.Grid(), i) <= off && off + |data| <= ChunkStart(s.Grid(), i) + ChunkLen(s.Grid(), i)
    requires off + |data| <= s.file.size && data == s.engine.remote(s.file.key)[off..off + |data|]
    modifies s, s.engine, s.engine.ledger.Footprint()
    ensures s.Valid() && s.staged == old(s.staged) + Interval(off, off + |data|)
    ensures Reaches(s.engine.remote, w, actions, n) && Follows(n, s)
  {
    hide StoreOk, ProgressOk, Lists, FollowsAll, Reaches, SpanFiles, SpanProgress, CountOf, Full, Relative;
    hide ChunkStart, ChunkLen, Interval;
    s.NotYetFull(i, off, |data|);
    actions, n := SpanMachine(s, w, i, off, |data|, now);
    published := s.StageSpan(i, off, data, now);
  }

  // ---- giving up and evicting ----

  lemma {:induction false} DiscardFollows(jobs: map<JobName, Job>, key: string, tag: nat, g: ChunkGrid,
                                          staged: set<int>, p: Progress)
    requires FollowsAll(jobs, key, tag, g, staged, p) && p.cur.Some? && p.cur.value.index !in p.pending
    ensures var i := p.cur.value.index;
      FollowsAll(jobs - {JobName(ChunkId(key, i), tag)}, key, tag, g, Without(g, staged, i), p.(cur := None))
  {
    hide ChunkStart, ChunkLen, InChunk, Without;
    var i := p.cur.value.index;
    forall j: nat | j != i ensures Relative(g, Without(g, staged, i), j) == Relative(g, staged, j) {
      WithoutCounts(g, staged, i, j);
    }
  }

  /** Giving up the open chunk is one step. */
  method DiscardInSteps(s: ChunkStager, ghost w: World) returns (ghost actions: seq<Action>, ghost n: World)
    requires s.Valid() && Follows(w, s)
    modifies s`cur, s`staged, s.engine`files
    ensures s.Valid() && s.cur == None
    ensures Reaches(s.engine.remote, w, actions, n) && Follows(n, s)
    ensures actions == if old(s.cur).None? then []
                       else [GiveUp(JobName(ChunkId(s.file.key, old(s.cur).value.index), s.tag), true)]
  {
    hide StoreOk, ProgressOk, Lists, FollowsAll, ChunkStart, ChunkLen, Without;
    actions, n := [], w;
    if s.cur.Some? {
      ghost var i := s.cur.value.index;
      OpenParts(s.Grid(), s.engine.remote(s.file.key), s.staged, s.engine.files, s.file.key, s.tag,
                Progress(s.cur, s.pending));
      DiscardFollows(w.process.jobs, s.file.key, s.tag, s.Grid(), s.staged, Progress(s.cur, s.pending));
      ghost var a := GiveUp(JobName(ChunkId(s.file.key, i), s.tag), true);
      OpenIsWritten(w.process.jobs, s.file.key, s.tag, s.Grid(), s.staged, Progress(s.cur, s.pending));
      actions, n := [a], Act(s.engine.remote, w, a);
      OneStep(s.engine.remote, w, a);
    }
    s.DiscardCurrent();
  }

  lemma {:induction false} OpenIsWritten(jobs: map<JobName, Job>, key: string, tag: nat, g: ChunkGrid,
                                         staged: set<int>, p: Progress)
    requires FollowsAll(jobs, key, tag, g, staged, p) && p.cur.Some?
    ensures JobName(ChunkId(key, p.cur.value.index), tag) in jobs
  {
    assert InHand(p, p.cur.value.index);
  }

  /** Forgetting chunks leaves their temporary files where they are. */
  lemma {:induction false} ForgetSteps(remote: Remote, w: World, stride: nat, gone: set<JobName>)
    returns (actions: seq<Action>, n: World)
    requires AtRest(w, stride) && gone <= w.process.jobs.Keys
    ensures Reaches(remote, w, actions, n) && AtRest(n, stride)
    ensures n.disk == w.disk && n.process.jobs == w.process.jobs - gone
    decreases |gone|
  {
    hide Reaches;
    if gone == {} {
      actions, n := [], w;
      StandStill(remote, w);
    } else {
      var job :| job in gone;
      var m := Act(remote, w, GiveUp(job, false));
      OneStep(remote, w, GiveUp(job, false));
      actions, n := ForgetSteps(remote, m, stride, gone - {job});
      ReachesFurther(remote, w, [GiveUp(job, false)], m, actions, n);
      actions := [GiveUp(job, false)] + actions;
      assert w.process.jobs - gone == m.process.jobs - (gone - {job});
    }
  }

  /** The jobs of one stager. */
  ghost function JobsOf(jobs: map<JobName, Job>, key: string, tag: nat): set<JobName> {
    set job | job in jobs && job.id.key == key && job.tag == tag
  }

  /** Aborting gives up the open chunk with its file and every parked chunk without. */
  method AbortInSteps(s: ChunkStager, ghost w: World) returns (ghost actions: seq<Action>, ghost n: World)
    requires s.Valid() && Follows(w, s)
    modifies s`cur, s`pending, s`staged, s.engine`files
    ensures s.Valid() && Reaches(s.engine.remote, w, actions, n) && Follows(n, s)
  {
    hide StoreOk, ProgressOk, Lists, Reaches, ChunkStart, ChunkLen;
    actions, n := [], w;
    StandStill(s.engine.remote, w);
    if s.cur.Some? {
      ghost var a := GiveUp(JobName(ChunkId(s.file.key, s.cur.value.index), s.tag), true);
      OpenIsWritten(w.process.jobs, s.file.key, s.tag, s.Grid(), s.staged, Progress(s.cur, s.pending));
      actions, n := [a], Act(s.engine.remote, w, a);
      OneStep(s.engine.remote, w, a);
    }
    ghost var rest, end := ForgetSteps(s.engine.remote, n, s.engine.stride,
                                       JobsOf(n.process.jobs, s.file.key, s.tag));
    ReachesFurther(s.engine.remote, w, actions, n, rest, end);
    actions, n := actions + rest, end;
    s.Abort();
  }

  /** Evicting a chunk is two steps, the row before the file, and leaves every chunk in hand alone. */
  method EvictInSteps(e: CacheEngine, id: ChunkId, ghost w: World) returns (ghost n: World)
    requires e.Valid() && id in e.rows && w.disk == e.OnDisk() && AtRest(w, e.stride)
    modifies e, e.ledger.Footprint()
    ensures e.Valid() && e.Value() == Evicted(old(e.Value()), id, old(e.rows)[id].size)
    ensures Reaches(e.remote, w, [DeleteRow(id), DeleteFile(id)], n)
    ensures n.disk == e.OnDisk() && n.process == w.process
  {
    hide StoreOk, Reaches, Minus;
    ghost var m := Act(e.remote, w, DeleteRow(id));
    n := Act(e.remote, m, DeleteFile(id));
    TwoSteps(e.remote, w, DeleteRow(id), m, DeleteFile(id));
    assert n.process.removing == {};
    e.EvictChunk(id, e.rows[id].size);
  }

  // ---- opening ----

  /** Every file goes, one at a time. */
  lemma {:induction false} ClearSteps(remote: Remote, w: World) returns (actions: seq<Action>, n: World)
    requires w.process.Opening? && w.process.phase == Clearing
    ensures Reaches(remote, w, actions, n) && n.process == w.process && n.disk == w.disk.(files := map[])
    decreases |w.disk.files.Keys|
  {
    hide Reaches;
    if w.disk.files.Keys == {} {
      assert w.disk.files == map[];
      actions, n := [], w;
      StandStill(remote, w);
    } else {
      var path :| path in w.disk.files.Keys;
      var m := Act(remote, w, RemoveOne(path));
      assert m.disk.files.Keys == w.disk.files.Keys - {path};
      OneStep(remote, w, RemoveOne(path));
      actions, n := ClearSteps(remote, m);
      ReachesFurther(remote, w, [RemoveOne(path)], m, actions, n);
      actions := [RemoveOne(path)] + actions;
    }
  }

  lemma {:induction false} StandStill(remote: Remote, w: World)
    ensures Reaches(remote, w, [], w)
  {
  }

  /** A store whose marks fit is opened as it is; any other is emptied file by file and marked. */
  lemma {:induction false} OpeningSteps(remote: Remote, w: World, stride: nat) returns (actions: seq<Action>, n: World)
    requires w.process.Down? && stride > 0
    ensures Reaches(remote, w, actions, n) && n.process == Up(stride, map[], {})
    ensures n.disk == if w.disk.version == Some(FORMAT_VERSION) && w.disk.stride == Some(stride) then w.disk
                      else Disk(map[], map[], Some(FORMAT_VERSION), Some(stride))
  {
    hide Reaches;
    var m := Act(remote, w, Start(stride));
    n := Act(remote, m, CheckMarks);
    TwoSteps(remote, w, Start(stride), m, CheckMarks);
    actions := [Start(stride), CheckMarks];
    if n.process.Opening? {
      var clearing, c := ClearSteps(remote, n);
      ReachesFurther(remote, w, actions, n, clearing, c);
      var v := Act(remote, c, SetVersion);
      var end := Act(remote, v, SetStride);
      TwoSteps(remote, c, SetVersion, v, SetStride);
      ReachesFurther(remote, w, actions + clearing, c, [SetVersion, SetStride], end);
      actions, n := actions + clearing + [SetVersion, SetStride], end;
    }
  }

  /** Opening a store does what those steps do to the disk. */
  method OpenInSteps(disk: Disk, stride: nat, maxBytes: nat, ghost remote: Remote, ghost w: World)
    returns (e: CacheEngine, ghost actions: seq<Action>, ghost n: World)
    requires Inv(remote, w) && w.process.Down? && w.disk == disk && stride > 0
    ensures fresh(e) && e.Valid() && e.stride == stride && e.remote == remote
    ensures Reaches(remote, w, actions, n) && n.disk == e.OnDisk() && AtRest(n, stride) && n.process.jobs == map[]
  {
    hide StoreOk, Reaches;
    actions, n := OpeningSteps(remote, w, stride);
    e := new CacheEngine.Open(disk, stride, maxBytes, remote);
  }
}
