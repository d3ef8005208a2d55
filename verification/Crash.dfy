/**
 Crash safety, one disk operation at a time: staging, eviction and the reset at opening can be
 cut off between any two operations, and the store is then opened again with any stride.
 */
module Crash {
  import opened Outcomes
  import opened Intervals
  import opened Chunks
  import opened Disk
  import opened StagingProgress

  datatype JobName = JobName(id: ChunkId, tag: nat)

  datatype JobPhase = Writing | Synced | Renamed | InPlace

  /** One chunk on its way in; `covered` are the offsets written, `written` what the code counts. */
  datatype Job = Job(phase: JobPhase, written: nat, covered: set<int>)

  datatype OpenPhase = Checking | Clearing | Marking

  /** `removing` are the chunks whose row is gone but whose file is not. */
  datatype Process =
    | Down
    | Opening(stride: nat, phase: OpenPhase)
    | Up(stride: nat, jobs: map<JobName, Job>, removing: set<ChunkId>)

  /** `synced` are the files whose bytes are known to have reached the disk, `lasting` the chunks whose published
      name has. */
  datatype World = World(disk: Disk, synced: set<Path>, lasting: set<ChunkId>, process: Process)

  datatype Action =
    | Start(stride: nat)
    | CheckMarks
    | RemoveOne(path: Path)
    | SetVersion
    | SetStride
    | OpenTemp(job: JobName)
    | Write(job: JobName, at: nat, len: nat)
    | Sync(job: JobName)
    | Rename(job: JobName)
    | SyncDir(job: JobName)
    | InsertRow(job: JobName, now: nat)
    | GiveUp(job: JobName, remove: bool)
    | DeleteRow(id: ChunkId)
    | DeleteFile(id: ChunkId)
    | Crash(survivors: Files, rows: Rows)

  predicate MarksCurrent(d: Disk, stride: nat) {
    d.version == Some(FORMAT_VERSION) && d.stride == Some(stride)
  }

  function TempOf(job: JobName): Path { Staging(job.id, job.tag) }

  predicate HasJob(w: World, job: JobName, phase: JobPhase) {
    w.process.Up? && job in w.process.jobs && w.process.jobs[job].phase == phase
  }

  /** What a crash may leave: synced files whole, others shorter or garbled or not at all, and the new name of a
      renamed file only if the directory was synced; otherwise the file may be back under its old name. */
  ghost predicate Survives(w: World, survivors: Files) {
    && (forall p :: p in survivors ==> StillThere(w, p, survivors[p]) || BackAgain(w, p, survivors[p]))
    && (forall p :: p in survivors && p in w.synced && p in w.disk.files ==> survivors[p] == w.disk.files[p])
    && (forall id :: id in w.lasting && Final(id) in w.disk.files && Final(id) in w.synced ==> Final(id) in survivors)
  }

  ghost predicate StillThere(w: World, p: Path, f: Bytes) { p in w.disk.files && |f| <= |w.disk.files[p]| }

  ghost predicate BackAgain(w: World, p: Path, f: Bytes) {
    p.Staging? && HasJob(w, JobName(p.id, p.tag), Renamed) && Final(p.id) in w.disk.files
      && f == w.disk.files[Final(p.id)]
  }

  /** The rows after a crash: rows may be missing, and a row that comes back, because the newest commits were
      lost, finds its file. */
  ghost predicate RowsFindFiles(d: Disk, survivors: Files, rows: Rows) {
    forall id :: id in rows && !(id in d.rows && d.rows[id].size == rows[id].size) ==>
      Final(id) in survivors && rows[id].size == |survivors[Final(id)]|
  }

  /** Promotion and eviction of one chunk do not overlap. */
  ghost predicate Exclusive(w: World, a: Action) {
    match a
    case Rename(job) => w.process.Up? && job.id !in w.process.removing
    case DeleteRow(id) =>
      && w.process.Up?
      && forall job :: job in w.process.jobs && w.process.jobs[job].phase in {Renamed, InPlace} ==> job.id != id
    case _ => true
  }

  ghost predicate Enabled(remote: Remote, w: World, a: Action) {
    match a
    case Start(stride) => w.process.Down? && stride > 0
    case CheckMarks => w.process.Opening? && w.process.phase == Checking
    case RemoveOne(path) => w.process.Opening? && w.process.phase == Clearing && path in w.disk.files
    case SetVersion => w.process.Opening? && w.process.phase == Clearing && w.disk.files == map[]
    case SetStride => w.process.Opening? && w.process.phase == Marking
    case OpenTemp(job) =>
      w.process.Up? && w.process.stride > 0 && job !in w.process.jobs
        && ContentFor(remote, w.process.stride)(job.id) != []
    case Write(job, at, len) =>
      && HasJob(w, job, Writing) && TempOf(job) in w.disk.files && w.process.stride > 0
      && at + len <= |ContentFor(remote, w.process.stride)(job.id)|
      && Interval(at, at + len) !! w.process.jobs[job].covered
    case Sync(job) =>
      && HasJob(w, job, Writing) && w.process.stride > 0
      && w.process.jobs[job].written == |ContentFor(remote, w.process.stride)(job.id)|
    case Rename(job) => HasJob(w, job, Synced) && TempOf(job) in w.disk.files
    case SyncDir(job) => HasJob(w, job, Renamed)
    case InsertRow(job, _) => HasJob(w, job, InPlace) && w.process.stride > 0
    case GiveUp(job, _) => w.process.Up? && job in w.process.jobs
    case DeleteRow(id) => w.process.Up? && id in w.disk.rows
    case DeleteFile(id) => w.process.Up? && id in w.process.removing
    case Crash(survivors, rows) => Survives(w, survivors) && RowsFindFiles(w.disk, survivors, rows)
  }

  ghost function SetJob(w: World, job: JobName, j: Job): World
    requires w.process.Up?
  {
    w.(process := w.process.(jobs := w.process.jobs[job := j]))
  }

  ghost function DropJob(w: World, job: JobName): World
    requires w.process.Up?
  {
    w.(process := w.process.(jobs := w.process.jobs - {job}))
  }

  ghost function WithFiles(w: World, files: Files, synced: set<Path>): World {
    w.(disk := w.disk.(files := files), synced := synced)
  }

  ghost function Act(remote: Remote, w: World, a: Action): World
    requires Enabled(remote, w, a)
  {
    var d := w.disk;
    match a
    case Start(stride) => w.(process := Opening(stride, Checking))
    case CheckMarks =>
      if MarksCurrent(d, w.process.stride) then w.(process := Up(w.process.stride, map[], {}))
      else w.(disk := d.(rows := map[]), process := w.process.(phase := Clearing))
    case RemoveOne(path) => WithFiles(w, d.files - {path}, w.synced - {path}).(lasting := w.lasting - {path.id})
    case SetVersion => w.(disk := d.(version := Some(FORMAT_VERSION)), process := w.process.(phase := Marking))
    case SetStride => w.(disk := d.(stride := Some(w.process.stride)), process := Up(w.process.stride, map[], {}))
    case OpenTemp(job) =>
      var files := if TempOf(job) in d.files then d.files else d.files[TempOf(job) := []];
      SetJob(WithFiles(w, files, w.synced - {TempOf(job)}), job, Job(Writing, 0, {}))
    case Write(job, at, len) =>
      var j := w.process.jobs[job];
      var data := ContentFor(remote, w.process.stride)(job.id)[at..at + len];
      SetJob(WithFiles(w, d.files[TempOf(job) := Overwrite(d.files[TempOf(job)], at, data)], w.synced - {TempOf(job)}),
             job, Job(Writing, j.written + len, j.covered + Interval(at, at + len)))
    case Sync(job) => SetJob(w.(synced := w.synced + {TempOf(job)}), job, w.process.jobs[job].(phase := Synced))
    case Rename(job) =>
      SetJob(WithFiles(w, d.files[Final(job.id) := d.files[TempOf(job)]] - {TempOf(job)},
                       if TempOf(job) in w.synced then w.synced + {Final(job.id)} - {TempOf(job)}
                       else w.synced - {Final(job.id), TempOf(job)}),
             job, w.process.jobs[job].(phase := Renamed))
    case SyncDir(job) => SetJob(w.(lasting := w.lasting + {job.id}), job, w.process.jobs[job].(phase := InPlace))
    case InsertRow(job, now) =>
      var size := |ContentFor(remote, w.process.stride)(job.id)|;
      DropJob(if job.id in d.rows then w else w.(disk := d.(rows := d.rows[job.id := Row(size, now)])), job)
    case GiveUp(job, remove) =>
      DropJob(if remove then WithFiles(w, d.files - {TempOf(job)}, w.synced - {TempOf(job)}) else w, job)
    case DeleteRow(id) =>
      w.(disk := d.(rows := d.rows - {id}), process := w.process.(removing := w.process.removing + {id}))
    case DeleteFile(id) =>
      WithFiles(w, d.files - {Final(id)}, w.synced - {Final(id)}).(
        lasting := w.lasting - {id}, process := w.process.(removing := w.process.removing - {id}))
    case Crash(survivors, rows) =>
      World(d.(files := survivors, rows := rows), survivors.Keys, set p | p in survivors && p.Final? :: p.id, Down)
  }

  // ---- what every operation keeps ----

  /** Every published file of the current format has its bytes on the disk, and its name too if it has a row. */
  ghost predicate FinalsSynced(w: World) {
    w.disk.version == Some(FORMAT_VERSION) && w.disk.stride.Some? && w.disk.stride.value > 0 ==>
      && (forall id :: Final(id) in w.disk.files ==> Final(id) in w.synced)
      && (forall id :: id in w.disk.rows ==> id in w.lasting)
  }

  ghost predicate JobOk(content: Content, w: World, job: JobName, j: Job) {
    var bytes := content(job.id);
    && bytes != []
    && match j.phase
       case Renamed => Final(job.id) in w.disk.files
       case InPlace => Final(job.id) in w.disk.files && job.id in w.lasting
       case _ =>
         && TempOf(job) in w.disk.files
         && j.covered <= Interval(0, |bytes|) && j.written == |j.covered|
         && (forall o :: o in j.covered ==> o < |w.disk.files[TempOf(job)]| && w.disk.files[TempOf(job)][o] == bytes[o])
         && (j.phase == Synced ==> j.written == |bytes| && TempOf(job) in w.synced)
  }

  ghost predicate ProcessOk(remote: Remote, w: World) {
    match w.process
    case Down => true
    case Opening(stride, phase) =>
      && stride > 0
      && (phase != Checking ==> w.disk.rows == map[])
      && (phase == Marking ==> w.disk.files == map[] && w.disk.version == Some(FORMAT_VERSION))
    case Up(stride, jobs, removing) =>
      && stride > 0 && MarksCurrent(w.disk, stride)
      && (forall job :: job in jobs ==> JobOk(ContentFor(remote, stride), w, job, jobs[job]))
      && (forall id :: id in removing ==> id !in w.disk.rows)
      && (forall job :: job in jobs && jobs[job].phase in {Renamed, InPlace} ==> job.id !in removing)
  }

  ghost predicate Inv(remote: Remote, w: World) {
    Trustworthy(remote, w.disk) && FinalsSynced(w) && ProcessOk(remote, w)
  }

  // ---- pieces of the step proof, with the content as a parameter ----

  lemma {:induction false} WriteKeepsCovered(bytes: Bytes, f: Bytes, covered: set<int>, at: nat, len: nat)
    requires at + len <= |bytes| && covered <= Interval(0, |bytes|) && Interval(at, at + len) !! covered
    requires forall o :: o in covered ==> o < |f| && f[o] == bytes[o]
    ensures var g := Overwrite(f, at, bytes[at..at + len]); var more := covered + Interval(at, at + len);
      && (|f| <= |bytes| ==> |g| <= |bytes|) && more <= Interval(0, |bytes|) && |more| == |covered| + len
      && (forall o :: o in more ==> o < |g| && g[o] == bytes[o])
  {
    hide Overwrite;
    CoveredGrows(|bytes|, covered, at, len);
    var g, span := Overwrite(f, at, bytes[at..at + len]), Interval(at, at + len);
    forall o | o in covered + span ensures o < |g| && g[o] == bytes[o] {
      OverwriteAt(f, at, bytes[at..at + len], o);
    }
    hide Interval;
  }

  lemma {:induction false} CoveredGrows(size: nat, covered: set<int>, at: nat, len: nat)
    requires at + len <= size && covered <= Interval(0, size) && Interval(at, at + len) !! covered
    ensures covered + Interval(at, at + len) <= Interval(0, size)
    ensures |covered + Interval(at, at + len)| == |covered| + len
  {
    hide Interval;
    SpanAdds(covered, at, len);
    assert Interval(at, at + len) <= Interval(0, size);
  }

  /** A count equal to the length means that every offset was written: the file begins with the chunk, and is the
      chunk if it is no longer. */
  lemma {:induction false} CountedFileIsContent(bytes: Bytes, f: Bytes, covered: set<int>)
    requires covered <= Interval(0, |bytes|) && |covered| == |bytes|
    requires forall o :: o in covered ==> o < |f| && f[o] == bytes[o]
    ensures bytes <= f && (|f| <= |bytes| ==> f == bytes)
  {
    FullCover(covered, 0, |bytes|);
    if |bytes| > 0 {
      assert |bytes| - 1 in covered;
    }
    forall k | 0 <= k < |bytes| ensures k < |f| && f[k] == bytes[k] {
      assert k in covered;
    }
  }

  /** A change to one temporary file that keeps it within its chunk keeps the store sound. */
  lemma {:induction false} TempChangeKeepsSound(content: Content, d: Disk, job: JobName, f: Bytes)
    requires Sound(content, d.rows, d.files) && |f| <= |content(job.id)|
    ensures Sound(content, d.rows, d.files[TempOf(job) := f])
  {
  }

  lemma {:induction false} OpenTempKeepsInv(remote: Remote, w: World, a: Action)
    requires Inv(remote, w) && Enabled(remote, w, a) && a.OpenTemp?
    ensures Inv(remote, Act(remote, w, a))
  {
    hide ContentFor, Interval, Overwrite;
    var n := Act(remote, w, a);
    var content := ContentFor(remote, w.process.stride);
    TempChangeKeepsSound(content, w.disk, a.job, []);
    hide Sound;
    assert JobOk(content, n, a.job, Job(Writing, 0, {}));
    OthersUntouched(content, w, n, a.job);
    hide JobOk;
  }

  lemma {:induction false} WriteKeepsInv(remote: Remote, w: World, a: Action)
    requires Inv(remote, w) && Enabled(remote, w, a) && a.Write?
    ensures Inv(remote, Act(remote, w, a))
  {
    hide ContentFor, Overwrite, JobOk, Sound;
    var n := Act(remote, w, a);
    var content := ContentFor(remote, w.process.stride);
    StagingLength(content, w, a.job);
    WriteKeepsJob(content, w, n, a);
    TempChangeKeepsSound(content, w.disk, a.job, n.disk.files[TempOf(a.job)]);
    hide Sound;
    OthersUntouched(content, w, n, a.job);
    hide JobOk;
  }

  lemma {:induction false} StagingLength(content: Content, w: World, job: JobName)
    requires Sound(content, w.disk.rows, w.disk.files) && TempOf(job) in w.disk.files
    ensures |w.disk.files[TempOf(job)]| <= |content(job.id)|
  {
  }

  /** The writing job stays in order: its count is exact and its file holds what it covers. */
  lemma {:induction false} WriteKeepsJob(content: Content, w: World, n: World, a: Action)
    requires a.Write? && HasJob(w, a.job, Writing) && JobOk(content, w, a.job, w.process.jobs[a.job])
    requires a.at + a.len <= |content(a.job.id)|
    requires Interval(a.at, a.at + a.len) !! w.process.jobs[a.job].covered
    ensures var j := w.process.jobs[a.job];
      var f := Overwrite(w.disk.files[TempOf(a.job)], a.at, content(a.job.id)[a.at..a.at + a.len]);
      && (|w.disk.files[TempOf(a.job)]| <= |content(a.job.id)| ==> |f| <= |content(a.job.id)|)
      && (TempOf(a.job) in n.disk.files && n.disk.files[TempOf(a.job)] == f ==>
            JobOk(content, n, a.job, Job(Writing, j.written + a.len, j.covered + Interval(a.at, a.at + a.len))))
  {
    hide Overwrite, Interval;
    WriteKeepsCovered(content(a.job.id), w.disk.files[TempOf(a.job)], w.process.jobs[a.job].covered, a.at, a.len);
  }

  /** A step that touches no file but one job's temporary file leaves the other jobs in order. */
  lemma {:induction false} OthersUntouched(content: Content, w: World, n: World, mine: JobName)
    requires w.process.Up? && forall job :: job in w.process.jobs ==> JobOk(content, w, job, w.process.jobs[job])
    requires forall p :: p != TempOf(mine) ==>
      (p in w.disk.files ==> p in n.disk.files && n.disk.files[p] == w.disk.files[p])
    requires (forall p :: p != TempOf(mine) && p in w.synced ==> p in n.synced) && w.lasting <= n.lasting
    ensures forall job :: job in w.process.jobs && job != mine ==> JobOk(content, n, job, w.process.jobs[job])
  {
    forall job | job in w.process.jobs && job != mine ensures JobOk(content, n, job, w.process.jobs[job]) {
      assert JobOk(content, w, job, w.process.jobs[job]);
      assert TempOf(job) != TempOf(mine) && Final(job.id) != TempOf(mine);
    }
  }

  lemma {:induction false} RenameKeepsSound(content: Content, d: Disk, job: JobName)
    requires Sound(content, d.rows, d.files) && TempOf(job) in d.files
    requires Complete(content, job.id, d.files[TempOf(job)])
    ensures Sound(content, d.rows, d.files[Final(job.id) := d.files[TempOf(job)]] - {TempOf(job)})
  {
  }

  lemma {:induction false} RenameKeepsInv(remote: Remote, w: World, a: Action)
    requires Inv(remote, w) && Enabled(remote, w, a) && Exclusive(w, a) && a.Rename?
    ensures Inv(remote, Act(remote, w, a))
  {
    hide ContentFor, Interval, Overwrite, Sound;
    var n := Act(remote, w, a);
    var content := ContentFor(remote, w.process.stride);
    var j := w.process.jobs[a.job];
    assert JobOk(content, w, a.job, j) && TempOf(a.job) in w.synced;
    StagingLength(content, w, a.job);
    CountedFileIsContent(content(a.job.id), w.disk.files[TempOf(a.job)], j.covered);
    RenameKeepsSound(content, w.disk, a.job);
    assert JobOk(content, n, a.job, n.process.jobs[a.job]);
    RenameKeepsOthers(content, w, n, a.job);
    hide JobOk;
  }

  lemma {:induction false} RenameKeepsOthers(content: Content, w: World, n: World, mine: JobName)
    requires w.process.Up? && mine in w.process.jobs && TempOf(mine) in w.synced
    requires forall job :: job in w.process.jobs ==> JobOk(content, w, job, w.process.jobs[job])
    requires TempOf(mine) in w.disk.files && n.lasting == w.lasting
    requires n.disk.files == w.disk.files[Final(mine.id) := w.disk.files[TempOf(mine)]] - {TempOf(mine)}
    requires n.synced == w.synced + {Final(mine.id)} - {TempOf(mine)}
    ensures forall job :: job in w.process.jobs && job != mine ==> JobOk(content, n, job, w.process.jobs[job])
  {
    forall job | job in w.process.jobs && job != mine ensures JobOk(content, n, job, w.process.jobs[job]) {
      assert JobOk(content, w, job, w.process.jobs[job]) && TempOf(job) != TempOf(mine);
    }
  }

  lemma {:induction false} SyncKeepsInv(remote: Remote, w: World, a: Action)
    requires Inv(remote, w) && Enabled(remote, w, a) && (a.Sync? || a.SyncDir?)
    ensures Inv(remote, Act(remote, w, a))
  {
    hide ContentFor, Interval, Overwrite, Sound;
    var n := Act(remote, w, a);
    var content := ContentFor(remote, w.process.stride);
    assert JobOk(content, w, a.job, w.process.jobs[a.job]);
    assert JobOk(content, n, a.job, n.process.jobs[a.job]);
    OthersUntouched(content, w, n, a.job);
    hide JobOk;
  }

  lemma {:induction false} InsertRowKeepsInv(remote: Remote, w: World, a: Action)
    requires Inv(remote, w) && Enabled(remote, w, a) && a.InsertRow?
    ensures Inv(remote, Act(remote, w, a))
  {
    hide ContentFor, Interval, Overwrite;
    var n := Act(remote, w, a);
    var content := ContentFor(remote, w.process.stride);
    assert JobOk(content, w, a.job, w.process.jobs[a.job]);
    OthersUntouched(content, w, n, a.job);
    hide JobOk;
    RowKeepsSound(content, w.disk, a.job.id, a.now);
    hide Sound;
  }

  lemma {:induction false} RowKeepsSound(content: Content, d: Disk, id: ChunkId, now: nat)
    requires Sound(content, d.rows, d.files) && Final(id) in d.files
    ensures Sound(content, d.rows[id := Row(|content(id)|, now)], d.files)
  {
  }

  lemma {:induction false} GiveUpKeepsInv(remote: Remote, w: World, a: Action)
    requires Inv(remote, w) && Enabled(remote, w, a) && a.GiveUp?
    ensures Inv(remote, Act(remote, w, a))
  {
    hide ContentFor, Interval, Overwrite;
    var n := Act(remote, w, a);
    var content := ContentFor(remote, w.process.stride);
    OthersUntouched(content, w, n, a.job);
    hide JobOk;
    TempRemovalKeepsSound(content, w.disk, a.job);
    hide Sound;
  }

  lemma {:induction false} TempRemovalKeepsSound(content: Content, d: Disk, job: JobName)
    requires Sound(content, d.rows, d.files)
    ensures Sound(content, d.rows, d.files - {TempOf(job)})
  {
  }

  lemma {:induction false} DeleteRowKeepsInv(remote: Remote, w: World, a: Action)
    requires Inv(remote, w) && Enabled(remote, w, a) && Exclusive(w, a) && a.DeleteRow?
    ensures Inv(remote, Act(remote, w, a))
  {
    hide ContentFor, Interval, Overwrite;
    var n := Act(remote, w, a);
    var content := ContentFor(remote, w.process.stride);
    forall job | job in w.process.jobs ensures JobOk(content, n, job, w.process.jobs[job]) {
      assert JobOk(content, w, job, w.process.jobs[job]);
    }
    hide JobOk;
    LessIsSound(content, w.disk, a.id);
    hide Sound;
  }

  lemma {:induction false} DeleteFileKeepsInv(remote: Remote, w: World, a: Action)
    requires Inv(remote, w) && Enabled(remote, w, a) && a.DeleteFile?
    ensures Inv(remote, Act(remote, w, a))
  {
    hide ContentFor, Interval, Overwrite;
    var n := Act(remote, w, a);
    var content := ContentFor(remote, w.process.stride);
    forall job | job in w.process.jobs ensures JobOk(content, n, job, w.process.jobs[job]) {
      assert JobOk(content, w, job, w.process.jobs[job]) && TempOf(job) != Final(a.id);
    }
    hide JobOk;
    LessIsSound(content, w.disk, a.id);
    hide Sound;
  }

  /** A store may lose a row, and a file that has no row. */
  lemma {:induction false} LessIsSound(content: Content, d: Disk, id: ChunkId)
    requires Sound(content, d.rows, d.files)
    ensures Sound(content, d.rows - {id}, d.files)
    ensures id !in d.rows ==> Sound(content, d.rows, d.files - {Final(id)})
  {
  }

  lemma {:induction false} OpeningKeepsInv(remote: Remote, w: World, a: Action)
    requires Inv(remote, w) && Enabled(remote, w, a)
    requires a.Start? || a.CheckMarks? || a.RemoveOne? || a.SetVersion? || a.SetStride?
    ensures Inv(remote, Act(remote, w, a))
  {
    hide ContentFor;
  }

  /** After a crash the disk can be opened safely exactly if every row that came back finds its file. */
  lemma {:induction false} RollbackSafeExactly(remote: Remote, w: World, survivors: Files, rows: Rows)
    requires Inv(remote, w) && Survives(w, survivors)
    requires w.disk.version == Some(FORMAT_VERSION) && w.disk.stride.Some? && w.disk.stride.value > 0
    ensures Trustworthy(remote, w.disk.(files := survivors, rows := rows)) <==> RowsFindFiles(w.disk, survivors, rows)
  {
    hide ContentFor, JobOk;
    var content := ContentFor(remote, w.disk.stride.value);
    FilesSurvive(remote, w, content, survivors);
    forall id | id in rows && id in w.disk.rows && w.disk.rows[id].size == rows[id].size
      ensures Final(id) in survivors && rows[id].size == |survivors[Final(id)]|
    {
      assert Final(id) in w.disk.files && Final(id) in survivors;
    }
    hide Inv, Survives;
  }

  lemma {:induction false} FilesSurvive(remote: Remote, w: World, content: Content, survivors: Files)
    requires Inv(remote, w) && Survives(w, survivors) && Sound(content, w.disk.rows, w.disk.files)
    requires w.disk.version == Some(FORMAT_VERSION) && w.disk.stride.Some? && w.disk.stride.value > 0
    ensures FinalsComplete(content, survivors) && StagingFits(content, survivors)
    ensures forall id :: id in w.disk.rows ==> Final(id) in survivors && survivors[Final(id)] == w.disk.files[Final(id)]
  {
    hide ContentFor, JobOk, ProcessOk;
    forall p | p in survivors
      ensures p.Final? ==> p in w.disk.files && survivors[p] == w.disk.files[p]
      ensures p.Staging? ==> |survivors[p]| <= |content(p.id)|
    {
      assert StillThere(w, p, survivors[p]) || BackAgain(w, p, survivors[p]);
    }
    hide Survives;
  }

  lemma {:induction false} CrashKeepsInv(remote: Remote, w: World, a: Action)
    requires Inv(remote, w) && Enabled(remote, w, a) && a.Crash?
    ensures Inv(remote, Act(remote, w, a))
  {
    hide ContentFor;
    var d := w.disk;
    if d.version == Some(FORMAT_VERSION) && d.stride.Some? && d.stride.value > 0 {
      RollbackSafeExactly(remote, w, a.survivors, a.rows);
      var n := Act(remote, w, a);
      forall id | id in a.rows ensures id in n.lasting {
        assert Final(id) in a.survivors && Final(id).id == id;
      }
    }
    hide Survives, Sound, RowsFindFiles, ProcessOk;
  }

  lemma {:induction false} ActKeepsInv(remote: Remote, w: World, a: Action)
    requires Inv(remote, w) && Enabled(remote, w, a) && Exclusive(w, a)
    ensures Inv(remote, Act(remote, w, a))
  {
    match a {
      case OpenTemp(_) => OpenTempKeepsInv(remote, w, a);
      case Write(_, _, _) => WriteKeepsInv(remote, w, a);
      case Rename(_) => RenameKeepsInv(remote, w, a);
      case Sync(_) => SyncKeepsInv(remote, w, a);
      case SyncDir(_) => SyncKeepsInv(remote, w, a);
      case Crash(_, _) => CrashKeepsInv(remote, w, a);
      case InsertRow(_, _) => InsertRowKeepsInv(remote, w, a);
      case GiveUp(_, _) => GiveUpKeepsInv(remote, w, a);
      case DeleteRow(_) => DeleteRowKeepsInv(remote, w, a);
      case DeleteFile(_) => DeleteFileKeepsInv(remote, w, a);
      case _ => OpeningKeepsInv(remote, w, a);
    }
  }

  // ---- runs ----

  /** Before the first opening: the marks are not current, whatever rows and files there are. */
  ghost predicate FirstBoot(w: World) {
    w.process == Down && w.disk.version != Some(FORMAT_VERSION)
  }

  ghost predicate IsRun(remote: Remote, run: seq<World>, actions: seq<Action>) {
    && |run| == |actions| + 1
    && FirstBoot(run[0])
    && (forall i :: 0 <= i < |actions| ==> Enabled(remote, run[i], actions[i]) && Exclusive(run[i], actions[i])
                                           && run[i + 1] == Act(remote, run[i], actions[i]))
  }

  lemma {:induction false} RunKeepsInv(remote: Remote, run: seq<World>, actions: seq<Action>, i: nat)
    requires IsRun(remote, run, actions) && i < |run|
    ensures Inv(remote, run[i])
  {
    if i > 0 {
      RunKeepsInv(remote, run, actions, i - 1);
      assert Enabled(remote, run[i - 1], actions[i - 1]);
      hide Inv, Enabled, Exclusive, Act;
      ActKeepsInv(remote, run[i - 1], actions[i - 1]);
    }
  }

  /** Whenever the store is open, after any crashes and reopenings with any strides, every row is backed by a
      complete file of the grid in force; and at every moment the disk can be opened safely. */
  lemma {:induction false} CrashSafety(remote: Remote, run: seq<World>, actions: seq<Action>, i: nat)
    requires IsRun(remote, run, actions) && i < |run|
    ensures Trustworthy(remote, run[i].disk)
    ensures run[i].process.Up? ==> var stride := run[i].process.stride;
      && stride > 0 && MarksCurrent(run[i].disk, stride)
      && Sound(ContentFor(remote, stride), run[i].disk.rows, run[i].disk.files)
  {
    RunKeepsInv(remote, run, actions, i);
  }

  /** Crashes that undo no commit never bring an old row back: once the rows of a reset are gone, and however
      often it is cut off, they stay gone until the store is open again. */
  lemma {:induction false} ResetIsFinal(remote: Remote, run: seq<World>, actions: seq<Action>, i: nat, j: nat)
    requires IsRun(remote, run, actions) && i <= j < |run| && run[i].disk.rows == map[]
    requires forall k :: i <= k < j ==> !run[k].process.Up?
    requires forall k :: i <= k < j && actions[k].Crash? ==> actions[k].rows.Keys <= run[k].disk.rows.Keys
    ensures run[j].disk.rows == map[]
    decreases j
  {
    if i < j {
      ResetIsFinal(remote, run, actions, i, j - 1);
      assert Enabled(remote, run[j - 1], actions[j - 1]) && run[j] == Act(remote, run[j - 1], actions[j - 1]);
    }
  }

  // ---- what a crash may take ----

  /** Nothing counts as safe that is not: no missing file as synced, no missing name as lasting, no temporary file
      as synced that is still being written. */
  ghost predicate NothingOverrated(w: World) {
    && w.synced <= w.disk.files.Keys
    && (forall id :: id in w.lasting ==> Final(id) in w.disk.files)
    && (w.process.Up? ==> forall job :: HasJob(w, job, Writing) ==> TempOf(job) !in w.synced)
  }

  lemma {:induction false} ActOverratesNothing(remote: Remote, w: World, a: Action)
    requires NothingOverrated(w) && ProcessOk(remote, w) && Enabled(remote, w, a)
    ensures NothingOverrated(Act(remote, w, a))
  {
    hide ContentFor, Overwrite, Interval;
    if a.Sync? || a.SyncDir? { assert JobOk(ContentFor(remote, w.process.stride), w, a.job, w.process.jobs[a.job]); }
    hide JobOk;
  }

  lemma {:induction false} RunOverratesNothing(remote: Remote, run: seq<World>, actions: seq<Action>, i: nat)
    requires IsRun(remote, run, actions) && i < |run| && NothingOverrated(run[0])
    ensures NothingOverrated(run[i])
  {
    if i > 0 {
      RunOverratesNothing(remote, run, actions, i - 1);
      RunKeepsInv(remote, run, actions, i - 1);
      assert Enabled(remote, run[i - 1], actions[i - 1]) && run[i] == Act(remote, run[i - 1], actions[i - 1]);
      hide ProcessOk, NothingOverrated, Act, Enabled;
      ActOverratesNothing(remote, run[i - 1], actions[i - 1]);
    }
  }

  /** Crashes are not made too kind: in every run, what is written and not synced may be lost or come back shorter and
      garbled, and any rows may be missing. */
  lemma {:induction false} UnsyncedMayBeLost(remote: Remote, run: seq<World>, actions: seq<Action>, i: nat,
                                             job: JobName, left: Option<Bytes>, rows: Rows)
    requires IsRun(remote, run, actions) && i < |run| && NothingOverrated(run[0]) && HasJob(run[i], job, Writing)
    requires left.Some? && TempOf(job) in run[i].disk.files ==> |left.value| <= |run[i].disk.files[TempOf(job)]|
    requires forall id :: id in rows ==> id in run[i].disk.rows && run[i].disk.rows[id] == rows[id]
    ensures var w := run[i];
      && TempOf(job) in w.disk.files
      && var survivors := if left.Some? then w.disk.files[TempOf(job) := left.value] else w.disk.files - {TempOf(job)};
         Enabled(remote, w, Crash(survivors, rows))
         && Act(remote, w, Crash(survivors, rows)).disk == w.disk.(files := survivors, rows := rows)
  {
    RunOverratesNothing(remote, run, actions, i);
    RunKeepsInv(remote, run, actions, i);
    assert JobOk(ContentFor(remote, run[i].process.stride), run[i], job, run[i].process.jobs[job]);
    hide Inv, IsRun, ContentFor;
  }

  /** ... and until the directory is synced the rename of a chunk that was not there before may be undone. */
  lemma {:induction false} RenameMayBeUndone(remote: Remote, run: seq<World>, actions: seq<Action>, i: nat,
                                             job: JobName)
    requires IsRun(remote, run, actions) && i < |actions| && NothingOverrated(run[0]) && actions[i] == Rename(job)
    requires Final(job.id) !in run[i].disk.files
    ensures var w := run[i];
      && TempOf(job) in w.disk.files && Enabled(remote, run[i + 1], Crash(w.disk.files, w.disk.rows))
      && Act(remote, run[i + 1], Crash(w.disk.files, w.disk.rows)).disk == w.disk
  {
    RunOverratesNothing(remote, run, actions, i);
    assert Enabled(remote, run[i], actions[i]) && run[i + 1] == Act(remote, run[i], actions[i]);
    hide IsRun, ContentFor;
  }

  // ---- without durable commits ----

  /** If a power loss undoes the commit of an eviction whose file is gone already, a row is left without a file. */
  lemma {:induction false} UndoneEvictionLosesTheFile(remote: Remote, w: World, id: ChunkId, survivors: Files)
    requires Inv(remote, w) && w.process.Up? && id in w.disk.rows
    requires Enabled(remote, w, DeleteRow(id)) && Exclusive(w, DeleteRow(id))
    requires Survives(Act(remote, Act(remote, w, DeleteRow(id)), DeleteFile(id)), survivors)
    ensures !Trustworthy(remote, w.disk.(files := survivors))
  {
    hide ContentFor, JobOk;
    var w1 := Act(remote, w, DeleteRow(id));
    DeleteRowKeepsInv(remote, w, DeleteRow(id));
    DeleteFileKeepsInv(remote, w1, DeleteFile(id));
    var w2 := Act(remote, w1, DeleteFile(id));
    assert Final(id) !in w2.disk.files && !StillThere(w2, Final(id), []) && Final(id) !in survivors;
  }

  // ---- without the exclusion ----

  /** If one chunk's eviction could overlap its promotion, the file could go after the new row came:
      delete the row, rename the new file, sync the directory, insert the row, delete the file. */
  lemma {:induction false} OverlapLosesTheFile(remote: Remote, w: World, job: JobName, now: nat)
    requires Inv(remote, w) && HasJob(w, job, Synced) && job.id in w.disk.rows
    ensures Enabled(remote, w, DeleteRow(job.id))
    ensures var w1 := Act(remote, w, DeleteRow(job.id));
      && Enabled(remote, w1, Rename(job)) && !Exclusive(w1, Rename(job))
      && Enabled(remote, Act(remote, w1, Rename(job)), SyncDir(job))
      && var w2 := Act(remote, Act(remote, w1, Rename(job)), SyncDir(job));
      && Enabled(remote, w2, InsertRow(job, now))
      && var w3 := Act(remote, w2, InsertRow(job, now));
      && Enabled(remote, w3, DeleteFile(job.id))
      && var w4 := Act(remote, w3, DeleteFile(job.id));
         !Sound(ContentFor(remote, w.process.stride), w4.disk.rows, w4.disk.files)
  {
    hide ContentFor;
    var content := ContentFor(remote, w.process.stride);
    assert JobOk(content, w, job, w.process.jobs[job]);
    assert TempOf(job) in w.disk.files && w.process.stride > 0;
    hide Inv, JobOk, Sound, FinalsSynced, ProcessOk;
    RenameAfterDelete(remote, w, job);
    var w2 := Act(remote, Act(remote, Act(remote, w, DeleteRow(job.id)), Rename(job)), SyncDir(job));
    hide Act, Enabled, Exclusive;
    DeleteAfterInsert(remote, w2, job, now);
    var w4 := Act(remote, Act(remote, w2, InsertRow(job, now)), DeleteFile(job.id));
    RowWithoutFile(content, w4.disk, job.id);
  }

  /** The other half of the exclusion is needed as well: a row deleted while a renamed chunk still waits for its
      own row takes the new file along. */
  lemma {:induction false} EvictionLosesTheNewFile(remote: Remote, w: World, job: JobName, now: nat)
    requires Inv(remote, w) && HasJob(w, job, InPlace) && job.id in w.disk.rows
    ensures Enabled(remote, w, DeleteRow(job.id)) && !Exclusive(w, DeleteRow(job.id))
    ensures var w1 := Act(remote, w, DeleteRow(job.id));
      && Enabled(remote, w1, InsertRow(job, now))
      && var w2 := Act(remote, w1, InsertRow(job, now));
      && Enabled(remote, w2, DeleteFile(job.id))
      && var w3 := Act(remote, w2, DeleteFile(job.id));
         !Sound(ContentFor(remote, w.process.stride), w3.disk.rows, w3.disk.files)
  {
    hide ContentFor;
    var content := ContentFor(remote, w.process.stride);
    hide Inv, JobOk, Sound, FinalsSynced;
    var w1 := Act(remote, w, DeleteRow(job.id));
    DeleteAfterInsert(remote, w1, job, now);
    RowWithoutFile(content, Act(remote, Act(remote, w1, InsertRow(job, now)), DeleteFile(job.id)).disk, job.id);
  }

  lemma {:induction false} RenameAfterDelete(remote: Remote, w: World, job: JobName)
    requires HasJob(w, job, Synced) && job.id in w.disk.rows && TempOf(job) in w.disk.files
    ensures Enabled(remote, w, DeleteRow(job.id))
    ensures var w1 := Act(remote, w, DeleteRow(job.id));
      && Enabled(remote, w1, Rename(job)) && !Exclusive(w1, Rename(job))
      && Enabled(remote, Act(remote, w1, Rename(job)), SyncDir(job))
      && var w2 := Act(remote, Act(remote, w1, Rename(job)), SyncDir(job));
      && HasJob(w2, job, InPlace) && job.id in w2.process.removing && job.id !in w2.disk.rows
      && w2.process.stride == w.process.stride
  {
  }

  lemma {:induction false} DeleteAfterInsert(remote: Remote, w: World, job: JobName, now: nat)
    requires HasJob(w, job, InPlace) && job.id in w.process.removing && job.id !in w.disk.rows && w.process.stride > 0
    ensures Enabled(remote, w, InsertRow(job, now))
    ensures var w1 := Act(remote, w, InsertRow(job, now));
      && Enabled(remote, w1, DeleteFile(job.id))
      && var w2 := Act(remote, w1, DeleteFile(job.id));
      && job.id in w2.disk.rows && Final(job.id) !in w2.disk.files
  {
    hide ContentFor;
  }

  lemma {:induction false} RowWithoutFile(content: Content, d: Disk, id: ChunkId)
    requires id in d.rows && Final(id) !in d.files
    ensures !Sound(content, d.rows, d.files)
  {
  }
}
