/**
 Power loss: the crash machine with a disk that may undo more than a crash of the process does. The newest
 commits to the table of rows and marks may be lost, and files removed or replaced since the last directory
 sync may come back. What must survive is that every row is served from the right bytes.
 */
module PowerLoss {
  import opened Outcomes
  import opened Intervals
  import opened Chunks
  import opened Disk
  import opened StagingProgress
  import opened Crash

  /** `gone` are the files that may come back; `log` is the disk as it was at each commit that may be the last
      to survive, the newest one last. */
  datatype State = State(w: World, gone: set<(Path, Bytes)>, log: seq<Disk>)

  datatype Event = Step(a: Action) | PowerLoss(survivors: Files, k: nat)

  // ---- what must survive ----

  ghost predicate Trusted(d: Disk) { d.version == Some(FORMAT_VERSION) && d.stride.Some? && d.stride.value > 0 }

  /** A reader of the row's chunk finds its bytes at the start of its file; what lies behind them is never read. */
  ghost predicate ServesRow(content: Content, d: Disk, id: ChunkId)
    requires id in d.rows
  {
    && content(id) != [] && d.rows[id].size == |content(id)|
    && Final(id) in d.files && content(id) <= d.files[Final(id)]
  }

  ghost predicate Serves(content: Content, d: Disk) { forall id :: id in d.rows ==> ServesRow(content, d, id) }

  ghost predicate Servable(remote: Remote, d: Disk) { Trusted(d) ==> Serves(ContentFor(remote, d.stride.value), d) }

  // ---- the machine ----

  /** Names that an action takes away from a file: the file may come back under them. */
  ghost function Unlinked(w: World, a: Action): set<Path> {
    match a
    case RemoveOne(path) => {path}
    case GiveUp(job, remove) => if remove then {TempOf(job)} else {}
    case DeleteFile(id) => {Final(id)}
    case Rename(job) => {TempOf(job), Final(job.id)}
    case _ => {}
  }

  /** Syncing a directory settles every name in it. */
  ghost function GoneAfter(s: State, a: Action): set<(Path, Bytes)> {
    if a.SyncDir? then set x | x in s.gone && x.0.id.key != a.job.id.key
    else s.gone + set p | p in Unlinked(s.w, a) && p in s.w.disk.files :: (p, s.w.disk.files[p])
  }

  predicate Commits(a: Action) { a.InsertRow? || a.DeleteRow? || a.CheckMarks? || a.SetVersion? || a.SetStride? }

  /** What a power loss may leave of the files: whole if synced, otherwise shorter, garbled or gone; the lasting
      names are there; and removed files may be back. */
  ghost predicate LeftBy(s: State, survivors: Files) {
    && (forall p :: p in survivors ==>
          StillThere(s.w, p, survivors[p]) || (p, survivors[p]) in s.gone)
    && (forall p :: p in survivors && p in s.w.disk.files && p in s.w.synced ==>
          survivors[p] == s.w.disk.files[p] || (p, survivors[p]) in s.gone)
    && (forall id :: id in s.w.lasting && Final(id) in s.w.disk.files ==> Final(id) in survivors)
  }

  /** Every row of a table finds the bytes that it had when the table was committed. */
  ghost predicate RowsFindTheirBytes(d: Disk, survivors: Files) {
    Trusted(d) ==> forall id :: id in d.rows ==> FindsItsBytes(d, survivors, id)
  }

  ghost predicate FindsItsBytes(d: Disk, survivors: Files, id: ChunkId)
    requires id in d.rows
  {
    var size := d.rows[id].size;
    && Final(id) in d.files && Final(id) in survivors
    && size <= |d.files[Final(id)]| && size <= |survivors[Final(id)]|
    && survivors[Final(id)][..size] == d.files[Final(id)][..size]
  }

  /** The disk after a power loss that left these files and, as its last commit, number `k`. */
  ghost function Restored(s: State, survivors: Files, k: nat): Disk
    requires k < |s.log|
  {
    s.log[k].(files := survivors)
  }

  ghost predicate Possible(remote: Remote, s: State, e: Event) {
    match e
    case Step(a) => !a.Crash? && Enabled(remote, s.w, a) && Exclusive(s.w, a)
    case PowerLoss(survivors, k) => k < |s.log| && LeftBy(s, survivors) && RowsFindTheirBytes(s.log[k], survivors)
  }

  ghost function Next(remote: Remote, s: State, e: Event): State
    requires Possible(remote, s, e)
  {
    match e
    case Step(a) =>
      var n := Act(remote, s.w, a);
      State(n, GoneAfter(s, a), if Commits(a) then s.log + [n.disk] else s.log)
    case PowerLoss(survivors, k) =>
      var d := Restored(s, survivors, k);
      State(World(d, survivors.Keys, set p | p in survivors && p.Final? :: p.id, Down), {}, [d])
  }

  // ---- what every step keeps ----

  /** A published file that begins with its chunk, with its bytes on the disk. */
  ghost predicate Placed(content: Content, s: State, id: ChunkId) {
    Final(id) in s.w.disk.files && Final(id) in s.w.synced && content(id) <= s.w.disk.files[Final(id)]
  }

  /** ... under a name that lasts, and no file that may come back under it is any worse. */
  ghost predicate Firm(content: Content, s: State, id: ChunkId) {
    Placed(content, s, id) && id in s.w.lasting && forall f :: (Final(id), f) in s.gone ==> content(id) <= f
  }

  ghost predicate Tidy(content: Content, s: State, job: JobName, j: Job) {
    match j.phase
    case Renamed => content(job.id) != [] && Placed(content, s, job.id)
    case InPlace => content(job.id) != [] && Firm(content, s, job.id)
    case _ => JobOk(content, s.w, job, j)
  }

  ghost predicate FirmRows(content: Content, s: State) {
    forall id :: id in s.w.disk.rows ==> ServesRow(content, s.w.disk, id) && Firm(content, s, id)
  }

  ghost predicate Running(remote: Remote, s: State) {
    match s.w.process
    case Down => true
    case Opening(stride, phase) =>
      && stride > 0 && (phase != Checking ==> s.w.disk.rows == map[])
      && (phase == Marking ==> s.w.disk.version == Some(FORMAT_VERSION))
    case Up(stride, jobs, removing) =>
      && stride > 0 && MarksCurrent(s.w.disk, stride)
      && (forall job :: job in jobs ==> Tidy(ContentFor(remote, stride), s, job, jobs[job]))
      && (forall id :: id in removing ==> id !in s.w.disk.rows)
      && (forall job :: job in jobs && jobs[job].phase in {Renamed, InPlace} ==> job.id !in removing)
  }

  ghost predicate SameTable(a: Disk, b: Disk) { a.rows == b.rows && a.version == b.version && a.stride == b.stride }

  ghost predicate Logged(remote: Remote, s: State) {
    && s.log != [] && SameTable(s.log[|s.log| - 1], s.w.disk)
    && forall k :: 0 <= k < |s.log| ==> Servable(remote, s.log[k])
  }

  ghost predicate Kept(remote: Remote, s: State) {
    && (Trusted(s.w.disk) ==> FirmRows(ContentFor(remote, s.w.disk.stride.value), s))
    && Running(remote, s) && Logged(remote, s)
  }

  // ---- one disk, two moments ----

  /** What the step leaves alone: the files, syncs and names of everything but `touched`, and nothing new is gone. */
  ghost predicate Leaves(s: State, n: State, touched: set<Path>) {
    && (forall p :: p in s.w.disk.files && p !in touched ==>
          p in n.w.disk.files && n.w.disk.files[p] == s.w.disk.files[p])
    && (forall p :: p in s.w.synced && p !in touched ==> p in n.w.synced)
    && (forall id :: id in s.w.lasting && Final(id) !in touched ==> id in n.w.lasting)
    && (forall x :: x in n.gone && x.0 !in touched ==> x in s.gone)
  }

  lemma {:induction false} FirmStays(content: Content, s: State, n: State, touched: set<Path>, id: ChunkId)
    requires Leaves(s, n, touched) && Final(id) !in touched
    ensures Placed(content, s, id) ==> Placed(content, n, id)
    ensures Firm(content, s, id) ==> Firm(content, n, id)
  {
    forall f | (Final(id), f) in n.gone ensures (Final(id), f) in s.gone {
      assert (Final(id), f).0 == Final(id);
    }
  }

  lemma {:induction false} RowsStay(content: Content, s: State, n: State, touched: set<Path>)
    requires Leaves(s, n, touched) && FirmRows(content, s)
    requires forall id :: id in n.w.disk.rows ==>
      id in s.w.disk.rows && n.w.disk.rows[id].size == s.w.disk.rows[id].size && Final(id) !in touched
    ensures FirmRows(content, n)
  {
    forall id | id in n.w.disk.rows ensures ServesRow(content, n.w.disk, id) && Firm(content, n, id) {
      assert ServesRow(content, s.w.disk, id) && Firm(content, s, id);
      FirmStays(content, s, n, touched, id);
    }
  }

  /** A job that the step does not touch stays tidy. */
  lemma {:induction false} JobStays(content: Content, s: State, n: State, touched: set<Path>, job: JobName, j: Job)
    requires Leaves(s, n, touched) && Tidy(content, s, job, j)
    requires j.phase in {Writing, Synced} ==> TempOf(job) !in touched
    requires j.phase in {Renamed, InPlace} ==> Final(job.id) !in touched
    ensures Tidy(content, n, job, j)
  {
    if j.phase in {Renamed, InPlace} { FirmStays(content, s, n, touched, job.id); }
  }

  lemma {:induction false} LogStays(remote: Remote, s: State, a: Action, n: State)
    requires Logged(remote, s) && n.log == if Commits(a) then s.log + [n.w.disk] else s.log
    requires !Commits(a) ==> SameTable(s.w.disk, n.w.disk)
    requires Trusted(n.w.disk) ==> FirmRows(ContentFor(remote, n.w.disk.stride.value), n)
    ensures Logged(remote, n)
  {
    hide ContentFor, Firm;
  }

  /** A step of an open store, put together: the rows, the acting job and every other job are in order. */
  lemma {:induction false} UpStep(remote: Remote, s: State, a: Action)
    requires Kept(remote, s) && Possible(remote, s, Step(a)) && s.w.process.Up?
    requires var n := Next(remote, s, Step(a)); var content := ContentFor(remote, s.w.process.stride);
      && n.w.process.Up? && n.w.process.stride == s.w.process.stride && MarksCurrent(n.w.disk, s.w.process.stride)
      && FirmRows(content, n)
      && (forall job :: job in n.w.process.jobs ==> Tidy(content, n, job, n.w.process.jobs[job]))
      && (forall id :: id in n.w.process.removing ==> id !in n.w.disk.rows)
      && (forall job :: job in n.w.process.jobs && n.w.process.jobs[job].phase in {Renamed, InPlace} ==>
            job.id !in n.w.process.removing)
      && (!Commits(a) ==> SameTable(s.w.disk, n.w.disk))
    ensures Kept(remote, Next(remote, s, Step(a)))
  {
    var n := Next(remote, s, Step(a));
    assert n.log == if Commits(a) then s.log + [n.w.disk] else s.log;
    hide Next, Possible, FirmRows, Tidy, Logged, ContentFor;
    LogStays(remote, s, a, n);
  }

  /** The other jobs do not notice what happens to one job's temporary file. */
  lemma {:induction false} OthersTidy(content: Content, s: State, n: State, jobs: map<JobName, Job>, mine: JobName,
                                      touched: set<Path>)
    requires touched <= {TempOf(mine)} && Leaves(s, n, touched)
    requires forall job :: job in jobs ==> Tidy(content, s, job, jobs[job])
    ensures forall job :: job in jobs && job != mine ==> Tidy(content, n, job, jobs[job])
  {
    hide Tidy, Leaves;
    forall job | job in jobs && job != mine ensures Tidy(content, n, job, jobs[job]) {
      assert TempOf(job) != TempOf(mine) && Final(job.id) != TempOf(mine);
      JobStays(content, s, n, touched, job, jobs[job]);
    }
  }

  lemma {:induction false} OpenStepKeeps(remote: Remote, s: State, a: Action)
    requires Kept(remote, s) && Possible(remote, s, Step(a)) && a.OpenTemp?
    ensures Kept(remote, Next(remote, s, Step(a)))
  {
    hide ContentFor, FirmRows, Logged, Overwrite, Interval;
    var n, content, touched := Next(remote, s, Step(a)), ContentFor(remote, s.w.process.stride), {TempOf(a.job)};
    assert Leaves(s, n, touched);
    RowsStay(content, s, n, touched);
    assert Tidy(content, n, a.job, Job(Writing, 0, {}));
    hide Leaves, Tidy;
    OthersTidy(content, s, n, s.w.process.jobs, a.job, touched);
    UpStep(remote, s, a);
  }

  lemma {:induction false} WrittenIsTidy(remote: Remote, s: State, a: Action)
    requires Kept(remote, s) && Possible(remote, s, Step(a)) && a.Write?
    ensures var n := Next(remote, s, Step(a));
      Tidy(ContentFor(remote, s.w.process.stride), n, a.job, n.w.process.jobs[a.job])
  {
    hide ContentFor, FirmRows, Logged, Overwrite, Interval;
    var n, content := Next(remote, s, Step(a)), ContentFor(remote, s.w.process.stride);
    assert Tidy(content, s, a.job, s.w.process.jobs[a.job]);
    WriteKeepsJob(content, s.w, n.w, a);
    hide JobOk;
  }

  lemma {:induction false} WriteStepKeeps(remote: Remote, s: State, a: Action)
    requires Kept(remote, s) && Possible(remote, s, Step(a)) && a.Write?
    ensures Kept(remote, Next(remote, s, Step(a)))
  {
    hide ContentFor, FirmRows, Logged, Overwrite, Interval, Tidy;
    var n, content, touched := Next(remote, s, Step(a)), ContentFor(remote, s.w.process.stride), {TempOf(a.job)};
    assert Leaves(s, n, touched);
    RowsStay(content, s, n, touched);
    WrittenIsTidy(remote, s, a);
    hide Leaves, Tidy;
    OthersTidy(content, s, n, s.w.process.jobs, a.job, touched);
    UpStep(remote, s, a);
  }

  lemma {:induction false} GiveUpStepKeeps(remote: Remote, s: State, a: Action)
    requires Kept(remote, s) && Possible(remote, s, Step(a)) && a.GiveUp?
    ensures Kept(remote, Next(remote, s, Step(a)))
  {
    hide ContentFor, FirmRows, Logged, Tidy;
    var n, content, touched := Next(remote, s, Step(a)), ContentFor(remote, s.w.process.stride), {TempOf(a.job)};
    assert Leaves(s, n, touched);
    RowsStay(content, s, n, touched);
    hide Leaves;
    OthersTidy(content, s, n, s.w.process.jobs, a.job, touched);
    UpStep(remote, s, a);
  }

  /** Syncing a complete temporary file, or the directory after the rename. */
  lemma {:induction false} SyncStepKeeps(remote: Remote, s: State, a: Action)
    requires Kept(remote, s) && Possible(remote, s, Step(a)) && (a.Sync? || a.SyncDir?)
    ensures Kept(remote, Next(remote, s, Step(a)))
  {
    hide ContentFor, FirmRows, Logged, Overwrite, Interval;
    var n, content := Next(remote, s, Step(a)), ContentFor(remote, s.w.process.stride);
    assert Leaves(s, n, {});
    RowsStay(content, s, n, {});
    SyncedIsTidy(content, s, n, a.job);
    hide Leaves, Tidy;
    OthersTidy(content, s, n, s.w.process.jobs, a.job, {});
    UpStep(remote, s, a);
  }

  lemma {:induction false} SyncedIsTidy(content: Content, s: State, n: State, job: JobName)
    requires s.w.process.Up? && job in s.w.process.jobs && Tidy(content, s, job, s.w.process.jobs[job])
    requires n.w.disk.files == s.w.disk.files && s.w.synced <= n.w.synced
    requires var j := s.w.process.jobs[job];
      || (j.phase == Writing && j.written == |content(job.id)| && TempOf(job) in n.w.synced)
      || (j.phase == Renamed && job.id in n.w.lasting && forall f :: (Final(job.id), f) !in n.gone)
    ensures var j := s.w.process.jobs[job];
      Tidy(content, n, job, j.(phase := if j.phase == Writing then Synced else InPlace))
  {
    hide Interval;
  }

  /** Renaming puts a complete file in place; the one it replaces, if a row or a waiting job relies on it, was
      complete as well. */
  lemma {:induction false} RenameKeepsFirm(content: Content, s: State, n: State, job: JobName)
    requires Placed(content, n, job.id) && n.w.lasting == s.w.lasting
    requires var files := s.w.disk.files;
      n.gone == s.gone + set p | p in {TempOf(job), Final(job.id)} && p in files :: (p, files[p])
    ensures Firm(content, s, job.id) ==> Firm(content, n, job.id)
  {
    if Firm(content, s, job.id) {
      forall f | (Final(job.id), f) in n.gone ensures content(job.id) <= f {
        if (Final(job.id), f) !in s.gone { assert f == s.w.disk.files[Final(job.id)]; }
      }
    }
  }

  lemma {:induction false} RenamedIsPlaced(remote: Remote, s: State, a: Action)
    requires Kept(remote, s) && Possible(remote, s, Step(a)) && a.Rename?
    ensures var content := ContentFor(remote, s.w.process.stride);
      content(a.job.id) != [] && Placed(content, Next(remote, s, Step(a)), a.job.id)
  {
    hide ContentFor, FirmRows, Logged;
    var content, j := ContentFor(remote, s.w.process.stride), s.w.process.jobs[a.job];
    assert JobOk(content, s.w, a.job, j);
    CountedFileIsContent(content(a.job.id), s.w.disk.files[TempOf(a.job)], j.covered);
  }

  lemma {:induction false} RenameStepKeeps(remote: Remote, s: State, a: Action)
    requires Kept(remote, s) && Possible(remote, s, Step(a)) && a.Rename?
    ensures Kept(remote, Next(remote, s, Step(a)))
  {
    hide ContentFor, Logged, Overwrite, Interval;
    var n, content := Next(remote, s, Step(a)), ContentFor(remote, s.w.process.stride);
    var touched := {TempOf(a.job), Final(a.job.id)};
    RenamedIsPlaced(remote, s, a);
    RenameKeepsFirm(content, s, n, a.job);
    assert Leaves(s, n, touched);
    hide Leaves, Placed;
    RenameKeepsRows(content, s, n, a.job);
    hide FirmRows, Firm;
    RenameKeepsOthers(content, s, n, s.w.process.jobs, a.job);
    assert Tidy(content, n, a.job, n.w.process.jobs[a.job]);
    hide Tidy;
    UpStep(remote, s, a);
  }

  lemma {:induction false} RenameKeepsRows(content: Content, s: State, n: State, job: JobName)
    requires Leaves(s, n, {TempOf(job), Final(job.id)}) && FirmRows(content, s) && n.w.disk.rows == s.w.disk.rows
    requires Firm(content, s, job.id) ==> Firm(content, n, job.id)
    ensures FirmRows(content, n)
  {
    hide Leaves, Placed;
    forall id | id in n.w.disk.rows ensures ServesRow(content, n.w.disk, id) && Firm(content, n, id) {
      assert ServesRow(content, s.w.disk, id) && Firm(content, s, id);
      if id != job.id { FirmStays(content, s, n, {TempOf(job), Final(job.id)}, id); }
      PlacedServes(content, n, id);
    }
  }

  lemma {:induction false} RenameKeepsOthers(content: Content, s: State, n: State, jobs: map<JobName, Job>,
                                             mine: JobName)
    requires Leaves(s, n, {TempOf(mine), Final(mine.id)}) && Placed(content, n, mine.id)
    requires Firm(content, s, mine.id) ==> Firm(content, n, mine.id)
    requires forall job :: job in jobs ==> Tidy(content, s, job, jobs[job])
    ensures forall job :: job in jobs && job != mine ==> Tidy(content, n, job, jobs[job])
  {
    hide Leaves, Placed, Firm;
    forall job | job in jobs && job != mine ensures Tidy(content, n, job, jobs[job]) {
      assert Tidy(content, s, job, jobs[job]);
      if job.id != mine.id || jobs[job].phase in {Writing, Synced} {
        assert TempOf(job) != TempOf(mine) && Final(job.id) != TempOf(mine);
        JobStays(content, s, n, {TempOf(mine), Final(mine.id)}, job, jobs[job]);
      }
    }
  }

  lemma {:induction false} PlacedServes(content: Content, s: State, id: ChunkId)
    requires id in s.w.disk.rows && content(id) != [] && s.w.disk.rows[id].size == |content(id)|
    ensures Firm(content, s, id) ==> ServesRow(content, s.w.disk, id)
  {
  }

  lemma {:induction false} InsertStepKeeps(remote: Remote, s: State, a: Action)
    requires Kept(remote, s) && Possible(remote, s, Step(a)) && a.InsertRow?
    ensures Kept(remote, Next(remote, s, Step(a)))
  {
    hide ContentFor, Logged, Overwrite, Interval;
    var n, content := Next(remote, s, Step(a)), ContentFor(remote, s.w.process.stride);
    assert Leaves(s, n, {}) && Tidy(content, s, a.job, s.w.process.jobs[a.job]);
    InsertKeepsRows(content, s, n, a.job.id);
    hide Firm, FirmRows, Leaves, Tidy;
    OthersTidy(content, s, n, s.w.process.jobs, a.job, {});
    UpStep(remote, s, a);
  }

  lemma {:induction false} InsertKeepsRows(content: Content, s: State, n: State, id: ChunkId)
    requires Leaves(s, n, {}) && FirmRows(content, s) && Firm(content, s, id) && content(id) != []
    requires forall other :: other in n.w.disk.rows ==>
      if other in s.w.disk.rows then n.w.disk.rows[other] == s.w.disk.rows[other]
      else other == id && n.w.disk.rows[other].size == |content(id)|
    ensures FirmRows(content, n)
  {
    hide Leaves, Placed, Firm;
    forall other | other in n.w.disk.rows ensures ServesRow(content, n.w.disk, other) && Firm(content, n, other) {
      FirmStays(content, s, n, {}, other);
      if other in s.w.disk.rows { assert ServesRow(content, s.w.disk, other) && Firm(content, s, other); }
      PlacedServes(content, n, other);
    }
  }

  lemma {:induction false} EvictStepKeeps(remote: Remote, s: State, a: Action)
    requires Kept(remote, s) && Possible(remote, s, Step(a)) && (a.DeleteRow? || a.DeleteFile?)
    ensures Kept(remote, Next(remote, s, Step(a)))
  {
    hide ContentFor, FirmRows, Logged, Overwrite, Interval;
    var n, content := Next(remote, s, Step(a)), ContentFor(remote, s.w.process.stride);
    var touched := if a.DeleteRow? then {} else {Final(a.id)};
    assert Leaves(s, n, touched);
    RowsStay(content, s, n, touched);
    hide Firm, Placed, Leaves;
    forall job | job in n.w.process.jobs ensures Tidy(content, n, job, n.w.process.jobs[job]) {
      JobStays(content, s, n, touched, job, s.w.process.jobs[job]);
    }
    hide Tidy;
    UpStep(remote, s, a);
  }

  /** Opening: the marks are checked, and a store that does not fit is emptied first. */
  lemma {:induction false} OpeningStepKeeps(remote: Remote, s: State, a: Action)
    requires Kept(remote, s) && Possible(remote, s, Step(a))
    requires a.Start? || a.CheckMarks? || a.RemoveOne? || a.SetVersion? || a.SetStride?
    ensures Kept(remote, Next(remote, s, Step(a)))
  {
    hide ContentFor, Firm;
    var n := Next(remote, s, Step(a));
    if a.Start? || (a.CheckMarks? && MarksCurrent(s.w.disk, s.w.process.stride)) {
      assert Leaves(s, n, {});
      if Trusted(s.w.disk) { RowsStay(ContentFor(remote, s.w.disk.stride.value), s, n, {}); }
    }
    assert Trusted(n.w.disk) ==> FirmRows(ContentFor(remote, n.w.disk.stride.value), n);
    hide FirmRows, Logged, Leaves;
    LogStays(remote, s, a, n);
  }

  /** A table may survive exactly if each of its rows finds the bytes it was committed with: then, and only then,
      the disk serves every row. */
  lemma {:induction false} RestoredServesExactly(remote: Remote, s: State, survivors: Files, k: nat)
    requires Kept(remote, s) && k < |s.log|
    ensures Servable(remote, Restored(s, survivors, k)) <==> RowsFindTheirBytes(s.log[k], survivors)
  {
    hide FirmRows, Running;
    var d, n := s.log[k], Restored(s, survivors, k);
    if Trusted(d) {
      var content := ContentFor(remote, d.stride.value);
      assert Serves(content, d);
      hide ContentFor, Logged;
      forall id | id in d.rows ensures ServesRow(content, n, id) <==> FindsItsBytes(d, survivors, id) {
        assert ServesRow(content, d, id);
        SamePrefix(content(id), d.files[Final(id)], if Final(id) in survivors then survivors[Final(id)] else []);
      }
    }
  }

  lemma {:induction false} SamePrefix(bytes: Bytes, f: Bytes, g: Bytes)
    requires bytes <= f
    ensures bytes <= g <==> |bytes| <= |g| && g[..|bytes|] == f[..|bytes|]
  {
    assert f[..|bytes|] == bytes;
  }

  lemma {:induction false} PowerLossKeeps(remote: Remote, s: State, survivors: Files, k: nat)
    requires Kept(remote, s) && Possible(remote, s, PowerLoss(survivors, k))
    ensures Kept(remote, Next(remote, s, PowerLoss(survivors, k)))
  {
    RestoredServesExactly(remote, s, survivors, k);
    var n := Next(remote, s, PowerLoss(survivors, k));
    hide ContentFor, LeftBy, RowsFindTheirBytes;
    if Trusted(n.w.disk) {
      var content := ContentFor(remote, n.w.disk.stride.value);
      forall id | id in n.w.disk.rows ensures Firm(content, n, id) {
        assert ServesRow(content, n.w.disk, id) && Final(id).id == id;
      }
    }
  }

  lemma {:induction false} NextKeeps(remote: Remote, s: State, e: Event)
    requires Kept(remote, s) && Possible(remote, s, e)
    ensures Kept(remote, Next(remote, s, e))
  {
    match e {
      case PowerLoss(survivors, k) => PowerLossKeeps(remote, s, survivors, k);
      case Step(a) =>
        if a.OpenTemp? {
          OpenStepKeeps(remote, s, a);
        } else if a.Write? {
          WriteStepKeeps(remote, s, a);
        } else if a.GiveUp? {
          GiveUpStepKeeps(remote, s, a);
        } else if a.Sync? || a.SyncDir? {
          SyncStepKeeps(remote, s, a);
        } else if a.Rename? {
          RenameStepKeeps(remote, s, a);
        } else if a.InsertRow? {
          InsertStepKeeps(remote, s, a);
        } else if a.DeleteRow? || a.DeleteFile? {
          EvictStepKeeps(remote, s, a);
        } else {
          OpeningStepKeeps(remote, s, a);
        }
    }
  }

  // ---- which losses are harmless ----

  /** A table is restored without harm if the marks are still the same and no row of it was deleted since;
      so the newest table always is, and lost insertions never matter. */
  lemma {:induction false} LostInsertsAreHarmless(remote: Remote, s: State, survivors: Files, k: nat)
    requires Kept(remote, s) && k < |s.log| && LeftBy(s, survivors)
    requires s.log[k].version == s.w.disk.version && s.log[k].stride == s.w.disk.stride
    requires s.log[k].rows.Keys <= s.w.disk.rows.Keys
    ensures RowsFindTheirBytes(s.log[k], survivors)
  {
    hide Running;
    var d := s.log[k];
    if Trusted(d) {
      var content := ContentFor(remote, d.stride.value);
      assert Serves(content, d);
      hide ContentFor, Logged;
      forall id | id in d.rows ensures FindsItsBytes(d, survivors, id) {
        assert ServesRow(content, d, id) && id in s.w.disk.rows;
        assert Firm(content, s, id);
        SamePrefix(content(id), d.files[Final(id)], survivors[Final(id)]);
      }
    }
  }

  lemma {:induction false} NewestTableSurvives(remote: Remote, s: State, survivors: Files)
    requires Kept(remote, s) && LeftBy(s, survivors)
    ensures RowsFindTheirBytes(s.log[|s.log| - 1], survivors)
  {
    LostInsertsAreHarmless(remote, s, survivors, |s.log| - 1);
  }

  // ---- runs ----

  ghost predicate IsRun(remote: Remote, run: seq<State>, events: seq<Event>) {
    && |run| == |events| + 1
    && FirstBoot(run[0].w) && run[0].gone == {} && run[0].log == [run[0].w.disk]
    && (forall i :: 0 <= i < |events| ==>
          Possible(remote, run[i], events[i]) && run[i + 1] == Next(remote, run[i], events[i]))
  }

  lemma {:induction false} RunKeeps(remote: Remote, run: seq<State>, events: seq<Event>, i: nat)
    requires IsRun(remote, run, events) && i < |run|
    ensures Kept(remote, run[i])
  {
    if i > 0 {
      RunKeeps(remote, run, events, i - 1);
      assert Possible(remote, run[i - 1], events[i - 1]) && run[i] == Next(remote, run[i - 1], events[i - 1]);
      hide Kept, Possible, Next;
      NextKeeps(remote, run[i - 1], events[i - 1]);
    }
  }

  /** Whatever power losses undid, whenever the store is open every row is served from the right bytes of the grid
      in force; and at every moment every table that may survive either is not trusted or served when committed. */
  lemma {:induction false} PowerSafety(remote: Remote, run: seq<State>, events: seq<Event>, i: nat)
    requires IsRun(remote, run, events) && i < |run|
    ensures Servable(remote, run[i].w.disk)
    ensures forall k :: 0 <= k < |run[i].log| ==> Servable(remote, run[i].log[k])
    ensures run[i].w.process.Up? ==> var stride := run[i].w.process.stride;
      stride > 0 && MarksCurrent(run[i].w.disk, stride) && Serves(ContentFor(remote, stride), run[i].w.disk)
  {
    RunKeeps(remote, run, events, i);
    hide ContentFor, Firm, Tidy;
  }
}
