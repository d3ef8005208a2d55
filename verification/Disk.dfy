/**
 What the cache keeps on disk: the row table, the chunk and staging files and the format
 marks, and when they agree with the remote files they mirror.
 */
module Disk {
  import opened Outcomes
  import opened Grid
  import opened Keys
  import opened Chunks
  import opened Sums

  type Bytes = seq<Byte>

  /** The remote file behind each cache key. A key names one file, hence one content and one size. */
  type Remote = string -> Bytes

  datatype Row = Row(size: nat, lastAccess: nat)

  type Rows = map<ChunkId, Row>

  /** `<index>.chunk`, or the temporary file of the stager with the given tag. */
  datatype Path = Final(id: ChunkId) | Staging(id: ChunkId, tag: nat)

  type Files = map<Path, Bytes>

  const FORMAT_VERSION: nat := 2

  datatype Disk = Disk(rows: Rows, files: Files, version: Option<nat>, stride: Option<nat>)

  function GridOf(remote: Remote, stride: nat, key: string): ChunkGrid
    requires stride > 0
  {
    Grid(stride, |remote(key)|)
  }

  /** The bytes of the remote file that chunk `id` stands for; none if the chunk does not exist. */
  function ContentOf(remote: Remote, stride: nat, id: ChunkId): (bytes: Bytes)
    requires stride > 0
    ensures |bytes| == ChunkLen(GridOf(remote, stride, id.key), id.index)
  {
    var g := GridOf(remote, stride, id.key);
    var start := ChunkStart(g, id.index);
    if start >= g.fileSize then [] else remote(id.key)[start..start + ChunkLen(g, id.index)]
  }

  /** The remote files seen chunk by chunk, on the grid of one stride. */
  type Content = ChunkId -> Bytes

  function ContentFor(remote: Remote, stride: nat): Content
    requires stride > 0
  {
    id => ContentOf(remote, stride, id)
  }

  ghost predicate Mirrors(content: Content, remote: Remote, stride: nat)
    requires stride > 0
  {
    forall id {:trigger ContentOf(remote, stride, id)} :: content(id) == ContentOf(remote, stride, id)
  }

  ghost predicate Complete(content: Content, id: ChunkId, bytes: Bytes) {
    bytes == content(id) && bytes != []
  }

  /** Every published file is a complete chunk, with or without a row. */
  ghost predicate FinalsComplete(content: Content, files: Files) {
    forall id :: Final(id) in files ==> Complete(content, id, files[Final(id)])
  }

  /** A row means a published file and records its size. */
  ghost predicate RowsBacked(rows: Rows, files: Files) {
    forall id :: id in rows ==> Final(id) in files && rows[id].size == |files[Final(id)]|
  }

  /** A staging file is never longer than its chunk; nothing is said about its bytes. */
  ghost predicate StagingFits(content: Content, files: Files) {
    forall id, tag :: Staging(id, tag) in files ==> |files[Staging(id, tag)]| <= |content(id)|
  }

  ghost predicate Sound(content: Content, rows: Rows, files: Files) {
    FinalsComplete(content, files) && RowsBacked(rows, files) && StagingFits(content, files)
  }

  /** Only a disk whose marks name the current format promises anything, and then for the marked stride. */
  ghost predicate Trustworthy(remote: Remote, d: Disk) {
    d.version == Some(FORMAT_VERSION) && d.stride.Some? && d.stride.value > 0 ==>
      Sound(ContentFor(remote, d.stride.value), d.rows, d.files)
  }

  ghost function RowSizes(rows: Rows): map<ChunkId, nat> {
    map id | id in rows :: rows[id].size
  }

  lemma {:induction false} InsertedRowSizes(rows: Rows, id: ChunkId, row: Row)
    requires id !in rows
    ensures RowSizes(rows[id := row]) == RowSizes(rows)[id := row.size]
    ensures Sum(RowSizes(rows[id := row])) == Sum(RowSizes(rows)) + row.size
  {
    SumUpdate(RowSizes(rows), id, row.size);
  }

  lemma {:induction false} RemovedRowSizes(rows: Rows, id: ChunkId)
    requires id in rows
    ensures RowSizes(rows - {id}) == RowSizes(rows) - {id}
    ensures Sum(RowSizes(rows - {id})) == Sum(RowSizes(rows)) - rows[id].size
  {
    assert RowSizes(rows - {id}) == RowSizes(rows) - {id};
    SumRemove(RowSizes(rows), id);
  }

  /** Reading a published chunk inside its bounds is reading the remote file. */
  lemma {:induction false} ContentSlice(content: Content, remote: Remote, stride: nat, id: ChunkId, from: nat, to: nat)
    requires stride > 0 && Mirrors(content, remote, stride)
    requires var g := GridOf(remote, stride, id.key);
      ChunkStart(g, id.index) <= from < to <= ChunkStart(g, id.index) + ChunkLen(g, id.index)
    ensures var g := GridOf(remote, stride, id.key); var start := ChunkStart(g, id.index);
      && to <= |remote(id.key)| && |content(id)| == ChunkLen(g, id.index)
      && content(id)[from - start..to - start] == remote(id.key)[from..to]
  {
    var g := GridOf(remote, stride, id.key);
    var start, len := ChunkStart(g, id.index), ChunkLen(g, id.index);
    assert content(id) == ContentOf(remote, stride, id);
    SliceOfSlice(remote(id.key), start, start + len, from - start, to - start);
  }

  lemma {:induction false} SliceOfSlice<T>(s: seq<T>, a: nat, b: nat, c: nat, d: nat)
    requires a <= b <= |s| && c <= d <= b - a
    ensures s[a..b][c..d] == s[a + c..a + d]
  {
    var l, r := s[a..b][c..d], s[a + c..a + d];
    assert |l| == |r| && forall k :: 0 <= k < |l| ==> l[k] == r[k];
  }
}
