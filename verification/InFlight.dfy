/**
 The per-chunk single-flight map: a reader claims the chunks nobody fills and joins the fills
 that are already running.
 */
module InFlight {
  import opened Chunks

  type RecordId = nat

  /** The live fill records; `next` is the identity of the next record. */
  datatype Flight = Flight(live: map<ChunkId, RecordId>, next: RecordId)

  datatype ChunkJoin = ChunkJoin(index: nat, owned: bool, record: RecordId)

  function Claim(f: Flight, key: string, idx: nat): (Flight, ChunkJoin) {
    var id := ChunkId(key, idx);
    if id in f.live then (f, ChunkJoin(idx, false, f.live[id]))
    else (Flight(f.live[id := f.next], f.next + 1), ChunkJoin(idx, true, f.next))
  }

  function ClaimMany(f: Flight, key: string, indices: seq<nat>): (Flight, seq<ChunkJoin>) {
    if indices == [] then (f, [])
    else
      var (mid, joins) := ClaimMany(f, key, indices[..|indices| - 1]);
      var (after, join) := Claim(mid, key, indices[|indices| - 1]);
      (after, joins + [join])
  }

  class InFlightMap {
    var live: map<ChunkId, RecordId>
    var next: RecordId

    constructor ()
      ensures Value() == Flight(map[], 0)
    {
      live, next := map[], 0;
    }

    function Value(): Flight
      reads this
    {
      Flight(live, next)
    }

    method JoinOrClaim(key: string, idx: nat) returns (join: ChunkJoin)
      modifies this
      ensures (Value(), join) == Claim(old(Value()), key, idx)
    {
      var id := ChunkId(key, idx);
      if id in live {
        return ChunkJoin(idx, false, live[id]);
      }
      live := live[id := next];
      next := next + 1;
      return ChunkJoin(idx, true, next - 1);
    }

    /** The whole batch is claimed under one lock. */
    method JoinOrClaimMany(key: string, indices: seq<nat>) returns (joins: seq<ChunkJoin>)
      modifies this
      ensures (Value(), joins) == ClaimMany(old(Value()), key, indices)
    {
      joins := [];
      var n := 0;
      while n < |indices|
        invariant 0 <= n <= |indices|
        invariant (Value(), joins) == ClaimMany(old(Value()), key, indices[..n])
      {
        assert indices[..n + 1][..n] == indices[..n];
        var join := JoinOrClaim(key, indices[n]);
        joins := joins + [join];
        n := n + 1;
      }
      assert indices[..n] == indices;
    }

    method Finalize(key: string, idx: nat)
      modifies this
      ensures Value() == Flight(old(live) - {ChunkId(key, idx)}, old(next))
    {
      live := live - {ChunkId(key, idx)};
    }
  }

  // ---- what one batch gets ----

  ghost predicate FirstAt(indices: seq<nat>, k: nat)
    requires k < |indices|
  {
    indices[k] !in indices[..k]
  }

  /** The `k`-th answer of a batch: owned exactly where the chunk was idle and is named for the first time. */
  ghost predicate JoinOk(f: Flight, key: string, indices: seq<nat>, after: Flight, joins: seq<ChunkJoin>, k: nat)
    requires k < |indices| == |joins|
  {
    var id := ChunkId(key, indices[k]);
    && joins[k].index == indices[k]
    && id in after.live && joins[k].record == after.live[id]
    && (joins[k].owned <==> id !in f.live && FirstAt(indices, k))
  }

  /** A batch keeps every live record and adds fresh ones for chunks it names. */
  ghost predicate LiveGrows(f: Flight, key: string, indices: seq<nat>, after: Flight) {
    && f.next <= after.next
    && (forall id :: id in f.live ==> id in after.live && after.live[id] == f.live[id])
    && (forall id :: id in after.live && id !in f.live ==>
          id.key == key && id.index in indices && f.next <= after.live[id] < after.next)
  }

  lemma {:induction false} BatchClaims(f: Flight, key: string, indices: seq<nat>)
    ensures var (after, joins) := ClaimMany(f, key, indices);
      && |joins| == |indices|
      && LiveGrows(f, key, indices, after)
      && (forall k :: 0 <= k < |indices| ==> JoinOk(f, key, indices, after, joins, k))
    decreases |indices|
  {
    if indices != [] {
      var front := indices[..|indices| - 1];
      BatchClaims(f, key, front);
      var (mid, joins) := ClaimMany(f, key, front);
      LastClaim(f, key, front, indices[|front|], mid, joins);
      assert front + [indices[|front|]] == indices;
    }
  }

  lemma {:induction false} LastClaim(f: Flight, key: string, front: seq<nat>, idx: nat, mid: Flight,
                                     joins: seq<ChunkJoin>)
    requires |joins| == |front| && LiveGrows(f, key, front, mid)
    requires forall k :: 0 <= k < |front| ==> JoinOk(f, key, front, mid, joins, k)
    ensures var (after, join) := Claim(mid, key, idx);
      && LiveGrows(f, key, front + [idx], after)
      && (forall k :: 0 <= k <= |front| ==> JoinOk(f, key, front + [idx], after, joins + [join], k))
  {
    var indices := front + [idx];
    var (after, join) := Claim(mid, key, idx);
    forall k | 0 <= k < |front| ensures JoinOk(f, key, indices, after, joins + [join], k) {
      assert JoinOk(f, key, front, mid, joins, k);
      assert front[..k] == indices[..k];
    }
    assert indices[..|front|] == front;
    if idx in front {
      var k :| 0 <= k < |front| && front[k] == idx;
      assert JoinOk(f, key, front, mid, joins, k);
    }
  }

  /** A batch waits for a fill of its own exactly when it names an idle chunk twice. */
  lemma {:induction false} OwnFillJoined(f: Flight, key: string, indices: seq<nat>, k: nat)
    requires k < |indices|
    requires forall id :: id in f.live ==> f.live[id] < f.next
    ensures var (_, joins) := ClaimMany(f, key, indices);
      |joins| == |indices| &&
      (!joins[k].owned && joins[k].record >= f.next <==> ChunkId(key, indices[k]) !in f.live && !FirstAt(indices, k))
  {
    BatchClaims(f, key, indices);
    var (after, joins) := ClaimMany(f, key, indices);
    assert JoinOk(f, key, indices, after, joins, k);
  }

  // ---- readers ----

  type ReaderId = nat

  /** `owner` remembers who claimed each record, `joined` the records a reader waits for, `arrived` the
      order of the readers' batches. */
  datatype World = World(flight: Flight, owner: map<RecordId, ReaderId>, joined: map<ReaderId, set<RecordId>>,
                         arrived: map<ReaderId, nat>, clock: nat)

  const QUIET := World(Flight(map[], 0), map[], map[], map[], 0)

  datatype Action =
    | Batch(reader: ReaderId, key: string, indices: seq<nat>)
    | Finish(reader: ReaderId, id: ChunkId)

  predicate NoRepeats(indices: seq<nat>) {
    forall i, j :: 0 <= i < j < |indices| ==> indices[i] != indices[j]
  }

  /** Each reader plans once, over distinct chunks; only the owner finishes a fill. */
  predicate Enabled(w: World, a: Action) {
    match a
    case Batch(reader, _, indices) => reader !in w.arrived && NoRepeats(indices)
    case Finish(reader, id) =>
      id in w.flight.live && w.flight.live[id] in w.owner && w.owner[w.flight.live[id]] == reader
  }

  function OwnedRecords(joins: seq<ChunkJoin>): set<RecordId> {
    set k | 0 <= k < |joins| && joins[k].owned :: joins[k].record
  }

  function JoinedRecords(joins: seq<ChunkJoin>): set<RecordId> {
    set k | 0 <= k < |joins| && !joins[k].owned :: joins[k].record
  }

  function Act(w: World, a: Action): World
    requires Enabled(w, a)
  {
    match a
    case Batch(reader, key, indices) =>
      var (flight, joins) := ClaimMany(w.flight, key, indices);
      World(flight, w.owner + (map r | r in OwnedRecords(joins) :: reader),
            w.joined[reader := JoinedRecords(joins)], w.arrived[reader := w.clock], w.clock + 1)
    case Finish(_, id) => w.(flight := w.flight.(live := w.flight.live - {id}))
  }

  ghost predicate IsLive(w: World, r: RecordId) {
    exists id :: id in w.flight.live && w.flight.live[id] == r
  }

  /** Reader `a` cannot go on before reader `b` finishes a fill. */
  ghost predicate WaitsFor(w: World, a: ReaderId, b: ReaderId) {
    a in w.joined && exists r :: r in w.joined[a] && IsLive(w, r) && r in w.owner && w.owner[r] == b
  }

  /** No two chunks share a record. */
  ghost predicate Separate(f: Flight) {
    forall a, b :: a in f.live && b in f.live && f.live[a] == f.live[b] ==> a == b
  }

  ghost predicate Inv(w: World) { Claimed(w) && Separate(w.flight) }

  ghost predicate Claimed(w: World) {
    && (forall id :: id in w.flight.live ==> w.flight.live[id] in w.owner && w.flight.live[id] < w.flight.next)
    && (forall r :: r in w.owner ==> r < w.flight.next && w.owner[r] in w.arrived)
    && (forall a :: a in w.arrived ==> w.arrived[a] < w.clock && a in w.joined)
    && (forall a :: a in w.joined ==> a in w.arrived)
    && (forall a, r :: a in w.joined && r in w.joined[a] ==>
          r in w.owner && w.arrived[w.owner[r]] < w.arrived[a])
  }

  /** What a batch over distinct chunks owns is fresh; what it joins was claimed before. */
  lemma {:induction false} BatchRecords(f: Flight, key: string, indices: seq<nat>, r: RecordId)
    requires NoRepeats(indices)
    ensures var (after, joins) := ClaimMany(f, key, indices);
      && (r in OwnedRecords(joins) ==> f.next <= r < after.next)
      && (r in JoinedRecords(joins) ==> exists id :: id in f.live && f.live[id] == r)
  {
    BatchClaims(f, key, indices);
    var (after, joins) := ClaimMany(f, key, indices);
    if r in OwnedRecords(joins) {
      var k :| 0 <= k < |joins| && joins[k].owned && joins[k].record == r;
      assert JoinOk(f, key, indices, after, joins, k);
    }
    if r in JoinedRecords(joins) {
      var k :| 0 <= k < |joins| && !joins[k].owned && joins[k].record == r;
      assert JoinOk(f, key, indices, after, joins, k);
      assert FirstAt(indices, k);
      assert ChunkId(key, indices[k]) in f.live;
    }
  }

  /** Every live record after a batch was live before or is owned by the batch. */
  lemma {:induction false} BatchOwnsTheRest(f: Flight, key: string, indices: seq<nat>, id: ChunkId)
    requires NoRepeats(indices)
    ensures var (after, joins) := ClaimMany(f, key, indices);
      id in after.live && id !in f.live ==> after.live[id] in OwnedRecords(joins)
  {
    BatchClaims(f, key, indices);
    var (after, joins) := ClaimMany(f, key, indices);
    if id in after.live && id !in f.live {
      var k :| 0 <= k < |indices| && indices[k] == id.index;
      assert JoinOk(f, key, indices, after, joins, k);
      assert FirstAt(indices, k);
    }
  }

  lemma {:induction false} BatchKeepsOwners(w: World, a: Action)
    requires Claimed(w) && Enabled(w, a) && a.Batch?
    ensures forall r :: r in w.owner ==> r in Act(w, a).owner && Act(w, a).owner[r] == w.owner[r]
  {
    forall r | r in w.owner ensures r in Act(w, a).owner && Act(w, a).owner[r] == w.owner[r] {
      BatchRecords(w.flight, a.key, a.indices, r);
    }
  }

  lemma {:induction false} BatchKeepsSeparate(f: Flight, key: string, indices: seq<nat>)
    requires Separate(f) && forall id :: id in f.live ==> f.live[id] < f.next
    ensures Separate(ClaimMany(f, key, indices).0)
  {
    if indices != [] {
      var front := indices[..|indices| - 1];
      BatchKeepsSeparate(f, key, front);
      BatchClaims(f, key, front);
      LiveBelow(f, key, front);
      hide JoinOk;
    }
  }

  lemma {:induction false} LiveBelow(f: Flight, key: string, indices: seq<nat>)
    requires forall id :: id in f.live ==> f.live[id] < f.next
    ensures var after := ClaimMany(f, key, indices).0; forall id :: id in after.live ==> after.live[id] < after.next
  {
    BatchClaims(f, key, indices);
    hide ClaimMany, JoinOk;
  }

  lemma {:induction false} BatchKeepsClaimed(w: World, a: Action)
    requires Claimed(w) && Enabled(w, a) && a.Batch?
    ensures Claimed(Act(w, a))
  {
    var n := Act(w, a);
    var (flight, joins) := ClaimMany(w.flight, a.key, a.indices);
    BatchClaims(w.flight, a.key, a.indices);
    BatchKeepsOwners(w, a);
    forall id | id in n.flight.live ensures n.flight.live[id] in n.owner && n.flight.live[id] < n.flight.next {
      BatchOwnsTheRest(w.flight, a.key, a.indices, id);
    }
    forall r | r in n.owner ensures r < n.flight.next && n.owner[r] in n.arrived {
      BatchRecords(w.flight, a.key, a.indices, r);
    }
    forall b, r | b in n.joined && r in n.joined[b]
      ensures r in n.owner && n.arrived[n.owner[r]] < n.arrived[b]
    {
      if b == a.reader {
        BatchRecords(w.flight, a.key, a.indices, r);
      }
    }
  }

  lemma {:induction false} ActKeepsInv(w: World, a: Action)
    requires Inv(w) && Enabled(w, a)
    ensures Inv(Act(w, a))
  {
    if a.Batch? {
      BatchKeepsClaimed(w, a);
      BatchKeepsSeparate(w.flight, a.key, a.indices);
      hide Claimed, Separate, ClaimMany, OwnedRecords, JoinedRecords;
    }
  }

  lemma {:induction false} ActKeepsOwner(w: World, a: Action, r: RecordId)
    requires Inv(w) && Enabled(w, a) && r in w.owner
    ensures r in Act(w, a).owner && Act(w, a).owner[r] == w.owner[r]
  {
    if a.Batch? {
      BatchKeepsOwners(w, a);
    }
  }

  ghost predicate IsRun(run: seq<World>, actions: seq<Action>) {
    && |run| == |actions| + 1
    && run[0] == QUIET
    && (forall i :: 0 <= i < |actions| ==> Enabled(run[i], actions[i]) && run[i + 1] == Act(run[i], actions[i]))
  }

  lemma {:induction false} RunKeepsInv(run: seq<World>, actions: seq<Action>, i: nat)
    requires IsRun(run, actions) && i < |run|
    ensures Inv(run[i])
  {
    if i > 0 {
      RunKeepsInv(run, actions, i - 1);
      assert Enabled(run[i - 1], actions[i - 1]);
      ActKeepsInv(run[i - 1], actions[i - 1]);
    }
  }

  /** Who claimed a record is settled once; no later batch takes it over. */
  lemma {:induction false} OneOwnerForever(run: seq<World>, actions: seq<Action>, i: nat, j: nat, r: RecordId)
    requires IsRun(run, actions) && i <= j < |run| && r in run[i].owner
    ensures r in run[j].owner && run[j].owner[r] == run[i].owner[r]
    decreases j
  {
    if i < j {
      OneOwnerForever(run, actions, i, j - 1, r);
      RunKeepsInv(run, actions, j - 1);
      assert Enabled(run[j - 1], actions[j - 1]);
      ActKeepsOwner(run[j - 1], actions[j - 1], r);
    }
  }

  /** The fills that were live among the chunks a batch named. */
  ghost function LiveThen(w: World, key: string, indices: seq<nat>): set<RecordId> {
    set k | 0 <= k < |indices| && ChunkId(key, indices[k]) in w.flight.live :: w.flight.live[ChunkId(key, indices[k])]
  }

  /** Every chunk named is live after the batch, those that were not under new records, and nothing else changed. */
  ghost predicate BatchSettles(w: World, key: string, indices: seq<nat>, n: World) {
    && (forall i :: i in indices ==> ChunkId(key, i) in n.flight.live)
    && (forall id :: id in w.flight.live ==> id in n.flight.live && n.flight.live[id] == w.flight.live[id])
    && (forall id :: id in n.flight.live && id !in w.flight.live ==>
          id.key == key && id.index in indices && n.flight.live[id] !in w.owner)
  }

  /** The reader owns the chunks that became live. */
  ghost predicate OwnsNew(w: World, n: World, owner: map<RecordId, ReaderId>, reader: ReaderId) {
    forall id :: id in n.flight.live && id !in w.flight.live ==>
      n.flight.live[id] in owner && owner[n.flight.live[id]] == reader
  }

  lemma {:induction false} JoinsLive(w: World, key: string, indices: seq<nat>)
    requires NoRepeats(indices)
    ensures JoinedRecords(ClaimMany(w.flight, key, indices).1) == LiveThen(w, key, indices)
  {
    BatchClaims(w.flight, key, indices);
    var (after, joins) := ClaimMany(w.flight, key, indices);
    hide ClaimMany, NoRepeats;
    forall k | 0 <= k < |indices|
      ensures var id := ChunkId(key, indices[k]);
        (joins[k].owned <==> id !in w.flight.live) && (!joins[k].owned ==> joins[k].record == w.flight.live[id])
    {
      assert JoinOk(w.flight, key, indices, after, joins, k);
      DistinctIsFirst(indices, k);
    }
    hide JoinOk;
    forall r ensures r in JoinedRecords(joins) <==> r in LiveThen(w, key, indices) {
      if r in JoinedRecords(joins) { var k :| 0 <= k < |joins| && !joins[k].owned && joins[k].record == r; }
      if r in LiveThen(w, key, indices) {
        var k :| 0 <= k < |indices| && ChunkId(key, indices[k]) in w.flight.live
                 && w.flight.live[ChunkId(key, indices[k])] == r;
        assert !joins[k].owned;
      }
    }
  }

  lemma {:induction false} DistinctIsFirst(indices: seq<nat>, k: nat)
    requires NoRepeats(indices) && k < |indices|
    ensures FirstAt(indices, k)
  {
  }

  lemma {:induction false} NamedIsLive(w: World, key: string, indices: seq<nat>, i: nat)
    requires i in indices
    ensures ChunkId(key, i) in ClaimMany(w.flight, key, indices).0.live
  {
    BatchClaims(w.flight, key, indices);
    var (after, joins) := ClaimMany(w.flight, key, indices);
    var k :| 0 <= k < |indices| && indices[k] == i;
    assert JoinOk(w.flight, key, indices, after, joins, k);
  }

  lemma {:induction false} BatchStep(w: World, reader: ReaderId, key: string, indices: seq<nat>)
    requires Inv(w) && Enabled(w, Batch(reader, key, indices))
    ensures var n := Act(w, Batch(reader, key, indices));
      && reader in n.joined && n.joined[reader] == LiveThen(w, key, indices)
      && BatchSettles(w, key, indices, n) && OwnsNew(w, n, n.owner, reader)
  {
    JoinsLive(w, key, indices);
    BatchClaims(w.flight, key, indices);
    var n, joins := Act(w, Batch(reader, key, indices)), ClaimMany(w.flight, key, indices).1;
    forall i | i in indices ensures ChunkId(key, i) in n.flight.live {
      NamedIsLive(w, key, indices, i);
    }
    forall id | id in n.flight.live && id !in w.flight.live ensures n.flight.live[id] in OwnedRecords(joins) {
      BatchOwnsTheRest(w.flight, key, indices, id);
    }
    hide ClaimMany, JoinOk, OwnedRecords, LiveThen, NoRepeats;
  }

  lemma {:induction false} ActKeepsJoined(w: World, a: Action, reader: ReaderId)
    requires Inv(w) && Enabled(w, a) && reader in w.joined
    ensures reader in Act(w, a).joined && Act(w, a).joined[reader] == w.joined[reader]
  {
    hide ClaimMany, JoinedRecords, OwnedRecords;
  }

  /** What a batch settles is settled for good: its reader waits for exactly the fills that were live among the chunks
      it named, and owns the fills of exactly the others. */
  lemma {:induction false} ReaderTold(run: seq<World>, actions: seq<Action>, b: nat, j: nat, reader: ReaderId,
                                      key: string, indices: seq<nat>)
    requires IsRun(run, actions) && b < j < |run| && b < |actions| && actions[b] == Batch(reader, key, indices)
    ensures reader in run[j].joined && run[j].joined[reader] == LiveThen(run[b], key, indices)
    ensures BatchSettles(run[b], key, indices, run[b + 1]) && OwnsNew(run[b], run[b + 1], run[j].owner, reader)
    decreases j
  {
    hide *;
    RunStep(run, actions, b);
    RunStep(run, actions, j - 1);
    if j == b + 1 {
      BatchStep(run[b], reader, key, indices);
    } else {
      ReaderTold(run, actions, b, j - 1, reader, key, indices);
      StillTold(run[b], run[b + 1], run[j - 1], actions[j - 1], reader);
    }
  }

  lemma {:induction false} RunStep(run: seq<World>, actions: seq<Action>, i: nat)
    requires IsRun(run, actions) && i < |run|
    ensures |run| == |actions| + 1
    ensures i < |actions| ==> Inv(run[i]) && Enabled(run[i], actions[i]) && run[i + 1] == Act(run[i], actions[i])
  {
    RunKeepsInv(run, actions, i);
    hide Inv, Enabled, Act;
  }

  lemma {:induction false} StillTold(w0: World, n0: World, w: World, a: Action, reader: ReaderId)
    requires Inv(w) && Enabled(w, a) && reader in w.joined && OwnsNew(w0, n0, w.owner, reader)
    ensures reader in Act(w, a).joined && Act(w, a).joined[reader] == w.joined[reader]
    ensures OwnsNew(w0, n0, Act(w, a).owner, reader)
  {
    ActKeepsJoined(w, a, reader);
    forall r | r in w.owner ensures r in Act(w, a).owner && Act(w, a).owner[r] == w.owner[r] {
      ActKeepsOwner(w, a, r);
    }
    hide Act, Enabled, Inv;
  }

  /** Finishing a fill ends it and no other: nobody waits for it any more, and its chunk may be claimed again. */
  lemma {:induction false} FinishFrees(run: seq<World>, actions: seq<Action>, i: nat)
    requires IsRun(run, actions) && i < |actions| && actions[i].Finish?
    ensures var w, n, id := run[i], run[i + 1], actions[i].id;
      && id in w.flight.live && !IsLive(n, w.flight.live[id])
      && n.flight.live.Keys == w.flight.live.Keys - {id}
      && (forall other :: other in n.flight.live ==> n.flight.live[other] == w.flight.live[other])
      && n.joined == w.joined && n.owner == w.owner
  {
    RunKeepsInv(run, actions, i);
    assert Enabled(run[i], actions[i]) && run[i + 1] == Act(run[i], actions[i]);
  }

  /** A chain of readers, each waiting for the next. */
  ghost predicate WaitChain(w: World, chain: seq<ReaderId>) {
    forall k :: 0 < k < |chain| ==> WaitsFor(w, chain[k - 1], chain[k])
  }

  lemma {:induction false} ChainGoesBack(w: World, chain: seq<ReaderId>, k: nat)
    requires Inv(w) && WaitChain(w, chain) && 0 < k < |chain|
    ensures chain[0] in w.arrived && chain[k] in w.arrived && w.arrived[chain[k]] < w.arrived[chain[0]]
    decreases k
  {
    assert WaitsFor(w, chain[k - 1], chain[k]);
    if k > 1 {
      ChainGoesBack(w, chain, k - 1);
    }
  }

  /** Batches cannot deadlock: no reader ever waits, directly or through others, for itself. */
  lemma {:induction false} NoWaitCycle(run: seq<World>, actions: seq<Action>, i: nat, chain: seq<ReaderId>)
    requires IsRun(run, actions) && i < |run|
    requires |chain| > 1 && WaitChain(run[i], chain)
    ensures chain[0] != chain[|chain| - 1]
  {
    RunKeepsInv(run, actions, i);
    ChainGoesBack(run[i], chain, |chain| - 1);
  }

  /** While a fill is live, some owner of a live fill waits for nobody, and it and no one else can finish that fill. */
  lemma {:induction false} SomeOwnerIsFree(run: seq<World>, actions: seq<Action>, i: nat, id: ChunkId)
    returns (free: ChunkId)
    requires IsRun(run, actions) && i < |run| && id in run[i].flight.live
    ensures var w := run[i];
      && free in w.flight.live && w.flight.live[free] in w.owner
      && (forall b :: !WaitsFor(w, w.owner[w.flight.live[free]], b))
      && Enabled(w, Finish(w.owner[w.flight.live[free]], free))
      && (forall r :: Enabled(w, Finish(r, free)) ==> r == w.owner[w.flight.live[free]])
  {
    RunKeepsInv(run, actions, i);
    free := EarliestOwner(run[i], id);
  }

  lemma {:induction false} EarliestOwner(w: World, id: ChunkId) returns (free: ChunkId)
    requires Inv(w) && id in w.flight.live
    ensures free in w.flight.live && (forall b :: !WaitsFor(w, w.owner[w.flight.live[free]], b))
    decreases w.arrived[w.owner[w.flight.live[id]]]
  {
    free := id;
    var a := w.owner[w.flight.live[id]];
    if b :| WaitsFor(w, a, b) {
      var r :| r in w.joined[a] && IsLive(w, r) && r in w.owner && w.owner[r] == b;
      var next :| next in w.flight.live && w.flight.live[next] == r;
      free := EarliestOwner(w, next);
    }
  }

  // ---- claiming one index at a time ----

  /** One reader claims or joins a single chunk, adding to what it already holds. */
  function ActSingly(w: World, reader: ReaderId, key: string, idx: nat): World {
    var (flight, join) := Claim(w.flight, key, idx);
    var before := if reader in w.joined then w.joined[reader] else {};
    World(flight, if join.owned then w.owner[join.record := reader] else w.owner,
          w.joined[reader := if join.owned then before else before + {join.record}],
          w.arrived[reader := w.clock], w.clock + 1)
  }

  /** Taking the lock once per chunk instead of once per batch would let two readers wait for each other. */
  lemma {:induction false} SingleClaimsCanDeadlock(key: string)
    ensures var w := ActSingly(ActSingly(ActSingly(ActSingly(QUIET, 0, key, 10), 1, key, 11), 0, key, 11), 1, key, 10);
      WaitsFor(w, 0, 1) && WaitsFor(w, 1, 0)
  {
    var w1 := ActSingly(QUIET, 0, key, 10);
    var w2 := ActSingly(w1, 1, key, 11);
    var w3 := ActSingly(w2, 0, key, 11);
    var w := ActSingly(w3, 1, key, 10);
    var ten, eleven := ChunkId(key, 10), ChunkId(key, 11);
    assert w.flight.live[ten] == 0 && w.flight.live[eleven] == 1;
    assert IsLive(w, 0) && IsLive(w, 1);
    assert 1 in w.joined[0] && 0 in w.joined[1];
  }
}
