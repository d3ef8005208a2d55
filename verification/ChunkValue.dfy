/**
 The per-chunk value ledger: which fetched bytes later served a reader, by the reason they
 were fetched. Instants are nanoseconds.
 */
module ChunkValue {
  import opened Outcomes
  import opened Chunks
  import opened Sums

  datatype ChunkSource = DemandServe | DemandBackfill | Prefetch | PostDisconnect | Preexisting

  function Slot(s: ChunkSource): nat {
    match s
    case DemandServe => 0
    case DemandBackfill => 1
    case Prefetch => 2
    case PostDisconnect => 3
    case Preexisting => 4
  }

  const SOURCES: nat := 5
  const BUCKETS: nat := 7

  /** Upper bounds of the reuse-latency buckets in seconds; the last bucket takes everything else. */
  const LATENCY_BOUNDS: seq<nat> := [10, 60, 300, 1800, 7200, 43200]
  const NANOS: nat := 1_000_000_000

  function Bucket(dt: nat): (b: nat)
    ensures b < BUCKETS
    ensures b < |LATENCY_BOUNDS| ==> dt / NANOS <= LATENCY_BOUNDS[b]
    ensures forall k :: 0 <= k < b ==> dt / NANOS > LATENCY_BOUNDS[k]
  {
    var s := dt / NANOS;
    if s <= 10 then 0 else if s <= 60 then 1 else if s <= 300 then 2 else if s <= 1800 then 3
    else if s <= 7200 then 4 else if s <= 43200 then 5 else 6
  }

  datatype ChunkRec = ChunkRec(source: ChunkSource, populatedAt: nat, size: nat, delivered: nat,
                               firstUse: Option<nat>, lastUse: Option<nat>)

  datatype RawLedger = Ledger(live: map<ChunkId, ChunkRec>, fetched: seq<nat>, delivered: seq<nat>,
                              evictedUsed: seq<nat>, evictedUnused: seq<nat>, reuse: seq<nat>)

  predicate Shaped(l: RawLedger) {
    && |l.fetched| == |l.delivered| == |l.evictedUsed| == |l.evictedUnused| == SOURCES
    && |l.reuse| == BUCKETS
  }

  type Ledger = l: RawLedger | Shaped(l) witness Ledger(map[], seq(5, _ => 0), seq(5, _ => 0), seq(5, _ => 0),
                                                        seq(5, _ => 0), seq(7, _ => 0))

  const ZEROS := [0, 0, 0, 0, 0]
  const FRESH: Ledger := Ledger(map[], ZEROS, ZEROS, ZEROS, ZEROS, [0, 0, 0, 0, 0, 0, 0])

  function Add(s: seq<nat>, i: nat, n: nat): seq<nat>
    requires i < |s|
  {
    s[i := s[i] + n]
  }

  // ---- the three records as functions ----

  function History(l: Ledger, id: ChunkId): (nat, Option<nat>, Option<nat>) {
    if id in l.live then (l.live[id].delivered, l.live[id].firstUse, l.live[id].lastUse) else (0, None, None)
  }

  /** A live record leaves with its deliveries; a use it already had is filed now. */
  function TakenOut(l: Ledger, id: ChunkId, now: nat): Ledger {
    if id !in l.live then l
    else
      var prev := l.live[id];
      l.(live := l.live - {id},
         delivered := l.delivered[Slot(prev.source) := Minus(l.delivered[Slot(prev.source)], prev.delivered)],
         reuse := if prev.firstUse.Some? then Add(l.reuse, Bucket(Minus(prev.firstUse.value, now)), 1) else l.reuse)
  }

  /** A chunk became durable: history it gathered while streaming moves to its now-known source. */
  function Populate(l: Ledger, id: ChunkId, size: nat, source: ChunkSource, now: nat): Ledger {
    var (carried, firstUse, lastUse) := History(l, id);
    PutIn(TakenOut(l, id, now), id, ChunkRec(source, now, size, carried, firstUse, lastUse))
  }

  /** A record enters: its size is credited as fetched unless nobody here fetched it. */
  function PutIn(l: Ledger, id: ChunkId, rec: ChunkRec): Ledger {
    l.(live := l.live[id := rec],
       fetched := if rec.source == Preexisting then l.fetched else Add(l.fetched, Slot(rec.source), rec.size),
       delivered := Add(l.delivered, Slot(rec.source), rec.delivered))
  }

  function Deliver(l: Ledger, id: ChunkId, chunkLen: nat, bytes: nat, now: nat): Ledger {
    if bytes == 0 then l
    else
      var rec := if id in l.live then l.live[id] else ChunkRec(Preexisting, now, chunkLen, 0, None, None);
      var first := rec.firstUse.None?;
      l.(live := l.live[id := rec.(delivered := rec.delivered + bytes, lastUse := Some(now),
                                   firstUse := if first then Some(now) else rec.firstUse)],
         delivered := Add(l.delivered, Slot(rec.source), bytes),
         reuse := if first && rec.source != Preexisting then Add(l.reuse, Bucket(Minus(now, rec.populatedAt)), 1)
                  else l.reuse)
  }

  function Evict(l: Ledger, id: ChunkId, size: nat): Ledger {
    if id !in l.live then l.(evictedUnused := Add(l.evictedUnused, Slot(Preexisting), size))
    else
      var rec := l.live[id];
      var gone := l.(live := l.live - {id});
      if rec.delivered > 0 then gone.(evictedUsed := Add(l.evictedUsed, Slot(rec.source), rec.size))
      else gone.(evictedUnused := Add(l.evictedUnused, Slot(rec.source), rec.size))
  }

  // ---- the object ----

  class ChunkValueLedger {
    var live: map<ChunkId, ChunkRec>
    const fetched: array<nat>
    const delivered: array<nat>
    const evictedUsed: array<nat>
    const evictedUnused: array<nat>
    const reuse: array<nat>

    ghost function Footprint(): set<object> {
      {this, fetched, delivered, evictedUsed, evictedUnused, reuse}
    }

    /** The arrays have their fixed lengths and share no storage. */
    ghost predicate Valid() {
      && fetched.Length == delivered.Length == evictedUsed.Length == evictedUnused.Length == SOURCES
      && reuse.Length == BUCKETS
      && fetched != delivered && fetched != evictedUsed && fetched != evictedUnused && fetched != reuse
      && delivered != evictedUsed && delivered != evictedUnused && delivered != reuse
      && evictedUsed != evictedUnused && evictedUsed != reuse && evictedUnused != reuse
    }

    ghost function Value(): Ledger
      requires Valid()
      reads Footprint()
    {
      Ledger(live, fetched[..], delivered[..], evictedUsed[..], evictedUnused[..], reuse[..])
    }

    constructor ()
      ensures Valid() && fresh(Footprint()) && Value() == FRESH
    {
      live := map[];
      fetched, delivered := new nat[SOURCES](_ => 0), new nat[SOURCES](_ => 0);
      evictedUsed, evictedUnused := new nat[SOURCES](_ => 0), new nat[SOURCES](_ => 0);
      reuse := new nat[BUCKETS](_ => 0);
      new;
      assert fetched[..] == ZEROS && delivered[..] == ZEROS && evictedUsed[..] == ZEROS;
      assert evictedUnused[..] == ZEROS && reuse[..] == [0, 0, 0, 0, 0, 0, 0];
    }

    /** Take a record out, with its deliveries and the reuse it stands for. */
    method TakeRecord(id: ChunkId, now: nat) returns (carried: nat, firstUse: Option<nat>, lastUse: Option<nat>)
      requires Valid()
      modifies this, delivered, reuse
      ensures Value() == TakenOut(old(Value()), id, now)
      ensures (carried, firstUse, lastUse) == History(old(Value()), id)
    {
      carried, firstUse, lastUse := 0, None, None;
      if id in live {
        var prev := live[id];
        live := live - {id};
        delivered[Slot(prev.source)] := Minus(delivered[Slot(prev.source)], prev.delivered);
        carried, firstUse, lastUse := prev.delivered, prev.firstUse, prev.lastUse;
        if firstUse.Some? {
          var b := Bucket(Minus(firstUse.value, now));
          reuse[b] := reuse[b] + 1;
        }
      }
    }

    method RecordPopulate(id: ChunkId, size: nat, source: ChunkSource, now: nat)
      requires Valid()
      modifies Footprint()
      ensures Value() == Populate(old(Value()), id, size, source, now)
    {
      var carried, firstUse, lastUse := TakeRecord(id, now);
      if source != Preexisting {
        fetched[Slot(source)] := fetched[Slot(source)] + size;
      }
      delivered[Slot(source)] := delivered[Slot(source)] + carried;
      live := live[id := ChunkRec(source, now, size, carried, firstUse, lastUse)];
    }

    method RecordDeliver(id: ChunkId, chunkLen: nat, bytes: nat, now: nat)
      requires Valid()
      modifies Footprint()
      ensures Value() == Deliver(old(Value()), id, chunkLen, bytes, now)
    {
      if bytes == 0 {
        return;
      }
      var rec := if id in live then live[id] else ChunkRec(Preexisting, now, chunkLen, 0, None, None);
      if rec.firstUse.None? && rec.source != Preexisting {
        var b := Bucket(Minus(now, rec.populatedAt));
        reuse[b] := reuse[b] + 1;
      }
      live := live[id := rec.(delivered := rec.delivered + bytes, lastUse := Some(now),
                              firstUse := if rec.firstUse.None? then Some(now) else rec.firstUse)];
      delivered[Slot(rec.source)] := delivered[Slot(rec.source)] + bytes;
    }

    method RecordEvict(id: ChunkId, size: nat)
      requires Valid()
      modifies Footprint()
      ensures Value() == Evict(old(Value()), id, size)
    {
      if id in live {
        var rec := live[id];
        live := live - {id};
        if rec.delivered > 0 {
          evictedUsed[Slot(rec.source)] := evictedUsed[Slot(rec.source)] + rec.size;
        } else {
          evictedUnused[Slot(rec.source)] := evictedUnused[Slot(rec.source)] + rec.size;
        }
      } else {
        evictedUnused[Slot(Preexisting)] := evictedUnused[Slot(Preexisting)] + size;
      }
    }
  }

  // ---- the ledger beside the row table ----

  ghost function SizesOf(live: map<ChunkId, ChunkRec>, s: ChunkSource): map<ChunkId, nat> {
    map id | id in live && live[id].source == s :: live[id].size
  }

  ghost function UsesOf(live: map<ChunkId, ChunkRec>, s: ChunkSource): map<ChunkId, nat> {
    map id | id in live && live[id].source == s :: live[id].delivered
  }

  /** Bytes of the live records that were fetched for reason `s`. */
  ghost function LiveBytes(l: Ledger, s: ChunkSource): nat { Sum(SizesOf(l.live, s)) }

  function Total(s: seq<nat>): nat
    requires |s| == SOURCES
  {
    s[0] + s[1] + s[2] + s[3] + s[4]
  }

  /** Every byte fetched for reason `s` is live or was evicted. */
  ghost predicate Balanced(l: Ledger, s: ChunkSource) {
    l.fetched[Slot(s)] == l.evictedUsed[Slot(s)] + l.evictedUnused[Slot(s)] + LiveBytes(l, s)
  }

  /** What the live records of a source delivered is part of the source's total. */
  ghost predicate Covered(l: Ledger, s: ChunkSource) {
    l.delivered[Slot(s)] >= Sum(UsesOf(l.live, s))
  }

  /** A live record of a fetched chunk has a row of the same size. */
  ghost predicate HasRow(l: Ledger, rows: map<ChunkId, nat>, id: ChunkId) {
    id in l.live && l.live[id].source != Preexisting ==> id in rows && rows[id] == l.live[id].size
  }

  ghost predicate InStep(l: Ledger, rows: map<ChunkId, nat>) {
    && (forall s :: s != Preexisting ==> Balanced(l, s))
    && (forall s :: Covered(l, s))
    && (forall id :: HasRow(l, rows, id))
  }

  /** Setting one record: the sums of the sources involved move by that record alone. */
  lemma {:induction false} SumsAfterSet(live: map<ChunkId, ChunkRec>, id: ChunkId, rec: ChunkRec, s: ChunkSource)
    ensures Sum(SizesOf(live[id := rec], s)) + (if id in live && live[id].source == s then live[id].size else 0)
         == Sum(SizesOf(live, s)) + (if rec.source == s then rec.size else 0)
    ensures Sum(UsesOf(live[id := rec], s)) + (if id in live && live[id].source == s then live[id].delivered else 0)
         == Sum(UsesOf(live, s)) + (if rec.source == s then rec.delivered else 0)
  {
    SumsAfterRemove(live, id, s);
    SumsAfterRemove(live[id := rec], id, s);
    assert live[id := rec] - {id} == live - {id};
  }

  lemma {:induction false} SumsAfterRemove(live: map<ChunkId, ChunkRec>, id: ChunkId, s: ChunkSource)
    ensures Sum(SizesOf(live, s))
         == Sum(SizesOf(live - {id}, s)) + (if id in live && live[id].source == s then live[id].size else 0)
    ensures Sum(UsesOf(live, s))
         == Sum(UsesOf(live - {id}, s)) + (if id in live && live[id].source == s then live[id].delivered else 0)
  {
    assert SizesOf(live - {id}, s) == SizesOf(live, s) - {id};
    assert UsesOf(live - {id}, s) == UsesOf(live, s) - {id};
    if id in live && live[id].source == s {
      SumRemove(SizesOf(live, s), id);
      SumRemove(UsesOf(live, s), id);
    } else {
      assert SizesOf(live, s) - {id} == SizesOf(live, s);
      assert UsesOf(live, s) - {id} == UsesOf(live, s);
    }
  }

  /** A record's deliveries are part of its source's total: moving them never stops at zero. */
  lemma {:induction false} DeliveredCovered(l: Ledger, rows: map<ChunkId, nat>, id: ChunkId)
    requires InStep(l, rows) && id in l.live
    ensures l.live[id].delivered <= l.delivered[Slot(l.live[id].source)]
  {
    assert Covered(l, l.live[id].source);
    SumAtLeast(UsesOf(l.live, l.live[id].source), id);
  }

  lemma {:induction false} TakeKeepsStep(l: Ledger, rows: map<ChunkId, nat>, id: ChunkId, now: nat)
    requires InStep(l, rows) && id !in rows
    ensures InStep(TakenOut(l, id, now), rows) && id !in TakenOut(l, id, now).live
    ensures Total(TakenOut(l, id, now).delivered) + History(l, id).0 == Total(l.delivered)
  {
    var n := TakenOut(l, id, now);
    if id in l.live {
      DeliveredCovered(l, rows, id);
      assert HasRow(l, rows, id);
      forall s: ChunkSource ensures (s != Preexisting ==> Balanced(n, s)) && Covered(n, s) {
        assert (s != Preexisting ==> Balanced(l, s)) && Covered(l, s);
        SumsAfterRemove(l.live, id, s);
      }
      forall other ensures HasRow(n, rows, other) {
        assert HasRow(l, rows, other);
      }
    }
  }

  lemma {:induction false} PopulateKeepsStep(l: Ledger, rows: map<ChunkId, nat>, id: ChunkId, size: nat,
                                             source: ChunkSource, now: nat)
    requires InStep(l, rows) && id !in rows
    ensures InStep(Populate(l, id, size, source, now), rows[id := size])
    ensures Total(Populate(l, id, size, source, now).delivered) == Total(l.delivered)
  {
    var (carried, firstUse, lastUse) := History(l, id);
    TakeKeepsStep(l, rows, id, now);
    PutKeepsStep(TakenOut(l, id, now), rows, id, ChunkRec(source, now, size, carried, firstUse, lastUse));
  }

  lemma {:induction false} PutKeepsStep(l: Ledger, rows: map<ChunkId, nat>, id: ChunkId, rec: ChunkRec)
    requires InStep(l, rows) && id !in l.live
    ensures InStep(PutIn(l, id, rec), rows[id := rec.size])
    ensures Total(PutIn(l, id, rec).delivered) == Total(l.delivered) + rec.delivered
  {
    var n := PutIn(l, id, rec);
    forall s: ChunkSource ensures (s != Preexisting ==> Balanced(n, s)) && Covered(n, s) {
      assert (s != Preexisting ==> Balanced(l, s)) && Covered(l, s);
      SumsAfterSet(l.live, id, rec, s);
    }
    var after := rows[id := rec.size];
    forall other ensures HasRow(n, after, other) {
      assert HasRow(l, rows, other);
    }
  }

  /** A row without a live record is allowed: it was there before this process looked. */
  lemma {:induction false} NewRowKeepsStep(l: Ledger, rows: map<ChunkId, nat>, id: ChunkId, size: nat)
    requires InStep(l, rows) && id !in rows
    ensures InStep(l, rows[id := size])
  {
    var after := rows[id := size];
    forall other ensures HasRow(l, after, other) {
      assert HasRow(l, rows, other);
    }
  }

  lemma {:induction false} DeliverKeepsStep(l: Ledger, rows: map<ChunkId, nat>, id: ChunkId, chunkLen: nat,
                                            bytes: nat, now: nat)
    requires InStep(l, rows)
    ensures InStep(Deliver(l, id, chunkLen, bytes, now), rows)
    ensures Total(Deliver(l, id, chunkLen, bytes, now).delivered) == Total(l.delivered) + bytes
  {
    var n := Deliver(l, id, chunkLen, bytes, now);
    if bytes > 0 {
      forall s: ChunkSource ensures (s != Preexisting ==> Balanced(n, s)) && Covered(n, s) {
        assert (s != Preexisting ==> Balanced(l, s)) && Covered(l, s);
        SumsAfterSet(l.live, id, n.live[id], s);
      }
      forall other ensures HasRow(n, rows, other) {
        assert HasRow(l, rows, other);
      }
    }
  }

  lemma {:induction false} EvictKeepsStep(l: Ledger, rows: map<ChunkId, nat>, id: ChunkId, size: nat)
    requires InStep(l, rows)
    ensures InStep(Evict(l, id, size), rows - {id})
    ensures Evict(l, id, size).delivered == l.delivered
  {
    hide SizesOf, UsesOf;
    var n := Evict(l, id, size);
    forall s: ChunkSource ensures (s != Preexisting ==> Balanced(n, s)) && Covered(n, s) {
      assert (s != Preexisting ==> Balanced(l, s)) && Covered(l, s);
      SumsAfterRemove(l.live, id, s);
      if id !in l.live {
        assert l.live - {id} == l.live;
      }
    }
    hide Balanced, Covered;
    var after := rows - {id};
    forall other ensures HasRow(n, after, other) {
      assert HasRow(l, rows, other);
    }
  }

  // ---- histories ----

  datatype Event =
    | Publish(id: ChunkId, size: nat, source: ChunkSource, now: nat)
    | Delivery(id: ChunkId, chunkLen: nat, bytes: nat, now: nat)
    | Eviction(id: ChunkId)

  /** The row table and the ledger, moved together: only a new row populates, only a removed row evicts. */
  function Next(rows: map<ChunkId, nat>, l: Ledger, e: Event): (map<ChunkId, nat>, Ledger) {
    match e
    case Publish(id, size, source, now) =>
      if id in rows then (rows, l) else (rows[id := size], Populate(l, id, size, source, now))
    case Delivery(id, chunkLen, bytes, now) => (rows, Deliver(l, id, chunkLen, bytes, now))
    case Eviction(id) => if id in rows then (rows - {id}, Evict(l, id, rows[id])) else (rows, l)
  }

  /** The rows and the ledger after a history: a process finds the rows of earlier ones and starts a fresh ledger. */
  function Run(found: map<ChunkId, nat>, evs: seq<Event>): (map<ChunkId, nat>, Ledger) {
    if evs == [] then (found, FRESH)
    else
      var (rows, l) := Run(found, evs[..|evs| - 1]);
      Next(rows, l, evs[|evs| - 1])
  }

  ghost function BytesDelivered(evs: seq<Event>): nat {
    if evs == [] then 0
    else BytesDelivered(evs[..|evs| - 1]) + if evs[|evs| - 1].Delivery? then evs[|evs| - 1].bytes else 0
  }

  lemma {:induction false} FreshInStep(rows: map<ChunkId, nat>)
    ensures InStep(FRESH, rows)
  {
    forall s: ChunkSource ensures Balanced(FRESH, s) && Covered(FRESH, s) {
    }
    forall id ensures HasRow(FRESH, rows, id) {
    }
  }

  /** From a fresh ledger on, beside whatever rows were found, over every history: fetched bytes are live or
      evicted, live fetched records are rows of the same size, and every delivered byte is counted under exactly
      one source. */
  lemma {:induction false} LedgerInLockstep(found: map<ChunkId, nat>, evs: seq<Event>)
    ensures var (rows, l) := Run(found, evs);
      InStep(l, rows) && Total(l.delivered) == BytesDelivered(evs)
  {
    if evs == [] {
      FreshInStep(found);
    } else {
      var front, last := evs[..|evs| - 1], evs[|evs| - 1];
      LedgerInLockstep(found, front);
      var (rows, l) := Run(found, front);
      match last {
        case Publish(id, size, source, now) =>
          if id !in rows { PopulateKeepsStep(l, rows, id, size, source, now); }
        case Delivery(id, chunkLen, bytes, now) =>
          DeliverKeepsStep(l, rows, id, chunkLen, bytes, now);
        case Eviction(id) =>
          if id in rows { EvictKeepsStep(l, rows, id, rows[id]); }
      }
    }
  }

  // ---- the same accounts, read off the events ----

  /** The event removes the row of chunk `id`. */
  ghost predicate Removes(found: map<ChunkId, nat>, front: seq<Event>, e: Event, id: ChunkId) {
    e == Eviction(id) && id in Run(found, front).0
  }

  /** The event inserts the row of chunk `id`. */
  ghost predicate Inserts(found: map<ChunkId, nat>, front: seq<Event>, e: Event, id: ChunkId) {
    e.Publish? && e.id == id && id !in Run(found, front).0
  }

  /** Bytes read from a chunk since its row last went. */
  ghost function ReadSince(found: map<ChunkId, nat>, evs: seq<Event>, id: ChunkId): nat {
    if evs == [] then 0
    else
      var front, e := evs[..|evs| - 1], evs[|evs| - 1];
      if Removes(found, front, e, id) then 0
      else ReadSince(found, front, id) + if e.Delivery? && e.id == id then e.bytes else 0
  }

  /** What the chunk was last fetched for, if its row did not go since. */
  ghost function FetchedAs(found: map<ChunkId, nat>, evs: seq<Event>, id: ChunkId): ChunkSource {
    if evs == [] then Preexisting
    else
      var front, e := evs[..|evs| - 1], evs[|evs| - 1];
      if Removes(found, front, e, id) then Preexisting
      else if Inserts(found, front, e, id) then e.source
      else FetchedAs(found, front, id)
  }

  /** When the chunk was first read since its row last went. */
  ghost function FirstRead(found: map<ChunkId, nat>, evs: seq<Event>, id: ChunkId): Option<nat> {
    if evs == [] then None
    else
      var front, e := evs[..|evs| - 1], evs[|evs| - 1];
      if Removes(found, front, e, id) then None
      else if FirstRead(found, front, id).None? && Reads(e, id) then Some(e.now) else FirstRead(found, front, id)
  }

  /** When it was last read. */
  ghost function LastRead(found: map<ChunkId, nat>, evs: seq<Event>, id: ChunkId): Option<nat> {
    if evs == [] then None
    else
      var front, e := evs[..|evs| - 1], evs[|evs| - 1];
      if Removes(found, front, e, id) then None
      else if Reads(e, id) then Some(e.now) else LastRead(found, front, id)
  }

  ghost predicate Reads(e: Event, id: ChunkId) { e.Delivery? && e.id == id && e.bytes > 0 }

  /** When its row was inserted, if it is still there. */
  ghost function PublishedAt(found: map<ChunkId, nat>, evs: seq<Event>, id: ChunkId): Option<nat> {
    if evs == [] then None
    else
      var front, e := evs[..|evs| - 1], evs[|evs| - 1];
      if Removes(found, front, e, id) then None
      else if Inserts(found, front, e, id) then Some(e.now) else PublishedAt(found, front, id)
  }

  datatype Account = Account(fetched: nat, used: nat, unused: nat)

  /** Bytes fetched for `s`, and bytes of chunks last fetched for `s` that left the store read or unread. Nothing
      is fetched as Preexisting: that is what chunks are which this process found. */
  ghost function AccountOf(found: map<ChunkId, nat>, evs: seq<Event>, s: ChunkSource): Account {
    if evs == [] then Account(0, 0, 0)
    else
      var front, e := evs[..|evs| - 1], evs[|evs| - 1];
      NextAccount(AccountOf(found, front, s), s, Run(found, front).0, e, FetchedAs(found, front, e.id),
                  ReadSince(found, front, e.id))
  }

  /** The account after an event on a chunk that was last fetched as `had` and read for `read` bytes. */
  ghost function NextAccount(a: Account, s: ChunkSource, rows: map<ChunkId, nat>, e: Event, had: ChunkSource, read: nat)
    : Account
  {
    match e
    case Publish(id, size, source, _) =>
      if id !in rows && source == s && s != Preexisting then a.(fetched := a.fetched + size) else a
    case Eviction(id) =>
      if id !in rows || had != s then a
      else if read > 0 then a.(used := a.used + rows[id])
      else a.(unused := a.unused + rows[id])
    case _ => a
  }

  ghost predicate RecordTells(found: map<ChunkId, nat>, evs: seq<Event>, id: ChunkId) {
    var l := Run(found, evs).1;
    var first, latest := FirstRead(found, evs, id), LastRead(found, evs, id);
    if id in l.live
    then
      var rec := l.live[id];
      && rec.delivered == ReadSince(found, evs, id) && rec.source == FetchedAs(found, evs, id)
      && rec.firstUse == first && rec.lastUse == latest
      && var published := PublishedAt(found, evs, id);
         Some(rec.populatedAt) == if published.Some? then published else first
    else
      && ReadSince(found, evs, id) == 0 && FetchedAs(found, evs, id) == Preexisting
      && first == latest == PublishedAt(found, evs, id) == None
  }

  /** What one event does to the record of a chunk. */
  lemma {:induction false} RecordAfter(rows: map<ChunkId, nat>, l: Ledger, e: Event, id: ChunkId)
    ensures var live, n := l.live, Next(rows, l, e).1.live;
      var read := if id in live then live[id].delivered else 0;
      var had := if id in live then live[id].source else Preexisting;
      var first := if id in live then live[id].firstUse else None;
      var latest := if id in live then live[id].lastUse else None;
      if e == Eviction(id) && id in rows then id !in n
      else if e.Publish? && e.id == id && id !in rows
        then id in n && n[id] == ChunkRec(e.source, e.now, e.size, read, first, latest)
      else if Reads(e, id)
        then id in n && n[id].source == had && n[id].delivered == read + e.bytes && n[id].lastUse == Some(e.now)
             && n[id].firstUse == (if first.None? then Some(e.now) else first)
             && n[id].populatedAt == (if id in live then live[id].populatedAt else e.now)
      else (id in n <==> id in live) && (id in n ==> n[id] == live[id])
  {
  }

  /** A live record knows what was read of its chunk and what the chunk was fetched for. */
  lemma {:induction false} RecordsTellHistory(found: map<ChunkId, nat>, evs: seq<Event>, id: ChunkId)
    ensures RecordTells(found, evs, id)
  {
    if evs != [] {
      var front, e := evs[..|evs| - 1], evs[|evs| - 1];
      RecordsTellHistory(found, front, id);
      assert Run(found, evs) == Next(Run(found, front).0, Run(found, front).1, e);
      RecordAfter(Run(found, front).0, Run(found, front).1, e, id);
      hide Next;
    }
  }

  /** Every delivery from a row names that row's size. */
  ghost predicate LengthsAgree(found: map<ChunkId, nat>, evs: seq<Event>) {
    evs == [] ||
    (var front, e := evs[..|evs| - 1], evs[|evs| - 1];
     && LengthsAgree(found, front)
     && (e.Delivery? && e.id in Run(found, front).0 ==> e.chunkLen == Run(found, front).0[e.id]))
  }

  /** Then a live record beside a row has the row's size. */
  lemma {:induction false} RecordSizesAgree(found: map<ChunkId, nat>, evs: seq<Event>, id: ChunkId)
    requires LengthsAgree(found, evs)
    ensures var (rows, l) := Run(found, evs); id in l.live && id in rows ==> l.live[id].size == rows[id]
  {
    if evs != [] {
      var front, e := evs[..|evs| - 1], evs[|evs| - 1];
      RecordSizesAgree(found, front, id);
      assert Run(found, evs) == Next(Run(found, front).0, Run(found, front).1, e);
    }
  }

  /** Every source's totals are exactly what the events say: bytes fetched for it, and bytes of it that left
      the store after being read or without ever being read. The chunks this process found, which are filed
      as Preexisting, need deliveries that name their rows' sizes. */
  lemma {:induction false} AccountsFollowEvents(found: map<ChunkId, nat>, evs: seq<Event>, s: ChunkSource)
    requires s != Preexisting || LengthsAgree(found, evs)
    ensures var l := Run(found, evs).1;
      AccountOf(found, evs, s) == Filed(l, s)
  {
    if evs == [] {
      assert AccountOf(found, evs, s) == Account(0, 0, 0);
    } else {
      var front, e := evs[..|evs| - 1], evs[|evs| - 1];
      AccountsFollowEvents(found, front, s);
      LedgerInLockstep(found, front);
      RecordsTellHistory(found, front, e.id);
      assert HasRow(Run(found, front).1, Run(found, front).0, e.id);
      if s == Preexisting { RecordSizesAgree(found, front, e.id); }
      assert Run(found, evs) == Next(Run(found, front).0, Run(found, front).1, e);
      hide Run, InStep, Next;
      EventFiles(Run(found, front).0, Run(found, front).1, e, s, FetchedAs(found, front, e.id),
                 ReadSince(found, front, e.id));
      hide NextAccount, FetchedAs, ReadSince;
    }
  }

  /** The totals the ledger has filed under a source. */
  ghost function Filed(l: Ledger, s: ChunkSource): Account {
    Account(l.fetched[Slot(s)], l.evictedUsed[Slot(s)], l.evictedUnused[Slot(s)])
  }

  /** One event is filed under the source its chunk was last fetched for. */
  lemma {:induction false} EventFiles(rows: map<ChunkId, nat>, l: Ledger, e: Event, s: ChunkSource, had: ChunkSource,
                                      read: nat)
    requires e.id in l.live ==> l.live[e.id].delivered == read && l.live[e.id].source == had
    requires e.id !in l.live ==> read == 0 && had == Preexisting
    requires e.id in rows && e.id in l.live && had == s ==> l.live[e.id].size == rows[e.id]
    ensures Filed(Next(rows, l, e).1, s) == NextAccount(Filed(l, s), s, rows, e, had, read)
  {
  }

  // ---- deliveries and reuse, read off the events ----

  /** Bytes delivered under `s`: each delivery under what its chunk was fetched for so far, moved to the reason for
      which the chunk is published if that happens later. */
  ghost function DeliveredFor(found: map<ChunkId, nat>, evs: seq<Event>, s: ChunkSource): nat {
    if evs == [] then 0
    else
      var front, e := evs[..|evs| - 1], evs[|evs| - 1];
      var before := DeliveredFor(found, front, s);
      var had, read := FetchedAs(found, front, e.id), ReadSince(found, front, e.id);
      if e.Delivery? then before + (if had == s then e.bytes else 0)
      else if Inserts(found, front, e, e.id)
        then Minus(before, if had == s then read else 0) + (if e.source == s then read else 0)
      else before
  }

  /** How many chunks had their first use in each latency bucket: at once if they were read before they were
      published, otherwise by the time from publishing to the first read. Chunks that nobody here fetched have no
      such time. */
  ghost function ReuseOf(found: map<ChunkId, nat>, evs: seq<Event>): (reuse: seq<nat>)
    ensures |reuse| == BUCKETS
  {
    if evs == [] then seq(BUCKETS, _ => 0)
    else
      var front, e := evs[..|evs| - 1], evs[|evs| - 1];
      var reuse, first := ReuseOf(found, front), FirstRead(found, front, e.id);
      if Inserts(found, front, e, e.id) && first.Some? then OneMore(reuse, Bucket(Minus(first.value, e.now)))
      else if Reads(e, e.id) && first.None? && FetchedAs(found, front, e.id) != Preexisting
              && PublishedAt(found, front, e.id).Some?
        then OneMore(reuse, Bucket(Minus(e.now, PublishedAt(found, front, e.id).value)))
      else reuse
  }

  ghost function OneMore(reuse: seq<nat>, b: nat): seq<nat>
    requires b < |reuse|
  {
    reuse[b := reuse[b] + 1]
  }

  lemma {:induction false} DeliveriesFollowEvents(found: map<ChunkId, nat>, evs: seq<Event>, s: ChunkSource)
    ensures Run(found, evs).1.delivered[Slot(s)] == DeliveredFor(found, evs, s)
  {
    if evs != [] {
      var front, e := evs[..|evs| - 1], evs[|evs| - 1];
      DeliveriesFollowEvents(found, front, s);
      RecordsTellHistory(found, front, e.id);
      assert Run(found, evs) == Next(Run(found, front).0, Run(found, front).1, e);
      hide Run, FetchedAs, ReadSince, FirstRead, LastRead, PublishedAt, Next;
      EventDelivers(Run(found, front).0, Run(found, front).1, e, s, FetchedAs(found, front, e.id),
                    ReadSince(found, front, e.id));
    }
  }

  lemma {:induction false} EventDelivers(rows: map<ChunkId, nat>, l: Ledger, e: Event, s: ChunkSource,
                                         had: ChunkSource, read: nat)
    requires e.id in l.live ==> l.live[e.id].delivered == read && l.live[e.id].source == had
    requires e.id !in l.live ==> read == 0 && had == Preexisting
    ensures var was, now := l.delivered[Slot(s)], Next(rows, l, e).1.delivered[Slot(s)];
      now == if e.Delivery? then was + (if had == s then e.bytes else 0)
             else if e.Publish? && e.id !in rows
               then Minus(was, if had == s then read else 0) + (if e.source == s then read else 0)
             else was
  {
    hide Bucket;
  }

  lemma {:induction false} ReuseFollowsEvents(found: map<ChunkId, nat>, evs: seq<Event>)
    ensures Run(found, evs).1.reuse == ReuseOf(found, evs)
  {
    if evs != [] {
      var front, e := evs[..|evs| - 1], evs[|evs| - 1];
      ReuseFollowsEvents(found, front);
      RecordsTellHistory(found, front, e.id);
      assert Run(found, evs) == Next(Run(found, front).0, Run(found, front).1, e);
      hide Run, FetchedAs, ReadSince, FirstRead, LastRead, PublishedAt, Bucket, Next;
      EventReuses(Run(found, front).0, Run(found, front).1, e, FetchedAs(found, front, e.id),
                  FirstRead(found, front, e.id), PublishedAt(found, front, e.id));
    }
  }

  lemma {:induction false} EventReuses(rows: map<ChunkId, nat>, l: Ledger, e: Event, had: ChunkSource,
                                       first: Option<nat>, published: Option<nat>)
    requires e.id in l.live ==>
      var rec := l.live[e.id];
      && rec.source == had && rec.firstUse == first
      && Some(rec.populatedAt) == if published.Some? then published else first
    requires e.id !in l.live ==> had == Preexisting && first == published == None
    ensures Next(rows, l, e).1.reuse ==
      if e.Publish? && e.id !in rows && first.Some? then OneMore(l.reuse, Bucket(Minus(first.value, e.now)))
      else if Reads(e, e.id) && first.None? && had != Preexisting && published.Some?
        then OneMore(l.reuse, Bucket(Minus(e.now, published.value)))
      else l.reuse
  {
    hide Bucket;
  }

  /** The size a reader names does matter for the chunks found: four bytes read from a row of three are filed
      as a chunk of four when the row goes. */
  lemma {:induction false} NamedSizeIsFiled(id: ChunkId)
    ensures var found, evs := map[id := 3], [Delivery(id, 4, 4, 0), Eviction(id)];
      AccountOf(found, evs, Preexisting).used == 3 && Run(found, evs).1.evictedUsed[Slot(Preexisting)] == 4
  {
    var found, evs := map[id := 3], [Delivery(id, 4, 4, 0), Eviction(id)];
    assert evs[..1] == [Delivery(id, 4, 4, 0)] && evs[..1][..0] == [];
    assert Run(found, []) == (found, FRESH);
    assert Run(found, evs[..1]) == (found, Deliver(FRESH, id, 4, 4, 0));
    assert ReadSince(found, [], id) == 0 && ReadSince(found, evs[..1], id) == 4;
    assert FetchedAs(found, [], id) == Preexisting && FetchedAs(found, evs[..1], id) == Preexisting;
    assert AccountOf(found, [], Preexisting) == Account(0, 0, 0);
    assert AccountOf(found, evs[..1], Preexisting) == Account(0, 0, 0);
  }

  /** Bytes streamed to a reader before the chunk was published end up under the fetch's source,
      and the chunk's one reuse is filed as immediate. */
  lemma {:induction false} EarlyDeliveryMoves(l: Ledger, id: ChunkId, len: nat, bytes: nat, source: ChunkSource,
                                              t: nat, now: nat)
    requires id !in l.live && bytes > 0 && source != Preexisting && t <= now
    ensures var n := Populate(Deliver(l, id, len, bytes, t), id, len, source, now);
      && n.delivered == Add(l.delivered, Slot(source), bytes)
      && n.reuse == Add(l.reuse, 0, 1)
      && n.live[id].delivered == bytes && n.live[id].source == source
  {
    var mid := Deliver(l, id, len, bytes, t);
    assert mid.delivered[Slot(Preexisting) := l.delivered[Slot(Preexisting)]] == l.delivered;
  }

  /** Populating a chunk that already has a fetched record would break the balance: publishing must be
      guarded by the row table. */
  lemma {:induction false} RepublishingUnbalances(id: ChunkId, size: nat)
    requires size > 0
    ensures var l := Populate(Populate(FRESH, id, size, Prefetch, 0), id, size, Prefetch, 0);
      !Balanced(l, Prefetch)
  {
    var l := Populate(Populate(FRESH, id, size, Prefetch, 0), id, size, Prefetch, 0);
    SumsAfterSet(map[], id, l.live[id], Prefetch);
    assert l.live == map[id := l.live[id]];
    assert Balanced(FRESH, Prefetch);
  }
}
