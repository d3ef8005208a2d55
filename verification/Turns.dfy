/** What one turn at one slot does to its pool, its breaker and the shared backoff ledger. */
module Turns {
  import opened Outcomes
  import opened Capability
  import opened RetryAfter
  import opened Placement
  import opened Failover
  import opened Routes

  // ---- filling the pool ----

  /** From position `from` on, `n` answers in a row are capabilities that somebody else holds. */
  ghost predicate AllTaken(i: nat, from: nat, n: nat, read: Read) {
    forall j :: from <= j < from + n ==> read.provider(i, j).Ok? && !read.provider(i, j).value.free
  }

  /** `after` is `before` with the `n` answers from position |before| on appended. */
  ghost predicate Appended(before: seq<Cap>, n: nat, i: nat, read: Read, after: seq<Cap>) {
    && |after| >= |before| + n && after[..|before|] == before
    && forall j :: |before| <= j < |before| + n ==> read.provider(i, j) == Ok(after[j])
  }

  /** A fill appends held capabilities until the pool is full, a free one comes, or the provider refuses. */
  ghost predicate FillEnds(s: Slot, blocked: Deadlines, i: nat, read: Read, n: nat) {
    var (t, told, done) := Fill(s, blocked, i, read);
    && AllTaken(i, |s.caps|, n, read) && Appended(s.caps, n, i, read, t.caps)
    && t == Slot(s.coord, t.breaker, t.caps, s.target)
    && match done
       case None =>
         |t.caps| == |s.caps| + n && |t.caps| >= s.target && (n > 0 ==> |t.caps| == s.target)
         && t.breaker == s.breaker && told == blocked
       case Some(Ok(p)) =>
         p == |s.caps| + n < s.target && |t.caps| == p + 1 && read.provider(i, p) == Ok(t.caps[p].(free := true))
         && !t.caps[p].free && t.breaker == s.breaker && told == blocked
       case Some(Err(e)) =>
         |t.caps| == |s.caps| + n < s.target && read.provider(i, |t.caps|) == Err(e)
         && t.breaker == AfterFailure(BREAKER, s.breaker, read.clock(i))
         && told == Directed(blocked, s.coord, e, read.clock(i))
  }

  lemma {:induction false} FillExactly(s: Slot, blocked: Deadlines, i: nat, read: Read) returns (n: nat)
    requires s.breaker.openedAt.None?
    ensures FillEnds(s, blocked, i, read, n)
    decreases s.target - |s.caps|
  {
    n := 0;
    if |s.caps| < s.target {
      var answer := read.provider(i, |s.caps|);
      if answer.Ok? && !answer.value.free {
        var more := s.(caps := s.caps + [answer.value]);
        var m := FillExactly(more, blocked, i, read);
        n := m + 1;
        assert Fill(s, blocked, i, read) == Fill(more, blocked, i, read);
        FillShifts(s, blocked, i, read, m);
      }
    }
  }

  lemma {:induction false} FillShifts(s: Slot, blocked: Deadlines, i: nat, read: Read, m: nat)
    requires |s.caps| < s.target && read.provider(i, |s.caps|).Ok? && !read.provider(i, |s.caps|).value.free
    requires var more := s.(caps := s.caps + [read.provider(i, |s.caps|).value]);
      Fill(s, blocked, i, read) == Fill(more, blocked, i, read) && FillEnds(more, blocked, i, read, m)
    ensures FillEnds(s, blocked, i, read, m + 1)
  {
    hide Fill, AfterFailure, Directed;
    var caps, t := s.caps, Fill(s, blocked, i, read).0.caps;
    var longer := caps + [read.provider(i, |caps|).value];
    assert t[..|longer|] == longer;
    assert t[..|caps|] == longer[..|caps|] == caps;
    assert t[|caps|] == longer[|caps|];
  }

  // ---- one slot ----

  ghost function Pool(s: Slot, read: Read): seq<Cap> { Kept(s.caps, read.now) }

  /** A pool whose usable capabilities include one in somebody's hands may grow by one, up to the bound. */
  ghost function Target(s: Slot, poolMax: nat, read: Read): nat {
    if s.target < poolMax && exists c :: c in Pool(s, read) && Fits(Busy, c, read.now) then s.target + 1 else s.target
  }

  /** Directives are kept per provider and account, whatever the resource or file. */
  ghost function Account(c: Coord): Scope { Scope.Scope(c.provider, c.account) }

  /** The account is not backed off and nothing in the pool is free. */
  ghost predicate MustAsk(s: Slot, blocked: Deadlines, i: nat, read: Read) {
    && Remaining(blocked, Account(s.coord), read.clock(i)).None?
    && forall k :: 0 <= k < |Pool(s, read)| ==> !Fits(Free, Pool(s, read)[k], read.now)
  }

  /** The turn asks the provider for pool position `pos`. */
  ghost predicate Consulted(s: Slot, blocked: Deadlines, i: nat, poolMax: nat, read: Read, pos: nat) {
    && MustAsk(s, blocked, i, read)
    && |Pool(s, read)| <= pos < Target(s, poolMax, read)
    && AllTaken(i, |Pool(s, read)|, pos - |Pool(s, read)|, read)
  }

  /** The pool was empty and every capability obtained was dead or expired when it came. */
  ghost predicate DeadOnArrival(s: Slot, blocked: Deadlines, i: nat, read: Read) {
    && MustAsk(s, blocked, i, read) && Pool(s, read) == []
    && AllTaken(i, 0, s.target, read)
    && forall j :: 0 <= j < s.target ==> !Fits(Waitable, read.provider(i, j).value, read.now)
  }

  const NO_CAPABILITY := NoCapability("slot has no usable capability", false)

  lemma {:induction false} KeptSurvive(caps: seq<Cap>, now: nat)
    ensures |Kept(caps, now)| <= |caps|
    ensures forall c :: c in Kept(caps, now) <==> c in caps && !Prunable(c, now)
  {
    if caps != [] {
      KeptSurvive(caps[..|caps| - 1], now);
      assert caps == caps[..|caps| - 1] + [caps[|caps| - 1]];
    }
  }

  /** `kept` are the entries that are neither dead nor expired, each once and in order; `at` says where they stood. */
  ghost predicate InOrder(caps: seq<Cap>, now: nat, kept: seq<Cap>, at: seq<nat>) {
    && |at| == |kept|
    && (forall j, k :: 0 <= j < k < |at| ==> at[j] < at[k])
    && (forall k :: 0 <= k < |at| ==> at[k] < |caps| && kept[k] == caps[at[k]])
    && (forall p :: 0 <= p < |caps| ==> (p in at <==> StillGood(caps[p], now)))
  }

  /** Pruning keeps the order. */
  lemma {:induction false} KeptInOrder(caps: seq<Cap>, now: nat) returns (at: seq<nat>)
    ensures InOrder(caps, now, Kept(caps, now), at)
  {
    hide InOrder, Prunable, StillGood;
    at := [];
    if caps == [] {
      NothingKept(now);
    } else {
      var front, last := caps[..|caps| - 1], caps[|caps| - 1];
      at := KeptInOrder(front, now);
      OrderKept(front, now, Kept(front, now), at, last);
      assert front + [last] == caps;
      if !Prunable(last, now) { at := at + [|front|]; }
    }
  }

  lemma {:induction false} NothingKept(now: nat)
    ensures InOrder([], now, [], [])
  {
  }

  lemma {:induction false} OrderKept(caps: seq<Cap>, now: nat, kept: seq<Cap>, at: seq<nat>, c: Cap)
    requires InOrder(caps, now, kept, at)
    ensures if Prunable(c, now) then InOrder(caps + [c], now, kept, at)
            else InOrder(caps + [c], now, kept + [c], at + [|caps|])
  {
    assert Prunable(c, now) <==> !StillGood(c, now);
    hide Prunable, StillGood;
    assert |caps| !in at;
    forall p | 0 <= p < |caps| ensures (caps + [c])[p] == caps[p] {}
  }

  lemma {:induction false} GrownTarget(s: Slot, poolMax: nat, read: Read)
    requires s.breaker.openedAt.None?
    ensures Grown(s.(caps := Pool(s, read)), poolMax, read.now) ==
      s.(caps := Pool(s, read), target := Target(s, poolMax, read))
  {
    var found := FirstThat(Busy, Pool(s, read), read.now);
    if found.Some? { assert Pool(s, read)[found.value] in Pool(s, read); }
  }

  /** How a turn goes on when it must ask. */
  lemma {:induction false} AskingTurn(s: Slot, blocked: Deadlines, i: nat, poolMax: nat, read: Read) returns (n: nat)
    requires s.breaker.openedAt.None? && MustAsk(s, blocked, i, read)
    ensures var ready := s.(caps := Pool(s, read), target := Target(s, poolMax, read));
      var asked := Prune(blocked, read.clock(i));
      var (t, told, done) := Fill(ready, asked, i, read);
      && FillEnds(ready, asked, i, read, n)
      && SlotTurn(s, blocked, i, poolMax, read) ==
           match done
           case Some(r) => Turn(t, told, r)
           case None => var (waited, r) := WaitForPermit(t, read.now); Turn(waited, told, r)
  {
    GrownTarget(s, poolMax, read);
    n := FillExactly(s.(caps := Pool(s, read), target := Target(s, poolMax, read)), Prune(blocked, read.clock(i)), i,
                     read);
    hide Fill, Target, WaitForPermit, FillEnds, Grown;
  }

  /** The pool keeps what survives pruning, gains only what the provider answered, and loses at most one
      permit: the one that is returned. */
  ghost predicate PoolAfter(pool: seq<Cap>, i: nat, read: Read, caps: seq<Cap>, result: Result<nat, AcquireError>) {
    && |pool| <= |caps| && (result.Ok? ==> result.value < |caps|)
    && forall j :: 0 <= j < |caps| ==>
         && (j >= |pool| ==> read.provider(i, j).Ok?)
         && var was := if j < |pool| then pool[j] else read.provider(i, j).value;
            if result == Ok(j) then caps[j] == was.(free := false)
            else caps[j] == was && (j >= |pool| ==> !was.free)
  }

  lemma {:induction false} WaitingTakesOne(s: Slot, pool: seq<Cap>, i: nat, read: Read)
    requires PoolAfter(pool, i, read, s.caps, Err(NO_CAPABILITY))
    ensures var (waited, r) := WaitForPermit(s, read.now);
      && PoolAfter(pool, i, read, waited.caps, r) && |waited.caps| == |s.caps| && waited.target == s.target
      && (r == Err(NO_CAPABILITY) || r.Ok?)
      && (r.Err? <==> forall k :: 0 <= k < |s.caps| ==> !Fits(Waitable, s.caps[k], read.now))
  {
  }

  lemma {:induction false} OnePermitAtMost(s: Slot, blocked: Deadlines, i: nat, poolMax: nat, read: Read)
    requires s.breaker.openedAt.None?
    ensures var turn := SlotTurn(s, blocked, i, poolMax, read);
      && PoolAfter(Pool(s, read), i, read, turn.slot.caps, turn.result)
      && |turn.slot.caps| <= Max(|Pool(s, read)|, turn.slot.target)
      && s.target <= turn.slot.target <= Target(s, poolMax, read)
  {
    hide Fill, WaitForPermit, Grown, AfterFailure, Directed;
    if MustAsk(s, blocked, i, read) {
      var n := AskingTurn(s, blocked, i, poolMax, read);
      var ready := s.(caps := Pool(s, read), target := Target(s, poolMax, read));
      hide SlotTurn, Target, Pool, MustAsk;
      FilledPool(ready, Prune(blocked, read.clock(i)), i, read, n);
      var (t, _, done) := Fill(ready, Prune(blocked, read.clock(i)), i, read);
      if done.None? { WaitingTakesOne(t, ready.caps, i, read); }
    }
  }

  lemma {:induction false} FilledPool(s: Slot, blocked: Deadlines, i: nat, read: Read, n: nat)
    requires FillEnds(s, blocked, i, read, n)
    ensures var (t, _, done) := Fill(s, blocked, i, read);
      PoolAfter(s.caps, i, read, t.caps, if done.Some? then done.value else Err(NO_CAPABILITY))
  {
    hide Fill, AfterFailure, Directed;
    var (t, _, done) := Fill(s, blocked, i, read);
    assert forall j :: 0 <= j < |s.caps| ==> t.caps[j] == t.caps[..|s.caps|][j];
    if done.Some? && done.value.Ok? {
      var p := done.value.value;
      assert read.provider(i, p).value.(free := false) == t.caps[p];
    }
  }

  // ---- why a turn fails ----

  lemma {:induction false} FillRefuses(s: Slot, blocked: Deadlines, i: nat, read: Read, n: nat, e: AcquireError)
    requires FillEnds(s, blocked, i, read, n)
    ensures Fill(s, blocked, i, read).2 == Some(Err(e)) <==>
      exists pos :: |s.caps| <= pos < s.target && AllTaken(i, |s.caps|, pos - |s.caps|, read)
        && read.provider(i, pos) == Err(e)
  {
    hide Fill, AfterFailure, Directed;
    var (t, _, done) := Fill(s, blocked, i, read);
    if done == Some(Err(e)) {
      assert AllTaken(i, |s.caps|, |t.caps| - |s.caps|, read);
    }
    forall pos | |s.caps| <= pos < s.target && AllTaken(i, |s.caps|, pos - |s.caps|, read)
      && read.provider(i, pos) == Err(e)
      ensures done == Some(Err(e))
    {
      assert pos >= |s.caps| + n;
    }
  }

  lemma {:induction false} DeadEnd(s: Slot, blocked: Deadlines, i: nat, poolMax: nat, read: Read, n: nat)
    requires s.breaker.openedAt.None? && MustAsk(s, blocked, i, read)
    requires var ready := s.(caps := Pool(s, read), target := Target(s, poolMax, read));
      FillEnds(ready, Prune(blocked, read.clock(i)), i, read, n)
    ensures var (t, _, done) :=
      Fill(s.(caps := Pool(s, read), target := Target(s, poolMax, read)), Prune(blocked, read.clock(i)), i, read);
      DeadOnArrival(s, blocked, i, read) <==>
        done.None? && forall k :: 0 <= k < |t.caps| ==> !Fits(Waitable, t.caps[k], read.now)
  {
    hide Fill, AfterFailure, Directed, FirstThat;
    var ready := s.(caps := Pool(s, read), target := Target(s, poolMax, read));
    var (t, _, done) := Fill(ready, Prune(blocked, read.clock(i)), i, read);
    if Pool(s, read) != [] {
      KeptSurvive(s.caps, read.now);
      assert Pool(s, read)[0] in Pool(s, read);
      assert t.caps[0] == t.caps[..|ready.caps|][0];
      assert Fits(Waitable, t.caps[0], read.now);
    } else {
      assert ready.target == s.target;
    }
  }

  ghost predicate Refuses(s: Slot, blocked: Deadlines, i: nat, poolMax: nat, read: Read, e: AcquireError) {
    || (Remaining(blocked, Account(s.coord), read.clock(i)).Some?
        && e == RateLimited(Remaining(blocked, Account(s.coord), read.clock(i))))
    || (exists pos :: Consulted(s, blocked, i, poolMax, read, pos) && read.provider(i, pos) == Err(e))
    || (DeadOnArrival(s, blocked, i, read) && e == NO_CAPABILITY)
  }

  /** A turn fails for one of three reasons: the account is backed off, the provider refused the position it was
      asked for, or everything it obtained was dead when it came. A slot that keeps any capability never fails
      for the third. */
  lemma {:induction false} RefusedExactly(s: Slot, blocked: Deadlines, i: nat, poolMax: nat, read: Read,
                                          e: AcquireError)
    requires s.breaker.openedAt.None?
    ensures SlotTurn(s, blocked, i, poolMax, read).result == Err(e) <==>
      Refuses(s, blocked, i, poolMax, read, e)
  {
    if MustAsk(s, blocked, i, read) {
      var n := AskingTurn(s, blocked, i, poolMax, read);
      var ready := s.(caps := Pool(s, read), target := Target(s, poolMax, read));
      var asked := Prune(blocked, read.clock(i));
      var (t, _, done) := Fill(ready, asked, i, read);
      FillRefuses(ready, asked, i, read, n, e);
      DeadEnd(s, blocked, i, poolMax, read, n);
      assert (exists pos :: Consulted(s, blocked, i, poolMax, read, pos) && read.provider(i, pos) == Err(e))
        <==> done == Some(Err(e)) by {
        hide Fill, FillEnds, SlotTurn, Target, Pool, WaitForPermit;
        forall pos | |ready.caps| <= pos < ready.target && AllTaken(i, |ready.caps|, pos - |ready.caps|, read)
          ensures Consulted(s, blocked, i, poolMax, read, pos) {}
      }
      hide Fill, FillEnds, SlotTurn, Target, Pool, DeadOnArrival, Consulted, MustAsk;
      if done.None? { WaitingFails(t, read.now); }
    } else {
      hide Fill, Grown, WaitForPermit, Target, AllTaken;
    }
  }

  lemma {:induction false} WaitingFails(s: Slot, now: nat)
    ensures var r := WaitForPermit(s, now).1;
      r == (if r.Err? then Err(NO_CAPABILITY) else r)
      && (r.Err? <==> forall k :: 0 <= k < |s.caps| ==> !Fits(Waitable, s.caps[k], now))
  {
  }

  // ---- what a turn gives ----

  /** A pool position after a fill that obtained only capabilities in other hands. */
  ghost function Seat(s: Slot, i: nat, read: Read, j: nat): Result<Cap, AcquireError> {
    if j < |Pool(s, read)| then Ok(Pool(s, read)[j]) else read.provider(i, j)
  }

  ghost predicate SeatFits(want: Want, s: Slot, i: nat, read: Read, j: nat) {
    Seat(s, i, read, j).Ok? && Fits(want, Seat(s, i, read, j).value, read.now)
  }

  /** Nothing was free, nothing free could be obtained, and `p` is the first position worth waiting for. */
  ghost predicate WaitsAt(s: Slot, blocked: Deadlines, i: nat, poolMax: nat, read: Read, p: nat) {
    && MustAsk(s, blocked, i, read)
    && AllTaken(i, |Pool(s, read)|, Minus(Target(s, poolMax, read), |Pool(s, read)|), read)
    && p < Max(|Pool(s, read)|, Target(s, poolMax, read)) && SeatFits(Waitable, s, i, read, p)
    && forall j :: 0 <= j < p ==> !SeatFits(Waitable, s, i, read, j)
  }

  ghost predicate FirstFreeAt(s: Slot, read: Read, p: nat) {
    && p < |Pool(s, read)| && Fits(Free, Pool(s, read)[p], read.now)
    && forall j :: 0 <= j < p ==> !Fits(Free, Pool(s, read)[j], read.now)
  }

  lemma {:induction false} FillGives(s: Slot, blocked: Deadlines, i: nat, read: Read, n: nat, p: nat)
    requires FillEnds(s, blocked, i, read, n)
    ensures Fill(s, blocked, i, read).2 == Some(Ok(p)) <==>
      && |s.caps| <= p < s.target && AllTaken(i, |s.caps|, p - |s.caps|, read)
      && read.provider(i, p).Ok? && read.provider(i, p).value.free
    ensures Fill(s, blocked, i, read).2.None? <==> AllTaken(i, |s.caps|, Minus(s.target, |s.caps|), read)
  {
    hide Fill, AfterFailure, Directed;
    var (t, _, done) := Fill(s, blocked, i, read);
    if |s.caps| <= p < s.target && AllTaken(i, |s.caps|, p - |s.caps|, read)
       && read.provider(i, p).Ok? && read.provider(i, p).value.free {
      assert p >= |s.caps| + n;
    }
  }

  lemma {:induction false} WaitingGives(s: Slot, blocked: Deadlines, i: nat, poolMax: nat, read: Read, n: nat, p: nat)
    requires s.breaker.openedAt.None? && MustAsk(s, blocked, i, read)
    requires var ready := s.(caps := Pool(s, read), target := Target(s, poolMax, read));
      FillEnds(ready, Prune(blocked, read.clock(i)), i, read, n)
    ensures var (t, _, done) :=
      Fill(s.(caps := Pool(s, read), target := Target(s, poolMax, read)), Prune(blocked, read.clock(i)), i, read);
      done.None? ==> (WaitForPermit(t, read.now).1 == Ok(p) <==> WaitsAt(s, blocked, i, poolMax, read, p))
  {
    hide Fill, AfterFailure, Directed, MustAsk, Pool, Target;
    assert forall c: Cap :: Suits(Waitable, c, read.now) <==> Fits(Waitable, c, read.now);
    hide Fits, Suits;
    var ready := s.(caps := Pool(s, read), target := Target(s, poolMax, read));
    var (t, _, done) := Fill(ready, Prune(blocked, read.clock(i)), i, read);
    if done.None? {
      FillGives(ready, Prune(blocked, read.clock(i)), i, read, n, 0);
      assert |t.caps| == Max(|ready.caps|, ready.target);
      forall j: nat | j < |t.caps|
        ensures SeatFits(Waitable, s, i, read, j) <==> Fits(Waitable, t.caps[j], read.now)
      {
        if j < |ready.caps| { assert t.caps[..|ready.caps|][j] == t.caps[j]; }
      }
      hide SeatFits, FillEnds, AllTaken, Appended;
      var r := FirstThat(Waitable, t.caps, read.now);
      if r.Some? { assert SeatFits(Waitable, s, i, read, r.value); }
    }
  }

  ghost predicate Gives(s: Slot, blocked: Deadlines, i: nat, poolMax: nat, read: Read, p: nat) {
    && Remaining(blocked, Account(s.coord), read.clock(i)).None?
    && (|| FirstFreeAt(s, read, p)
        || (Consulted(s, blocked, i, poolMax, read, p) && read.provider(i, p).Ok? && read.provider(i, p).value.free)
        || WaitsAt(s, blocked, i, poolMax, read, p))
  }

  /** A turn gives position `p` exactly when the account is not backed off and `p` is the first free capability
      kept, or nothing was free and the provider's answer for `p` came free, or everything is in other hands
      and `p` is the first worth waiting for. */
  lemma {:induction false} GivenExactly(s: Slot, blocked: Deadlines, i: nat, poolMax: nat, read: Read, p: nat)
    requires s.breaker.openedAt.None?
    ensures SlotTurn(s, blocked, i, poolMax, read).result == Ok(p) <==>
      Gives(s, blocked, i, poolMax, read, p)
  {
    if MustAsk(s, blocked, i, read) {
      var n := AskingTurn(s, blocked, i, poolMax, read);
      var ready := s.(caps := Pool(s, read), target := Target(s, poolMax, read));
      var asked := Prune(blocked, read.clock(i));
      FillGives(ready, asked, i, read, n, p);
      WaitingGives(s, blocked, i, poolMax, read, n, p);
      assert !FirstFreeAt(s, read, p);
      assert MustAsk(s, blocked, i, read) ==> Remaining(blocked, Account(s.coord), read.clock(i)).None?;
      hide Fill, FillEnds, SlotTurn, Target, Pool, FirstFreeAt, WaitForPermit, Seat, SeatFits, MustAsk;
    } else {
      hide Fill, Grown, WaitForPermit, Target, AllTaken, Seat, SeatFits;
    }
  }

  // ---- the turn as the pass sees it ----

  /** How many capabilities the pool has after the turn: those kept, and one for each answer up to the one that ended
      the fill. */
  ghost predicate PoolSize(s: Slot, blocked: Deadlines, i: nat, poolMax: nat, read: Read, size: nat) {
    var kept := |Pool(s, read)|;
    && (!MustAsk(s, blocked, i, read) ==> size == kept)
    && (forall pos: nat :: Consulted(s, blocked, i, poolMax, read, pos) ==>
          match read.provider(i, pos)
          case Err(_) => size == pos
          case Ok(c) => if c.free then size == pos + 1 else size > pos)
    && (MustAsk(s, blocked, i, read) && AllTaken(i, kept, Minus(Target(s, poolMax, read), kept), read) ==>
          size == Max(kept, Target(s, poolMax, read)))
  }

  lemma {:induction false} FilledTo(s: Slot, blocked: Deadlines, i: nat, read: Read, n: nat)
    requires FillEnds(s, blocked, i, read, n)
    ensures var size := |Fill(s, blocked, i, read).0.caps|;
      && (forall pos: nat :: |s.caps| <= pos < s.target && AllTaken(i, |s.caps|, pos - |s.caps|, read) ==>
            match read.provider(i, pos)
            case Err(_) => size == pos
            case Ok(c) => if c.free then size == pos + 1 else size > pos)
      && (AllTaken(i, |s.caps|, Minus(s.target, |s.caps|), read) ==> size == Max(|s.caps|, s.target))
    ensures Fill(s, blocked, i, read).0.target == s.target && Fill(s, blocked, i, read).0.coord == s.coord
  {
    hide Fill, Appended, AfterFailure, Directed;
  }

  lemma {:induction false} PoolGrowsTo(s: Slot, blocked: Deadlines, i: nat, poolMax: nat, read: Read)
    requires s.breaker.openedAt.None?
    ensures PoolSize(s, blocked, i, poolMax, read, |SlotTurn(s, blocked, i, poolMax, read).slot.caps|)
    ensures var turn := SlotTurn(s, blocked, i, poolMax, read);
      && turn.slot.target == (if MustAsk(s, blocked, i, read) then Target(s, poolMax, read) else s.target)
      && turn.slot.coord == s.coord
  {
    if MustAsk(s, blocked, i, read) {
      var n := AskingTurn(s, blocked, i, poolMax, read);
      hide SlotTurn, Fill, Pool, Target, MustAsk, AfterFailure, Directed, FirstThat, AllTaken;
      var ready := s.(caps := Pool(s, read), target := Target(s, poolMax, read));
      FilledTo(ready, Prune(blocked, read.clock(i)), i, read, n);
    } else {
      hide Fill, Grown, WaitForPermit, Target, AllTaken;
    }
  }

  /** A slot is skipped exactly while its breaker is open, and its pool is then left alone; otherwise its turn comes
      to what the laws above say, and so do its pool and its target. */
  lemma {:induction false} TakesItsTurn(st: State, i: nat, poolMax: nat, read: Read, p: nat, e: AcquireError)
    requires i < |st.slots|
    ensures var (next, o) := TakeTurn(st, i, poolMax, read);
      var was, s := st.slots[i], Ready(st.slots[i], read);
      if Opened(BREAKER, was.breaker, read.now) then o == Skipped && next == st
      else
        && (o == Gave(p) <==> Gives(s, st.blocked, i, poolMax, read, p))
        && (o == Refused(e) <==> Refuses(s, st.blocked, i, poolMax, read, e))
        && o != Skipped
        && PoolSize(s, st.blocked, i, poolMax, read, |next.slots[i].caps|)
        && PoolAfter(Pool(s, read), i, read, next.slots[i].caps,
                     if o.Gave? then Ok(o.position) else Err(NO_CAPABILITY))
        && next.slots[i].target == (if MustAsk(s, st.blocked, i, read) then Target(s, poolMax, read) else s.target)
        && next.slots[i].coord == was.coord
  {
    var s := Ready(st.slots[i], read);
    if !Opened(BREAKER, st.slots[i].breaker, read.now) {
      GivenExactly(s, st.blocked, i, poolMax, read, p);
      RefusedExactly(s, st.blocked, i, poolMax, read, e);
      PoolGrowsTo(s, st.blocked, i, poolMax, read);
      OnePermitAtMost(s, st.blocked, i, poolMax, read);
      hide SlotTurn, Gives, Refuses, PoolSize, Target, Pool;
    } else {
      assert st.slots[i := st.slots[i]] == st.slots;
    }
  }

  // ---- the breaker ----

  /** The provider was asked and answered with this error. */
  ghost predicate ProviderSaid(s: Slot, blocked: Deadlines, i: nat, poolMax: nat, read: Read, e: AcquireError) {
    exists pos :: Consulted(s, blocked, i, poolMax, read, pos) && read.provider(i, pos) == Err(e)
  }

  lemma {:induction false} TurnTellsBreaker(s: Slot, blocked: Deadlines, i: nat, poolMax: nat, read: Read)
    requires s.breaker.openedAt.None?
    ensures var turn := SlotTurn(s, blocked, i, poolMax, read);
      && turn.slot.coord == s.coord
      && turn.slot.breaker ==
           if turn.result.Err? && ProviderSaid(s, blocked, i, poolMax, read, turn.result.error)
           then AfterFailure(BREAKER, s.breaker, read.clock(i)) else s.breaker
  {
    if MustAsk(s, blocked, i, read) {
      var n := AskingTurn(s, blocked, i, poolMax, read);
      var ready := s.(caps := Pool(s, read), target := Target(s, poolMax, read));
      var asked := Prune(blocked, read.clock(i));
      var (t, _, done) := Fill(ready, asked, i, read);
      var e := if done.Some? && done.value.Err? then done.value.error else NO_CAPABILITY;
      FillRefuses(ready, asked, i, read, n, e);
      assert ProviderSaid(s, blocked, i, poolMax, read, e) <==> done == Some(Err(e)) by {
        hide Fill, FillEnds, SlotTurn, Target, Pool, WaitForPermit;
        forall pos | |ready.caps| <= pos < ready.target && AllTaken(i, |ready.caps|, pos - |ready.caps|, read)
          ensures Consulted(s, blocked, i, poolMax, read, pos) {}
      }
      hide Fill, SlotTurn, Target, Pool, ProviderSaid, MustAsk, AllTaken, Appended, AfterFailure;
      if done.None? { WaitingFails(t, read.now); }
    } else {
      hide Fill, Grown, WaitForPermit, Target, AllTaken;
    }
  }

  /** A refusal counts once for the provider's own error and once more for the failed turn, unless it is a rate
      limit; a backed-off account counts nothing. A success closes the breaker. */
  lemma {:induction false} BreakerHearsTwice(st: State, i: nat, poolMax: nat, read: Read)
    requires i < |st.slots|
    ensures var (next, o) := TakeTurn(st, i, poolMax, read);
      var s, b := Ready(st.slots[i], read), next.slots[i].breaker;
      match o
      case Skipped => b == st.slots[i].breaker
      case Gave(_) => b == CLOSED
      case Refused(e) =>
        var heard := (if ProviderSaid(s, st.blocked, i, poolMax, read, e) then 1 else 0) + (if e.RateLimited? then 0
          else 1);
        && b.failures == s.breaker.failures + heard
        && b.openedAt == if heard > 0 && b.failures >= BREAKER.threshold then Some(read.clock(i)) else None
  {
    if !Opened(BREAKER, st.slots[i].breaker, read.now) {
      TurnTellsBreaker(Ready(st.slots[i], read), st.blocked, i, poolMax, read);
    }
    hide SlotTurn, ProviderSaid;
  }

  ghost predicate RefusedByProvider(st: State, i: nat, poolMax: nat, read: Read)
    requires i < |st.slots|
  {
    var o := TakeTurn(st, i, poolMax, read).1;
    && o.Refused? && !o.error.RateLimited?
    && ProviderSaid(Ready(st.slots[i], read), st.blocked, i, poolMax, read, o.error)
  }

  /** So the second refused read in a row opens a breaker whose threshold is three. */
  lemma {:induction false} SecondRefusalOpens(first: State, second: State, i: nat, poolMax: nat, one: Read,
                                              two: Read, t: nat)
    requires i < |first.slots| && i < |second.slots| && first.slots[i].breaker == CLOSED
    requires second.slots[i].breaker == TakeTurn(first, i, poolMax, one).0.slots[i].breaker
    requires RefusedByProvider(first, i, poolMax, one) && RefusedByProvider(second, i, poolMax, two)
    ensures !Opened(BREAKER, second.slots[i].breaker, t)
    ensures Opened(BREAKER, TakeTurn(second, i, poolMax, two).0.slots[i].breaker, t)
       <==> t < two.clock(i) + BREAKER.cooldown
  {
    BreakerHearsTwice(first, i, poolMax, one);
    BreakerHearsTwice(second, i, poolMax, two);
    hide TakeTurn, ProviderSaid;
  }

  // ---- terminal routes ----

  /** A route is reported terminal exactly when its breaker was not open and its provider, being asked, said so. */
  lemma {:induction false} TerminalExactly(st: State, k: nat, poolMax: nat, read: Read)
    requires k < |st.slots| && !OutcomeOf(st, k, poolMax, read).Gave?
    ensures FailureOf(st.slots[k].coord, OutcomeOf(st, k, poolMax, read)).terminal <==>
      && !Opened(BREAKER, st.slots[k].breaker, read.now)
      && exists pos, detail ::
           && Consulted(Ready(st.slots[k], read), Before(st, k, poolMax, read).blocked, k, poolMax, read, pos)
           && read.provider(k, pos) == Err(NoCapability(detail, true))
  {
    var here := Before(st, k, poolMax, read);
    if !Opened(BREAKER, st.slots[k].breaker, read.now) {
      var s := Ready(st.slots[k], read);
      forall detail: string
        ensures SlotTurn(s, here.blocked, k, poolMax, read).result == Err(NoCapability(detail, true)) <==>
          exists pos :: Consulted(s, here.blocked, k, poolMax, read, pos)
            && read.provider(k, pos) == Err(NoCapability(detail, true))
      {
        RefusedExactly(s, here.blocked, k, poolMax, read, NoCapability(detail, true));
      }
      hide SlotTurn, Consulted, Before;
    }
  }

  // ---- bounded pools ----

  /** No pool exceeds its target and no target the bound. */
  ghost predicate PoolsBounded(st: State, poolMax: nat) {
    forall k :: 0 <= k < |st.slots| ==> |st.slots[k].caps| <= st.slots[k].target <= Max(1, poolMax)
  }

  lemma {:induction false} TurnKeepsBound(st: State, i: nat, poolMax: nat, read: Read)
    requires i < |st.slots| && PoolsBounded(st, poolMax)
    ensures PoolsBounded(TakeTurn(st, i, poolMax, read).0, poolMax)
  {
    var s := Ready(st.slots[i], read);
    if !Opened(BREAKER, st.slots[i].breaker, read.now) {
      OnePermitAtMost(s, st.blocked, i, poolMax, read);
      KeptSurvive(s.caps, read.now);
      hide SlotTurn;
    }
  }

  lemma {:induction false} NoTurn(st: State, poolMax: nat, read: Read)
    ensures Before(st, 0, poolMax, read) == st
  {
  }

  lemma {:induction false} BeforeKeepsBound(st: State, k: nat, poolMax: nat, read: Read)
    requires k <= |st.slots| && PoolsBounded(st, poolMax)
    ensures PoolsBounded(Before(st, k, poolMax, read), poolMax)
  {
    hide *;
    NoTurn(st, poolMax, read);
    if k > 0 {
      NextTurn(st, k - 1, poolMax, read);
      BeforeKeepsBound(st, k - 1, poolMax, read);
      TurnKeepsBound(Before(st, k - 1, poolMax, read), k - 1, poolMax, read);
    }
  }

  /** Reads one after another never take a pool past the bound. */
  lemma {:induction false} ReadKeepsBound(st: State, poolMax: nat, read: Read)
    requires PoolsBounded(st, poolMax)
    ensures PoolsBounded(Acquire(st, poolMax, read).0, poolMax)
  {
    ReadIsFastPassThenPass(st, poolMax, read);
    var answer := Acquire(st, poolMax, read).1;
    hide Acquire, Before, OutcomeOf, FreeNow;
    if !exists k :: 0 <= k < |st.slots| && FreeNow(st.slots[k], read) {
      var n := if answer.Reserved? then answer.slot + 1 else |st.slots|;
      assert PoolsBounded(AllAsked(st, read), poolMax);
      BeforeKeepsBound(AllAsked(st, read), n, poolMax, read);
    }
  }

  // ---- the backoff ledger ----

  /** A turn may only add a directive for its own account, and not while one is in force. */
  lemma {:induction false} TurnKeepsDirectives(st: State, i: nat, poolMax: nat, read: Read, scope: Scope, deadline: nat)
    requires i < |st.slots| && InForce(st.blocked, scope, deadline) && deadline > read.clock(i)
    ensures InForce(TakeTurn(st, i, poolMax, read).0.blocked, scope, deadline)
  {
    var s := Ready(st.slots[i], read);
    if !Opened(BREAKER, st.slots[i].breaker, read.now) && MustAsk(s, st.blocked, i, read) {
      var n := AskingTurn(s, st.blocked, i, poolMax, read);
      hide SlotTurn, Fill, Pool, AllTaken, Appended, WaitForPermit;
    } else {
      hide Fill, Grown, WaitForPermit;
    }
  }

  /** The provider asks the account to wait. */
  ghost predicate AsksToWait(s: Slot, blocked: Deadlines, i: nat, poolMax: nat, read: Read, wait: nat) {
    exists pos :: Consulted(s, blocked, i, poolMax, read, pos)
      && read.provider(i, pos) == Err(RateLimited(Some(wait)))
  }

  /** What anybody is told after a turn: the slot's own account what its provider asked for in this turn, up to the
      ceiling, and otherwise what it would have been told before. */
  lemma {:induction false} BackoffAfterTurn(st: State, i: nat, poolMax: nat, read: Read, scope: Scope, t: nat)
    requires i < |st.slots| && t >= read.clock(i)
    ensures var s, after := Ready(st.slots[i], read), Remaining(TakeTurn(st, i, poolMax, read).0.blocked, scope, t);
      var heard := !Opened(BREAKER, st.slots[i].breaker, read.now) && scope == Account(st.slots[i].coord);
      && (forall w: nat :: heard && AsksToWait(s, st.blocked, i, poolMax, read, w) ==>
            after == Wait(Some(read.clock(i) + Min(w, LEDGER_MAX_HORIZON)), t))
      && ((forall w: nat :: heard ==> !AsksToWait(s, st.blocked, i, poolMax, read, w)) ==>
            after == Remaining(st.blocked, scope, t))
  {
    var s := Ready(st.slots[i], read);
    if !Opened(BREAKER, st.slots[i].breaker, read.now) {
      if MustAsk(s, st.blocked, i, read) {
        BackoffAfterAsking(s, st.blocked, i, poolMax, read, scope, t);
        hide SlotTurn, AsksToWait, MustAsk, Remaining, Account;
      } else {
        hide Fill, Grown, WaitForPermit, Target, AllTaken;
      }
    }
  }

  lemma {:induction false} BackoffAfterAsking(s: Slot, blocked: Deadlines, i: nat, poolMax: nat, read: Read,
                                              scope: Scope, t: nat)
    requires s.breaker.openedAt.None? && MustAsk(s, blocked, i, read) && t >= read.clock(i)
    ensures var after := Remaining(SlotTurn(s, blocked, i, poolMax, read).blocked, scope, t);
      && (forall w: nat :: scope == Account(s.coord) && AsksToWait(s, blocked, i, poolMax, read, w) ==>
            after == Wait(Some(read.clock(i) + Min(w, LEDGER_MAX_HORIZON)), t))
      && ((forall w: nat :: scope == Account(s.coord) ==> !AsksToWait(s, blocked, i, poolMax, read, w)) ==>
            after == Remaining(blocked, scope, t))
  {
    hide Fill, Pool, AllTaken, Appended, WaitForPermit, AsksToWait, MustAsk, Target, Directed, Remaining, Account;
    hide SlotTurn, AfterFailure;
    var n := AskingTurn(s, blocked, i, poolMax, read);
    var asked := Prune(blocked, read.clock(i));
    var done := Fill(s.(caps := Pool(s, read), target := Target(s, poolMax, read)), asked, i, read).2;
    AskedExactly(s, blocked, i, poolMax, read, n);
    DirectedTells(blocked, s.coord, if done.Some? && done.value.Err? then done.value.error else NO_CAPABILITY,
                  read.clock(i), scope, t);
    hide Prune, FirstThat;
  }

  lemma {:induction false} AskedExactly(s: Slot, blocked: Deadlines, i: nat, poolMax: nat, read: Read, n: nat)
    requires MustAsk(s, blocked, i, read)
    requires var ready := s.(caps := Pool(s, read), target := Target(s, poolMax, read));
      FillEnds(ready, Prune(blocked, read.clock(i)), i, read, n)
    ensures var ready := s.(caps := Pool(s, read), target := Target(s, poolMax, read));
      forall w: nat :: AsksToWait(s, blocked, i, poolMax, read, w) <==>
        Fill(ready, Prune(blocked, read.clock(i)), i, read).2 == Some(Err(RateLimited(Some(w))))
  {
    hide Fill, FillEnds, Pool, AllTaken, AsksToWait, MustAsk, Target, Prune;
    forall w: nat
      ensures var ready := s.(caps := Pool(s, read), target := Target(s, poolMax, read));
        AsksToWait(s, blocked, i, poolMax, read, w) <==>
          Fill(ready, Prune(blocked, read.clock(i)), i, read).2 == Some(Err(RateLimited(Some(w))))
    {
      var ready := s.(caps := Pool(s, read), target := Target(s, poolMax, read));
      FillRefuses(ready, Prune(blocked, read.clock(i)), i, read, n, RateLimited(Some(w)));
      AskedAlike(s, blocked, i, poolMax, read, w);
    }
  }

  lemma {:induction false} DirectedTells(blocked: Deadlines, c: Coord, e: AcquireError, at: nat, scope: Scope, t: nat)
    requires t >= at
    ensures Remaining(Prune(blocked, at), scope, t) == Remaining(blocked, scope, t)
    ensures Remaining(Directed(Prune(blocked, at), c, e, at), scope, t) ==
      if e.RateLimited? && e.wait.Some? && scope == Account(c)
      then Wait(Some(at + Min(e.wait.value, LEDGER_MAX_HORIZON)), t) else Remaining(blocked, scope, t)
  {
  }

  lemma {:induction false} AskedAlike(s: Slot, blocked: Deadlines, i: nat, poolMax: nat, read: Read, wait: nat)
    requires MustAsk(s, blocked, i, read)
    ensures var kept, target := |Pool(s, read)|, Target(s, poolMax, read);
      AsksToWait(s, blocked, i, poolMax, read, wait) <==>
        exists pos :: kept <= pos < target && AllTaken(i, kept, pos - kept, read)
          && read.provider(i, pos) == Err(RateLimited(Some(wait)))
  {
    hide Pool, Target, AllTaken, MustAsk;
    forall pos | |Pool(s, read)| <= pos < Target(s, poolMax, read)
                 && AllTaken(i, |Pool(s, read)|, pos - |Pool(s, read)|, read)
      ensures Consulted(s, blocked, i, poolMax, read, pos) {}
  }

  lemma {:induction false} NextTurn(st: State, k: nat, poolMax: nat, read: Read)
    requires k < |st.slots|
    ensures Before(st, k + 1, poolMax, read) == TakeTurn(Before(st, k, poolMax, read), k, poolMax, read).0
    ensures OutcomeOf(st, k, poolMax, read) == TakeTurn(Before(st, k, poolMax, read), k, poolMax, read).1
  {
    hide TakeTurn;
  }

  lemma {:induction false} BackedOffTurn(st: State, i: nat, poolMax: nat, read: Read, deadline: nat)
    requires i < |st.slots| && InForce(st.blocked, Account(st.slots[i].coord), deadline) && deadline > read.clock(i)
    ensures var o := TakeTurn(st, i, poolMax, read).1;
      o == Skipped || (o.Refused? && o.error.RateLimited? && o.error.wait.Some?)
    ensures forall pos :: !Consulted(Ready(st.slots[i], read), st.blocked, i, poolMax, read, pos)
  {
    hide Fill, Grown, WaitForPermit, Pool, Target;
  }

  ghost predicate InForce(blocked: Deadlines, scope: Scope, deadline: nat) {
    scope in blocked && blocked[scope] == deadline
  }

  lemma {:induction false} DirectiveStays(st: State, i: nat, j: nat, poolMax: nat, read: Read, scope: Scope,
                                          deadline: nat)
    requires i <= j <= |st.slots| && InForce(Before(st, i, poolMax, read).blocked, scope, deadline)
    requires forall k :: i <= k < j ==> deadline > read.clock(k)
    ensures InForce(Before(st, j, poolMax, read).blocked, scope, deadline)
    decreases j
  {
    hide *;
    if i < j {
      NextTurn(st, j - 1, poolMax, read);
      DirectiveStays(st, i, j - 1, poolMax, read, scope, deadline);
      TurnKeepsDirectives(Before(st, j - 1, poolMax, read), j - 1, poolMax, read, scope, deadline);
    }
  }

  /** The directive that ended a turn is in force afterwards. */
  lemma {:induction false} DirectiveRecorded(st: State, i: nat, poolMax: nat, read: Read) returns (deadline: nat)
    requires i < |st.slots|
    requires var o := TakeTurn(st, i, poolMax, read).1; o.Refused? && o.error.RateLimited? && o.error.wait.Some?
    ensures InForce(TakeTurn(st, i, poolMax, read).0.blocked, Account(st.slots[i].coord), deadline)
    ensures deadline >= read.clock(i) + Min(TakeTurn(st, i, poolMax, read).1.error.wait.value, LEDGER_MAX_HORIZON)
  {
    var blocked, scope := TakeTurn(st, i, poolMax, read).0.blocked, Account(st.slots[i].coord);
    deadline := if scope in blocked then blocked[scope] else 0;
    var s := Ready(st.slots[i], read);
    if !Opened(BREAKER, st.slots[i].breaker, read.now) {
      if MustAsk(s, st.blocked, i, read) {
        var n := AskingTurn(s, st.blocked, i, poolMax, read);
        var ready := s.(caps := Pool(s, read), target := Target(s, poolMax, read));
        WaitingFails(Fill(ready, Prune(st.blocked, read.clock(i)), i, read).0, read.now);
        hide SlotTurn, Fill, Pool, AllTaken, Appended, WaitForPermit, MustAsk;
      } else {
        hide Fill, Grown, WaitForPermit;
      }
    }
  }

  /** Once a provider has asked an account to wait, no later slot of that account asks it again during this pass. */
  lemma {:induction false} DirectiveSparesTheAccount(st: State, i: nat, j: nat, poolMax: nat, read: Read)
    requires i < j < |st.slots| && Account(st.slots[i].coord) == Account(st.slots[j].coord)
    requires var o := OutcomeOf(st, i, poolMax, read);
      && o.Refused? && o.error.RateLimited? && o.error.wait.Some?
      && forall k :: i < k <= j ==> read.clock(k) < read.clock(i) + Min(o.error.wait.value, LEDGER_MAX_HORIZON)
    ensures var o := OutcomeOf(st, j, poolMax, read);
      o == Skipped || (o.Refused? && o.error.RateLimited? && o.error.wait.Some?)
    ensures forall pos :: !Consulted(Ready(st.slots[j], read), Before(st, j, poolMax, read).blocked, j, poolMax, read,
                                     pos)
  {
    hide Before, OutcomeOf, TakeTurn, Consulted, Remaining, InForce;
    NextTurn(st, i, poolMax, read);
    NextTurn(st, j, poolMax, read);
    var deadline := DirectiveRecorded(Before(st, i, poolMax, read), i, poolMax, read);
    var scope := Account(st.slots[j].coord);
    DirectiveStays(st, i + 1, j, poolMax, read, scope, deadline);
    BackedOffTurn(Before(st, j, poolMax, read), j, poolMax, read, deadline);
  }
}
