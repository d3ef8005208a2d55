/**
 Acquiring a capability for one read: the slots are tried in order, each with its pool, its
 breaker and the provider behind it, until one yields a permit.
 */
module Failover {
  import opened Outcomes
  import opened Capability
  import opened RetryAfter
  import opened Placement

  datatype AcquireError =
    | RateLimited(wait: Option<nat>)
    | NoCapability(detail: string, terminal: bool)
    | Transient(detail: string)

  /** Waiting will not bring this route back. */
  predicate IsTerminal(e: AcquireError) { e.NoCapability? && e.terminal }

  datatype Slot = Slot(coord: Coord, breaker: BreakerState, caps: seq<Cap>, target: nat)

  const BREAKER := BreakerConfig(3, 30 * 1_000_000_000)

  /** What the provider answers when slot `slot` resolves pool position `position`. */
  type Provider = (nat, nat) -> Result<Cap, AcquireError>

  /** One read: `now` is taken when it starts, `clock(i)` is what the clock shows during the turn of slot `i`. */
  datatype Read = Read(provider: Provider, now: nat, clock: nat -> nat)

  function ScopeOf(c: Coord): Scope { Scope.Scope(c.provider, c.account) }

  function CoordsOf(slots: seq<Slot>): seq<Coord> {
    seq(|slots|, k requires 0 <= k < |slots| => slots[k].coord)
  }

  /** The slots of a new manager. */
  ghost predicate FreshSlots(coords: seq<Coord>, size: nat, slots: seq<Slot>) {
    && Grouped(coords, size, CoordsOf(slots))
    && forall k :: 0 <= k < |slots| ==> slots[k] == Slot(slots[k].coord, CLOSED, [], 1)
  }

  lemma {:induction false} SlotsOfTargets(coords: seq<Coord>, size: nat, targets: seq<Coord>, slots: seq<Slot>)
    requires Grouped(coords, size, targets) && |slots| == |targets|
    requires forall k :: 0 <= k < |slots| ==> slots[k] == Slot(targets[k], CLOSED, [], 1)
    ensures FreshSlots(coords, size, slots)
  {
    assert CoordsOf(slots) == targets;
    hide Grouped;
  }

  // ---- the pool of one slot ----

  function Kept(caps: seq<Cap>, now: nat): seq<Cap> {
    if caps == [] then []
    else
      var front := Kept(caps[..|caps| - 1], now);
      if Prunable(caps[|caps| - 1], now) then front else front + [caps[|caps| - 1]]
  }

  datatype Want = Free | Busy | Waitable

  predicate Suits(want: Want, c: Cap, now: nat) {
    match want
    case Free => UsableNow(c, now) && c.free
    case Busy => UsableNow(c, now) && c.status == Alive && !c.free
    case Waitable => c.status != Dead && !Prunable(c, now)
  }

  /** The first position from `k` on that suits. */
  function FirstFrom(want: Want, caps: seq<Cap>, now: nat, k: nat): (r: Option<nat>)
    requires k <= |caps|
    ensures r.Some? ==> k <= r.value < |caps| && Suits(want, caps[r.value], now)
    ensures forall j :: k <= j < (if r.Some? then r.value else |caps|) ==> !Suits(want, caps[j], now)
    decreases |caps| - k
  {
    if k == |caps| then None else if Suits(want, caps[k], now) then Some(k) else FirstFrom(want, caps, now, k + 1)
  }

  function FirstThat(want: Want, caps: seq<Cap>, now: nat): (r: Option<nat>)
    ensures r.Some? ==> r.value < |caps|
  {
    FirstFrom(want, caps, now, 0)
  }

  function Taken(s: Slot, k: nat): Slot
    requires k < |s.caps|
  {
    s.(caps := s.caps[k := s.caps[k].(free := false)])
  }

  // ---- one turn at one slot ----

  /** The slot afterwards, the backoff ledger afterwards and what came of it: a pool position or an error. */
  datatype Turn = Turn(slot: Slot, blocked: Deadlines, result: Result<nat, AcquireError>)

  /** A busy pool below the bound may grow by one, unless the breaker is open. */
  function Grown(s: Slot, poolMax: nat, now: nat): Slot {
    if FirstThat(Busy, s.caps, now).Some? && s.target < poolMax then
      var asked := s.(breaker := AfterQuery(BREAKER, s.breaker, now));
      if Opened(BREAKER, s.breaker, now) then asked else asked.(target := s.target + 1)
    else s
  }

  /** A provider's directive is recorded for the whole account. */
  function Directed(blocked: Deadlines, c: Coord, e: AcquireError, later: nat): Deadlines {
    if e.RateLimited? && e.wait.Some? then AfterRecord(blocked, ScopeOf(c), e.wait.value, later, later) else blocked
  }

  /** Fill the pool up to its target; the first capability with a free permit is taken, the first error ends it. */
  function Fill(s: Slot, blocked: Deadlines, i: nat, read: Read): (Slot, Deadlines, Option<Result<nat, AcquireError>>)
    decreases s.target - |s.caps|
  {
    if |s.caps| >= s.target then (s, blocked, None)
    else
      var asked := s.(breaker := AfterQuery(BREAKER, s.breaker, read.now));
      if Opened(BREAKER, s.breaker, read.now) then (asked, blocked, None)
      else
        match read.provider(i, |s.caps|)
        case Ok(cap) =>
          var more := asked.(caps := s.caps + [cap]);
          var position: nat := |s.caps|;
          var won: Option<Result<nat, AcquireError>> := Some(Ok(position));
          if cap.free then (Taken(more, position), blocked, won) else Fill(more, blocked, i, read)
        case Err(e) =>
          (asked.(breaker := AfterFailure(BREAKER, asked.breaker, read.clock(i))),
           Directed(blocked, s.coord, e, read.clock(i)), Some(Err(e)))
  }

  /** Wait for the first capability that can be waited for; its permit comes back in time. */
  function WaitForPermit(s: Slot, now: nat): (Slot, Result<nat, AcquireError>) {
    match FirstThat(Waitable, s.caps, now)
    case Some(k) => (Taken(s, k), Ok(k))
    case None => (s, Err(NoCapability("slot has no usable capability", false)))
  }

  function SlotTurn(s: Slot, blocked: Deadlines, i: nat, poolMax: nat, read: Read): Turn {
    var pruned := s.(caps := Kept(s.caps, read.now));
    var asked := Prune(blocked, read.clock(i));
    match Remaining(blocked, ScopeOf(s.coord), read.clock(i))
    case Some(wait) => Turn(pruned, asked, Err(RateLimited(Some(wait))))
    case None =>
      match FirstThat(Free, pruned.caps, read.now)
      case Some(k) => Turn(Taken(pruned, k), asked, Ok(k))
      case None =>
        var (filled, told, done) := Fill(Grown(pruned, poolMax, read.now), asked, i, read);
        match done
        case Some(r) => Turn(filled, told, r)
        case None =>
          var (waited, r) := WaitForPermit(filled, read.now);
          Turn(waited, told, r)
  }

  // ---- the read ----

  datatype RouteFailure = RouteFailure(coord: Coord, terminal: bool, detail: Detail)

  datatype Detail = BreakerOpen | Throttle | Because(error: AcquireError)

  datatype Outcome = Skipped | Gave(position: nat) | Refused(error: AcquireError)

  datatype State = State(slots: seq<Slot>, blocked: Deadlines)

  /** The turn of slot `i`: skipped while its breaker is open, otherwise tried; the breaker hears about it. */
  function TakeTurn(st: State, i: nat, poolMax: nat, read: Read): (State, Outcome)
    requires i < |st.slots|
  {
    var s := st.slots[i];
    var asked := s.(breaker := AfterQuery(BREAKER, s.breaker, read.now));
    if Opened(BREAKER, s.breaker, read.now) then (State(st.slots[i := asked], st.blocked), Skipped)
    else
      var turn := SlotTurn(asked, st.blocked, i, poolMax, read);
      match turn.result
      case Ok(k) => (State(st.slots[i := turn.slot.(breaker := CLOSED)], turn.blocked), Gave(k))
      case Err(e) =>
        var told := if e.RateLimited? then turn.slot
                    else turn.slot.(breaker := AfterFailure(BREAKER, turn.slot.breaker, read.clock(i)));
        (State(st.slots[i := told], turn.blocked), Refused(e))
  }

  function FailureOf(c: Coord, o: Outcome): RouteFailure
    requires !o.Gave?
  {
    match o
    case Skipped => RouteFailure(c, false, BreakerOpen)
    case Refused(RateLimited(_)) => RouteFailure(c, false, Throttle)
    case Refused(e) => RouteFailure(c, IsTerminal(e), Because(e))
  }

  function FirstWait(known: Option<nat>, o: Outcome): Option<nat> {
    if known.Some? then known
    else if o.Refused? && o.error.RateLimited? then o.error.wait else None
  }

  datatype Answer =
    | Reserved(slot: nat, position: nat)
    | AllFailed(routes: seq<RouteFailure>, retryAfter: Option<nat>)

  /** The main pass from slot `i` on. */
  function Pass(st: State, i: nat, poolMax: nat, read: Read, routes: seq<RouteFailure>, wait: Option<nat>)
    : (State, Answer)
    requires i <= |st.slots|
    decreases |st.slots| - i
  {
    if i == |st.slots| then (st, AllFailed(routes, wait))
    else
      var (next, o) := TakeTurn(st, i, poolMax, read);
      if o.Gave? then (next, Reserved(i, o.position))
      else Pass(next, i + 1, poolMax, read, routes + [FailureOf(st.slots[i].coord, o)], FirstWait(wait, o))
  }

  /** The slot's breaker is asked, and a free capability is taken unless it is open. */
  function FastTurn(st: State, i: nat, read: Read): (State, Option<nat>)
    requires i < |st.slots|
  {
    var s := st.slots[i];
    var asked := s.(breaker := AfterQuery(BREAKER, s.breaker, read.now));
    match (if Opened(BREAKER, s.breaker, read.now) then None else FirstThat(Free, s.caps, read.now))
    case Some(k) => (State(st.slots[i := Taken(asked, k).(breaker := CLOSED)], st.blocked), Some(k))
    case None => (State(st.slots[i := asked], st.blocked), None)
  }

  /** The fast pass: from slot `i` on, the first capability that can be taken without waiting, if there is one. */
  function FastPass(st: State, i: nat, read: Read): (State, Option<Answer>)
    requires i <= |st.slots|
    decreases |st.slots| - i
  {
    if i == |st.slots| then (st, None)
    else
      var (next, taken) := FastTurn(st, i, read);
      if taken.Some? then (next, Some(Reserved(i, taken.value))) else FastPass(next, i + 1, read)
  }

  lemma {:induction false} FastPassUnfolds(st: State, i: nat, read: Read)
    requires i < |st.slots|
    ensures var (next, taken) := FastTurn(st, i, read);
      && |next.slots| == |st.slots|
      && FastPass(st, i, read) ==
           if taken.Some? then (next, Some(Reserved(i, taken.value))) else FastPass(next, i + 1, read)
  {
    hide AfterQuery, Opened, FirstThat;
  }

  lemma {:induction false} FastPassDone(st: State, read: Read)
    ensures FastPass(st, |st.slots|, read) == (st, None)
  {
  }

  function Acquire(st: State, poolMax: nat, read: Read): (State, Answer) {
    var (fast, answer) := FastPass(st, 0, read);
    if answer.Some? then (fast, answer.value)
    else Pass(fast, 0, poolMax, read, [], None)
  }

  lemma {:induction false} PassUnfolds(st: State, i: nat, poolMax: nat, read: Read, routes: seq<RouteFailure>,
                                       wait: Option<nat>)
    requires i < |st.slots|
    ensures var (next, o) := TakeTurn(st, i, poolMax, read);
      && |next.slots| == |st.slots|
      && Pass(st, i, poolMax, read, routes, wait) ==
           if o.Gave? then (next, Reserved(i, o.position))
           else Pass(next, i + 1, poolMax, read, routes + [FailureOf(st.slots[i].coord, o)], FirstWait(wait, o))
  {
    hide SlotTurn, FailureOf, FirstWait;
  }

  lemma {:induction false} PassDone(st: State, poolMax: nat, read: Read, routes: seq<RouteFailure>, wait: Option<nat>)
    ensures Pass(st, |st.slots|, poolMax, read, routes, wait) == (st, AllFailed(routes, wait))
  {
  }

  // ---- the manager itself ----

  class ProviderSlot {
    const coord: Coord
    const breaker: Breaker
    var caps: seq<Cap>
    var target: nat

    constructor (coord: Coord)
      ensures this.coord == coord && breaker.cfg == BREAKER && fresh(breaker) && Value() == Slot(coord, CLOSED, [], 1)
    {
      this.coord := coord;
      breaker := new Breaker(BREAKER.threshold, BREAKER.cooldown);
      caps, target := [], 1;
    }

    function Value(): Slot
      reads this, breaker
    {
      Slot(coord, breaker.Value(), caps, target)
    }

    method Take(k: nat)
      requires k < |caps|
      modifies this`caps
      ensures caps == old(caps)[k := old(caps)[k].(free := false)]
    {
      caps := caps[k := caps[k].(free := false)];
    }
  }

  ghost function Values(slots: seq<ProviderSlot>): (values: seq<Slot>)
    reads set s | s in slots, set s | s in slots :: s.breaker
    ensures |values| == |slots| && forall k :: 0 <= k < |slots| ==> values[k] == slots[k].Value()
  {
    if slots == [] then [] else Values(slots[..|slots| - 1]) + [slots[|slots| - 1].Value()]
  }

  /** No two slots share a pool or a breaker. */
  ghost predicate Apart(slots: seq<ProviderSlot>) {
    && (forall s :: s in slots ==> s.breaker.cfg == BREAKER)
    && (forall j, k :: 0 <= j < k < |slots| ==> slots[j] != slots[k] && slots[j].breaker != slots[k].breaker)
  }

  method MakeSlots(targets: seq<Coord>) returns (made: seq<ProviderSlot>)
    ensures Apart(made) && |made| == |targets|
    ensures forall s :: s in made ==> fresh(s) && fresh(s.breaker)
    ensures forall k :: 0 <= k < |targets| ==> made[k].Value() == Slot(targets[k], CLOSED, [], 1)
  {
    made := [];
    for k := 0 to |targets|
      invariant |made| == k && Apart(made)
      invariant forall s :: s in made ==> fresh(s) && fresh(s.breaker)
      invariant forall j :: 0 <= j < k ==> made[j].Value() == Slot(targets[j], CLOSED, [], 1)
    {
      var slot := new ProviderSlot(targets[k]);
      made := made + [slot];
    }
  }

  class CapabilityManager {
    const poolMax: nat
    const slots: seq<ProviderSlot>
    const retryAfter: RetryAfterLedger

    ghost function Footprint(): set<object> {
      (set s: ProviderSlot | s in slots) + (set s: ProviderSlot | s in slots :: s.breaker) + {retryAfter}
    }

    ghost predicate Valid() { Apart(slots) }

    ghost function Value(): (st: State)
      reads Footprint()
      ensures |st.slots| == |slots| && forall k :: 0 <= k < |slots| ==> st.slots[k].coord == slots[k].coord
    {
      State(Values(slots), retryAfter.blockedUntil)
    }

    constructor (coords: seq<Coord>, size: nat, poolMax: nat)
      ensures Valid() && fresh(Footprint()) && this.poolMax == poolMax
      ensures FreshSlots(coords, size, Value().slots) && Value().blocked == map[]
    {
      hide Grouped, FreshSlots, Values;
      var targets := Group(coords, size);
      var made := MakeSlots(targets);
      this.poolMax := poolMax;
      slots := made;
      retryAfter := new RetryAfterLedger();
      new;
      SlotsOfTargets(coords, size, targets, Values(slots));
    }

    /** A step that touches one slot changes one slot. */
    twostate lemma OnlySlot(i: nat)
      requires i < |slots| && Valid()
      requires forall k :: 0 <= k < |slots| && k != i ==> unchanged(slots[k]) && unchanged(slots[k].breaker)
      ensures Value().slots == old(Value()).slots[i := slots[i].Value()]
    {
    }

    /** Grow up to the target; `None` says that the pool is full and nothing was taken. */
    method FillSlot(slot: ProviderSlot, i: nat, read: Read) returns (done: Option<Result<nat, AcquireError>>)
      requires slot.breaker.cfg == BREAKER
      modifies slot, slot.breaker, retryAfter
      ensures (slot.Value(), retryAfter.blockedUntil, done)
           == Fill(old(slot.Value()), old(retryAfter.blockedUntil), i, read)
    {
      done := None;
      ghost var end := Fill(slot.Value(), retryAfter.blockedUntil, i, read);
      while |slot.caps| < slot.target
        invariant done == None && Fill(slot.Value(), retryAfter.blockedUntil, i, read) == end
        decreases slot.target - |slot.caps|
      {
        var open := slot.breaker.IsOpen(read.now);
        if open {
          return;
        }
        var position := |slot.caps|;
        match read.provider(i, position)
        case Ok(cap) =>
          slot.caps := slot.caps + [cap];
          if cap.free {
            slot.Take(position);
            return Some(Ok(position));
          }
        case Err(e) =>
          if e.RateLimited? && e.wait.Some? {
            retryAfter.Record(ScopeOf(slot.coord), e.wait.value, read.clock(i), read.clock(i));
          }
          slot.breaker.RecordFailure(read.clock(i));
          return Some(Err(e));
      }
    }

    method TrySlot(slot: ProviderSlot, i: nat, read: Read) returns (r: Result<nat, AcquireError>)
      requires slot.breaker.cfg == BREAKER
      modifies slot, slot.breaker, retryAfter
      ensures Turn(slot.Value(), retryAfter.blockedUntil, r)
           == SlotTurn(old(slot.Value()), old(retryAfter.blockedUntil), i, poolMax, read)
    {
      hide Fill, Kept, Suits, Prune;
      slot.caps := Kept(slot.caps, read.now);
      var wait := retryAfter.BlockedFor(ScopeOf(slot.coord), read.clock(i));
      if wait.Some? {
        return Err(RateLimited(wait));
      }
      var usable := FirstThat(Free, slot.caps, read.now);
      if usable.Some? {
        slot.Take(usable.value);
        return Ok(usable.value);
      }
      if FirstThat(Busy, slot.caps, read.now).Some? && slot.target < poolMax {
        var open := slot.breaker.IsOpen(read.now);
        if !open {
          slot.target := slot.target + 1;
        }
      }
      var done := FillSlot(slot, i, read);
      if done.Some? {
        return done.value;
      }
      var waitable := FirstThat(Waitable, slot.caps, read.now);
      if waitable.None? {
        return Err(NoCapability("slot has no usable capability", false));
      }
      slot.Take(waitable.value);
      return Ok(waitable.value);
    }

    /** One look at every slot in order, without asking a provider. */
    method TakeFree(read: Read) returns (answer: Option<Answer>)
      requires Valid()
      modifies Footprint()
      ensures (Value(), answer) == FastPass(old(Value()), 0, read)
    {
      hide AfterQuery, Opened, FirstThat, FastPass, Values;
      ghost var end := FastPass(Value(), 0, read);
      for i := 0 to |slots|
        invariant FastPass(Value(), i, read) == end
      {
        FastPassUnfolds(Value(), i, read);
        var usable := TakeIfFree(i, read);
        if usable.Some? {
          return Some(Reserved(i, usable.value));
        }
      }
      FastPassDone(Value(), read);
      return None;
    }

    /** One round of the fast path. */
    method TakeIfFree(i: nat, read: Read) returns (usable: Option<nat>)
      requires Valid() && i < |slots|
      modifies Footprint()
      ensures (Value(), usable) == FastTurn(old(Value()), i, read)
    {
      hide AfterQuery, Opened, FirstThat;
      var slot := slots[i];
      var open := slot.breaker.IsOpen(read.now);
      usable := if open then None else FirstThat(Free, slot.caps, read.now);
      if usable.Some? {
        slot.Take(usable.value);
        slot.breaker.RecordSuccess();
      }
      OnlySlot(i);
    }

    /** One round of the main loop. */
    method AskSlot(i: nat, read: Read) returns (o: Outcome)
      requires Valid() && i < |slots|
      modifies Footprint()
      ensures (Value(), o) == TakeTurn(old(Value()), i, poolMax, read)
    {
      hide SlotTurn, AfterQuery, AfterFailure, Opened;
      var slot := slots[i];
      var open := slot.breaker.IsOpen(read.now);
      if open {
        OnlySlot(i);
        return Skipped;
      }
      var r := TrySlot(slot, i, read);
      match r {
        case Ok(position) =>
          slot.breaker.RecordSuccess();
          o := Gave(position);
        case Err(e) =>
          if !e.RateLimited? {
            slot.breaker.RecordFailure(read.clock(i));
          }
          o := Refused(e);
      }
      OnlySlot(i);
      hide Values;
    }

    /** The main loop: slot after slot, in order. */
    method AskEverySlot(read: Read) returns (answer: Answer)
      requires Valid()
      modifies Footprint()
      ensures (Value(), answer) == Pass(old(Value()), 0, poolMax, read, [], None)
    {
      hide *;
      var routes, retry := [], None;
      ghost var end := Pass(Value(), 0, poolMax, read, [], None);
      for i := 0 to |slots|
        invariant Pass(Value(), i, poolMax, read, routes, retry) == end
      {
        PassUnfolds(Value(), i, poolMax, read, routes, retry);
        var coord := slots[i].coord;
        var o := AskSlot(i, read);
        if o.Gave? {
          return Reserved(i, o.position);
        }
        routes, retry := routes + [FailureOf(coord, o)], FirstWait(retry, o);
      }
      PassDone(Value(), poolMax, read, routes, retry);
      return AllFailed(routes, retry);
    }

    method AcquireForRead(read: Read) returns (answer: Answer)
      requires Valid()
      modifies Footprint()
      ensures (Value(), answer) == Acquire(old(Value()), poolMax, read)
    {
      hide FastPass, Pass;
      var quick := TakeFree(read);
      if quick.Some? {
        return quick.value;
      }
      answer := AskEverySlot(read);
    }
  }
}
