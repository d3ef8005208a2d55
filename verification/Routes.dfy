/** What a whole read guarantees, whatever the providers answer. */
module Routes {
  import opened Outcomes
  import opened Capability
  import opened RetryAfter
  import opened Placement
  import opened Failover

  // ---- the turns of the main pass ----

  /** The state when the turn of slot `k` comes. */
  ghost function Before(st: State, k: nat, poolMax: nat, read: Read): (r: State)
    requires k <= |st.slots|
    ensures |r.slots| == |st.slots|
    ensures forall j :: 0 <= j < |st.slots| ==> r.slots[j].coord == st.slots[j].coord
    ensures forall j :: k <= j < |st.slots| ==> r.slots[j] == st.slots[j]
  {
    if k == 0 then st
    else
      TurnKeepsOthers(Before(st, k - 1, poolMax, read), k - 1, poolMax, read);
      TakeTurn(Before(st, k - 1, poolMax, read), k - 1, poolMax, read).0
  }

  ghost function OutcomeOf(st: State, k: nat, poolMax: nat, read: Read): Outcome
    requires k < |st.slots|
  {
    TakeTurn(Before(st, k, poolMax, read), k, poolMax, read).1
  }

  lemma {:induction false} TurnKeepsOthers(st: State, i: nat, poolMax: nat, read: Read)
    requires i < |st.slots|
    ensures var next := TakeTurn(st, i, poolMax, read).0;
      && next.slots == st.slots[i := next.slots[i]]
      && next.slots[i].coord == st.slots[i].coord
  {
    var s := st.slots[i];
    FillKeepsCoord(Grown(s.(breaker := AfterQuery(BREAKER, s.breaker, read.now), caps := Kept(s.caps, read.now)),
                         poolMax, read.now),
                   Prune(st.blocked, read.clock(i)), i, read);
  }

  lemma {:induction false} FillKeepsCoord(s: Slot, blocked: Deadlines, i: nat, read: Read)
    ensures Fill(s, blocked, i, read).0.coord == s.coord
    decreases s.target - |s.caps|
  {
    if |s.caps| < s.target && read.provider(i, |s.caps|).Ok? {
      var asked := s.(breaker := AfterQuery(BREAKER, s.breaker, read.now));
      FillKeepsCoord(asked.(caps := s.caps + [read.provider(i, |s.caps|).value]), blocked, i, read);
    }
  }

  /** The wait carried by an outcome, if the outcome is a rate limit. */
  ghost function WaitOf(o: Outcome): Option<nat> {
    if o.Refused? && o.error.RateLimited? then o.error.wait else None
  }

  /** The first wait among the first `n` outcomes. */
  ghost predicate FirstWaitIs(st: State, n: nat, poolMax: nat, read: Read, wait: Option<nat>)
    requires n <= |st.slots|
  {
    match wait
    case None => forall j :: 0 <= j < n ==> WaitOf(OutcomeOf(st, j, poolMax, read)) == None
    case Some(_) => exists k :: 0 <= k < n && WaitOf(OutcomeOf(st, k, poolMax, read)) == wait
                      && forall j :: 0 <= j < k ==> WaitOf(OutcomeOf(st, j, poolMax, read)) == None
  }

  /** What a failed slot is reported as: only a provider's own terminal word makes a route terminal, and an open
      breaker and throttling are told from everything else. */
  ghost predicate Reported(c: Coord, o: Outcome, r: RouteFailure)
    requires !o.Gave?
  {
    && r.coord == c
    && (r.terminal <==> o.Refused? && o.error.NoCapability? && o.error.terminal)
    && (r.detail == BreakerOpen <==> o == Skipped)
    && (r.detail == Throttle <==> o.Refused? && o.error.RateLimited?)
    && (r.detail.Because? ==> o == Refused(r.detail.error))
  }

  ghost predicate Reports(st: State, n: nat, poolMax: nat, read: Read, routes: seq<RouteFailure>)
    requires n <= |st.slots|
  {
    && |routes| == n
    && forall j :: 0 <= j < n ==>
         var o := OutcomeOf(st, j, poolMax, read); !o.Gave? && Reported(st.slots[j].coord, o, routes[j])
  }

  /** The main pass stops at the first slot that gives, and otherwise reports every slot, in order. */
  ghost predicate PassAnswers(st: State, poolMax: nat, read: Read, end: State, answer: Answer) {
    match answer
    case Reserved(k, p) =>
      && k < |st.slots| && OutcomeOf(st, k, poolMax, read) == Gave(p)
      && (forall j :: 0 <= j < k ==> !OutcomeOf(st, j, poolMax, read).Gave?)
      && end == Before(st, k + 1, poolMax, read)
    case AllFailed(routes, wait) =>
      && Reports(st, |st.slots|, poolMax, read, routes)
      && FirstWaitIs(st, |st.slots|, poolMax, read, wait)
      && end == Before(st, |st.slots|, poolMax, read)
  }

  lemma {:induction false} ReportsGrow(st: State, i: nat, poolMax: nat, read: Read, routes: seq<RouteFailure>)
    requires i < |st.slots| && Reports(st, i, poolMax, read, routes)
    ensures var o := OutcomeOf(st, i, poolMax, read);
      !o.Gave? ==> Reports(st, i + 1, poolMax, read, routes + [FailureOf(st.slots[i].coord, o)])
  {
    hide OutcomeOf;
  }

  lemma {:induction false} WaitGrows(st: State, i: nat, poolMax: nat, read: Read, wait: Option<nat>)
    requires i < |st.slots| && FirstWaitIs(st, i, poolMax, read, wait)
    ensures FirstWaitIs(st, i + 1, poolMax, read, FirstWait(wait, OutcomeOf(st, i, poolMax, read)))
  {
    hide OutcomeOf;
    var o := OutcomeOf(st, i, poolMax, read);
    assert FirstWait(wait, o) == if wait.Some? then wait else WaitOf(o);
  }

  lemma {:induction false} PassFollowsTurns(st: State, i: nat, poolMax: nat, read: Read, routes: seq<RouteFailure>,
                                            wait: Option<nat>)
    requires i <= |st.slots|
    requires Reports(st, i, poolMax, read, routes) && FirstWaitIs(st, i, poolMax, read, wait)
    ensures var (end, answer) := Pass(Before(st, i, poolMax, read), i, poolMax, read, routes, wait);
      PassAnswers(st, poolMax, read, end, answer)
    decreases |st.slots| - i
  {
    hide *;
    if i == |st.slots| {
      PassEnds(st, poolMax, read, routes, wait);
    } else {
      PassStep(st, i, poolMax, read, routes, wait);
      var o := OutcomeOf(st, i, poolMax, read);
      if o.Gave? {
        PassGives(st, i, poolMax, read, routes);
      } else {
        ReportsGrow(st, i, poolMax, read, routes);
        WaitGrows(st, i, poolMax, read, wait);
        PassFollowsTurns(st, i + 1, poolMax, read, routes + [FailureOf(st.slots[i].coord, o)], FirstWait(wait, o));
      }
    }
  }

  lemma {:induction false} PassEnds(st: State, poolMax: nat, read: Read, routes: seq<RouteFailure>, wait: Option<nat>)
    requires Reports(st, |st.slots|, poolMax, read, routes) && FirstWaitIs(st, |st.slots|, poolMax, read, wait)
    ensures var end := Before(st, |st.slots|, poolMax, read);
      && Pass(end, |st.slots|, poolMax, read, routes, wait) == (end, AllFailed(routes, wait))
      && PassAnswers(st, poolMax, read, end, AllFailed(routes, wait))
  {
    hide Before, OutcomeOf, Reports, FirstWaitIs;
  }

  lemma {:induction false} PassGives(st: State, i: nat, poolMax: nat, read: Read, routes: seq<RouteFailure>)
    requires i < |st.slots| && Reports(st, i, poolMax, read, routes)
    ensures var o := OutcomeOf(st, i, poolMax, read);
      o.Gave? ==> PassAnswers(st, poolMax, read, Before(st, i + 1, poolMax, read), Reserved(i, o.position))
  {
    hide OutcomeOf, Before;
  }

  lemma {:induction false} PassStep(st: State, i: nat, poolMax: nat, read: Read, routes: seq<RouteFailure>,
                                    wait: Option<nat>)
    requires i < |st.slots|
    ensures var o, next := OutcomeOf(st, i, poolMax, read), Before(st, i + 1, poolMax, read);
      Pass(Before(st, i, poolMax, read), i, poolMax, read, routes, wait) ==
        if o.Gave? then (next, Reserved(i, o.position))
        else Pass(next, i + 1, poolMax, read, routes + [FailureOf(st.slots[i].coord, o)], FirstWait(wait, o))
  {
    hide TakeTurn;
    var here := Before(st, i, poolMax, read);
    assert Before(st, i + 1, poolMax, read) == TakeTurn(here, i, poolMax, read).0;
  }

  // ---- the fast pass ----

  ghost predicate StillGood(c: Cap, now: nat) { c.status != Dead && (c.expiresAt.Some? ==> now < c.expiresAt.value) }

  /** A capability that is neither dead nor expired and is free and not told to wait, or is in other hands and
      unharmed, or is merely worth waiting for. */
  ghost predicate Fits(want: Want, c: Cap, now: nat) {
    && StillGood(c, now)
    && match want
       case Free => c.free && (c.status == Throttled ==> c.throttledUntil <= now)
       case Busy => !c.free && c.status == Alive
       case Waitable => true
  }

  ghost predicate FreeAt(s: Slot, p: nat, read: Read) { p < |s.caps| && Fits(Free, s.caps[p], read.now) }

  /** A slot has a capability that can be taken at once, and its breaker is not open. */
  ghost predicate FreeNow(s: Slot, read: Read) {
    && !Opened(BREAKER, s.breaker, read.now)
    && exists p :: FreeAt(s, p, read)
  }

  /** Asking a breaker is all that the fast pass does to a slot it does not take from. */
  ghost function Ready(s: Slot, read: Read): Slot { s.(breaker := AfterQuery(BREAKER, s.breaker, read.now)) }

  lemma {:induction false} FreeFound(s: Slot, read: Read)
    ensures match FirstThat(Free, s.caps, read.now)
            case Some(p) => FreeAt(s, p, read)
            case None => forall p :: !FreeAt(s, p, read)
  {
  }

  /** The slot without the permit at position `p`, its breaker closed. */
  ghost function WithoutPermit(s: Slot, p: nat): Slot
    requires p < |s.caps|
  {
    var c := s.caps[p];
    Slot(s.coord, BreakerState(0, None), s.caps[p := Cap(c.status, c.expiresAt, c.throttledUntil, false)], s.target)
  }

  ghost predicate FastAnswers(st: State, i: nat, read: Read, end: State, fast: Option<Answer>)
    requires i <= |st.slots|
  {
    && |end.slots| == |st.slots| && end.blocked == st.blocked
    && match fast
       case None =>
         forall j :: 0 <= j < |st.slots| ==>
           if j < i then end.slots[j] == st.slots[j]
           else !FreeNow(st.slots[j], read) && end.slots[j] == Ready(st.slots[j], read)
       case Some(Reserved(k, p)) =>
         && i <= k < |st.slots| && FreeNow(st.slots[k], read) && FreeAt(st.slots[k], p, read)
         && forall j :: 0 <= j < |st.slots| ==>
              if j < i || j > k then end.slots[j] == st.slots[j]
              else if j == k then end.slots[k] == WithoutPermit(st.slots[k], p)
              else !FreeNow(st.slots[j], read) && end.slots[j] == Ready(st.slots[j], read)
       case Some(_) => false
  }

  /** A free slot ends the fast pass. */
  lemma {:induction false} FastPassTakes(st: State, i: nat, read: Read)
    requires i < |st.slots| && FreeNow(st.slots[i], read)
    ensures FastAnswers(st, i, read, FastPass(st, i, read).0, FastPass(st, i, read).1)
  {
    FreeFound(st.slots[i], read);
    var p := FirstThat(Free, st.slots[i].caps, read.now).value;
    var taken := Taken(Ready(st.slots[i], read), p).(breaker := CLOSED);
    assert FastPass(st, i, read) == (State(st.slots[i := taken], st.blocked), Some(Reserved(i, p)));
    assert taken == WithoutPermit(st.slots[i], p);
    hide FastPass, FreeNow, FirstThat, Taken, AfterQuery;
  }

  /** Any other slot is only asked, and the pass goes on. */
  lemma {:induction false} FastPassGoesOn(st: State, i: nat, read: Read)
    requires i < |st.slots| && !FreeNow(st.slots[i], read)
    ensures var next := State(st.slots[i := Ready(st.slots[i], read)], st.blocked);
      FastPass(st, i, read) == FastPass(next, i + 1, read)
  {
    FreeFound(st.slots[i], read);
    hide AfterQuery, FirstThat;
  }

  /** What the pass answers from the next slot on, it answers from this one on. */
  lemma {:induction false} FastAnswersGrow(st: State, i: nat, read: Read, end: State, fast: Option<Answer>)
    requires i < |st.slots| && !FreeNow(st.slots[i], read)
    requires FastAnswers(State(st.slots[i := Ready(st.slots[i], read)], st.blocked), i + 1, read, end, fast)
    ensures FastAnswers(st, i, read, end, fast)
  {
    hide FreeNow, Ready, WithoutPermit;
    var next := State(st.slots[i := Ready(st.slots[i], read)], st.blocked);
    forall j | 0 <= j < |st.slots| && j != i ensures next.slots[j] == st.slots[j] {
    }
    match fast
    case None =>
      forall j | 0 <= j < |st.slots|
        ensures if j < i then end.slots[j] == st.slots[j]
                else !FreeNow(st.slots[j], read) && end.slots[j] == Ready(st.slots[j], read)
      {
      }
    case Some(Reserved(k, p)) =>
      forall j | 0 <= j < |st.slots|
        ensures if j < i || j > k then end.slots[j] == st.slots[j]
                else if j == k then end.slots[k] == WithoutPermit(st.slots[k], p)
                else !FreeNow(st.slots[j], read) && end.slots[j] == Ready(st.slots[j], read)
      {
      }
    case Some(_) =>
  }

  lemma {:induction false} FastPassTakesFirst(st: State, i: nat, read: Read)
    requires i <= |st.slots|
    ensures FastAnswers(st, i, read, FastPass(st, i, read).0, FastPass(st, i, read).1)
    decreases |st.slots| - i
  {
    if i < |st.slots| {
      if FreeNow(st.slots[i], read) {
        FastPassTakes(st, i, read);
      } else {
        var next := State(st.slots[i := Ready(st.slots[i], read)], st.blocked);
        FastPassTakesFirst(next, i + 1, read);
        FastPassGoesOn(st, i, read);
        FastAnswersGrow(st, i, read, FastPass(next, i + 1, read).0, FastPass(next, i + 1, read).1);
      }
      hide FastAnswers, FastPass;
    }
  }

  // ---- the read ----

  /** The state after the fast pass found nothing. */
  ghost function AllAsked(st: State, read: Read): (r: State)
    ensures |r.slots| == |st.slots|
  {
    State(seq(|st.slots|, k requires 0 <= k < |st.slots| => Ready(st.slots[k], read)), st.blocked)
  }

  lemma {:induction false} ReadIsFastPassThenPass(st: State, poolMax: nat, read: Read)
    ensures var (end, answer) := Acquire(st, poolMax, read);
      if exists k :: 0 <= k < |st.slots| && FreeNow(st.slots[k], read)
      then FastAnswers(st, 0, read, end, Some(answer))
      else PassAnswers(AllAsked(st, read), poolMax, read, end, answer)
  {
    FastPassTakesFirst(st, 0, read);
    var (end, fast) := FastPass(st, 0, read);
    if fast.None? {
      assert end == AllAsked(st, read);
      PassFollowsTurns(end, 0, poolMax, read, [], None);
    }
  }

  /** A read fails exactly when no slot had a capability free at once and no slot gave one in its turn; it then
      reports every slot once, in order, and the first wait that any slot named. */
  lemma {:induction false} FailsOnlyAfterEverySlot(st: State, poolMax: nat, read: Read)
    ensures var (end, answer) := Acquire(st, poolMax, read);
      var asked := AllAsked(st, read);
      && (answer.AllFailed? <==>
            && (forall k :: 0 <= k < |st.slots| ==> !FreeNow(st.slots[k], read))
            && (forall k :: 0 <= k < |st.slots| ==> !OutcomeOf(asked, k, poolMax, read).Gave?))
      && (answer.AllFailed? ==>
            && Reports(asked, |st.slots|, poolMax, read, answer.routes)
            && FirstWaitIs(asked, |st.slots|, poolMax, read, answer.retryAfter)
            && end == Before(asked, |st.slots|, poolMax, read))
  {
    ReadIsFastPassThenPass(st, poolMax, read);
    hide Acquire, OutcomeOf, Before, FreeNow, FirstWaitIs, AllAsked;
    var answer := Acquire(st, poolMax, read).1;
    if answer.Reserved? && forall k :: 0 <= k < |st.slots| ==> !FreeNow(st.slots[k], read) {
      assert OutcomeOf(AllAsked(st, read), answer.slot, poolMax, read).Gave?;
    }
  }

  /** The slot that wins: the first with a capability free at once, otherwise the first that gives in its turn. */
  lemma {:induction false} FirstSlotWins(st: State, poolMax: nat, read: Read)
    requires Acquire(st, poolMax, read).1.Reserved?
    ensures var Reserved(k, p) := Acquire(st, poolMax, read).1;
      && k < |st.slots|
      && if exists j :: 0 <= j < |st.slots| && FreeNow(st.slots[j], read)
         then FreeAt(st.slots[k], p, read) && FreeNow(st.slots[k], read)
              && forall j :: 0 <= j < k ==> !FreeNow(st.slots[j], read)
         else OutcomeOf(AllAsked(st, read), k, poolMax, read) == Gave(p)
              && forall j :: 0 <= j < k ==> !OutcomeOf(AllAsked(st, read), j, poolMax, read).Gave?
  {
    ReadIsFastPassThenPass(st, poolMax, read);
  }

  // ---- the routes reported ----

  /** The slots are those of a manager made for these coordinates, whatever happened to them since. */
  ghost predicate SlotsFor(coords: seq<Coord>, size: nat, slots: seq<Slot>) {
    Grouped(coords, size, CoordsOf(slots))
  }

  /** A read leaves the coordinates of every slot alone. */
  lemma {:induction false} ReadKeepsCoords(st: State, poolMax: nat, read: Read)
    ensures CoordsOf(Acquire(st, poolMax, read).0.slots) == CoordsOf(st.slots)
  {
    ReadIsFastPassThenPass(st, poolMax, read);
    var (end, answer) := Acquire(st, poolMax, read);
    hide Acquire, Before, OutcomeOf, FreeNow, FreeAt, AfterQuery, FirstWaitIs, Reports;
    if exists k :: 0 <= k < |st.slots| && FreeNow(st.slots[k], read) {
      forall j | 0 <= j < |st.slots| ensures end.slots[j].coord == st.slots[j].coord {
      }
    } else {
      var asked := AllAsked(st, read);
      var n := if answer.Reserved? then answer.slot + 1 else |asked.slots|;
      assert end == Before(asked, n, poolMax, read);
    }
  }

  /** So every later read works on the slots of the new manager. */
  lemma {:induction false} SlotsStay(coords: seq<Coord>, size: nat, st: State, poolMax: nat, read: Read)
    requires FreshSlots(coords, size, st.slots) || SlotsFor(coords, size, st.slots)
    ensures SlotsFor(coords, size, Acquire(st, poolMax, read).0.slots)
  {
    ReadKeepsCoords(st, poolMax, read);
    hide Acquire, Grouped;
  }

  function CoordsReported(routes: seq<RouteFailure>): seq<Coord> {
    seq(|routes|, k requires 0 <= k < |routes| => routes[k].coord)
  }

  /** A failed read of a manager reports the offered placements: each once, in the order in which they were first
      offered, under the file picked for it. */
  lemma {:induction false} RoutesFollowTheOffer(coords: seq<Coord>, size: nat, st: State, poolMax: nat, read: Read)
    requires FreshSlots(coords, size, st.slots) || SlotsFor(coords, size, st.slots)
    requires Acquire(st, poolMax, read).1.AllFailed?
    ensures SlotsFollowOffer(coords, size, CoordsReported(Acquire(st, poolMax, read).1.routes))
  {
    hide *;
    FailureReportsSlots(st, poolMax, read);
    OfferGrouped(coords, size, st.slots);
    OneSlotPerPlacement(coords, size, CoordsReported(Acquire(st, poolMax, read).1.routes));
  }

  lemma {:induction false} OfferGrouped(coords: seq<Coord>, size: nat, slots: seq<Slot>)
    requires FreshSlots(coords, size, slots) || SlotsFor(coords, size, slots)
    ensures Grouped(coords, size, CoordsOf(slots))
  {
    hide Grouped;
  }

  lemma {:induction false} FailureReportsSlots(st: State, poolMax: nat, read: Read)
    requires Acquire(st, poolMax, read).1.AllFailed?
    ensures CoordsReported(Acquire(st, poolMax, read).1.routes) == CoordsOf(st.slots)
  {
    FailsOnlyAfterEverySlot(st, poolMax, read);
    hide Acquire, Before, OutcomeOf, FreeNow, FirstWaitIs;
    ReportedCoords(AllAsked(st, read), poolMax, read, Acquire(st, poolMax, read).1.routes);
    hide Reports;
    assert CoordsOf(AllAsked(st, read).slots) == CoordsOf(st.slots);
  }

  lemma {:induction false} ReportedCoords(st: State, poolMax: nat, read: Read, routes: seq<RouteFailure>)
    requires Reports(st, |st.slots|, poolMax, read, routes)
    ensures CoordsReported(routes) == CoordsOf(st.slots)
  {
    hide OutcomeOf;
  }
}
