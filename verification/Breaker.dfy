/** The provider breaker and the life of one delivery capability. Instants are nanoseconds. */
module Capability {
  import opened Outcomes

  // ---- the breaker ----

  datatype BreakerState = BreakerState(failures: nat, openedAt: Option<nat>)

  datatype BreakerConfig = BreakerConfig(threshold: nat, cooldown: nat)

  const CLOSED := BreakerState(0, None)

  function AfterFailure(cfg: BreakerConfig, b: BreakerState, at: nat): BreakerState {
    BreakerState(b.failures + 1, if b.failures + 1 >= cfg.threshold then Some(at) else b.openedAt)
  }

  predicate Opened(cfg: BreakerConfig, b: BreakerState, now: nat) {
    b.openedAt.Some? && now < b.openedAt.value + cfg.cooldown
  }

  /** Asking resets a breaker whose cooldown has passed. */
  function AfterQuery(cfg: BreakerConfig, b: BreakerState, now: nat): BreakerState {
    if b.openedAt.Some? && !Opened(cfg, b, now) then CLOSED else b
  }

  class Breaker {
    const cfg: BreakerConfig
    var failures: nat
    var openedAt: Option<nat>

    constructor (threshold: nat, cooldown: nat)
      ensures cfg == BreakerConfig(threshold, cooldown) && Value() == CLOSED
    {
      cfg := BreakerConfig(threshold, cooldown);
      failures, openedAt := 0, None;
    }

    function Value(): BreakerState
      reads this
    {
      BreakerState(failures, openedAt)
    }

    method RecordFailure(at: nat)
      modifies this
      ensures Value() == AfterFailure(cfg, old(Value()), at)
    {
      failures := failures + 1;
      if failures >= cfg.threshold {
        openedAt := Some(at);
      }
    }

    method RecordSuccess()
      modifies this
      ensures Value() == CLOSED
    {
      failures, openedAt := 0, None;
    }

    method IsOpen(now: nat) returns (open: bool)
      modifies this
      ensures open == Opened(cfg, old(Value()), now) && Value() == AfterQuery(cfg, old(Value()), now)
    {
      if openedAt.None? {
        return false;
      }
      if now < openedAt.value + cfg.cooldown {
        return true;
      }
      RecordSuccess();
      return false;
    }
  }

  datatype BreakerEvent = Failed(at: nat) | Succeeded | Asked(at: nat)

  function BreakerRun(cfg: BreakerConfig, evs: seq<BreakerEvent>): BreakerState {
    if evs == [] then CLOSED
    else
      var b := BreakerRun(cfg, evs[..|evs| - 1]);
      match evs[|evs| - 1]
      case Failed(at) => AfterFailure(cfg, b, at)
      case Succeeded => CLOSED
      case Asked(at) => AfterQuery(cfg, b, at)
  }

  /** The failures since the last success, or since a question found the cooldown over; oldest first. */
  ghost function Streak(cfg: BreakerConfig, evs: seq<BreakerEvent>): seq<nat> {
    if evs == [] then []
    else
      var before := Streak(cfg, evs[..|evs| - 1]);
      match evs[|evs| - 1]
      case Failed(at) => before + [at]
      case Succeeded => []
      case Asked(at) =>
        if |before| >= Max(cfg.threshold, 1) && at >= before[|before| - 1] + cfg.cooldown then [] else before
  }

  /** The breaker is open exactly while a streak of at least the threshold is younger than the cooldown. */
  lemma {:induction false} BreakerFollowsStreak(cfg: BreakerConfig, evs: seq<BreakerEvent>, now: nat)
    ensures var streak := Streak(cfg, evs);
      && BreakerRun(cfg, evs).failures == |streak|
      && BreakerRun(cfg, evs).openedAt ==
           (if |streak| >= Max(cfg.threshold, 1) then Some(streak[|streak| - 1]) else None)
      && (Opened(cfg, BreakerRun(cfg, evs), now) <==>
            |streak| >= Max(cfg.threshold, 1) && now < streak[|streak| - 1] + cfg.cooldown)
  {
    if evs != [] {
      BreakerFollowsStreak(cfg, evs[..|evs| - 1], now);
    }
  }

  /** An elapsed cooldown forgets every failure: there is no single probe that reopens, it takes a whole new
      streak. */
  lemma {:induction false} ElapsedCooldownForgets(cfg: BreakerConfig, b: BreakerState, asked: nat, at: nat, now: nat)
    requires b.openedAt.Some? && asked >= b.openedAt.value + cfg.cooldown
    ensures Opened(cfg, AfterFailure(cfg, AfterQuery(cfg, b, asked), at), now)
       <==> cfg.threshold <= 1 && now < at + cfg.cooldown
  {
  }

  // ---- one capability ----

  datatype Status = Alive | Degraded | Throttled | Dead

  /** `free` says that its one permit is available. */
  datatype Cap = Cap(status: Status, expiresAt: Option<nat>, throttledUntil: nat, free: bool)

  predicate ExpiredAt(c: Cap, now: nat) { c.expiresAt.Some? && now >= c.expiresAt.value }

  predicate UsableNow(c: Cap, now: nat) {
    c.status != Dead && !ExpiredAt(c, now) && !(c.status == Throttled && now < c.throttledUntil)
  }

  predicate Prunable(c: Cap, now: nat) { c.status == Dead || ExpiredAt(c, now) }

  /** What a reader tells a capability about its delivery: wait, gone for good, or slow. */
  datatype Mark = HoldOff(until: nat) | Die | Degrade

  function AfterMark(c: Cap, m: Mark): Cap {
    match m
    case HoldOff(until) => c.(status := Throttled, throttledUntil := until)
    case Die => c.(status := Dead)
    case Degrade => if c.status == Dead then c else c.(status := Degraded)
  }

  class DeliveryCapability {
    const expiresAt: Option<nat>
    var status: Status
    var throttledUntil: nat
    var free: bool

    constructor (expiresAt: Option<nat>, now: nat)
      ensures Value() == Cap(Alive, expiresAt, now, true)
    {
      this.expiresAt := expiresAt;
      status, throttledUntil, free := Alive, now, true;
    }

    function Value(): Cap
      reads this
    {
      Cap(status, expiresAt, throttledUntil, free)
    }

    method ThrottleUntil(until: nat)
      modifies this`status, this`throttledUntil
      ensures Value() == AfterMark(old(Value()), HoldOff(until))
    {
      status, throttledUntil := Throttled, until;
    }

    method MarkDead()
      modifies this`status
      ensures Value() == AfterMark(old(Value()), Die)
    {
      status := Dead;
    }

    method MarkDegraded()
      modifies this`status
      ensures Value() == AfterMark(old(Value()), Degrade)
    {
      if status != Dead {
        status := Degraded;
      }
    }

    method Usable(now: nat) returns (usable: bool)
      ensures usable == UsableNow(Value(), now)
    {
      if status == Dead {
        return false;
      }
      if expiresAt.Some? && now >= expiresAt.value {
        return false;
      }
      return !(status == Throttled && now < throttledUntil);
    }
  }

  /** A new capability after these marks. */
  function Life(expiresAt: Option<nat>, made: nat, marks: seq<Mark>): Cap {
    if marks == [] then Cap(Alive, expiresAt, made, true)
    else AfterMark(Life(expiresAt, made, marks[..|marks| - 1]), marks[|marks| - 1])
  }

  /** It was said to be gone, and nothing told it to wait since. */
  ghost predicate Gone(marks: seq<Mark>) {
    exists i :: 0 <= i < |marks| && marks[i] == Die && forall j :: i < j < |marks| ==> !marks[j].HoldOff?
  }

  /** The last thing it was told is to wait, and the wait is not over. */
  ghost predicate Waiting(marks: seq<Mark>, now: nat) {
    marks != [] && marks[|marks| - 1].HoldOff? && now < marks[|marks| - 1].until
  }

  ghost predicate Unexpired(expiresAt: Option<nat>, now: nat) { expiresAt == None || now < expiresAt.value }

  /** Over every life: a capability is usable exactly while it has not expired, is not gone and need not wait, and it
      is pruned exactly once it has expired or is gone. A throttle brings a dead capability back. */
  lemma {:induction false} UsableOverLife(expiresAt: Option<nat>, made: nat, marks: seq<Mark>, now: nat)
    ensures var c := Life(expiresAt, made, marks);
      && (UsableNow(c, now) <==> Unexpired(expiresAt, now) && !Gone(marks) && !Waiting(marks, now))
      && (Prunable(c, now) <==> !Unexpired(expiresAt, now) || Gone(marks))
      && (c.status == Alive <==> marks == [])
      && c.expiresAt == expiresAt && c.free
  {
    LifeStatus(expiresAt, made, marks);
  }

  lemma {:induction false} LifeStatus(expiresAt: Option<nat>, made: nat, marks: seq<Mark>)
    ensures var c := Life(expiresAt, made, marks);
      && c.expiresAt == expiresAt && c.free && (c.status == Alive <==> marks == [])
      && (c.status == Dead <==> Gone(marks))
      && (c.status == Throttled <==> marks != [] && marks[|marks| - 1].HoldOff?)
      && (c.status == Throttled ==> c.throttledUntil == marks[|marks| - 1].until)
  {
    if marks != [] {
      var front, last := marks[..|marks| - 1], marks[|marks| - 1];
      LifeStatus(expiresAt, made, front);
      if last.Die? { assert Gone(marks); }
      if last.Degrade? && Gone(front) {
        var i :| 0 <= i < |front| && front[i] == Die && forall j :: i < j < |front| ==> !front[j].HoldOff?;
        assert marks[i] == Die;
      }
      if last.Degrade? && Gone(marks) {
        var i :| 0 <= i < |marks| && marks[i] == Die && forall j :: i < j < |marks| ==> !marks[j].HoldOff?;
        assert front[i] == Die;
      }
    }
  }

  /** A throttled capability is kept, is unusable until its deadline and comes back by itself. */
  lemma {:induction false} ThrottleRunsOut(c: Cap, until: nat, now: nat)
    requires !Prunable(c, now)
    ensures var t := AfterMark(c, HoldOff(until));
      !Prunable(t, now) && (UsableNow(t, now) <==> now >= until)
  {
  }
}
