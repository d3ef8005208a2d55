/**
 The sustained-throughput detector of one fill and the policy that arms on its verdicts.
 Instants and durations are nanoseconds; rates are exact before they are rounded.
 */
module Throughput {
  import opened Outcomes

  const NANOS: nat := 1_000_000_000
  const MAX_SAMPLES: nat := 4096
  const MIN_WINDOW_BYTES: nat := 1

  datatype Config = Config(floorBps: nat, window: nat, blocked: nat)

  datatype Verdict = Healthy | InsufficientSample | LowThroughput

  datatype ResetReason = ProducerChange | DownstreamBackpressure

  /** `total` is the epoch's byte count up to and including this sample. */
  datatype Sample = Sample(at: nat, total: nat)

  datatype Estimator = Estimator(samples: seq<Sample>, bytesTotal: nat, epochStart: Option<nat>, suspended: bool,
                                 tainted: bool, resets: nat, lastReset: Option<ResetReason>, provider: string,
                                 capId: string)

  datatype Snapshot = Snapshot(capId: string, verdict: Verdict, measuredBps: Option<nat>, bytesObserved: nat,
                               resets: nat)

  function NewEstimator(provider: string, capId: string): Estimator {
    Estimator([], 0, None, false, false, 0, None, provider, capId)
  }

  // ---- the operations as functions ----

  function KeepLast(samples: seq<Sample>, n: nat): seq<Sample> {
    if |samples| > n then samples[|samples| - n..] else samples
  }

  function Observe(e: Estimator, now: nat, n: nat): Estimator {
    if n == 0 || e.suspended then e
    else e.(epochStart := if e.epochStart == None then Some(now) else e.epochStart,
            bytesTotal := e.bytesTotal + n,
            samples := KeepLast(e.samples + [Sample(now, e.bytesTotal + n)], MAX_SAMPLES))
  }

  function Cleared(e: Estimator, reason: ResetReason): Estimator {
    e.(samples := [], bytesTotal := 0, epochStart := None, suspended := reason == DownstreamBackpressure,
       tainted := false, resets := e.resets + 1, lastReset := Some(reason))
  }

  function NoteSend(cfg: Config, e: Estimator, elapsed: nat): Estimator {
    if elapsed > cfg.blocked then
      if !e.suspended then Cleared(e, DownstreamBackpressure) else e.(tainted := false)
    else e.(tainted := false, suspended := false)
  }

  function ResetForProducer(e: Estimator, provider: string, capId: string): Estimator {
    Cleared(e, ProducerChange).(provider := provider, capId := capId)
  }

  predicate Expired(cfg: Config, s: Sample, now: nat) { s.at + cfg.window < now }

  function DropExpired(cfg: Config, samples: seq<Sample>, now: nat): seq<Sample> {
    if samples != [] && Expired(cfg, samples[0], now) then DropExpired(cfg, samples[1..], now) else samples
  }

  /** Bytes per second, rounded half up as `f64::round` does for non-negative values. */
  function RoundedRate(bytes: nat, span: nat): nat
    requires span > 0
  {
    (2 * bytes * NANOS + span) / (2 * span)
  }

  function Judge(cfg: Config, bytes: nat, span: nat): (Verdict, Option<nat>) {
    if bytes >= MIN_WINDOW_BYTES && span > 0 then
      (if RoundedRate(bytes, span) < cfg.floorBps then LowThroughput else Healthy, Some(RoundedRate(bytes, span)))
    else (InsufficientSample, None)
  }

  function Classify(cfg: Config, e: Estimator, now: nat): (Estimator, Snapshot) {
    var kept := DropExpired(cfg, e.samples, now);
    var covered := e.epochStart.Some? && now >= e.epochStart.value + cfg.window;
    var judged :=
      if |kept| >= 2 && covered && !e.suspended then
        var first, last := kept[0], kept[|kept| - 1];
        Judge(cfg, Minus(last.total, first.total), Minus(last.at, first.at))
      else (InsufficientSample, None);
    (e.(samples := kept), Snapshot(e.capId, judged.0, judged.1, e.bytesTotal, e.resets))
  }

  class ThroughputEstimator {
    const cfg: Config
    var samples: seq<Sample>
    var bytesTotal: nat
    var epochStart: Option<nat>
    var suspended: bool
    var tainted: bool
    var resets: nat
    var lastReset: Option<ResetReason>
    var provider: string
    var capId: string

    constructor (cfg: Config, provider: string, capId: string)
      ensures this.cfg == cfg && Value() == NewEstimator(provider, capId)
    {
      this.cfg := cfg;
      samples, bytesTotal, epochStart, suspended, tainted := [], 0, None, false, false;
      resets, lastReset := 0, None;
      this.provider, this.capId := provider, capId;
    }

    function Value(): Estimator
      reads this
    {
      Estimator(samples, bytesTotal, epochStart, suspended, tainted, resets, lastReset, provider, capId)
    }

    method Suspend(reason: ResetReason)
      modifies this
      ensures Value() == Cleared(old(Value()), reason)
    {
      samples, bytesTotal, epochStart := [], 0, None;
      suspended, tainted := reason == DownstreamBackpressure, false;
      resets, lastReset := resets + 1, Some(reason);
    }

    method ResetProducer(provider: string, capId: string)
      modifies this
      ensures Value() == ResetForProducer(old(Value()), provider, capId)
    {
      this.provider, this.capId := provider, capId;
      Suspend(ProducerChange);
    }

    method ObserveBytes(now: nat, n: nat)
      modifies this
      ensures Value() == Observe(old(Value()), now, n)
    {
      if n == 0 || suspended {
        return;
      }
      if epochStart == None {
        epochStart := Some(now);
      }
      bytesTotal := bytesTotal + n;
      samples := samples + [Sample(now, bytesTotal)];
      DropOverflow();
    }

    method DropOverflow()
      modifies this`samples
      ensures samples == KeepLast(old(samples), MAX_SAMPLES)
    {
      while |samples| > MAX_SAMPLES
        invariant KeepLast(samples, MAX_SAMPLES) == KeepLast(old(samples), MAX_SAMPLES)
      {
        samples := samples[1..];
      }
    }

    method NotePresend(channelFull: bool)
      modifies this
      ensures Value() == old(Value()).(tainted := old(tainted) || channelFull)
    {
      if channelFull {
        tainted := true;
      }
    }

    method SendCompleted(elapsed: nat)
      modifies this
      ensures Value() == NoteSend(cfg, old(Value()), elapsed)
    {
      if elapsed > cfg.blocked {
        if !suspended {
          Suspend(DownstreamBackpressure);
        } else {
          tainted := false;
        }
        return;
      }
      tainted := false;
      if suspended {
        suspended := false;
      }
    }

    method Evaluate(now: nat) returns (snap: Snapshot)
      modifies this
      ensures (Value(), snap) == Classify(cfg, old(Value()), now)
    {
      while |samples| > 0 && samples[0].at + cfg.window < now
        invariant DropExpired(cfg, samples, now) == DropExpired(cfg, old(samples), now)
        invariant Value() == old(Value()).(samples := samples)
        decreases |samples|
      {
        samples := samples[1..];
      }
      var covered := epochStart.Some? && now >= epochStart.value + cfg.window;
      var verdict, bps := InsufficientSample, None;
      if |samples| >= 2 && covered && !suspended {
        var first, last := samples[0], samples[|samples| - 1];
        var span, bytes := Minus(last.at, first.at), Minus(last.total, first.total);
        if bytes >= MIN_WINDOW_BYTES && span > 0 {
          var rate := RoundedRate(bytes, span);
          bps := Some(rate);
          verdict := if rate < cfg.floorBps then LowThroughput else Healthy;
        }
      }
      snap := Snapshot(capId, verdict, bps, bytesTotal, resets);
    }
  }

  // ---- the policy ----

  datatype Policy = Policy(count: nat, capId: Option<string>, lastObservation: Option<nat>, trackedResets: nat)

  const NEW_POLICY := Policy(0, None, None, 0)

  /** Forget the sequence when the snapshot belongs to another epoch or producer. */
  function Synced(p: Policy, snap: Snapshot): Policy {
    if snap.resets != p.trackedResets || p.capId != Some(snap.capId) then
      Policy(0, Some(snap.capId), None, snap.resets)
    else p
  }

  predicate Counts(p: Policy, snap: Snapshot, window: nat, now: nat) {
    snap.verdict == LowThroughput && (p.lastObservation.Some? ==> now >= p.lastObservation.value + window)
  }

  function NoteVerdict(p: Policy, snap: Snapshot, window: nat, now: nat): Policy {
    var q := Synced(p, snap);
    match snap.verdict
    case LowThroughput =>
      if Counts(q, snap, window, now) then q.(count := q.count + 1, lastObservation := Some(now)) else q
    case Healthy => q.(count := 0, lastObservation := None)
    case InsufficientSample => q
  }

  class LowObservationPolicy {
    var count: nat
    var capId: Option<string>
    var lastObservation: Option<nat>
    var trackedResets: nat

    constructor ()
      ensures Value() == NEW_POLICY
    {
      count, capId, lastObservation, trackedResets := 0, None, None, 0;
    }

    function Value(): Policy
      reads this
    {
      Policy(count, capId, lastObservation, trackedResets)
    }

    method ResetSequence()
      modifies this
      ensures Value() == old(Value()).(count := 0, lastObservation := None)
    {
      count, lastObservation := 0, None;
    }

    /** Take in one verdict and tell whether it counted as an observation of its own. */
    method Note(snap: Snapshot, window: nat, now: nat) returns (completed: bool)
      modifies this
      ensures Value() == NoteVerdict(old(Value()), snap, window, now)
      ensures completed == Counts(Synced(old(Value()), snap), snap, window, now)
    {
      completed := false;
      if snap.resets != trackedResets || capId != Some(snap.capId) {
        count, capId, lastObservation, trackedResets := 0, Some(snap.capId), None, snap.resets;
      }
      match snap.verdict {
        case LowThroughput =>
          if lastObservation.None? || now >= lastObservation.value + window {
            count, lastObservation := count + 1, Some(now);
            completed := true;
          }
        case Healthy =>
          count, lastObservation := 0, None;
        case InsufficientSample =>
      }
    }
  }

  // ---- traces ----

  datatype Event =
    | Bytes(at: nat, n: nat)
    | Presend(at: nat, full: bool)
    | Send(at: nat, elapsed: nat)
    | Producer(at: nat, provider: string, capId: string)
    | Verdicts(at: nat)
    | Restart(at: nat)

  /** `n` bytes observed at one instant. */
  datatype Observation = Observation(at: nat, n: nat)

  datatype Machine = Machine(est: Estimator, policy: Policy)

  /** What the estimator is made for: a provider and one of its capabilities. */
  datatype Origin = Origin(provider: string, capId: string)

  function StepOn(cfg: Config, m: Machine, ev: Event): Machine {
    match ev
    case Bytes(at, n) => m.(est := Observe(m.est, at, n))
    case Presend(_, full) => m.(est := m.est.(tainted := m.est.tainted || full))
    case Send(_, elapsed) => m.(est := NoteSend(cfg, m.est, elapsed))
    case Producer(_, provider, capId) => m.(est := ResetForProducer(m.est, provider, capId))
    case Verdicts(at) =>
      var (est, snap) := Classify(cfg, m.est, at);
      Machine(est, NoteVerdict(m.policy, snap, cfg.window, at))
    case Restart(_) => m.(policy := m.policy.(count := 0, lastObservation := None))
  }

  /** The machine after the first `n` events. */
  function Run(cfg: Config, from: Origin, evs: seq<Event>, n: nat): Machine
    requires n <= |evs|
  {
    if n == 0 then Machine(NewEstimator(from.provider, from.capId), NEW_POLICY)
      else StepOn(cfg, Run(cfg, from, evs, n - 1), evs[n - 1])
  }

  ghost predicate Monotonic(evs: seq<Event>) {
    forall i, j :: 0 <= i < j < |evs| ==> evs[i].at <= evs[j].at
  }

  /** The event throws the epoch away: a new producer, or a send that was blocked. */
  predicate Contaminates(cfg: Config, ev: Event) {
    ev.Producer? || (ev.Send? && ev.elapsed > cfg.blocked)
  }

  /** What was observed since the last contamination, with one more event. */
  ghost function NextEpoch(cfg: Config, ev: Event, epoch: seq<Observation>, suspended: bool): seq<Observation> {
    if Contaminates(cfg, ev) then []
    else if ev.Bytes? && ev.n > 0 && !suspended then epoch + [Observation(ev.at, ev.n)]
    else epoch
  }

  /** A blocked send suspends the observation; a fast send or a new producer resumes it. */
  ghost predicate NextSuspended(cfg: Config, ev: Event, suspended: bool) {
    match ev
    case Send(_, elapsed) => elapsed > cfg.blocked
    case Producer(_, _, _) => false
    case _ => suspended
  }

  ghost predicate Suspended(cfg: Config, evs: seq<Event>, n: nat)
    requires n <= |evs|
  {
    n > 0 && NextSuspended(cfg, evs[n - 1], Suspended(cfg, evs, n - 1))
  }

  /** The observations since the last contamination, each with its own instant and byte count. */
  ghost function Epoch(cfg: Config, evs: seq<Event>, n: nat): seq<Observation>
    requires n <= |evs|
  {
    if n == 0 then [] else NextEpoch(cfg, evs[n - 1], Epoch(cfg, evs, n - 1), Suspended(cfg, evs, n - 1))
  }

  ghost function BytesOf(epoch: seq<Observation>): nat {
    if epoch == [] then 0 else BytesOf(epoch[..|epoch| - 1]) + epoch[|epoch| - 1].n
  }

  /** The epoch with running totals in place of the single byte counts. */
  ghost function Running(epoch: seq<Observation>): (samples: seq<Sample>)
    ensures |samples| == |epoch|
    ensures forall k :: 0 <= k < |epoch| ==> samples[k].at == epoch[k].at
  {
    if epoch == [] then []
    else Running(epoch[..|epoch| - 1]) + [Sample(epoch[|epoch| - 1].at, BytesOf(epoch))]
  }

  lemma {:induction false} RunningTotal(epoch: seq<Observation>, k: nat)
    requires k < |epoch|
    ensures Running(epoch)[k].total == BytesOf(epoch[..k + 1])
    decreases |epoch|
  {
    if k < |epoch| - 1 {
      RunningTotal(epoch[..|epoch| - 1], k);
      assert epoch[..|epoch| - 1][..k + 1] == epoch[..k + 1];
    } else {
      assert epoch[..k + 1] == epoch;
    }
  }

  /** First position of the epoch that is inside the window at `now` and among the last 4096. */
  ghost function Oldest(cfg: Config, epoch: seq<Observation>, now: nat): (k: nat)
    ensures k <= |epoch|
  {
    Max(if |epoch| > MAX_SAMPLES then |epoch| - MAX_SAMPLES else 0, FirstFresh(cfg, epoch, now))
  }

  ghost function FirstFresh(cfg: Config, epoch: seq<Observation>, now: nat): (k: nat)
    ensures k <= |epoch|
    ensures forall i :: 0 <= i < k ==> epoch[i].at + cfg.window < now
    ensures k < |epoch| ==> epoch[k].at + cfg.window >= now
  {
    if epoch == [] || epoch[0].at + cfg.window >= now then 0 else 1 + FirstFresh(cfg, epoch[1..], now)
  }

  /** The verdict as the documentation words it, straight from the events: at least one window of
      observation, two samples or more, and the bytes after the oldest retained sample over the time they took. */
  ghost function VerdictOf(cfg: Config, evs: seq<Event>, n: nat, now: nat): Verdict
    requires n <= |evs|
  {
    JudgedOf(cfg, Epoch(cfg, evs, n), Suspended(cfg, evs, n), now).0
  }

  /** ... and the rate that goes with it. */
  ghost function JudgedOf(cfg: Config, epoch: seq<Observation>, suspended: bool, now: nat): (Verdict, Option<nat>) {
    var k := Oldest(cfg, epoch, now);
    if |epoch| - k >= 2 && epoch[0].at + cfg.window <= now && !suspended then
      Judge(cfg, Minus(BytesOf(epoch), BytesOf(epoch[..k + 1])), Minus(epoch[|epoch| - 1].at, epoch[k].at))
    else (InsufficientSample, None)
  }

  // ---- the incremental estimator computes that verdict ----

  ghost predicate Sorted(epoch: seq<Observation>) {
    forall i, j :: 0 <= i < j < |epoch| ==> epoch[i].at <= epoch[j].at
  }

  lemma {:induction false} EpochInOrder(cfg: Config, evs: seq<Event>, n: nat)
    requires Monotonic(evs) && n <= |evs|
    ensures Sorted(Epoch(cfg, evs, n))
    ensures forall i :: 0 <= i < |Epoch(cfg, evs, n)| ==>
              n > 0 && Epoch(cfg, evs, n)[i].at <= evs[n - 1].at && Epoch(cfg, evs, n)[i].n > 0
    decreases n
  {
    if n > 0 {
      EpochInOrder(cfg, evs, n - 1);
    }
  }

  /** What the estimator keeps of the epoch: everything from position `d` on, with what it dropped expired
      at the latest instant or beyond the bound. */
  ghost predicate Tracks(cfg: Config, e: Estimator, epoch: seq<Observation>, suspended: bool, d: nat, clock: nat) {
    && d <= |epoch|
    && e.samples == Running(epoch)[d..]
    && e.bytesTotal == BytesOf(epoch)
    && e.epochStart == (if epoch == [] then None else Some(epoch[0].at))
    && e.suspended == suspended
    && |epoch| - d <= MAX_SAMPLES
    && (forall i :: 0 <= i < d ==> epoch[i].at + cfg.window < clock || i < |epoch| - MAX_SAMPLES)
  }

  lemma {:induction false} RunningGrows(epoch: seq<Observation>, x: Observation)
    ensures Running(epoch + [x]) == Running(epoch) + [Sample(x.at, BytesOf(epoch) + x.n)]
    ensures BytesOf(epoch + [x]) == BytesOf(epoch) + x.n
  {
    var longer := epoch + [x];
    assert longer[..|longer| - 1] == epoch;
  }

  lemma {:induction false} ObserveTracks(cfg: Config, e: Estimator, epoch: seq<Observation>, d: nat, clock: nat,
                                         now: nat, n: nat)
    returns (d': nat)
    requires Tracks(cfg, e, epoch, false, d, clock) && n > 0 && clock <= now
    ensures Tracks(cfg, Observe(e, now, n), epoch + [Observation(now, n)], false, d', now)
  {
    RunningGrows(epoch, Observation(now, n));
    hide Running, BytesOf;
    var longer := epoch + [Observation(now, n)];
    d' := if |longer| - d > MAX_SAMPLES then |longer| - MAX_SAMPLES else d;
    assert e.samples + [Sample(now, BytesOf(longer))] == Running(longer)[d..];
    assert Running(longer)[d..][d' - d..] == Running(longer)[d'..];
  }

  lemma {:induction false} DropTracks(cfg: Config, epoch: seq<Observation>, d: nat, now: nat)
    requires d <= |epoch| && Sorted(epoch)
    ensures var k := Max(d, FirstFresh(cfg, epoch, now));
      k <= |epoch| && DropExpired(cfg, Running(epoch)[d..], now) == Running(epoch)[k..]
    decreases |epoch| - d
  {
    var kept := Running(epoch)[d..];
    if d < |epoch| && Expired(cfg, kept[0], now) {
      assert kept[1..] == Running(epoch)[d + 1..];
      DropTracks(cfg, epoch, d + 1, now);
      assert d < FirstFresh(cfg, epoch, now);
    }
  }

  ghost function ClockAt(evs: seq<Event>, n: nat): nat
    requires n <= |evs|
  {
    if n == 0 then 0 else evs[n - 1].at
  }

  lemma {:induction false} EstimatorTracks(cfg: Config, from: Origin, evs: seq<Event>, n: nat) returns (d: nat)
    requires Monotonic(evs) && n <= |evs|
    ensures Tracks(cfg, Run(cfg, from, evs, n).est, Epoch(cfg, evs, n), Suspended(cfg, evs, n), d, ClockAt(evs, n))
    decreases n
  {
    hide *;
    d := 0;
    if n == 0 {
      NothingRun(cfg, from, evs);
    } else {
      RunUnfolds(cfg, from, evs, n);
      SuspendedMeansEmpty(cfg, evs, n - 1);
      EpochInOrder(cfg, evs, n - 1);
      d := EstimatorTracks(cfg, from, evs, n - 1);
      d := StepTracks(cfg, Run(cfg, from, evs, n - 1), evs[n - 1], Epoch(cfg, evs, n - 1), Suspended(cfg, evs, n - 1),
                      d, ClockAt(evs, n - 1));
    }
  }

  lemma {:induction false} NothingRun(cfg: Config, from: Origin, evs: seq<Event>)
    ensures Tracks(cfg, Run(cfg, from, evs, 0).est, Epoch(cfg, evs, 0), Suspended(cfg, evs, 0), 0, ClockAt(evs, 0))
  {
  }

  lemma {:induction false} RunUnfolds(cfg: Config, from: Origin, evs: seq<Event>, n: nat)
    requires 0 < n <= |evs|
    ensures ClockAt(evs, n) == evs[n - 1].at && (Monotonic(evs) ==> ClockAt(evs, n - 1) <= evs[n - 1].at)
    ensures Run(cfg, from, evs, n) == StepOn(cfg, Run(cfg, from, evs, n - 1), evs[n - 1])
    ensures Epoch(cfg, evs, n) == NextEpoch(cfg, evs[n - 1], Epoch(cfg, evs, n - 1), Suspended(cfg, evs, n - 1))
    ensures Suspended(cfg, evs, n) <==> NextSuspended(cfg, evs[n - 1], Suspended(cfg, evs, n - 1))
  {
    hide StepOn, NextEpoch, NextSuspended;
  }

  lemma {:induction false} LookTracks(cfg: Config, e: Estimator, epoch: seq<Observation>, suspended: bool, d: nat,
                                      clock: nat, now: nat)
    requires Tracks(cfg, e, epoch, suspended, d, clock) && Sorted(epoch) && clock <= now
    ensures Tracks(cfg, Classify(cfg, e, now).0, epoch, suspended, Max(d, FirstFresh(cfg, epoch, now)), now)
  {
    hide Running, BytesOf, DropExpired;
    DropTracks(cfg, epoch, d, now);
  }

  lemma {:induction false} SendTracks(cfg: Config, e: Estimator, epoch: seq<Observation>, suspended: bool, d: nat,
                                      clock: nat, now: nat, elapsed: nat)
    requires Tracks(cfg, e, epoch, suspended, d, clock) && clock <= now && (suspended ==> epoch == [])
    ensures var blocked := elapsed > cfg.blocked;
      Tracks(cfg, NoteSend(cfg, e, elapsed), if blocked then [] else epoch, blocked, if blocked then 0 else d, now)
  {
  }

  lemma {:induction false} StepTracks(cfg: Config, m: Machine, ev: Event, epoch: seq<Observation>, suspended: bool,
                                      d: nat, clock: nat) returns (d': nat)
    requires Tracks(cfg, m.est, epoch, suspended, d, clock) && Sorted(epoch) && clock <= ev.at
    requires suspended ==> epoch == []
    ensures Tracks(cfg, StepOn(cfg, m, ev).est, NextEpoch(cfg, ev, epoch, suspended),
                   NextSuspended(cfg, ev, suspended), d', ev.at)
  {
    hide Tracks, Observe, NoteSend, NoteVerdict, Classify, ResetForProducer, Sorted, FirstFresh;
    d' := d;
    match ev {
      case Bytes(at, n) =>
        if n > 0 && !suspended {
          d' := ObserveTracks(cfg, m.est, epoch, d, clock, at, n);
        } else {
          NothingObserved(cfg, m.est, epoch, suspended, d, clock, at, n);
        }
      case Presend(at, full) =>
        TaintTracks(cfg, m.est, epoch, suspended, d, clock, at, m.est.tainted || full);
      case Verdicts(at) =>
        LookTracks(cfg, m.est, epoch, suspended, d, clock, at);
        d' := Max(d, FirstFresh(cfg, epoch, at));
      case Send(at, elapsed) =>
        SendTracks(cfg, m.est, epoch, suspended, d, clock, at, elapsed);
        d' := if elapsed > cfg.blocked then 0 else d;
      case Producer(at, provider, capId) =>
        NewProducerTracks(cfg, m.est, provider, capId, at);
        d' := 0;
      case Restart(at) =>
        TaintTracks(cfg, m.est, epoch, suspended, d, clock, at, m.est.tainted);
    }
  }

  /** The taint is no part of what is tracked, and time alone changes nothing. */
  lemma {:induction false} TaintTracks(cfg: Config, e: Estimator, epoch: seq<Observation>, suspended: bool, d: nat,
                                       clock: nat, now: nat, tainted: bool)
    requires Tracks(cfg, e, epoch, suspended, d, clock) && clock <= now
    ensures Tracks(cfg, e.(tainted := tainted), epoch, suspended, d, now)
  {
    hide Running, BytesOf;
  }

  lemma {:induction false} NewProducerTracks(cfg: Config, e: Estimator, provider: string, capId: string, now: nat)
    ensures Tracks(cfg, ResetForProducer(e, provider, capId), [], false, 0, now)
  {
  }

  lemma {:induction false} NothingObserved(cfg: Config, e: Estimator, epoch: seq<Observation>, suspended: bool, d: nat,
                                           clock: nat, now: nat, n: nat)
    requires Tracks(cfg, e, epoch, suspended, d, clock) && clock <= now && (n == 0 || suspended)
    ensures Tracks(cfg, Observe(e, now, n), epoch, suspended, d, now)
  {
    hide Running, BytesOf;
  }

  lemma {:induction false} SuspendedMeansEmpty(cfg: Config, evs: seq<Event>, n: nat)
    requires n <= |evs|
    ensures Suspended(cfg, evs, n) ==> Epoch(cfg, evs, n) == []
  {
    if n > 0 && !evs[n - 1].Send? {
      SuspendedMeansEmpty(cfg, evs, n - 1);
    }
  }

  /** On every trace the incremental estimator gives the verdict read off the events themselves. */
  lemma {:induction false} VerdictFromEvents(cfg: Config, from: Origin, evs: seq<Event>, n: nat, now: nat)
    requires Monotonic(evs) && n <= |evs| && ClockAt(evs, n) <= now
    ensures Classify(cfg, Run(cfg, from, evs, n).est, now).1.verdict == VerdictOf(cfg, evs, n, now)
    ensures var snap := Classify(cfg, Run(cfg, from, evs, n).est, now).1;
      && snap.measuredBps == JudgedOf(cfg, Epoch(cfg, evs, n), Suspended(cfg, evs, n), now).1
      && snap.bytesObserved == BytesOf(Epoch(cfg, evs, n))
  {
    hide Run, Epoch, Suspended, Classify, Tracks, Sorted, JudgedOf, BytesOf, Monotonic, ClockAt;
    var d := EstimatorTracks(cfg, from, evs, n);
    EpochInOrder(cfg, evs, n);
    TrackedVerdict(cfg, Run(cfg, from, evs, n).est, Epoch(cfg, evs, n), Suspended(cfg, evs, n), d, ClockAt(evs, n),
                   now);
  }

  lemma {:induction false} TrackedVerdict(cfg: Config, e: Estimator, epoch: seq<Observation>, suspended: bool,
                                          d: nat, clock: nat, now: nat)
    requires Tracks(cfg, e, epoch, suspended, d, clock) && Sorted(epoch) && clock <= now
    ensures var snap := Classify(cfg, e, now).1;
      (snap.verdict, snap.measuredBps) == JudgedOf(cfg, epoch, suspended, now) && snap.bytesObserved == BytesOf(epoch)
  {
    hide Judge, DropExpired, Oldest, FirstFresh;
    DropTracks(cfg, epoch, d, now);
    OldestIsKept(cfg, e, epoch, suspended, d, clock, now);
    var k := Oldest(cfg, epoch, now);
    var kept := Running(epoch)[k..];
    assert DropExpired(cfg, e.samples, now) == kept;
    if |epoch| - k >= 2 {
      RunningTotal(epoch, k);
      RunningTotal(epoch, |epoch| - 1);
      assert epoch[..|epoch|] == epoch;
    }
  }

  lemma {:induction false} OldestIsKept(cfg: Config, e: Estimator, epoch: seq<Observation>, suspended: bool, d: nat,
                                        clock: nat, now: nat)
    requires Tracks(cfg, e, epoch, suspended, d, clock) && Sorted(epoch) && clock <= now
    ensures Max(d, FirstFresh(cfg, epoch, now)) == Oldest(cfg, epoch, now)
  {
    var young := FirstFresh(cfg, epoch, now);
    if d > young {
      assert !(epoch[d - 1].at + cfg.window < clock) by {
        assert epoch[young].at <= epoch[d - 1].at;
      }
    }
  }

  // ---- what a Low verdict says ----

  /** Low means the exact rate is more than half a byte per second under the floor: a rate that only
      rounding lifts to the floor is called Healthy. Without bytes or without time there is no verdict. */
  lemma {:induction false} LowExactly(cfg: Config, bytes: nat, span: nat)
    ensures Judge(cfg, bytes, span) ==
      if bytes == 0 || span == 0 then (InsufficientSample, None)
      else (if 2 * bytes * NANOS < (2 * cfg.floorBps - 1) * span then LowThroughput else Healthy,
            Some(RoundedRate(bytes, span)))
  {
    hide RoundedRate;
    if bytes > 0 && span > 0 { RateBelow(bytes, span, cfg.floorBps); }
  }

  lemma {:induction false} RateBelow(bytes: nat, span: nat, floor: nat)
    requires span > 0
    ensures RoundedRate(bytes, span) < floor <==> 2 * bytes * NANOS < (2 * floor - 1) * span
  {
    if floor > 0 {
      RoundedBelow(2 * bytes * NANOS, span, floor);
    } else {
      assert (2 * floor - 1) * span == 0 - span;
    }
  }

  /** Rounding half up stays below a bound exactly if the quotient lies more than a half below it. */
  lemma {:induction false} RoundedBelow(a: nat, span: nat, bound: nat)
    requires span > 0 && bound > 0
    ensures (a + span) / (2 * span) < bound <==> a < (2 * bound - 1) * span
  {
    var w, q, r := 2 * span, (a + span) / (2 * span), (a + span) % (2 * span);
    assert a + span == q * w + r;
    assert (2 * bound - 1) * span == bound * w - span;
    if q < bound {
      BelowByOne(q, bound, w);
    } else {
      BelowByOne(bound, q + 1, w);
    }
  }

  lemma {:induction false} BelowByOne(a: nat, b: nat, w: nat)
    requires a < b
    ensures a * w + w <= b * w
  {
    assert b * w == a * w + (b - a) * w;
    assert (b - a) * w == w + (b - a - 1) * w;
  }

  /** The samples a verdict at `now` may use: positions of the epoch, oldest first. */
  ghost function Used(cfg: Config, evs: seq<Event>, n: nat, now: nat): seq<Observation>
    requires n <= |evs|
  {
    Epoch(cfg, evs, n)[Oldest(cfg, Epoch(cfg, evs, n), now)..]
  }

  lemma {:induction false} UsedAreRecent(cfg: Config, evs: seq<Event>, n: nat, now: nat)
    requires Monotonic(evs) && n <= |evs| && ClockAt(evs, n) <= now
    ensures forall s :: s in Used(cfg, evs, n, now) ==> now - cfg.window <= s.at <= now
  {
    EpochInOrder(cfg, evs, n);
    var epoch := Epoch(cfg, evs, n);
    var young := FirstFresh(cfg, epoch, now);
    forall i | Oldest(cfg, epoch, now) <= i < |epoch| ensures now - cfg.window <= epoch[i].at <= now {
      assert epoch[young].at <= epoch[i].at;
    }
  }

  // ---- the rest of a snapshot ----

  /** The event throws away an epoch that is being observed, and why. */
  ghost function ResetBy(cfg: Config, evs: seq<Event>, i: nat): Option<ResetReason>
    requires i < |evs|
  {
    if evs[i].Producer? then Some(ProducerChange)
    else if Contaminates(cfg, evs[i]) && !Suspended(cfg, evs, i) then Some(DownstreamBackpressure)
    else None
  }

  ghost function ResetsOf(cfg: Config, evs: seq<Event>, n: nat): nat
    requires n <= |evs|
  {
    if n == 0 then 0 else ResetsOf(cfg, evs, n - 1) + if ResetBy(cfg, evs, n - 1).Some? then 1 else 0
  }

  ghost function LastResetOf(cfg: Config, evs: seq<Event>, n: nat): Option<ResetReason>
    requires n <= |evs|
  {
    if n == 0 then None
    else if ResetBy(cfg, evs, n - 1).Some? then ResetBy(cfg, evs, n - 1) else LastResetOf(cfg, evs, n - 1)
  }

  /** Whom the fill is served by: the latest producer, or the one it started with. */
  ghost function ProducerOf(from: Origin, evs: seq<Event>, n: nat): Origin
    requires n <= |evs|
  {
    if n == 0 then from
    else if evs[n - 1].Producer? then Origin(evs[n - 1].provider, evs[n - 1].capId)
    else ProducerOf(from, evs, n - 1)
  }

  /** The channel was full before a send that has not completed, and no producer has changed since. */
  ghost predicate TaintOf(evs: seq<Event>, n: nat)
    requires n <= |evs|
  {
    n > 0 && match evs[n - 1]
             case Presend(_, full) => full || TaintOf(evs, n - 1)
             case Send(_, _) => false
             case Producer(_, _, _) => false
             case _ => TaintOf(evs, n - 1)
  }

  /** Resets are counted and named as the events say: a blocked send during a suspension is none. */
  lemma {:induction false} ResetsFromEvents(cfg: Config, from: Origin, evs: seq<Event>, n: nat)
    requires Monotonic(evs) && n <= |evs|
    ensures var e := Run(cfg, from, evs, n).est;
      && e.resets == ResetsOf(cfg, evs, n) && e.lastReset == LastResetOf(cfg, evs, n)
      && Origin(e.provider, e.capId) == ProducerOf(from, evs, n) && e.tainted == TaintOf(evs, n)
    decreases n
  {
    if n > 0 {
      ResetsFromEvents(cfg, from, evs, n - 1);
      SuspensionTracked(cfg, from, evs, n - 1);
      RunUnfolds(cfg, from, evs, n);
      hide Run, Tracks, Suspended, NextSuspended, Epoch, DropExpired, Judge, NoteVerdict, KeepLast;
    }
  }

  /** The rate is the bytes over the time they took, to the nearest whole number, half a byte upwards. */
  lemma {:induction false} RateIsNearest(bytes: nat, span: nat)
    requires span > 0
    ensures var r := RoundedRate(bytes, span);
      (2 * r - 1) * span <= 2 * bytes * NANOS < (2 * r + 1) * span
  {
    var a, w := 2 * bytes * NANOS + span, 2 * span;
    var r := a / w;
    assert r * w <= a < r * w + w;
    assert r * w == 2 * r * span;
    assert (2 * r - 1) * span == 2 * r * span - span && (2 * r + 1) * span == 2 * r * span + span;
  }

  /** Every sample in use was observed after the last new producer and after every blocked send. */
  lemma {:induction false} EpochIsClean(cfg: Config, evs: seq<Event>, n: nat, k: nat, s: Observation) returns (i: nat)
    requires k < n <= |evs| && Contaminates(cfg, evs[k]) && s in Epoch(cfg, evs, n)
    ensures k < i < n && evs[i] == Bytes(s.at, s.n)
  {
    if s in Epoch(cfg, evs, n - 1) {
      if k == n - 1 {
        i := k;
        assert false;
      } else {
        i := EpochIsClean(cfg, evs, n - 1, k, s);
      }
    } else {
      i := n - 1;
      assert k < i;
    }
  }

  // ---- arming ----

  /** Event `i` is an evaluation that came out as `v`. */
  ghost predicate Evaluated(cfg: Config, evs: seq<Event>, i: nat, v: Verdict) {
    i < |evs| && evs[i].Verdicts? && VerdictOf(cfg, evs, i, evs[i].at) == v
  }

  /** Nothing that restarts the sequence happens after `i` and before `j`: no new producer, no blocked send,
      no explicit restart and no Healthy verdict. */
  ghost predicate Undisturbed(cfg: Config, evs: seq<Event>, i: nat, j: nat)
    requires j <= |evs|
  {
    forall k :: i < k < j ==> !Contaminates(cfg, evs[k]) && !evs[k].Restart? && !Evaluated(cfg, evs, k, Healthy)
  }

  /** Where the policy last looked: the end of the last evaluation or restart among the first `n` events. */
  ghost function LookedUpTo(evs: seq<Event>, n: nat): (m: nat)
    requires n <= |evs|
    ensures m <= n
  {
    if n == 0 then 0
    else if evs[n - 1].Verdicts? || evs[n - 1].Restart? then n
    else LookedUpTo(evs, n - 1)
  }

  /** Event `i` restarts the sequence. */
  ghost predicate Restarts(cfg: Config, evs: seq<Event>, i: nat)
    requires i < |evs|
  {
    Contaminates(cfg, evs[i]) || evs[i].Restart? || Evaluated(cfg, evs, i, Healthy)
  }

  /** The independent observations among the first `n` events since the last restart: the first Low verdict, then
      each Low verdict at least one window after the one before it. */
  ghost function Chain(cfg: Config, evs: seq<Event>, n: nat): (chain: seq<nat>)
    requires n <= |evs|
    ensures forall k :: 0 <= k < |chain| ==> chain[k] < n
  {
    if n == 0 || Restarts(cfg, evs, n - 1) then []
    else
      var before := Chain(cfg, evs, n - 1);
      if Evaluated(cfg, evs, n - 1, LowThroughput)
         && (before == [] || evs[n - 1].at >= evs[before[|before| - 1]].at + cfg.window)
      then before + [n - 1] else before
  }

  /** While the reset counter stands still after an unsuspended instant, nothing contaminated the epoch. */
  lemma {:induction false} ResetsCountContaminations(cfg: Config, from: Origin, evs: seq<Event>, a: nat, b: nat)
    requires Monotonic(evs) && a <= b <= |evs| && !Suspended(cfg, evs, a)
    ensures Run(cfg, from, evs, a).est.resets <= Run(cfg, from, evs, b).est.resets
    ensures Run(cfg, from, evs, a).est.resets == Run(cfg, from, evs, b).est.resets ==>
              !Suspended(cfg, evs, b) && Run(cfg, from, evs, b).est.capId == Run(cfg, from, evs, a).est.capId
              && forall k :: a <= k < b ==> !Contaminates(cfg, evs[k])
    decreases b
  {
    hide *;
    if a < b {
      ResetsCountContaminations(cfg, from, evs, a, b - 1);
      SuspensionTracked(cfg, from, evs, b - 1);
      RunUnfolds(cfg, from, evs, b);
      StepResets(cfg, Run(cfg, from, evs, b - 1), evs[b - 1]);
    }
  }

  lemma {:induction false} SuspensionTracked(cfg: Config, from: Origin, evs: seq<Event>, n: nat)
    requires Monotonic(evs) && n <= |evs|
    ensures Run(cfg, from, evs, n).est.suspended == Suspended(cfg, evs, n)
  {
    hide Run, Suspended, Epoch, Monotonic;
    var d := EstimatorTracks(cfg, from, evs, n);
  }

  lemma {:induction false} StepResets(cfg: Config, m: Machine, ev: Event)
    ensures var e := StepOn(cfg, m, ev).est;
      && m.est.resets <= e.resets
      && (!m.est.suspended && e.resets == m.est.resets ==>
            !Contaminates(cfg, ev) && !NextSuspended(cfg, ev, m.est.suspended) && e.capId == m.est.capId)
  {
    hide DropExpired, Judge, NoteVerdict, KeepLast;
  }

  /** ... and the other way round. */
  lemma {:induction false} ResetsStandStill(cfg: Config, from: Origin, evs: seq<Event>, a: nat, b: nat)
    requires a <= b <= |evs| && forall k :: a <= k < b ==> !Contaminates(cfg, evs[k])
    ensures Run(cfg, from, evs, b).est.resets == Run(cfg, from, evs, a).est.resets
    ensures Run(cfg, from, evs, b).est.capId == Run(cfg, from, evs, a).est.capId
    decreases b
  {
    hide DropExpired, Judge, NoteVerdict, KeepLast;
    if a < b {
      ResetsStandStill(cfg, from, evs, a, b - 1);
    }
  }

  /** From one look to the next the chain can only be broken by a contamination. */
  lemma {:induction false} ChainSinceLook(cfg: Config, evs: seq<Event>, n: nat)
    requires n <= |evs|
    ensures var m := LookedUpTo(evs, n);
      Chain(cfg, evs, n) == if exists k :: m <= k < n && Contaminates(cfg, evs[k]) then [] else Chain(cfg, evs, m)
  {
    hide Chain, Contaminates;
    if LookedUpTo(evs, n) != n {
      ChainSinceLook(cfg, evs, n - 1);
      ChainUnseen(cfg, evs, n);
    }
  }

  lemma {:induction false} ChainUnseen(cfg: Config, evs: seq<Event>, n: nat)
    requires 0 < n <= |evs| && !evs[n - 1].Verdicts? && !evs[n - 1].Restart?
    ensures Chain(cfg, evs, n) == if Contaminates(cfg, evs[n - 1]) then [] else Chain(cfg, evs, n - 1)
  {
    hide VerdictOf, Contaminates;
  }

  lemma {:induction false} StaysUnsuspended(cfg: Config, evs: seq<Event>, a: nat, b: nat)
    requires a <= b <= |evs| && !Suspended(cfg, evs, a)
    requires forall k :: a <= k < b ==> !Contaminates(cfg, evs[k])
    ensures !Suspended(cfg, evs, b)
    decreases b
  {
    if a < b {
      StaysUnsuspended(cfg, evs, a, b - 1);
    }
  }

  lemma {:induction false} LowIsUnsuspended(cfg: Config, evs: seq<Event>, n: nat)
    requires Evaluated(cfg, evs, n, LowThroughput)
    ensures !Suspended(cfg, evs, n)
  {
    hide Epoch, Suspended, Oldest, Judge, BytesOf;
  }

  /** The links are Low verdicts at least one window apart, undisturbed from the first of them on. */
  ghost predicate Linked(cfg: Config, evs: seq<Event>, n: nat, chain: seq<nat>)
    requires n <= |evs|
  {
    && (forall k :: 0 <= k < |chain| ==>
          && chain[0] <= chain[k] < n && Evaluated(cfg, evs, chain[k], LowThroughput)
          && Undisturbed(cfg, evs, chain[k], n))
    && (forall j, k :: 0 <= j < k < |chain| ==>
          chain[j] < chain[k] < n && evs[chain[k]].at >= evs[chain[j]].at + cfg.window)
  }

  lemma {:induction false} ChainLinks(cfg: Config, evs: seq<Event>, n: nat)
    requires n <= |evs|
    ensures Linked(cfg, evs, n, Chain(cfg, evs, n))
  {
    hide Evaluated, Contaminates, Undisturbed, Linked;
    if n == 0 || Restarts(cfg, evs, n - 1) {
      NothingLinked(cfg, evs, n);
    } else {
      ChainLinks(cfg, evs, n - 1);
      LinksStay(cfg, evs, n - 1, Chain(cfg, evs, n - 1));
      if Chain(cfg, evs, n) != Chain(cfg, evs, n - 1) {
        LinkAdded(cfg, evs, n - 1, Chain(cfg, evs, n - 1));
      }
    }
  }

  lemma {:induction false} NothingLinked(cfg: Config, evs: seq<Event>, n: nat)
    requires n <= |evs|
    ensures Linked(cfg, evs, n, [])
  {
  }

  lemma {:induction false} LinksStay(cfg: Config, evs: seq<Event>, n: nat, chain: seq<nat>)
    requires n < |evs| && Linked(cfg, evs, n, chain) && !Restarts(cfg, evs, n)
    ensures Linked(cfg, evs, n + 1, chain)
  {
    hide Evaluated, Contaminates;
  }

  lemma {:induction false} LinkAdded(cfg: Config, evs: seq<Event>, n: nat, chain: seq<nat>)
    requires n < |evs| && Linked(cfg, evs, n + 1, chain) && (forall k :: 0 <= k < |chain| ==> chain[k] < n)
    requires Evaluated(cfg, evs, n, LowThroughput)
    requires chain != [] ==> evs[n].at >= evs[chain[|chain| - 1]].at + cfg.window
    ensures Linked(cfg, evs, n + 1, chain + [n])
  {
    hide Evaluated, Contaminates;
    assert Undisturbed(cfg, evs, n, n + 1);
    hide Undisturbed;
  }

  /** While there is a chain nothing suspends the observation. */
  lemma {:induction false} ChainIsUnsuspended(cfg: Config, evs: seq<Event>, n: nat)
    requires n <= |evs| && Chain(cfg, evs, n) != []
    ensures !Suspended(cfg, evs, n)
  {
    hide *;
    ChainLinks(cfg, evs, n);
    var j := LastLink(cfg, evs, n, Chain(cfg, evs, n));
    LowIsUnsuspended(cfg, evs, j);
    StaysUnsuspended(cfg, evs, j, n);
  }

  lemma {:induction false} LastLink(cfg: Config, evs: seq<Event>, n: nat, chain: seq<nat>) returns (j: nat)
    requires n <= |evs| && chain != [] && Linked(cfg, evs, n, chain)
    ensures j < n && Evaluated(cfg, evs, j, LowThroughput) && forall k :: j <= k < n ==> !Contaminates(cfg, evs[k])
  {
    j := chain[|chain| - 1];
    assert Undisturbed(cfg, evs, j, n) && Evaluated(cfg, evs, j, LowThroughput);
    hide Linked, VerdictOf;
  }

  /** The policy's count and its latest observation are those of a chain. */
  ghost predicate Tells(evs: seq<Event>, p: Policy, chain: seq<nat>)
    requires forall k :: 0 <= k < |chain| ==> chain[k] < |evs|
  {
    && p.count == |chain|
    && p.lastObservation == if chain == [] then None else Some(evs[chain[|chain| - 1]].at)
  }

  /** The policy's bookkeeping agrees with the estimator it last looked at. */
  ghost predicate InTouch(p: Policy, est: Estimator) {
    p.count >= 1 ==> p.trackedResets == est.resets && p.capId == Some(est.capId)
  }

  /** The chain goes on from the last look exactly if the reset counter stood still. */
  lemma {:induction false} BrokenExactly(cfg: Config, from: Origin, evs: seq<Event>, n: nat)
    requires Monotonic(evs) && n <= |evs| && Chain(cfg, evs, LookedUpTo(evs, n)) != []
    ensures var m := LookedUpTo(evs, n); var was, now := Run(cfg, from, evs, m).est, Run(cfg, from, evs, n).est;
      if now.resets == was.resets then now.capId == was.capId && Chain(cfg, evs, n) == Chain(cfg, evs, m)
      else Chain(cfg, evs, n) == []
  {
    hide Run, Chain, LookedUpTo, Contaminates, Suspended;
    var m := LookedUpTo(evs, n);
    ChainSinceLook(cfg, evs, n);
    ChainIsUnsuspended(cfg, evs, m);
    ResetsCountContaminations(cfg, from, evs, m, n);
    if forall k :: m <= k < n ==> !Contaminates(cfg, evs[k]) {
      ResetsStandStill(cfg, from, evs, m, n);
    }
  }

  /** Comparing the reset counter forgets the sequence exactly if it was broken since the last look. */
  lemma {:induction false} SyncedTells(cfg: Config, from: Origin, evs: seq<Event>, n: nat, p: Policy, snap: Snapshot)
    requires Monotonic(evs) && n <= |evs|
    requires Tells(evs, p, Chain(cfg, evs, LookedUpTo(evs, n)))
    requires InTouch(p, Run(cfg, from, evs, LookedUpTo(evs, n)).est)
    requires snap.resets == Run(cfg, from, evs, n).est.resets && snap.capId == Run(cfg, from, evs, n).est.capId
    ensures Tells(evs, Synced(p, snap), Chain(cfg, evs, n))
  {
    hide Run, LookedUpTo, Contaminates;
    if Chain(cfg, evs, LookedUpTo(evs, n)) == [] {
      ChainSinceLook(cfg, evs, n);
    } else {
      BrokenExactly(cfg, from, evs, n);
    }
    hide Chain;
  }

  /** One evaluation makes the chain's next link exactly when the policy counts it. */
  lemma {:induction false} VerdictTells(cfg: Config, evs: seq<Event>, n: nat, p: Policy, snap: Snapshot)
    requires n < |evs| && Evaluated(cfg, evs, n, snap.verdict) && Tells(evs, Synced(p, snap), Chain(cfg, evs, n))
    ensures Tells(evs, NoteVerdict(p, snap, cfg.window, evs[n].at), Chain(cfg, evs, n + 1))
    ensures Chain(cfg, evs, n + 1) == Chain(cfg, evs, n) + [n] <==>
      Counts(Synced(p, snap), snap, cfg.window, evs[n].at)
  {
    hide VerdictOf, Synced;
    assert !Contaminates(cfg, evs[n]);
  }

  lemma {:induction false} EvaluationTells(cfg: Config, from: Origin, evs: seq<Event>, n: nat)
    requires Monotonic(evs) && n < |evs| && evs[n].Verdicts?
    requires Tells(evs, Run(cfg, from, evs, n).policy, Chain(cfg, evs, LookedUpTo(evs, n)))
    requires InTouch(Run(cfg, from, evs, n).policy, Run(cfg, from, evs, LookedUpTo(evs, n)).est)
    ensures Tells(evs, Run(cfg, from, evs, n + 1).policy, Chain(cfg, evs, n + 1))
    ensures InTouch(Run(cfg, from, evs, n + 1).policy, Run(cfg, from, evs, n + 1).est)
    ensures var snap := Classify(cfg, Run(cfg, from, evs, n).est, evs[n].at).1;
      Chain(cfg, evs, n + 1) == Chain(cfg, evs, n) + [n] <==>
        Counts(Synced(Run(cfg, from, evs, n).policy, snap), snap, cfg.window, evs[n].at)
  {
    var est, p := Run(cfg, from, evs, n).est, Run(cfg, from, evs, n).policy;
    var snap := Classify(cfg, est, evs[n].at).1;
    VerdictFromEvents(cfg, from, evs, n, evs[n].at);
    hide DropExpired, Judge;
    assert snap.resets == est.resets && snap.capId == est.capId;
    RunUnfolds(cfg, from, evs, n + 1);
    hide Run, Chain, LookedUpTo;
    SyncedTells(cfg, from, evs, n, p, snap);
    VerdictTells(cfg, evs, n, p, snap);
  }

  lemma {:induction false} NothingTold(cfg: Config, from: Origin, evs: seq<Event>)
    ensures LookedUpTo(evs, 0) == 0 && Tells(evs, Run(cfg, from, evs, 0).policy, Chain(cfg, evs, 0))
    ensures InTouch(Run(cfg, from, evs, 0).policy, Run(cfg, from, evs, 0).est)
  {
  }

  /** An event that is no evaluation leaves the count alone, or a restart clears it. */
  lemma {:induction false} OtherStepTells(cfg: Config, from: Origin, evs: seq<Event>, n: nat)
    requires 0 < n <= |evs| && !evs[n - 1].Verdicts?
    requires Tells(evs, Run(cfg, from, evs, n - 1).policy, Chain(cfg, evs, LookedUpTo(evs, n - 1)))
    requires InTouch(Run(cfg, from, evs, n - 1).policy, Run(cfg, from, evs, LookedUpTo(evs, n - 1)).est)
    ensures Tells(evs, Run(cfg, from, evs, n).policy, Chain(cfg, evs, LookedUpTo(evs, n)))
    ensures InTouch(Run(cfg, from, evs, n).policy, Run(cfg, from, evs, LookedUpTo(evs, n)).est)
  {
    RunUnfolds(cfg, from, evs, n);
    hide Run, Evaluated, Contaminates, Observe, NoteSend, ResetForProducer;
    assert LookedUpTo(evs, n) == if evs[n - 1].Restart? then n else LookedUpTo(evs, n - 1);
    if evs[n - 1].Restart? { assert Chain(cfg, evs, n) == []; }
  }

  lemma {:induction false} LooksHere(evs: seq<Event>, n: nat)
    requires 0 < n <= |evs| && evs[n - 1].Verdicts?
    ensures LookedUpTo(evs, n) == n
  {
  }

  /** Over every trace the policy's count is the number of independent observations since the last restart, as of
      its last look. */
  lemma {:induction false} CountIsChain(cfg: Config, from: Origin, evs: seq<Event>, n: nat)
    requires Monotonic(evs) && n <= |evs|
    ensures Tells(evs, Run(cfg, from, evs, n).policy, Chain(cfg, evs, LookedUpTo(evs, n)))
    ensures InTouch(Run(cfg, from, evs, n).policy, Run(cfg, from, evs, LookedUpTo(evs, n)).est)
    decreases n
  {
    hide *;
    if n == 0 {
      NothingTold(cfg, from, evs);
    } else {
      CountIsChain(cfg, from, evs, n - 1);
      if evs[n - 1].Verdicts? {
        EvaluationTells(cfg, from, evs, n - 1);
        LooksHere(evs, n);
      } else {
        OtherStepTells(cfg, from, evs, n);
      }
    }
  }

  /** What a caller sees: right after an evaluation the count is the length of the chain, and the evaluation reports
      a new observation exactly when it is the chain's latest link. */
  lemma {:induction false} ObservationsCounted(cfg: Config, from: Origin, evs: seq<Event>, n: nat)
    requires Monotonic(evs) && n < |evs| && evs[n].Verdicts?
    ensures Run(cfg, from, evs, n + 1).policy.count == |Chain(cfg, evs, n + 1)|
    ensures var snap := Classify(cfg, Run(cfg, from, evs, n).est, evs[n].at).1;
      Counts(Synced(Run(cfg, from, evs, n).policy, snap), snap, cfg.window, evs[n].at)
      <==> n in Chain(cfg, evs, n + 1)
  {
    CountIsChain(cfg, from, evs, n);
    EvaluationTells(cfg, from, evs, n);
    hide Run, Counts, Synced, Classify, Evaluated;
  }

  /** Arming takes two independent clean observations: a count of two means two Low verdicts at least one
      window apart, with no new producer, blocked send, restart or Healthy verdict from the first of them to
      the last look, and with samples that do not overlap beyond a single instant. */
  lemma {:induction false} ArmingNeedsTwoObservations(cfg: Config, from: Origin, evs: seq<Event>, n: nat)
    returns (i: nat, j: nat)
    requires Monotonic(evs) && n <= |evs| && Run(cfg, from, evs, n).policy.count >= 2
    ensures i < j < LookedUpTo(evs, n)
    ensures Evaluated(cfg, evs, i, LowThroughput) && Evaluated(cfg, evs, j, LowThroughput)
    ensures evs[j].at >= evs[i].at + cfg.window
    ensures Undisturbed(cfg, evs, i, LookedUpTo(evs, n))
    ensures forall s :: s in Used(cfg, evs, i, evs[i].at) ==> s.at <= evs[i].at
    ensures forall s :: s in Used(cfg, evs, j, evs[j].at) ==> s.at >= evs[i].at
  {
    CountIsChain(cfg, from, evs, n);
    ChainLinks(cfg, evs, LookedUpTo(evs, n));
    assert Tells(evs, Run(cfg, from, evs, n).policy, Chain(cfg, evs, LookedUpTo(evs, n)));
    var chain := Chain(cfg, evs, LookedUpTo(evs, n));
    hide Run, Chain, Epoch, Evaluated, LookedUpTo, Undisturbed;
    i, j := chain[|chain| - 2], chain[|chain| - 1];
    if i > 0 { assert evs[i - 1].at <= evs[i].at; }
    assert evs[j - 1].at <= evs[j].at;
    UsedAreRecent(cfg, evs, i, evs[i].at);
    UsedAreRecent(cfg, evs, j, evs[j].at);
  }

  // ---- the channel-full pre-check ----

  ghost predicate SameButTaint(a: Machine, b: Machine) {
    a.policy == b.policy && a.est.(tainted := false) == b.est.(tainted := false)
  }

  function WithoutPresends(evs: seq<Event>): seq<Event> {
    if evs == [] then []
    else WithoutPresends(evs[..|evs| - 1]) + (if evs[|evs| - 1].Presend? then [] else [evs[|evs| - 1]])
  }

  lemma {:induction false} RunPrefix(cfg: Config, from: Origin, evs: seq<Event>, more: seq<Event>, n: nat)
    requires n <= |evs|
    ensures Run(cfg, from, evs + more, n) == Run(cfg, from, evs, n)
  {
    if n > 0 {
      RunPrefix(cfg, from, evs, more, n - 1);
    }
  }

  lemma {:induction false} StepIgnoresTaint(cfg: Config, a: Machine, b: Machine, ev: Event)
    requires SameButTaint(a, b)
    ensures SameButTaint(StepOn(cfg, a, ev), StepOn(cfg, b, ev))
    ensures ev.Presend? ==> SameButTaint(StepOn(cfg, a, ev), b)
  {
    var e := a.est.(tainted := b.est.tainted);
    assert e == b.est;
  }

  /** The pre-check only latches a taint that nothing ever reads: leaving every such report out changes
      neither a verdict nor the count. */
  lemma {:induction false} PresendsChangeNothing(cfg: Config, from: Origin, evs: seq<Event>)
    ensures SameButTaint(Run(cfg, from, evs, |evs|), Run(cfg, from, WithoutPresends(evs), |WithoutPresends(evs)|))
    decreases |evs|
  {
    if evs != [] {
      var front, last := evs[..|evs| - 1], evs[|evs| - 1];
      var kept := WithoutPresends(front);
      PresendsChangeNothing(cfg, from, front);
      assert evs == front + [last];
      RunPrefix(cfg, from, front, [last], |front|);
      RunPrefix(cfg, from, kept, [last], |kept|);
      StepIgnoresTaint(cfg, Run(cfg, from, front, |front|), Run(cfg, from, kept, |kept|), last);
      assert kept + [] == kept;
      assert WithoutPresends(evs) == if last.Presend? then kept else kept + [last];
    }
  }
}
