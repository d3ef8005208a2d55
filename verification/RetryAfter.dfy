/**
 Provider backoff evidence, one deadline per (provider, account) scope. Expired deadlines
 are pruned whenever the map is used. Instants and durations are nanoseconds.
 */
module RetryAfter {
  import opened Outcomes

  datatype Scope = Scope(provider: string, account: string)

  type Deadlines = map<Scope, nat>

  const LEDGER_MAX_HORIZON: nat := 15 * 60 * 1_000_000_000

  function Prune(m: Deadlines, now: nat): Deadlines {
    map s | s in m && m[s] > now :: m[s]
  }

  /** The map after `record`: the deadline is stamped first, the map pruned at a later instant. */
  function AfterRecord(m: Deadlines, scope: Scope, horizon: nat, stamped: nat, pruned: nat): Deadlines {
    Prune(m, pruned)[scope := stamped + Min(horizon, LEDGER_MAX_HORIZON)]
  }

  /** The remaining wait that a map reports for a scope. */
  function Remaining(m: Deadlines, scope: Scope, now: nat): Option<nat> {
    if scope in m && m[scope] > now then Some(m[scope] - now) else None
  }

  class RetryAfterLedger {
    var blockedUntil: Deadlines

    constructor ()
      ensures blockedUntil == map[]
    {
      blockedUntil := map[];
    }

    method Record(scope: Scope, horizon: nat, stamped: nat, pruned: nat)
      requires stamped <= pruned
      modifies this
      ensures blockedUntil == AfterRecord(old(blockedUntil), scope, horizon, stamped, pruned)
    {
      var until := stamped + Min(horizon, LEDGER_MAX_HORIZON);
      blockedUntil := map s | s in blockedUntil && blockedUntil[s] > pruned :: blockedUntil[s];
      blockedUntil := blockedUntil[scope := until];
    }

    method BlockedFor(scope: Scope, now: nat) returns (wait: Option<nat>)
      modifies this
      ensures blockedUntil == Prune(old(blockedUntil), now)
      ensures wait == Remaining(old(blockedUntil), scope, now)
    {
      blockedUntil := map s | s in blockedUntil && blockedUntil[s] > now :: blockedUntil[s];
      if scope in blockedUntil && blockedUntil[scope] > now {
        wait := Some(blockedUntil[scope] - now);
      } else {
        wait := None;
      }
    }
  }

  // ---- histories ----

  datatype Call =
    | RecordCall(scope: Scope, horizon: nat, stamped: nat, pruned: nat)
    | BlockedForCall(scope: Scope, now: nat)

  function First(c: Call): nat { if c.RecordCall? then c.stamped else c.now }

  function Last(c: Call): nat { if c.RecordCall? then c.pruned else c.now }

  /** The instant of the latest call. */
  function Clock(h: seq<Call>): nat { if h == [] then 0 else Last(h[|h| - 1]) }

  /** The clock is monotonic, within a call and from call to call. */
  ghost predicate Monotonic(h: seq<Call>) {
    && (forall i :: 0 <= i < |h| ==> First(h[i]) <= Last(h[i]))
    && (forall i :: 0 < i < |h| ==> Last(h[i - 1]) <= First(h[i]))
  }

  /** The map the ledger holds after a history of calls. */
  function Run(h: seq<Call>): Deadlines {
    if h == [] then map[]
    else
      var m := Run(h[..|h| - 1]);
      match h[|h| - 1]
      case RecordCall(scope, horizon, stamped, pruned) => AfterRecord(m, scope, horizon, stamped, pruned)
      case BlockedForCall(_, now) => Prune(m, now)
  }

  /** The deadline of the last directive recorded for a scope; nothing is ever forgotten. */
  ghost function LastDirective(h: seq<Call>, scope: Scope): Option<nat> {
    if h == [] then None
    else
      var c := h[|h| - 1];
      if c.RecordCall? && c.scope == scope then Some(c.stamped + Min(c.horizon, LEDGER_MAX_HORIZON))
      else LastDirective(h[..|h| - 1], scope)
  }

  ghost function Wait(deadline: Option<nat>, now: nat): Option<nat> {
    if deadline.Some? && deadline.value > now then Some(deadline.value - now) else None
  }

  lemma {:induction false} MonotonicFront(h: seq<Call>)
    requires Monotonic(h) && h != []
    ensures Monotonic(h[..|h| - 1]) && Clock(h[..|h| - 1]) <= First(h[|h| - 1]) <= Clock(h)
  {
    var front := h[..|h| - 1];
    if front != [] {
      assert front[|front| - 1] == h[|h| - 2];
    }
  }

  /** The map keeps the last directive of a scope, or the directive is already over. */
  lemma {:induction false} MapKeepsLiveDirectives(h: seq<Call>, scope: Scope)
    requires Monotonic(h)
    ensures scope in Run(h) ==> LastDirective(h, scope) == Some(Run(h)[scope])
    ensures scope !in Run(h) && LastDirective(h, scope).Some? ==> LastDirective(h, scope).value <= Clock(h)
  {
    if h != [] {
      MonotonicFront(h);
      MapKeepsLiveDirectives(h[..|h| - 1], scope);
    }
  }

  /** Pruning cannot be observed: every query is answered as by the ledger that forgets nothing. */
  lemma {:induction false} PruningUnobservable(h: seq<Call>, scope: Scope, now: nat)
    requires Monotonic(h) && Clock(h) <= now
    ensures Remaining(Run(h), scope, now) == Wait(LastDirective(h, scope), now)
  {
    MapKeepsLiveDirectives(h, scope);
  }

  /** No answer exceeds the ceiling, whatever horizon a caller recorded. */
  lemma {:induction false} WaitBounded(h: seq<Call>, scope: Scope, now: nat)
    requires Monotonic(h) && Clock(h) <= now
    ensures Remaining(Run(h), scope, now).Some? ==> Remaining(Run(h), scope, now).value <= LEDGER_MAX_HORIZON
  {
    MapKeepsLiveDirectives(h, scope);
    DirectiveBounded(h, scope);
  }

  lemma {:induction false} DirectiveBounded(h: seq<Call>, scope: Scope)
    requires Monotonic(h)
    ensures LastDirective(h, scope).Some? ==> LastDirective(h, scope).value <= Clock(h) + LEDGER_MAX_HORIZON
  {
    if h != [] {
      MonotonicFront(h);
      DirectiveBounded(h[..|h| - 1], scope);
    }
  }

  /** A query leaves exactly the scopes that are blocked at that instant in the map. */
  lemma {:induction false} QueryLeavesBlockedScopes(h: seq<Call>, asked: Scope, now: nat, scope: Scope)
    requires Monotonic(h) && Clock(h) <= now
    ensures scope in Run(h + [BlockedForCall(asked, now)]) <==> Wait(LastDirective(h, scope), now).Some?
  {
    var longer := h + [BlockedForCall(asked, now)];
    assert longer[..|longer| - 1] == h;
    MapKeepsLiveDirectives(h, scope);
  }

  /** One scope's directives never change what another scope is told. */
  lemma {:induction false} ScopesIndependent(h: seq<Call>, scope: Scope, now: nat)
    requires Monotonic(h) && Clock(h) <= now
    requires forall i :: 0 <= i < |h| && h[i].RecordCall? ==> h[i].scope != scope
    ensures Remaining(Run(h), scope, now) == None
  {
    if h != [] {
      MonotonicFront(h);
      ScopesIndependent(h[..|h| - 1], scope, now);
    }
  }
}
