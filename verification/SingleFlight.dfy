/**
 The single-flight of `resolve_internal`, one atomic step at a time: many tasks resolve keys,
 one of them per key calls the provider, the rest wait for its answer.
 */
module SingleFlight {
  import opened Outcomes
  import opened Sums

  type TaskId = nat
  type EntryId = nat
  type Key = string
  type Answer(==, !new, 0) = int

  /** One in-flight entry. `wakes` counts the `notify_waiters` calls; `ownedBy` records who won the swap. */
  datatype Entry = Entry(key: Key, ownedBy: Option<TaskId>, done: bool, result: Option<Answer>, wakes: nat)

  /** Where a task stands. `seen` is the wake count when its `notified` future was created. */
  datatype Place =
    | Start(key: Key)
    | Joined(entry: EntryId)
    | Racing(entry: EntryId)
    | Calling(entry: EntryId)
    | Answered(entry: EntryId, answer: Answer)
    | Stored(entry: EntryId, answer: Answer)
    | Flagged(entry: EntryId, answer: Answer)
    | Notified(entry: EntryId, answer: Answer)
    | Waiting(entry: EntryId)
    | Listening(entry: EntryId)
    | Rechecking(entry: EntryId, seen: nat)
    | Parked(entry: EntryId, seen: nat)
    | Returned(answer: Answer, from: Option<EntryId>)

  datatype State = State(tasks: map<TaskId, Place>, entries: map<EntryId, Entry>, inflight: map<Key, EntryId>,
                         nextEntry: EntryId)

  const IDLE := State(map[], map[], map[], 0)

  /** `Early` leaves through the negative cache or with a capability that is already usable. `Step` is the
      task's next atomic operation; `answer` is what the provider says if that operation ends its call. */
  datatype Action =
    | Spawn(task: TaskId, key: Key)
    | Early(task: TaskId, answer: Answer)
    | Step(task: TaskId, answer: Answer)

  predicate HasEntry(p: Place) { !p.Start? && !p.Returned? }

  predicate Enabled(s: State, a: Action) {
    match a
    case Spawn(t, _) => t !in s.tasks
    case Early(t, _) => t in s.tasks && s.tasks[t].Start?
    case Step(t, _) =>
      && t in s.tasks && !s.tasks[t].Returned?
      && (HasEntry(s.tasks[t]) ==> s.tasks[t].entry in s.entries)
      // a parked future completes only after a `notify_waiters` later than its creation
      && (s.tasks[t].Parked? ==> s.entries[s.tasks[t].entry].wakes > s.tasks[t].seen)
  }

  function Move(s: State, t: TaskId, p: Place): State {
    s.(tasks := s.tasks[t := p])
  }

  function Act(s: State, a: Action): State
    requires Enabled(s, a)
  {
    match a
    case Spawn(t, key) => Move(s, t, Start(key))
    case Early(t, answer) => Move(s, t, Returned(answer, None))
    case Step(t, answer) =>
      if s.tasks[t].Start? then Join(s, t, s.tasks[t].key) else Advance(s, t, answer)
  }

  /** Under the map lock: take the key's entry, or insert a fresh one. */
  function Join(s: State, t: TaskId, key: Key): State {
    if key in s.inflight then Move(s, t, Joined(s.inflight[key]))
    else
      var e := s.nextEntry;
      Move(s.(entries := s.entries[e := Entry(key, None, false, None, 0)], inflight := s.inflight[key := e],
              nextEntry := e + 1), t, Joined(e))
  }

  function Advance(s: State, t: TaskId, answer: Answer): State
    requires t in s.tasks && HasEntry(s.tasks[t]) && s.tasks[t].entry in s.entries
  {
    var e := s.tasks[t].entry;
    var entry := s.entries[e];
    match s.tasks[t]
    case Joined(_) =>
      if entry.done && entry.result.Some? then Move(s, t, Returned(entry.result.value, Some(e)))
      else Move(s, t, Racing(e))
    case Racing(_) =>
      if entry.ownedBy == None then Move(s.(entries := s.entries[e := entry.(ownedBy := Some(t))]), t, Calling(e))
      else Move(s, t, Waiting(e))
    case Calling(_) => Move(s, t, Answered(e, answer))
    case Answered(_, a) => Move(s.(entries := s.entries[e := entry.(result := Some(a))]), t, Stored(e, a))
    case Stored(_, a) => Move(s.(entries := s.entries[e := entry.(done := true)]), t, Flagged(e, a))
    case Flagged(_, a) => Move(s.(entries := s.entries[e := entry.(wakes := entry.wakes + 1)]), t, Notified(e, a))
    case Notified(_, a) => Move(s.(inflight := s.inflight - {entry.key}), t, Returned(a, Some(e)))
    case Waiting(_) =>
      if entry.done && entry.result.Some? then Move(s, t, Returned(entry.result.value, Some(e)))
      else Move(s, t, Listening(e))
    case Listening(_) => Move(s, t, Rechecking(e, entry.wakes))
    case Rechecking(_, seen) => Move(s, t, if entry.done then Waiting(e) else Parked(e, seen))
    case Parked(_, _) => Move(s, t, Waiting(e))
    case _ => s
  }

  // ---- what every step keeps ----

  /** The task is the owner of its entry and still has work to do for it. */
  predicate Owning(p: Place) {
    p.Calling? || p.Answered? || p.Stored? || p.Flagged? || p.Notified?
  }

  predicate Following(p: Place) {
    p.Waiting? || p.Listening? || p.Rechecking? || p.Parked?
  }

  /** How far the flags of an entry are, given the place of its owner. */
  ghost predicate FlagsMatch(s: State, e: EntryId, entry: Entry, p: Place) {
    var live := entry.key in s.inflight && s.inflight[entry.key] == e;
    match p
    case Calling(f) => f == e && live && entry.result == None && !entry.done && entry.wakes == 0
    case Answered(f, _) => f == e && live && entry.result == None && !entry.done && entry.wakes == 0
    case Stored(f, a) => f == e && live && entry.result == Some(a) && !entry.done && entry.wakes == 0
    case Flagged(f, a) => f == e && live && entry.result == Some(a) && entry.done && entry.wakes == 0
    case Notified(f, a) => f == e && live && entry.result == Some(a) && entry.done && entry.wakes == 1
    case Returned(a, from) => from == Some(e) && !live && entry.result == Some(a) && entry.done && entry.wakes == 1
    case _ => false
  }

  ghost predicate EntryOk(s: State, e: EntryId)
    requires e in s.entries
  {
    var entry := s.entries[e];
    match entry.ownedBy
    case None =>
      && entry.key in s.inflight && s.inflight[entry.key] == e
      && entry.result == None && !entry.done && entry.wakes == 0
    case Some(t) => t in s.tasks && FlagsMatch(s, e, entry, s.tasks[t])
  }

  ghost predicate TaskOk(s: State, t: TaskId)
    requires t in s.tasks
  {
    var p := s.tasks[t];
    && (HasEntry(p) ==> p.entry in s.entries)
    && (Owning(p) ==> s.entries[p.entry].ownedBy == Some(t))
    && (Following(p) ==> s.entries[p.entry].ownedBy.Some?)
    && (p.Rechecking? ==> p.seen <= s.entries[p.entry].wakes)
    && (p.Parked? ==> p.seen == 0)
    && (p.Returned? && p.from.Some? ==>
         && p.from.value in s.entries && s.entries[p.from.value].done
         && s.entries[p.from.value].result == Some(p.answer))
  }

  ghost predicate Inv(s: State) {
    && (forall e :: e in s.entries ==> e < s.nextEntry)
    && (forall e :: e in s.entries ==> EntryOk(s, e))
    && (forall t :: t in s.tasks ==> TaskOk(s, t))
    && (forall k :: k in s.inflight ==> s.inflight[k] in s.entries && s.entries[s.inflight[k]].key == k)
  }

  lemma {:induction false} SpawnKeepsInv(s: State, t: TaskId, p: Place)
    requires Inv(s) && (t in s.tasks ==> s.tasks[t].Start?)
    requires p.Start? || (p.Returned? && p.from == None)
    ensures Inv(Move(s, t, p))
  {
    var n := Move(s, t, p);
    forall e | e in n.entries ensures EntryOk(n, e) {
      assert EntryOk(s, e);
    }
    forall u | u in n.tasks ensures TaskOk(n, u) {
      if u != t { assert TaskOk(s, u); }
    }
  }

  lemma {:induction false} JoinKeepsInv(s: State, t: TaskId)
    requires Inv(s) && t in s.tasks && s.tasks[t].Start?
    ensures Inv(Join(s, t, s.tasks[t].key))
  {
    hide Inv;
    var key := s.tasks[t].key;
    if key in s.inflight {
      InflightKnown(s, key);
      EnterKeepsInv(s, t, s.inflight[key]);
    } else {
      var e := s.nextEntry;
      var n := s.(entries := s.entries[e := Entry(key, None, false, None, 0)], inflight := s.inflight[key := e],
                  nextEntry := e + 1);
      FreshEntryKeepsInv(s, key);
      EnterKeepsInv(n, t, e);
    }
  }

  lemma {:induction false} InflightKnown(s: State, key: Key)
    requires Inv(s) && key in s.inflight
    ensures s.inflight[key] in s.entries && s.entries[s.inflight[key]].key == key
  {
  }

  lemma {:induction false} EnterKeepsInv(s: State, t: TaskId, e: EntryId)
    requires Inv(s) && t in s.tasks && s.tasks[t].Start? && e in s.entries
    ensures Inv(Move(s, t, Joined(e)))
  {
    var n := Move(s, t, Joined(e));
    forall f | f in n.entries ensures EntryOk(n, f) {
      assert EntryOk(s, f);
    }
    forall u | u in n.tasks ensures TaskOk(n, u) {
      if u != t { assert TaskOk(s, u); }
    }
    hide EntryOk, TaskOk;
  }

  lemma {:induction false} FreshEntryKeepsInv(s: State, key: Key)
    requires Inv(s) && key !in s.inflight
    ensures var e := s.nextEntry;
      Inv(s.(entries := s.entries[e := Entry(key, None, false, None, 0)], inflight := s.inflight[key := e],
             nextEntry := e + 1))
  {
    var e := s.nextEntry;
    var n := s.(entries := s.entries[e := Entry(key, None, false, None, 0)], inflight := s.inflight[key := e],
                nextEntry := e + 1);
    assert e !in s.entries;
    forall f | f in s.entries ensures EntryOk(n, f) {
      assert EntryOk(s, f);
    }
    assert EntryOk(n, e);
    hide EntryOk;
    forall u | u in s.tasks ensures TaskOk(n, u) {
      assert TaskOk(s, u);
    }
    hide TaskOk;
  }

  /** A task that owns nothing moves on its own. */
  lemma {:induction false} MoveKeepsInv(s: State, t: TaskId, p: Place)
    requires Inv(s) && t in s.tasks && HasEntry(s.tasks[t]) && !Owning(s.tasks[t])
    requires !Owning(p) && TaskOk(Move(s, t, p), t)
    ensures Inv(Move(s, t, p))
  {
    var n := Move(s, t, p);
    forall e | e in n.entries ensures EntryOk(n, e) {
      assert EntryOk(s, e);
    }
    forall u | u in n.tasks ensures TaskOk(n, u) {
      if u != t { assert TaskOk(s, u); }
    }
  }

  lemma {:induction false} WaiterKeepsInv(s: State, t: TaskId, answer: Answer)
    requires Inv(s) && Enabled(s, Step(t, answer)) && HasEntry(s.tasks[t])
    requires s.tasks[t].Joined? || Following(s.tasks[t])
    ensures Inv(Advance(s, t, answer))
  {
    var n := Advance(s, t, answer);
    assert TaskOk(s, t) && EntryOk(s, s.tasks[t].entry);
    hide Inv;
    MoveKeepsInv(s, t, n.tasks[t]);
  }

  /** The other entries have other owners. */
  lemma {:induction false} OtherEntriesStay(s: State, t: TaskId, e: EntryId, entry: Entry, p: Place)
    requires Inv(s) && t in s.tasks && HasEntry(s.tasks[t]) && s.tasks[t].entry == e
    requires Owning(s.tasks[t]) || s.tasks[t].Racing?
    ensures var n := Move(s.(entries := s.entries[e := entry]), t, p);
      forall f :: f in s.entries && f != e ==> EntryOk(n, f)
  {
    var n := Move(s.(entries := s.entries[e := entry]), t, p);
    forall f | f in s.entries && f != e ensures EntryOk(n, f) {
      assert EntryOk(s, f);
    }
  }

  /** The owner of an entry moves on and updates the entry's flags to match. */
  lemma {:induction false} FlagsKeepInv(s: State, t: TaskId, e: EntryId, entry: Entry, p: Place)
    requires Inv(s) && t in s.tasks && HasEntry(s.tasks[t]) && s.tasks[t].entry == e && e in s.entries
    requires Owning(s.tasks[t]) || (s.tasks[t].Racing? && s.entries[e].ownedBy == None)
    requires Owning(p) && p.entry == e && entry.ownedBy == Some(t) && entry.key == s.entries[e].key
    requires FlagsMatch(s, e, entry, p)
    requires s.entries[e].result.Some? ==> entry.result == s.entries[e].result
    requires entry.wakes >= s.entries[e].wakes && (s.entries[e].done ==> entry.done)
    ensures Inv(Move(s.(entries := s.entries[e := entry]), t, p))
  {
    var n := Move(s.(entries := s.entries[e := entry]), t, p);
    assert TaskOk(s, t);
    OtherEntriesStay(s, t, e, entry, p);
    forall u | u in n.tasks ensures TaskOk(n, u) {
      if u != t { assert TaskOk(s, u); }
    }
    hide TaskOk;
    assert EntryOk(n, e);
    hide EntryOk, FlagsMatch;
  }

  /** Steps of the race and of the owner, which change the flags of one entry. */
  lemma {:induction false} OwnerKeepsInv(s: State, t: TaskId, answer: Answer)
    requires Inv(s) && Enabled(s, Step(t, answer)) && HasEntry(s.tasks[t])
    requires s.tasks[t].Racing? || (Owning(s.tasks[t]) && !s.tasks[t].Notified?)
    ensures Inv(Advance(s, t, answer))
  {
    var e := s.tasks[t].entry;
    var n := Advance(s, t, answer);
    assert TaskOk(s, t) && EntryOk(s, e);
    if Owning(n.tasks[t]) {
      FlagsKeepInv(s, t, e, n.entries[e], n.tasks[t]);
      assert s.entries[e := n.entries[e]] == n.entries;
    } else {
      MoveKeepsInv(s, t, n.tasks[t]);
    }
  }

  lemma {:induction false} RemovalKeepsInv(s: State, t: TaskId, answer: Answer)
    requires Inv(s) && t in s.tasks && s.tasks[t].Notified? && s.tasks[t].entry in s.entries
    ensures Inv(Advance(s, t, answer))
  {
    var e := s.tasks[t].entry;
    var key := s.entries[e].key;
    var n := Advance(s, t, answer);
    assert TaskOk(s, t) && EntryOk(s, e);
    forall f | f in n.entries ensures EntryOk(n, f) {
      assert EntryOk(s, f);
    }
    forall u | u in n.tasks ensures TaskOk(n, u) {
      assert TaskOk(s, u);
    }
  }

  lemma {:induction false} ActKeepsInv(s: State, a: Action)
    requires Inv(s) && Enabled(s, a)
    ensures Inv(Act(s, a))
  {
    match a {
      case Spawn(t, key) => SpawnKeepsInv(s, t, Start(key));
      case Early(t, answer) => SpawnKeepsInv(s, t, Returned(answer, None));
      case Step(t, answer) =>
        assert TaskOk(s, t);
        if s.tasks[t].Start? {
          JoinKeepsInv(s, t);
        } else if s.tasks[t].Notified? {
          RemovalKeepsInv(s, t, answer);
        } else if s.tasks[t].Joined? || Following(s.tasks[t]) {
          WaiterKeepsInv(s, t, answer);
        } else {
          OwnerKeepsInv(s, t, answer);
        }
    }
  }

  ghost predicate IsRun(run: seq<State>, actions: seq<Action>) {
    && |run| == |actions| + 1
    && run[0] == IDLE
    && (forall i :: 0 <= i < |actions| ==> Enabled(run[i], actions[i]) && run[i + 1] == Act(run[i], actions[i]))
  }

  lemma {:induction false} RunKeepsInv(run: seq<State>, actions: seq<Action>, i: nat)
    requires IsRun(run, actions) && i < |run|
    ensures Inv(run[i])
  {
    if i > 0 {
      RunKeepsInv(run, actions, i - 1);
      assert Enabled(run[i - 1], actions[i - 1]);
      ActKeepsInv(run[i - 1], actions[i - 1]);
    }
  }

  // ---- safety ----

  /** In every interleaving at most one provider call per key is running. */
  lemma {:induction false} OneCallPerKey(run: seq<State>, actions: seq<Action>, i: nat, t: TaskId, u: TaskId)
    requires IsRun(run, actions) && i < |run|
    requires t in run[i].tasks && u in run[i].tasks && run[i].tasks[t].Calling? && run[i].tasks[u].Calling?
    ensures var s := run[i];
      && s.tasks[t].entry in s.entries && s.tasks[u].entry in s.entries
      && (s.entries[s.tasks[t].entry].key == s.entries[s.tasks[u].entry].key ==> t == u)
  {
    RunKeepsInv(run, actions, i);
    var s := run[i];
    assert TaskOk(s, t) && TaskOk(s, u);
    assert EntryOk(s, s.tasks[t].entry) && EntryOk(s, s.tasks[u].entry);
  }

  /** An entry is owned by at most one task, and that task never changes. */
  lemma {:induction false} OwnerIsForever(run: seq<State>, actions: seq<Action>, i: nat, j: nat, e: EntryId)
    requires IsRun(run, actions) && i <= j < |run|
    requires e in run[i].entries && run[i].entries[e].ownedBy.Some?
    ensures e in run[j].entries && run[j].entries[e].ownedBy == run[i].entries[e].ownedBy
    decreases j
  {
    if i < j {
      OwnerIsForever(run, actions, i, j - 1, e);
      RunKeepsInv(run, actions, j - 1);
      var s, a := run[j - 1], actions[j - 1];
      assert Enabled(s, a) && run[j] == Act(s, a);
      hide IsRun;
      StepKeepsOwner(s, a, e);
    }
  }

  lemma {:induction false} StepKeepsOwner(s: State, a: Action, e: EntryId)
    requires Inv(s) && Enabled(s, a) && e in s.entries && s.entries[e].ownedBy.Some?
    ensures e in Act(s, a).entries && Act(s, a).entries[e].ownedBy == s.entries[e].ownedBy
  {
    assert EntryOk(s, e) && e < s.nextEntry;
    if a.Step? { assert TaskOk(s, a.task); }
    hide Inv;
  }

  /** Removing by key removes the owner's own entry and leaves every other key alone. */
  lemma {:induction false} RemovalHitsOwnEntry(run: seq<State>, actions: seq<Action>, i: nat, t: TaskId)
    requires IsRun(run, actions) && i < |actions| && actions[i].Step? && actions[i].task == t
    requires t in run[i].tasks && run[i].tasks[t].Notified?
    ensures var s, e := run[i], run[i].tasks[t].entry;
      && e in s.entries && s.entries[e].key in s.inflight && s.inflight[s.entries[e].key] == e
      && s.entries[e].ownedBy == Some(t)
      && run[i + 1].inflight == s.inflight - {s.entries[e].key}
  {
    RunKeepsInv(run, actions, i);
    assert Enabled(run[i], actions[i]) && run[i + 1] == Act(run[i], actions[i]);
    assert TaskOk(run[i], t) && EntryOk(run[i], run[i].tasks[t].entry);
  }

  /** Every task that left through an entry carries the answer of that entry's one owner. */
  lemma {:induction false} JoinersShareTheOwnersAnswer(run: seq<State>, actions: seq<Action>, i: nat, t: TaskId)
    requires IsRun(run, actions) && i < |run|
    requires t in run[i].tasks && run[i].tasks[t].Returned? && run[i].tasks[t].from.Some?
    ensures var s, e := run[i], run[i].tasks[t].from.value;
      && e in s.entries && s.entries[e].ownedBy.Some? && s.entries[e].ownedBy.value in s.tasks
      && var owner := s.tasks[s.entries[e].ownedBy.value];
         (owner.Stored? || owner.Flagged? || owner.Notified? || owner.Returned?) && owner.answer == s.tasks[t].answer
  {
    RunKeepsInv(run, actions, i);
    assert TaskOk(run[i], t) && EntryOk(run[i], run[i].tasks[t].from.value);
  }

  // ---- where an answer comes from ----

  /** Step `k` ends the provider call that task `o` makes for entry `e`, with this answer. */
  ghost predicate Answers(run: seq<State>, actions: seq<Action>, k: nat, o: TaskId, e: EntryId, a: Answer) {
    && k < |run| && k < |actions|
    && o in run[k].tasks && run[k].tasks[o] == Calling(e) && actions[k] == Step(o, a)
  }

  ghost predicate AnsweredBefore(run: seq<State>, actions: seq<Action>, i: nat, o: TaskId, e: EntryId, a: Answer) {
    exists k :: 0 <= k < i && Answers(run, actions, k, o, e, a)
  }

  ghost predicate SpawnedBefore(actions: seq<Action>, i: nat, t: TaskId, key: Key) {
    exists k :: 0 <= k < i && k < |actions| && actions[k] == Spawn(t, key)
  }

  ghost predicate EarlyBefore(actions: seq<Action>, i: nat, t: TaskId, a: Answer) {
    exists k :: 0 <= k < i && k < |actions| && actions[k] == Early(t, a)
  }

  /** Where a task stands, seen from its past. */
  ghost predicate TaskTold(run: seq<State>, actions: seq<Action>, i: nat, t: TaskId, entries: map<EntryId, Entry>,
                           p: Place)
  {
    && (p.Start? ==> SpawnedBefore(actions, i, t, p.key))
    && (HasEntry(p) ==> p.entry in entries && SpawnedBefore(actions, i, t, entries[p.entry].key))
    && (p.Returned? && p.from.None? ==> EarlyBefore(actions, i, t, p.answer))
    && (p.Returned? && p.from.Some? ==>
          p.from.value in entries && SpawnedBefore(actions, i, t, entries[p.from.value].key))
    && (Owning(p) && !p.Calling? ==> AnsweredBefore(run, actions, i, t, p.entry, p.answer))
  }

  ghost predicate EntryTold(run: seq<State>, actions: seq<Action>, i: nat, e: EntryId, entry: Entry) {
    entry.result.Some? ==>
      entry.ownedBy.Some? && AnsweredBefore(run, actions, i, entry.ownedBy.value, e, entry.result.value)
  }

  ghost predicate Told(run: seq<State>, actions: seq<Action>, i: nat)
    requires i < |run|
  {
    && (forall t :: t in run[i].tasks ==> TaskTold(run, actions, i, t, run[i].entries, run[i].tasks[t]))
    && (forall e :: e in run[i].entries ==> EntryTold(run, actions, i, e, run[i].entries[e]))
  }

  lemma {:induction false} LaterTold(run: seq<State>, actions: seq<Action>, i: nat)
    ensures forall o, e, a :: AnsweredBefore(run, actions, i, o, e, a) ==> AnsweredBefore(run, actions, i + 1, o, e, a)
    ensures forall t, key :: SpawnedBefore(actions, i, t, key) ==> SpawnedBefore(actions, i + 1, t, key)
    ensures forall t, a :: EarlyBefore(actions, i, t, a) ==> EarlyBefore(actions, i + 1, t, a)
  {
  }

  /** No step changes the key of an entry. */
  lemma {:induction false} KeysStay(s: State, a: Action, e: EntryId)
    requires Inv(s) && Enabled(s, a) && e in s.entries
    ensures e in Act(s, a).entries && Act(s, a).entries[e].key == s.entries[e].key
  {
    assert e < s.nextEntry;
    if a.Step? { assert TaskOk(s, a.task); }
    hide Inv, TaskOk;
  }

  /** A task that does not act stands where it stood, and one that acts carries its past along. */
  lemma {:induction false} TaskStaysTold(run: seq<State>, actions: seq<Action>, i: nat, t: TaskId)
    requires i + 1 < |run| && i < |actions| && Inv(run[i]) && Told(run, actions, i)
    requires Enabled(run[i], actions[i]) && run[i + 1] == Act(run[i], actions[i]) && t in run[i + 1].tasks
    ensures TaskTold(run, actions, i + 1, t, run[i + 1].entries, run[i + 1].tasks[t])
  {
    var s, a, n := run[i], actions[i], run[i + 1];
    forall e | e in s.entries ensures e in n.entries && n.entries[e].key == s.entries[e].key {
      KeysStay(s, a, e);
    }
    LaterTold(run, actions, i);
    if t == a.task {
      if a.Step? && s.tasks[t].Start? && s.tasks[t].key in s.inflight { InflightKnown(s, s.tasks[t].key); }
      assert a.Step? ==> TaskOk(s, t) && TaskTold(run, actions, i, t, s.entries, s.tasks[t]);
      if a.Step? { CallEnds(run, actions, i, t); }
      SpawnSeen(actions, i);
      hide Inv, Told, Act, Enabled;
      ActorTold(run, actions, i, t);
    } else {
      TasksStay(s, a, t);
      hide Inv, Act, Enabled, AnsweredBefore, SpawnedBefore, EarlyBefore;
      assert TaskTold(run, actions, i, t, s.entries, s.tasks[t]);
    }
  }

  lemma {:induction false} TasksStay(s: State, a: Action, t: TaskId)
    requires Enabled(s, a) && t != a.task && t in Act(s, a).tasks
    ensures t in s.tasks && Act(s, a).tasks[t] == s.tasks[t]
  {
  }

  lemma {:induction false} ActorTold(run: seq<State>, actions: seq<Action>, i: nat, t: TaskId)
    requires i + 1 < |run| && i < |actions| && actions[i].task == t
    requires Enabled(run[i], actions[i]) && run[i + 1] == Act(run[i], actions[i]) && t in run[i + 1].tasks
    requires forall e :: e in run[i].entries ==>
      e in run[i + 1].entries && run[i + 1].entries[e].key == run[i].entries[e].key
    requires actions[i].Step? ==> TaskTold(run, actions, i + 1, t, run[i].entries, run[i].tasks[t])
    requires actions[i].Step? && run[i].tasks[t].Start? && run[i].tasks[t].key in run[i].inflight ==>
      var e := run[i].inflight[run[i].tasks[t].key];
      e in run[i].entries && run[i].entries[e].key == run[i].tasks[t].key
    requires actions[i].Step? && run[i].tasks[t].Calling? ==>
      AnsweredBefore(run, actions, i + 1, t, run[i].tasks[t].entry, actions[i].answer)
    requires actions[i].Spawn? ==> SpawnedBefore(actions, i + 1, t, actions[i].key)
    requires actions[i].Early? ==> EarlyBefore(actions, i + 1, t, actions[i].answer)
    ensures TaskTold(run, actions, i + 1, t, run[i + 1].entries, run[i + 1].tasks[t])
  {
    hide AnsweredBefore, SpawnedBefore, EarlyBefore;
  }

  /** The end of a call is the answer's origin. */
  lemma {:induction false} CallEnds(run: seq<State>, actions: seq<Action>, i: nat, t: TaskId)
    requires i < |run| && i < |actions| && Enabled(run[i], actions[i]) && t in run[i].tasks
    ensures actions[i].Step? && actions[i].task == t && run[i].tasks[t].Calling? ==>
      AnsweredBefore(run, actions, i + 1, t, run[i].tasks[t].entry, actions[i].answer)
  {
    if actions[i].Step? && actions[i].task == t && run[i].tasks[t].Calling? {
      assert Answers(run, actions, i, t, run[i].tasks[t].entry, actions[i].answer);
    }
  }

  lemma {:induction false} SpawnSeen(actions: seq<Action>, i: nat)
    requires i < |actions|
    ensures actions[i].Spawn? ==> SpawnedBefore(actions, i + 1, actions[i].task, actions[i].key)
    ensures actions[i].Early? ==> EarlyBefore(actions, i + 1, actions[i].task, actions[i].answer)
  {
  }

  /** An entry's result is stored by its owner, with the answer of its call. */
  lemma {:induction false} EntryStaysTold(run: seq<State>, actions: seq<Action>, i: nat, e: EntryId)
    requires i + 1 < |run| && i < |actions| && Inv(run[i]) && Told(run, actions, i)
    requires Enabled(run[i], actions[i]) && run[i + 1] == Act(run[i], actions[i]) && e in run[i + 1].entries
    ensures EntryTold(run, actions, i + 1, e, run[i + 1].entries[e])
  {
    LaterTold(run, actions, i);
    var s, a, n := run[i], actions[i], run[i + 1];
    if e in s.entries {
      assert EntryTold(run, actions, i, e, s.entries[e]) && EntryOk(s, e);
      if a.Step? { assert TaskOk(s, a.task) && TaskTold(run, actions, i, a.task, s.entries, s.tasks[a.task]); }
      hide Inv, Told, Act, Enabled, EntryOk, AnsweredBefore, SpawnedBefore, EarlyBefore;
      ResultFrom(s, a, e);
    } else {
      hide Inv, Told, Enabled;
      FreshEntry(s, a, e);
    }
  }

  lemma {:induction false} FreshEntry(s: State, a: Action, e: EntryId)
    requires Enabled(s, a) && e in Act(s, a).entries && e !in s.entries
    ensures Act(s, a).entries[e].result == None
  {
  }

  lemma {:induction false} ResultFrom(s: State, a: Action, e: EntryId)
    requires Enabled(s, a) && e in s.entries && e < s.nextEntry && e in Act(s, a).entries
    requires EntryOk(s, e) && (a.Step? ==> TaskOk(s, a.task))
    ensures var was, now := s.entries[e], Act(s, a).entries[e];
      || (now.result == was.result && (was.result.Some? ==> now.ownedBy == was.ownedBy))
      || (a.Step? && s.tasks[a.task].Answered? && s.tasks[a.task].entry == e && now.ownedBy == Some(a.task)
          && now.result == Some(s.tasks[a.task].answer))
  {
  }

  lemma {:induction false} RunTold(run: seq<State>, actions: seq<Action>, i: nat)
    requires IsRun(run, actions) && i < |run|
    ensures Told(run, actions, i)
  {
    if i > 0 {
      RunTold(run, actions, i - 1);
      RunKeepsInv(run, actions, i - 1);
      LaterTold(run, actions, i - 1);
      var s, a, n := run[i - 1], actions[i - 1], run[i];
      assert Enabled(s, a) && n == Act(s, a);
      forall t | t in n.tasks ensures TaskTold(run, actions, i, t, n.entries, n.tasks[t]) {
        TaskStaysTold(run, actions, i - 1, t);
      }
      forall e | e in n.entries ensures EntryTold(run, actions, i, e, n.entries[e]) {
        EntryStaysTold(run, actions, i - 1, e);
      }
    }
  }

  /** Whoever leaves through an entry does so when the entry is done, and carries what the provider answered to the
      call of the entry's owner, made for the key that the task itself was spawned to resolve. */
  lemma {:induction false} AnswersComeFromTheProvider(run: seq<State>, actions: seq<Action>, i: nat, t: TaskId)
    returns (spawned: nat, k: nat)
    requires IsRun(run, actions) && i < |run|
    requires t in run[i].tasks && run[i].tasks[t].Returned? && run[i].tasks[t].from.Some?
    ensures var e := run[i].tasks[t].from.value;
      && e in run[i].entries && run[i].entries[e].ownedBy.Some? && run[i].entries[e].done
      && k < i && Answers(run, actions, k, run[i].entries[e].ownedBy.value, e, run[i].tasks[t].answer)
      && spawned < i && actions[spawned] == Spawn(t, run[i].entries[e].key)
  {
    RunTold(run, actions, i);
    RunKeepsInv(run, actions, i);
    var s := run[i];
    var e, a := s.tasks[t].from.value, s.tasks[t].answer;
    assert TaskOk(s, t) && TaskTold(run, actions, i, t, s.entries, s.tasks[t]);
    assert EntryTold(run, actions, i, e, s.entries[e]);
    hide Inv, IsRun, TaskOk;
    var o := s.entries[e].ownedBy.value;
    k :| k < i && Answers(run, actions, k, o, e, a);
    spawned :| spawned < i && spawned < |actions| && actions[spawned] == Spawn(t, s.entries[e].key);
  }

  /** Whoever did not leave through an entry left early. */
  lemma {:induction false} OthersLeftEarly(run: seq<State>, actions: seq<Action>, i: nat, t: TaskId) returns (k: nat)
    requires IsRun(run, actions) && i < |run|
    requires t in run[i].tasks && run[i].tasks[t].Returned? && run[i].tasks[t].from.None?
    ensures k < i && actions[k] == Early(t, run[i].tasks[t].answer)
  {
    RunTold(run, actions, i);
    assert TaskTold(run, actions, i, t, run[i].entries, run[i].tasks[t]);
    k :| k < i && k < |actions| && actions[k] == Early(t, run[i].tasks[t].answer);
  }

  /** There is only one such call: two calls for one entry are the same step. */
  lemma {:induction false} OneCallPerEntry(run: seq<State>, actions: seq<Action>, k: nat, l: nat, t: TaskId, u: TaskId,
                                           e: EntryId, a: Answer, b: Answer)
    requires IsRun(run, actions) && k <= l
    requires Answers(run, actions, k, t, e, a) && Answers(run, actions, l, u, e, b)
    ensures k == l && t == u && a == b
  {
    RunKeepsInv(run, actions, k);
    RunKeepsInv(run, actions, l);
    assert TaskOk(run[k], t) && TaskOk(run[l], u);
    OwnerIsForever(run, actions, k, l, e);
    if k < l {
      assert Enabled(run[k], actions[k]) && run[k + 1] == Act(run[k], actions[k]);
      CallsOnce(run, actions, k + 1, l, t);
    }
  }

  ghost predicate PastCalling(p: Place) { p.Answered? || p.Stored? || p.Flagged? || p.Notified? || p.Returned? }

  lemma {:induction false} CallsOnce(run: seq<State>, actions: seq<Action>, i: nat, j: nat, t: TaskId)
    requires IsRun(run, actions) && i <= j < |run| && t in run[i].tasks && PastCalling(run[i].tasks[t])
    ensures t in run[j].tasks && PastCalling(run[j].tasks[t])
    decreases j
  {
    if i < j {
      CallsOnce(run, actions, i, j - 1, t);
      var s, a := run[j - 1], actions[j - 1];
      assert Enabled(s, a) && run[j] == Act(s, a);
      if a.task != t { OthersStay(s, a, t); }
    }
  }

  /** No lost wake-up: once the owner has notified, every parked task can go on. */
  lemma {:induction false} NoLostWakeup(run: seq<State>, actions: seq<Action>, i: nat, t: TaskId, answer: Answer)
    requires IsRun(run, actions) && i < |run|
    requires t in run[i].tasks && run[i].tasks[t].Parked?
    ensures var s := run[i]; var e := s.tasks[t].entry;
      && e in s.entries && s.entries[e].ownedBy.Some? && s.entries[e].ownedBy.value in s.tasks
      && var owner := s.tasks[s.entries[e].ownedBy.value];
         (owner.Notified? || owner.Returned? ==> Enabled(s, Step(t, answer)))
  {
    RunKeepsInv(run, actions, i);
    assert TaskOk(run[i], t) && EntryOk(run[i], run[i].tasks[t].entry);
  }

  // ---- progress ----

  ghost predicate Finished(s: State) {
    forall t :: t in s.tasks ==> s.tasks[t].Returned?
  }

  /** No deadlock: while a task has not returned, some task can take a step. */
  lemma {:induction false} SomeoneCanStep(run: seq<State>, actions: seq<Action>, i: nat) returns (t: TaskId)
    requires IsRun(run, actions) && i < |run| && !Finished(run[i])
    ensures forall answer :: Enabled(run[i], Step(t, answer))
  {
    RunKeepsInv(run, actions, i);
    var s := run[i];
    t :| t in s.tasks && !s.tasks[t].Returned?;
    assert TaskOk(s, t);
    if s.tasks[t].Parked? && s.entries[s.tasks[t].entry].wakes == 0 {
      assert EntryOk(s, s.tasks[t].entry);
      t := s.entries[s.tasks[t].entry].ownedBy.value;
    }
  }

  /** Steps a task has left at most; a follower has fewer once its entry is done. */
  function Rank(s: State, p: Place): nat {
    var done := HasEntry(p) && p.entry in s.entries && s.entries[p.entry].done;
    match p
    case Start(_) => 12
    case Joined(_) => 11
    case Racing(_) => 10
    case Calling(_) => 9
    case Answered(_, _) => 8
    case Stored(_, _) => 7
    case Flagged(_, _) => 6
    case Notified(_, _) => 5
    case Waiting(_) => if done then 1 else 9
    case Listening(_) => if done then 3 else 8
    case Rechecking(_, _) => if done then 2 else 7
    case Parked(_, _) => if done then 4 else 6
    case Returned(_, _) => 0
  }

  ghost function Ranks(s: State): map<TaskId, nat> {
    map t | t in s.tasks :: Rank(s, s.tasks[t])
  }

  ghost function Remaining(s: State): nat { Sum(Ranks(s)) }

  lemma {:induction false} DoneIsForever(s: State, a: Action, e: EntryId)
    requires Inv(s) && Enabled(s, a) && e in s.entries
    ensures e in Act(s, a).entries && (s.entries[e].done ==> Act(s, a).entries[e].done)
  {
    assert e < s.nextEntry;
    if a.Step? { assert TaskOk(s, a.task); }
    hide Inv;
  }

  lemma {:induction false} OwnRankFalls(s: State, a: Action)
    requires Inv(s) && Enabled(s, a) && !a.Spawn?
    ensures a.task in Act(s, a).tasks && Rank(Act(s, a), Act(s, a).tasks[a.task]) < Rank(s, s.tasks[a.task])
  {
    assert TaskOk(s, a.task);
    if HasEntry(s.tasks[a.task]) {
      assert EntryOk(s, s.tasks[a.task].entry);
      DoneIsForever(s, a, s.tasks[a.task].entry);
      hide Inv, TaskOk, Act;
      AdvanceRankFalls(s, a);
    }
    hide Inv, EntryOk;
  }

  lemma {:induction false} AdvanceRankFalls(s: State, a: Action)
    requires Enabled(s, a) && !a.Spawn? && a.task in s.tasks && HasEntry(s.tasks[a.task])
    requires var e := s.tasks[a.task].entry;
      && e in s.entries && EntryOk(s, e) && TaskOk(s, a.task)
      && e in Act(s, a).entries && (s.entries[e].done ==> Act(s, a).entries[e].done)
    ensures a.task in Act(s, a).tasks && Rank(Act(s, a), Act(s, a).tasks[a.task]) < Rank(s, s.tasks[a.task])
  {
  }

  /** No step raises the rank of any task, and the acting task's own rank falls. */
  lemma {:induction false} RanksFall(s: State, a: Action, t: TaskId)
    requires Inv(s) && Enabled(s, a) && !a.Spawn? && t in s.tasks
    ensures t in Act(s, a).tasks
    ensures Rank(Act(s, a), Act(s, a).tasks[t]) <= Rank(s, s.tasks[t])
    ensures t == a.task ==> Rank(Act(s, a), Act(s, a).tasks[t]) < Rank(s, s.tasks[t])
  {
    if t == a.task {
      OwnRankFalls(s, a);
    } else {
      OthersStay(s, a, t);
      assert TaskOk(s, t);
      if HasEntry(s.tasks[t]) {
        DoneIsForever(s, a, s.tasks[t].entry);
      }
    }
  }

  lemma {:induction false} OthersStay(s: State, a: Action, t: TaskId)
    requires Enabled(s, a) && t in s.tasks && t != a.task
    ensures t in Act(s, a).tasks && Act(s, a).tasks[t] == s.tasks[t]
  {
  }

  lemma {:induction false} StepsCountDown(s: State, a: Action)
    requires Inv(s) && Enabled(s, a) && !a.Spawn?
    ensures Remaining(Act(s, a)) < Remaining(s)
  {
    var before, after := Ranks(s), Ranks(Act(s, a));
    forall t | t in s.tasks ensures t in after && after[t] <= before[t] && (t == a.task ==> after[t] < before[t]) {
      RanksFall(s, a, t);
    }
    SameTasks(s, a);
    SumMonotone(after, before);
  }

  lemma {:induction false} SameTasks(s: State, a: Action)
    requires Enabled(s, a) && !a.Spawn?
    ensures Act(s, a).tasks.Keys == s.tasks.Keys
  {
  }

  /** Every run in which no new task arrives is finite: it has no more actions than steps were left. */
  lemma {:induction false} RunsAreFinite(run: seq<State>, actions: seq<Action>, i: nat, j: nat)
    requires IsRun(run, actions) && i <= j < |run|
    requires forall k :: i <= k < j ==> !actions[k].Spawn?
    ensures j - i + Remaining(run[j]) <= Remaining(run[i])
    decreases j
  {
    if i < j {
      RunsAreFinite(run, actions, i, j - 1);
      RunKeepsInv(run, actions, j - 1);
      assert Enabled(run[j - 1], actions[j - 1]);
      StepsCountDown(run[j - 1], actions[j - 1]);
    }
  }
}
