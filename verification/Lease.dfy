/**
 A lease over one reserved capability: one permit, shared by at most two logical child
 readers whose handles can be cloned freely.
 */
module Lease {
  import opened Outcomes

  // ---- the mutex-protected state ----

  datatype Inner = Inner(reserved: bool, childCount: nat)

  /** `child_reader`: a third child, or one after the release, is refused and changes nothing. */
  function Lent(inner: Inner): bool {
    inner.childCount < 2 && inner.reserved
  }

  function AfterLend(inner: Inner): Inner {
    if Lent(inner) then inner.(childCount := inner.childCount + 1) else inner
  }

  /** `LogicalChild::drop`: a saturating decrement, and the last child takes the reservation along. */
  function AfterReturn(inner: Inner): Inner {
    var left := if inner.childCount > 0 then inner.childCount - 1 else 0;
    Inner(inner.reserved && left != 0, left)
  }

  class CapabilityLease {
    var reserved: bool
    var childCount: nat

    constructor ()
      ensures Value() == Inner(true, 0)
    {
      reserved, childCount := true, 0;
    }

    function Value(): Inner
      reads this
    {
      Inner(reserved, childCount)
    }

    method ChildReader() returns (lent: bool)
      modifies this
      ensures lent == Lent(old(Value())) && Value() == AfterLend(old(Value()))
    {
      if childCount >= 2 || !reserved {
        return false;
      }
      childCount := childCount + 1;
      return true;
    }

    method DropChild()
      modifies this
      ensures Value() == AfterReturn(old(Value()))
      ensures childCount == Max(0, old(childCount) - 1) && (reserved <==> old(reserved) && childCount > 0)
    {
      childCount := if childCount > 0 then childCount - 1 else 0;
      if childCount == 0 {
        reserved := false;
      }
    }
  }

  // ---- every interleaving of owners and handles ----

  type ChildId = nat

  /**
   `arcs` counts the callers' references to the lease, `handles` the live handles of each
   logical child. A child whose last handle is gone sits in `returning` until its drop has
   taken the lock. `released` counts how often the permit went back.
   */
  datatype World = World(inner: Inner, arcs: nat, handles: map<ChildId, nat>, returning: set<ChildId>,
                         released: nat, nextChild: ChildId)

  const START := World(Inner(true, 0), 1, map[], {}, 0, 0)

  datatype Action =
    | CloneLease
    | DropLease
    | CreateChild
    | CloneHandle(child: ChildId)
    | DropHandle(child: ChildId)
    | FinishReturn(child: ChildId)

  predicate Enabled(w: World, a: Action) {
    match a
    case CloneLease => w.arcs > 0
    case DropLease => w.arcs > 0
    case CreateChild => w.arcs > 0
    case CloneHandle(c) => c in w.handles
    case DropHandle(c) => c in w.handles
    case FinishReturn(c) => c in w.returning
  }

  /** When the last reference goes, the lease itself drops and takes a reservation it still has with it. */
  function Freed(w: World): World {
    if w.arcs == 0 && w.handles == map[] && w.returning == {} && w.inner.reserved then
      w.(inner := w.inner.(reserved := false), released := w.released + 1)
    else w
  }

  function Act(w: World, a: Action): World
    requires Enabled(w, a)
  {
    match a
    case CloneLease => w.(arcs := w.arcs + 1)
    case DropLease => Freed(w.(arcs := w.arcs - 1))
    case CreateChild =>
      var locked := w.(inner := AfterLend(w.inner));
      if Lent(w.inner) then locked.(handles := w.handles[w.nextChild := 1], nextChild := w.nextChild + 1) else locked
    case CloneHandle(c) => w.(handles := w.handles[c := w.handles[c] + 1])
    case DropHandle(c) =>
      if w.handles[c] > 1 then w.(handles := w.handles[c := w.handles[c] - 1])
      else w.(handles := w.handles - {c}, returning := w.returning + {c})
    case FinishReturn(c) =>
      var inner := AfterReturn(w.inner);
      var released := if w.inner.reserved && !inner.reserved then w.released + 1 else w.released;
      Freed(w.(inner := inner, returning := w.returning - {c}, released := released))
  }

  /** The counter counts, and the permit is with the lease while it is in use. */
  ghost predicate Counts(w: World) {
    && w.handles.Keys !! w.returning
    && w.inner.childCount == |w.handles.Keys| + |w.returning|
    && w.inner.childCount <= 2
    && (forall c :: c in w.handles ==> w.handles[c] > 0 && c < w.nextChild)
    && (forall c :: c in w.returning ==> c < w.nextChild)
    && (w.inner.childCount > 0 ==> w.inner.reserved)
    && w.released == (if w.inner.reserved then 0 else 1)
  }

  /** A permit that is held is held for somebody. */
  ghost predicate Needed(w: World) { w.inner.reserved ==> w.arcs > 0 || w.handles != map[] || w.returning != {} }

  ghost predicate Inv(w: World) { Counts(w) && Needed(w) }

  lemma {:induction false} FreedKeepsInv(w: World)
    requires Counts(w)
    ensures Inv(Freed(w))
  {
  }

  lemma {:induction false} LendKeepsInv(w: World)
    requires Inv(w) && Enabled(w, CreateChild)
    ensures Inv(Act(w, CreateChild))
  {
    if Lent(w.inner) {
      assert Act(w, CreateChild).handles.Keys == w.handles.Keys + {w.nextChild};
    }
  }

  lemma {:induction false} CloneKeepsInv(w: World, c: ChildId)
    requires Inv(w) && Enabled(w, CloneHandle(c))
    ensures Inv(Act(w, CloneHandle(c)))
  {
    assert Act(w, CloneHandle(c)).handles.Keys == w.handles.Keys;
  }

  lemma {:induction false} DropHandleKeepsInv(w: World, c: ChildId)
    requires Inv(w) && Enabled(w, DropHandle(c))
    ensures Inv(Act(w, DropHandle(c)))
  {
    var next := Act(w, DropHandle(c));
    if w.handles[c] > 1 {
      assert next.handles.Keys == w.handles.Keys;
    } else {
      assert next.handles.Keys == w.handles.Keys - {c} && c in next.returning;
    }
  }

  lemma {:induction false} ReturnKeepsInv(w: World, c: ChildId)
    requires Inv(w) && Enabled(w, FinishReturn(c))
    ensures Inv(Act(w, FinishReturn(c)))
  {
    var inner := AfterReturn(w.inner);
    var released := if w.inner.reserved && !inner.reserved then w.released + 1 else w.released;
    var left := w.(inner := inner, returning := w.returning - {c}, released := released);
    assert |w.returning - {c}| == |w.returning| - 1;
    assert Counts(left);
    FreedKeepsInv(left);
    hide Inv, Freed;
  }

  lemma {:induction false} ActKeepsInv(w: World, a: Action)
    requires Inv(w) && Enabled(w, a)
    ensures Inv(Act(w, a))
  {
    match a {
      case CreateChild => LendKeepsInv(w);
      case CloneHandle(c) => CloneKeepsInv(w, c);
      case DropHandle(c) => DropHandleKeepsInv(w, c);
      case FinishReturn(c) => ReturnKeepsInv(w, c);
      case DropLease => FreedKeepsInv(w.(arcs := w.arcs - 1));
      case CloneLease =>
    }
    hide Freed, Lent, AfterLend, AfterReturn;
  }

  /** A run from the start, one action at a time. */
  ghost predicate IsRun(run: seq<World>, actions: seq<Action>) {
    && |run| == |actions| + 1
    && run[0] == START
    && (forall i :: 0 <= i < |actions| ==> Enabled(run[i], actions[i]) && run[i + 1] == Act(run[i], actions[i]))
  }

  lemma {:induction false} RunKeepsInv(run: seq<World>, actions: seq<Action>, i: nat)
    requires IsRun(run, actions) && i < |run|
    ensures Inv(run[i])
  {
    if i > 0 {
      RunKeepsInv(run, actions, i - 1);
      assert Enabled(run[i - 1], actions[i - 1]);
      hide Inv, Act, Enabled;
      ActKeepsInv(run[i - 1], actions[i - 1]);
    }
  }

  /** `child_count` is the number of children with a live handle, plus those still on their way out, and at most 2. */
  lemma {:induction false} ChildCountIsExact(run: seq<World>, actions: seq<Action>, i: nat)
    requires IsRun(run, actions) && i < |run|
    ensures run[i].inner.childCount == |run[i].handles.Keys| + |run[i].returning| <= 2
    ensures run[i].returning == {} ==> run[i].inner.childCount == |run[i].handles.Keys|
  {
    RunKeepsInv(run, actions, i);
  }

  /** How often an action was taken among the first `i`. */
  ghost function Times(actions: seq<Action>, i: nat, a: Action): nat
    requires i <= |actions|
  {
    if i == 0 then 0 else Times(actions, i - 1, a) + if actions[i - 1] == a then 1 else 0
  }

  /** A child is there from its creation on: with as many handles as were created or cloned and not dropped, then on
      its way back until its return is finished, which happens once. */
  ghost predicate ChildTold(w: World, actions: seq<Action>, i: nat, c: ChildId)
    requires i <= |actions|
  {
    var cloned, dropped := Times(actions, i, CloneHandle(c)), Times(actions, i, DropHandle(c));
    var finished := Times(actions, i, FinishReturn(c));
    if c >= w.nextChild then c !in w.handles && c !in w.returning && cloned == dropped == finished == 0
    else if c in w.handles then w.handles[c] == 1 + cloned - dropped && finished == 0 && c !in w.returning
    else dropped == 1 + cloned && finished == (if c in w.returning then 0 else 1)
  }

  lemma {:induction false} ChildStep(w: World, actions: seq<Action>, i: nat, c: ChildId)
    requires i < |actions| && Enabled(w, actions[i]) && Inv(w) && ChildTold(w, actions, i, c)
    ensures ChildTold(Act(w, actions[i]), actions, i + 1, c)
  {
    hide Lent, AfterLend, AfterReturn, Needed;
  }

  lemma {:induction false} HandlesFollowActions(run: seq<World>, actions: seq<Action>, i: nat, c: ChildId)
    requires IsRun(run, actions) && i < |run|
    ensures run[i].arcs == 1 + Times(actions, i, CloneLease) - Times(actions, i, DropLease)
    ensures ChildTold(run[i], actions, i, c)
  {
    if i > 0 {
      HandlesFollowActions(run, actions, i - 1, c);
      RunKeepsInv(run, actions, i - 1);
      assert Enabled(run[i - 1], actions[i - 1]) && run[i] == Act(run[i - 1], actions[i - 1]);
      ChildStep(run[i - 1], actions, i - 1, c);
      hide Lent, AfterLend, AfterReturn, Inv, ChildTold, IsRun;
    }
  }

  /** The permit is held while any handle lives, goes back at most once, and is not leaked:
      once every reference is gone it has gone back. */
  lemma {:induction false} PermitReleasedExactlyOnce(run: seq<World>, actions: seq<Action>, i: nat)
    requires IsRun(run, actions) && i < |run|
    ensures run[i].handles != map[] || run[i].returning != {} ==> run[i].inner.reserved
    ensures run[i].released <= 1 && (run[i].released == 1 <==> !run[i].inner.reserved)
    ensures run[i].arcs == 0 && run[i].handles == map[] && run[i].returning == {} ==> run[i].released == 1
  {
    RunKeepsInv(run, actions, i);
    if run[i].handles != map[] {
      var c :| c in run[i].handles;
      assert c in run[i].handles.Keys;
    }
  }

  /** The children out: with a live handle, or still on their way back. */
  ghost function Out(w: World): nat { |w.handles.Keys| + |w.returning| }

  /** A child is lent exactly while fewer than two are out and the permit has not gone back; a refusal changes
      nothing. */
  lemma {:induction false} LentExactly(run: seq<World>, actions: seq<Action>, i: nat)
    requires IsRun(run, actions) && i < |actions| && actions[i].CreateChild?
    ensures if Out(run[i]) < 2 && run[i].released == 0
            then run[i + 1].handles.Keys == run[i].handles.Keys + {run[i].nextChild}
                 && run[i].nextChild !in run[i].handles.Keys + run[i].returning
                 && Out(run[i + 1]) == Out(run[i]) + 1 && run[i + 1].nextChild == run[i].nextChild + 1
            else run[i + 1] == run[i]
  {
    RunKeepsInv(run, actions, i);
    assert Enabled(run[i], actions[i]) && run[i + 1] == Act(run[i], actions[i]);
    assert run[i].handles[run[i].nextChild := 1].Keys == run[i].handles.Keys + {run[i].nextChild};
  }

  /** The permit goes back exactly when the only child out returns, or when the last reference to a lease without
      children is dropped. */
  lemma {:induction false} ReleasePoint(run: seq<World>, actions: seq<Action>, i: nat)
    requires IsRun(run, actions) && i < |actions|
    ensures run[i].released == 0 && run[i + 1].released == 1 <==>
      || (actions[i].FinishReturn? && Out(run[i]) == 1)
      || (actions[i].DropLease? && run[i].released == 0 && Out(run[i]) == 0 && run[i].arcs == 1)
  {
    RunKeepsInv(run, actions, i);
    RunKeepsInv(run, actions, i + 1);
    var w, a := run[i], actions[i];
    assert Enabled(w, a) && run[i + 1] == Act(w, a);
    if a.FinishReturn? { assert |w.returning - {a.child}| == |w.returning| - 1; }
    assert (w.handles == map[] <==> |w.handles.Keys| == 0) && (w.returning == {} <==> |w.returning| == 0);
  }

  /** After the release no child is ever created again. */
  lemma {:induction false} NoChildAfterRelease(run: seq<World>, actions: seq<Action>, i: nat, j: nat)
    requires IsRun(run, actions) && i <= j < |run| && !run[i].inner.reserved
    ensures !run[j].inner.reserved && run[j].handles == map[] && run[j].nextChild == run[i].nextChild
    decreases j
  {
    RunKeepsInv(run, actions, j);
    if i < j {
      NoChildAfterRelease(run, actions, i, j - 1);
      assert Enabled(run[j - 1], actions[j - 1]) && run[j] == Act(run[j - 1], actions[j - 1]);
    } else {
      assert run[j].handles.Keys == {};
    }
  }
}
