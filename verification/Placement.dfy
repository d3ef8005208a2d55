/**
 Grouping the coordinates of one file into slots: one slot per placement, in the order in which
 the placements were first offered, each for the file of the wanted size.
 */
module Placement {

  datatype Coord = Coord(provider: string, account: string, resource: string, fileId: string, size: nat)

  datatype Key = Key(provider: string, account: string, resource: string)

  function KeyOf(c: Coord): Key { Key(c.provider, c.account, c.resource) }

  /** The place of the first coordinate with a key; the length if there is none. */
  ghost function FirstSeen(coords: seq<Coord>, key: Key): (p: nat)
    ensures p <= |coords| && (p < |coords| ==> KeyOf(coords[p]) == key)
    ensures forall j :: 0 <= j < p ==> KeyOf(coords[j]) != key
  {
    if coords == [] || KeyOf(coords[0]) == key then 0 else 1 + FirstSeen(coords[1..], key)
  }

  /** The coordinates with one key, in the order in which they were offered. */
  function Placed(coords: seq<Coord>, key: Key): seq<Coord> {
    if coords == [] then []
    else
      var front := Placed(coords[..|coords| - 1], key);
      if KeyOf(coords[|coords| - 1]) == key then front + [coords[|coords| - 1]] else front
  }

  lemma {:induction false} PlacedContains(coords: seq<Coord>, key: Key)
    ensures forall c :: c in Placed(coords, key) <==> c in coords && KeyOf(c) == key
  {
    if coords != [] {
      PlacedContains(coords[..|coords| - 1], key);
      assert coords == coords[..|coords| - 1] + [coords[|coords| - 1]];
    }
  }

  lemma {:induction false} PlacedGrows(front: seq<Coord>, c: Coord, key: Key)
    ensures Placed(front + [c], key) == if KeyOf(c) == key then Placed(front, key) + [c] else Placed(front, key)
  {
    var all := front + [c];
    assert all[..|all| - 1] == front;
  }

  lemma {:induction false} PlacedIsSeen(coords: seq<Coord>, key: Key)
    requires Placed(coords, key) != []
    ensures FirstSeen(coords, key) < |coords|
  {
    PlacedContains(coords, key);
    var c := Placed(coords, key)[0];
    assert c in coords;
    var p :| 0 <= p < |coords| && coords[p] == c;
  }

  /** The file a slot is made for: the first of the wanted size, or the first if none has it. */
  ghost predicate ChosenFrom(files: seq<Coord>, size: nat, c: Coord) {
    exists p :: 0 <= p < |files| && c == files[p] && FirstOfSize(files, size, p)
  }

  ghost predicate FirstOfSize(files: seq<Coord>, size: nat, p: nat)
    requires p < |files|
  {
    if exists f :: f in files && f.size == size
    then files[p].size == size && forall j :: 0 <= j < p ==> files[j].size != size
    else p == 0
  }

  /** Every placement once, in first-seen order. */
  ghost predicate Ordered(coords: seq<Coord>, order: seq<Key>) {
    && (forall k :: k in order ==> FirstSeen(coords, k) < |coords|)
    && (forall c :: c in coords ==> KeyOf(c) in order)
    && (forall j, k :: 0 <= j < k < |order| ==> FirstSeen(coords, order[j]) < FirstSeen(coords, order[k]))
  }

  ghost predicate Grouped(coords: seq<Coord>, size: nat, targets: seq<Coord>) {
    exists order :: Ordered(coords, order) && Targets(coords, size, order, targets)
  }

  ghost predicate Targets(coords: seq<Coord>, size: nat, order: seq<Key>, targets: seq<Coord>) {
    && |targets| == |order|
    && forall k :: 0 <= k < |order| ==> ChosenFrom(Placed(coords, order[k]), size, targets[k])
  }

  lemma {:induction false} FirstSeenGrows(front: seq<Coord>, c: Coord, key: Key)
    ensures FirstSeen(front + [c], key) ==
      if FirstSeen(front, key) < |front| || KeyOf(c) == key then FirstSeen(front, key) else |front| + 1
  {
    var all := front + [c];
    assert all[|front|] == c;
    assert forall j :: 0 <= j < |front| ==> all[j] == front[j];
  }

  lemma {:induction false} OrderGrows(front: seq<Coord>, c: Coord, order: seq<Key>)
    requires Ordered(front, order)
    ensures Ordered(front + [c], if KeyOf(c) in order then order else order + [KeyOf(c)])
  {
    var all := front + [c];
    var longer := if KeyOf(c) in order then order else order + [KeyOf(c)];
    forall k | k in longer
      ensures FirstSeen(all, k) < |all|
    {
      FirstSeenGrows(front, c, k);
    }
    forall j, k | 0 <= j < k < |longer|
      ensures FirstSeen(all, longer[j]) < FirstSeen(all, longer[k])
    {
      assert longer[j] in order;
      FirstSeenGrows(front, c, longer[j]);
      FirstSeenGrows(front, c, longer[k]);
      if k < |order| { assert FirstSeen(front, order[j]) < FirstSeen(front, order[k]); }
    }
  }

  /** The placements in first-seen order, and the files of each. */
  ghost predicate Collected(coords: seq<Coord>, order: seq<Key>, groups: map<Key, seq<Coord>>) {
    && Ordered(coords, order)
    && (forall k :: k in groups <==> k in order)
    && (forall k :: k in groups ==> groups[k] == Placed(coords, k))
  }

  method Collect(coords: seq<Coord>) returns (order: seq<Key>, groups: map<Key, seq<Coord>>)
    ensures Collected(coords, order, groups)
  {
    hide *;
    order, groups := [], map[];
    NothingCollected();
    assert coords[..0] == [];
    for n := 0 to |coords|
      invariant Collected(coords[..n], order, groups)
    {
      var c, key := coords[n], KeyOf(coords[n]);
      CollectedGrows(coords[..n], c, order, groups);
      assert coords[..n] + [c] == coords[..n + 1];
      if key in groups {
        groups := groups[key := groups[key] + [c]];
      } else {
        order, groups := order + [key], groups[key := [c]];
      }
    }
    assert coords[..|coords|] == coords;
  }

  lemma {:induction false} NothingCollected()
    ensures Collected([], [], map[])
  {
  }

  lemma {:induction false} CollectedGrows(front: seq<Coord>, c: Coord, order: seq<Key>, groups: map<Key, seq<Coord>>)
    requires Collected(front, order, groups)
    ensures var key := KeyOf(c);
      if key in groups then Collected(front + [c], order, groups[key := groups[key] + [c]])
      else Collected(front + [c], order + [key], groups[key := [c]])
  {
    hide Ordered, Placed, KeyOf;
    var all, key := front + [c], KeyOf(c);
    OrderGrows(front, c, order);
    forall k: Key
      ensures k in order && k == key ==> Placed(all, k) == groups[k] + [c]
      ensures k in order && k != key ==> Placed(all, k) == groups[k]
      ensures k !in order && k == key ==> Placed(all, k) == [c]
    {
      FilesGrow(front, c, order, k);
    }
    if key in groups {
      var next := groups[key := groups[key] + [c]];
      assert forall k :: k in next ==> next[k] == Placed(all, k);
    } else {
      var next := groups[key := [c]];
      assert forall k :: k in next <==> k in groups || k == key;
      assert forall k :: k in next ==> next[k] == Placed(all, k);
      assert forall k :: k in order + [key] <==> k in order || k == key;
    }
  }

  lemma {:induction false} FilesGrow(front: seq<Coord>, c: Coord, order: seq<Key>, k: Key)
    requires Ordered(front, order)
    ensures Placed(front + [c], k) ==
      (if k in order then Placed(front, k) else []) + (if k == KeyOf(c) then [c] else [])
  {
    PlacedGrows(front, c, k);
    if FirstSeen(front, k) < |front| { SeenIsOrdered(front, order, k); }
    if Placed(front, k) != [] { PlacedIsSeen(front, k); }
  }

  lemma {:induction false} SeenIsOrdered(coords: seq<Coord>, order: seq<Key>, key: Key)
    requires Ordered(coords, order) && FirstSeen(coords, key) < |coords|
    ensures key in order
  {
    assert coords[FirstSeen(coords, key)] in coords;
  }

  method Choose(files: seq<Coord>, size: nat) returns (c: Coord)
    requires files != []
    ensures ChosenFrom(files, size, c)
  {
    var p := 0;
    while p < |files| && files[p].size != size
      invariant p <= |files| && forall j :: 0 <= j < p ==> files[j].size != size
    {
      p := p + 1;
    }
    if p == |files| {
      p := 0;
    }
    assert FirstOfSize(files, size, p);
    c := files[p];
  }

  method Group(coords: seq<Coord>, size: nat) returns (targets: seq<Coord>)
    ensures Grouped(coords, size, targets)
  {
    var order, groups := Collect(coords);
    hide KeyOf, Placed;
    targets := [];
    for k := 0 to |order|
      invariant |targets| == k
      invariant forall j :: 0 <= j < k ==> ChosenFrom(Placed(coords, order[j]), size, targets[j])
    {
      assert order[k] in order;
      ghost var first := coords[FirstSeen(coords, order[k])];
      PlacedContains(coords, order[k]);
      assert first in coords;
      var c := Choose(groups[order[k]], size);
      targets := targets + [c];
    }
    assert Targets(coords, size, order, targets);
  }

  ghost predicate SamePlacement(a: Coord, b: Coord) {
    a.provider == b.provider && a.account == b.account && a.resource == b.resource
  }

  /** Position `p` of the offer is the file its placement is served from: the first of the wanted size, or the first
      at all if none has it. */
  ghost predicate Picked(coords: seq<Coord>, size: nat, p: nat)
    requires p < |coords|
  {
    forall q :: 0 <= q < |coords| && SamePlacement(coords[q], coords[p]) ==>
      if coords[p].size == size then q < p ==> coords[q].size != size else q >= p && coords[q].size != size
  }

  ghost predicate PickedFrom(coords: seq<Coord>, size: nat, c: Coord) {
    exists p :: 0 <= p < |coords| && c == coords[p] && Picked(coords, size, p)
  }

  /** The first offer of the placement that `c` belongs to. */
  ghost predicate FirstOffer(coords: seq<Coord>, c: Coord, p: nat) {
    && p < |coords| && SamePlacement(coords[p], c)
    && forall q :: 0 <= q < p ==> !SamePlacement(coords[q], c)
  }

  ghost predicate OfferedBefore(coords: seq<Coord>, a: Coord, b: Coord) {
    exists p, q :: FirstOffer(coords, a, p) && FirstOffer(coords, b, q) && p < q
  }

  /** What a grouping is for: each placement offered has exactly one slot, on the file picked for it, and earlier
      placements come first. */
  ghost predicate SlotsFollowOffer(coords: seq<Coord>, size: nat, targets: seq<Coord>) {
    && (forall k :: 0 <= k < |targets| ==> PickedFrom(coords, size, targets[k]))
    && (forall c :: c in coords ==> exists k :: 0 <= k < |targets| && SamePlacement(targets[k], c))
    && (forall j, k :: 0 <= j < k < |targets| ==> OfferedBefore(coords, targets[j], targets[k]))
  }
  /** The files of a placement stand in the order in which they were offered. */
  lemma {:induction false} PlacedInOrder(coords: seq<Coord>, key: Key) returns (at: seq<nat>)
    ensures |at| == |Placed(coords, key)| && forall j, k :: 0 <= j < k < |at| ==> at[j] < at[k]
    ensures forall k :: 0 <= k < |at| ==> at[k] < |coords| && Placed(coords, key)[k] == coords[at[k]]
    ensures forall p :: 0 <= p < |coords| ==> (p in at <==> KeyOf(coords[p]) == key)
  {
    hide KeyOf;
    at := [];
    if coords != [] {
      at := PlacedInOrder(coords[..|coords| - 1], key);
      if KeyOf(coords[|coords| - 1]) == key { at := at + [|coords| - 1]; }
    }
  }

  lemma {:induction false} ChosenIsPicked(coords: seq<Coord>, key: Key, size: nat, c: Coord)
    requires ChosenFrom(Placed(coords, key), size, c)
    ensures KeyOf(c) == key && PickedFrom(coords, size, c)
  {
    var files := Placed(coords, key);
    var at := PlacedInOrder(coords, key);
    var n :| 0 <= n < |files| && c == files[n] && FirstOfSize(files, size, n);
    hide Placed, FirstOfSize;
    forall q | 0 <= q < |coords| && SamePlacement(coords[q], c)
      ensures if c.size == size then q < at[n] ==> coords[q].size != size else q >= at[n] && coords[q].size != size
    {
      assert KeyOf(coords[q]) == key;
      var m :| 0 <= m < |at| && at[m] == q;
      FirstIsFirst(files, size, n, m);
    }
    assert Picked(coords, size, at[n]);
  }

  lemma {:induction false} FirstIsFirst(files: seq<Coord>, size: nat, n: nat, m: nat)
    requires n < |files| && m < |files| && FirstOfSize(files, size, n)
    ensures if files[n].size == size then m < n ==> files[m].size != size else n == 0 && files[m].size != size
  {
    assert files[m] in files;
  }

  lemma {:induction false} SeenIsOffered(coords: seq<Coord>, c: Coord)
    requires FirstSeen(coords, KeyOf(c)) < |coords|
    ensures FirstOffer(coords, c, FirstSeen(coords, KeyOf(c)))
  {
  }

  lemma {:induction false} OneSlotPerPlacement(coords: seq<Coord>, size: nat, targets: seq<Coord>)
    requires Grouped(coords, size, targets)
    ensures SlotsFollowOffer(coords, size, targets)
  {
    var order :| Ordered(coords, order) && Targets(coords, size, order, targets);
    hide FirstOffer, PickedFrom, ChosenFrom, Placed;
    forall k | 0 <= k < |targets|
      ensures KeyOf(targets[k]) == order[k] && PickedFrom(coords, size, targets[k])
      ensures FirstOffer(coords, targets[k], FirstSeen(coords, order[k]))
    {
      ChosenIsPicked(coords, order[k], size, targets[k]);
      SeenIsOffered(coords, targets[k]);
    }
    forall c | c in coords ensures exists k :: 0 <= k < |targets| && SamePlacement(targets[k], c) {
      var k :| 0 <= k < |order| && order[k] == KeyOf(c);
      assert KeyOf(targets[k]) == KeyOf(c);
    }
  }
}
