/** The order in which listGET_OWNER_OF_NEXT_ENTRY hands out the items of a
    list. A list is pictured as the ring of its end marker, at position 0, and
    its items, at 1 to n; the cursor is the position of pxIndex. */
module RoundRobin {

  /** One advance of the cursor, which steps over the marker. */
  function Advance(cursor: nat, n: nat): (next: nat)
    requires cursor <= n && n > 0
    ensures 1 <= next <= n
  {
    if cursor < n then cursor + 1 else 1
  }

  /** The position that the i-th advance from here hands out. */
  function Served(cursor: nat, n: nat, i: nat): (p: nat)
    requires cursor <= n && n > 0
    ensures p <= n && (i > 0 ==> p > 0)
    decreases i
  {
    if i == 0 then cursor else Served(Advance(cursor, n), n, i - 1)
  }

  /** How many advances it takes until a position is handed out. */
  function Distance(cursor: nat, n: nat, p: nat): (d: nat)
    requires cursor <= n && 1 <= p <= n
    ensures 1 <= d <= n
  {
    if p > cursor then p - cursor else n - cursor + p
  }

  /** The distance is what it is called: the first advance that hands out a
      position is the one its distance says. In particular a full cycle of n
      advances hands out every position exactly once. */
  lemma {:induction false} DistanceExact(cursor: nat, n: nat, p: nat, i: nat)
    requires cursor <= n && 1 <= p <= n && 1 <= i <= n
    ensures Served(cursor, n, i) == p <==> Distance(cursor, n, p) == i
  {
    ServedIs(cursor, n, i);
  }

  lemma {:induction false} ServedIs(cursor: nat, n: nat, i: nat)
    requires cursor <= n && 1 <= i <= n
    ensures Served(cursor, n, i) == if cursor + i <= n then cursor + i else cursor + i - n
    decreases i
  {
    if i == 1 {
      assert Served(cursor, n, 1) == Served(Advance(cursor, n), n, 0);
    } else {
      ServedIs(Advance(cursor, n), n, i - 1);
    }
  }

  // ---------------------------------------------------------------------
  // The list changes between advances
  // ---------------------------------------------------------------------

  /** The items, the cursor, and whom the last step handed out. */
  datatype Rotation = Rotation(items: seq<nat>, cursor: nat, handed: set<nat>)

  datatype Step = Next | Append(item: nat) | Drop(item: nat)

  ghost predicate Distinct(s: seq<nat>)
  {
    forall i, j :: 0 <= i < j < |s| ==> s[i] != s[j]
  }

  ghost predicate Formed(r: Rotation)
  {
    Distinct(r.items) && r.cursor <= |r.items|
  }

  /** vListInsertEnd puts an item in front of the one at the cursor, or at the
      end of the list if the cursor is at the marker. */
  function Appended(r: Rotation, item: nat): Rotation
    requires r.cursor <= |r.items|
  {
    if r.cursor == 0 then
      r.(items := r.items + [item], handed := {})
    else
      r.(items := r.items[..r.cursor - 1] + [item] + r.items[r.cursor - 1..], cursor := r.cursor + 1, handed := {})
  }

  /** uxListRemove of the item at a position; a cursor at it falls back. */
  function Dropped(r: Rotation, p: nat): Rotation
    requires r.cursor <= |r.items| && 1 <= p <= |r.items|
  {
    r.(items := r.items[..p - 1] + r.items[p..],
       cursor := if p <= r.cursor then r.cursor - 1 else r.cursor, handed := {})
  }

  /** An item's position; 0 if it is not in the list. */
  function PositionOf(items: seq<nat>, item: nat): (p: nat)
    ensures p <= |items|
    ensures p > 0 <==> item in items
    ensures p > 0 ==> items[p - 1] == item
  {
    if items == [] then
      0
    else if items[|items| - 1] == item then
      |items|
    else
      PositionOf(items[..|items| - 1], item)
  }

  lemma {:induction false} PositionIs(items: seq<nat>, item: nat, p: nat)
    requires Distinct(items) && 1 <= p <= |items| && items[p - 1] == item
    ensures PositionOf(items, item) == p
  {
  }

  predicate Enabled(r: Rotation, step: Step)
  {
    && r.cursor <= |r.items|
    && match step
       case Next => r.items != []
       case Append(item) => item !in r.items
       case Drop(item) => item in r.items
  }

  function After(r: Rotation, step: Step): Rotation
    requires Enabled(r, step)
  {
    match step
    case Next =>
      var cursor := Advance(r.cursor, |r.items|);
      r.(cursor := cursor, handed := {r.items[cursor - 1]})
    case Append(item) => Appended(r, item)
    case Drop(item) => Dropped(r, PositionOf(r.items, item))
  }

  /** How long an item still has to wait. */
  function Wait(r: Rotation, x: nat): nat
    requires r.cursor <= |r.items| && x in r.items
  {
    Distance(r.cursor, |r.items|, PositionOf(r.items, x))
  }

  lemma {:induction false} AppendKeepsWait(r: Rotation, item: nat, x: nat)
    requires Formed(r) && item !in r.items && x in r.items
    ensures Formed(Appended(r, item)) && x in Appended(r, item).items
    ensures Wait(Appended(r, item), x)
            == Wait(r, x) + if r.cursor == PositionOf(r.items, x) then 1 else 0
  {
    var r' := Appended(r, item);
    var p := PositionOf(r.items, x);
    var p' := if r.cursor == 0 || p < r.cursor then p else p + 1;
    assert r'.items[p' - 1] == x;
    assert Distinct(r'.items) by { AppendedDistinct(r, item); }
    PositionIs(r'.items, x, p');
  }

  lemma {:induction false} AppendedDistinct(r: Rotation, item: nat)
    requires Formed(r) && item !in r.items
    ensures Distinct(Appended(r, item).items)
  {
    var r' := Appended(r, item);
    var q := if r.cursor == 0 then |r.items| else r.cursor - 1;
    assert forall i :: 0 <= i < q ==> r'.items[i] == r.items[i];
    assert r'.items[q] == item;
    assert forall i :: q < i < |r'.items| ==> r'.items[i] == r.items[i - 1];
  }

  lemma {:induction false} DropShifts(r: Rotation, q: nat, p: nat)
    requires Formed(r) && 1 <= q <= |r.items| && 1 <= p <= |r.items| && p != q
    ensures var r' := Dropped(r, q);
            Formed(r') && PositionOf(r'.items, r.items[p - 1]) == if p < q then p else p - 1
  {
    var r' := Dropped(r, q);
    assert forall i :: 0 <= i < q - 1 ==> r'.items[i] == r.items[i];
    assert forall i :: q - 1 <= i < |r'.items| ==> r'.items[i] == r.items[i + 1];
    PositionIs(r'.items, r.items[p - 1], if p < q then p else p - 1);
  }

  lemma {:induction false} DropNeverRaises(r: Rotation, item: nat, x: nat)
    requires Formed(r) && item in r.items && x in r.items && x != item
    ensures var r' := Dropped(r, PositionOf(r.items, item));
            Formed(r') && x in r'.items && Wait(r', x) <= Wait(r, x)
  {
    DropShifts(r, PositionOf(r.items, item), PositionOf(r.items, x));
    hide Formed;
  }

  lemma {:induction false} NextLowersWait(r: Rotation, x: nat)
    requires Formed(r) && x in r.items
    ensures var r' := After(r, Next);
            Formed(r') && (Wait(r, x) == 1 <==> r'.handed == {x})
            && (Wait(r, x) > 1 ==> Wait(r', x) == Wait(r, x) - 1)
  {
    var p := PositionOf(r.items, x);
    var cursor := Advance(r.cursor, |r.items|);
    PositionIs(r.items, r.items[cursor - 1], cursor);
  }

  // ---------------------------------------------------------------------
  // Bounded waiting
  // ---------------------------------------------------------------------

  /** A run in which an item stays, is never handed out, and nothing is
      appended while the cursor is at it. */
  ghost predicate Skips(r: Rotation, run: seq<Step>, x: nat)
    decreases |run|
  {
    run == [] ||
    (&& Enabled(r, run[0])
     && x in r.items && run[0] != Drop(x)
     && (run[0].Append? ==> r.cursor != PositionOf(r.items, x))
     && After(r, run[0]).handed != {x}
     && Skips(After(r, run[0]), run[1..], x))
  }

  function Advances(run: seq<Step>): nat
  {
    if run == [] then 0 else (if run[0] == Next then 1 else 0) + Advances(run[1..])
  }

  /** However the list changes meanwhile, an item is handed out by the advance
      its distance says, or earlier. */
  lemma {:induction false} BoundedWaiting(r: Rotation, run: seq<Step>, x: nat)
    requires Formed(r) && x in r.items && Skips(r, run, x)
    ensures Advances(run) < Wait(r, x)
    decreases |run|
  {
    if run == [] {
    } else {
      var r' := After(r, run[0]);
      match run[0] {
        case Next => NextLowersWait(r, x);
        case Append(item) => AppendKeepsWait(r, item, x);
        case Drop(item) => DropNeverRaises(r, item, x);
      }
      assert Formed(r') && x in r'.items;
      hide Wait, After, Formed;
      BoundedWaiting(r', run[1..], x);
    }
  }
}
