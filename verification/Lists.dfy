/** The intrusive circular list of list.c. A list is a ring of items linked both
    ways; the ghost field `ring` lays it out, end marker first. */
module Lists {

  import opened Ticks
  import SL = SortedLists
  import RR = RoundRobin

  class ListItem {
    const owner: nat
    var value: Tick
    var next: ListItem?
    var prev: ListItem?
    var container: List?

    constructor (owner: nat, value: Tick)
      ensures this.owner == owner && this.value == value && container == null
    {
      this.owner, this.value := owner, value;
      container := null;
    }
  }

  function Succ(i: nat, n: nat): (j: nat)
    requires i < n
    ensures j < n
  {
    if i + 1 < n then i + 1 else 0
  }

  function Pred(i: nat, n: nat): (j: nat)
    requires i < n
    ensures j < n && Succ(j, n) == i
  {
    if i == 0 then n - 1 else i - 1
  }

  ghost predicate Linked(ring: seq<ListItem>)
    reads ring`next, ring`prev
  {
    && (forall i {:trigger ring[i].next} :: 0 <= i < |ring| ==> ring[i].next == ring[Succ(i, |ring|)])
    && (forall i {:trigger ring[i].prev} :: 0 <= i < |ring| ==> ring[i].prev == ring[Pred(i, |ring|)])
  }

  ghost predicate Distinct(ring: seq<ListItem>)
  {
    forall i, j :: 0 <= i < j < |ring| ==> ring[i] != ring[j]
  }

  /** What the users of sorted lists see of the items. */
  ghost function Entries(items: seq<ListItem>): (r: seq<SL.Entry>)
    reads items`value
    ensures |r| == |items|
    ensures forall i :: 0 <= i < |r| ==> r[i] == SL.Entry(items[i].owner, items[i].value)
  {
    if items == [] then
      []
    else
      var last := items[|items| - 1];
      Entries(items[..|items| - 1]) + [SL.Entry(last.owner, last.value)]
  }

  /** The ring with an item after a position. */
  ghost function Spliced(ring: seq<ListItem>, p: nat, x: ListItem): (r: seq<ListItem>)
    requires p < |ring|
    ensures |r| == |ring| + 1
    ensures forall i :: 0 <= i <= p ==> r[i] == ring[i]
    ensures r[p + 1] == x
    ensures forall i :: p + 1 < i < |r| ==> r[i] == ring[i - 1]
  {
    ring[..p + 1] + [x] + ring[p + 1..]
  }

  ghost function Cut(ring: seq<ListItem>, p: nat): (r: seq<ListItem>)
    requires p < |ring|
    ensures |r| == |ring| - 1
    ensures forall i :: 0 <= i < p ==> r[i] == ring[i]
    ensures forall i :: p <= i < |r| ==> r[i] == ring[i + 1]
  {
    ring[..p] + ring[p + 1..]
  }

  lemma {:induction false} SplicedTail(ring: seq<ListItem>, p: nat, x: ListItem)
    requires p < |ring|
    ensures Spliced(ring, p, x)[1..] == ring[1..][..p] + [x] + ring[1..][p..]
  {
  }

  lemma {:induction false} CutTail(ring: seq<ListItem>, p: nat)
    requires 1 <= p < |ring|
    ensures Cut(ring, p)[1..] == ring[1..][..p - 1] + ring[1..][p..]
  {
  }

  /** Taking out the item just put in restores the list, cursor and all,
      wherever the cursor was. */
  lemma {:induction false} InsertRemoveRestores(ring: seq<ListItem>, p: nat, x: ListItem, cursor: nat)
    requires p < |ring| && cursor < |ring|
    ensures Cut(Spliced(ring, p, x), p + 1) == ring
    ensures var moved := if cursor > p then cursor + 1 else cursor;
            (if p + 1 <= moved then moved - 1 else moved) == cursor
  {
    var r := Cut(Spliced(ring, p, x), p + 1);
    assert |r| == |ring|;
    forall i | 0 <= i < |ring| ensures r[i] == ring[i] {
    }
  }

  ghost function Owners(items: seq<ListItem>): (r: seq<nat>)
    ensures |r| == |items|
    ensures forall i :: 0 <= i < |r| ==> r[i] == items[i].owner
  {
    seq(|items|, i requires 0 <= i < |items| => items[i].owner)
  }

  /** What InsertEnd does to the items and the cursor is what the round-robin
      order calls appending, and Remove is dropping. */
  lemma {:induction false} InsertEndAppends(items: seq<ListItem>, cursor: nat, x: ListItem)
    requires cursor <= |items|
    ensures RR.Appended(RR.Rotation(Owners(items), cursor, {}), x.owner)
            == RR.Rotation(Owners(if cursor == 0 then items + [x] else items[..cursor - 1] + [x] + items[cursor - 1..]),
                           if cursor == 0 then 0 else cursor + 1, {})
  {
  }

  lemma {:induction false} RemoveDrops(items: seq<ListItem>, cursor: nat, p: nat)
    requires cursor <= |items| && 1 <= p <= |items|
    ensures RR.Dropped(RR.Rotation(Owners(items), cursor, {}), p)
            == RR.Rotation(Owners(items[..p - 1] + items[p..]), if p <= cursor then cursor - 1 else cursor, {})
  {
  }

  lemma {:induction false} Neighbours(ring: seq<ListItem>, i: nat)
    requires Linked(ring) && i < |ring|
    ensures ring[i].next == ring[Succ(i, |ring|)] && ring[i].prev == ring[Pred(i, |ring|)]
  {
  }

  /** Where the cursor is after a removal, and that the item is really gone. */
  lemma {:induction false} CutCursor(ring: seq<ListItem>, p: nat, cursor: nat)
    requires Distinct(ring) && 1 <= p < |ring| && cursor < |ring|
    ensures ring[cursor] == ring[p] <==> cursor == p
    ensures Cut(ring, p)[if p <= cursor then cursor - 1 else cursor]
            == if cursor == p then ring[p - 1] else ring[cursor]
    ensures ring[Succ(p, |ring|)] != ring[p] && ring[p - 1] != ring[p]
    ensures Cut(ring, p)[0] == ring[0]
    ensures forall i :: 0 <= i < |ring| - 1 ==> Cut(ring, p)[i] != ring[p]
  {
  }

  ghost predicate Held(ring: seq<ListItem>, list: List)
    reads ring`container
  {
    forall i {:trigger ring[i].container} :: 1 <= i < |ring| ==> ring[i].container == list
  }

  lemma {:induction false} HeldCut(ring: seq<ListItem>, p: nat, list: List)
    requires 1 <= p < |ring| && ring[p].container == null
    requires forall i :: 1 <= i < |ring| && ring[i] != ring[p] ==> ring[i].container == list
    requires forall i :: 0 <= i < |ring| - 1 ==> Cut(ring, p)[i] != ring[p]
    ensures Held(Cut(ring, p), list)
  {
    var r := Cut(ring, p);
    hide Cut;
    forall i | 1 <= i < |r| ensures r[i].container == list {
      assert r[i] == ring[if i < p then i else i + 1];
    }
  }

  lemma {:induction false} HeldSpliced(ring: seq<ListItem>, p: nat, x: ListItem, list: List)
    requires p < |ring| && x.container == list && Held(ring, list)
    ensures Held(Spliced(ring, p, x), list)
  {
    var r := Spliced(ring, p, x);
    hide Spliced;
    forall i | 1 <= i < |r| ensures r[i].container == list {
      if i <= p {
        assert ring[i].container == list;
      } else if i > p + 1 {
        assert ring[i - 1].container == list;
      }
    }
  }

  lemma {:induction false} EntriesInserted(items: seq<ListItem>, was: seq<SL.Entry>, x: ListItem)
    requires |was| == |items|
    requires forall i :: 0 <= i < |was| ==> was[i] == SL.Entry(items[i].owner, items[i].value)
    ensures var p := SL.Position(was, x.value);
            Entries(items[..p] + [x] + items[p..]) == SL.Insert(was, SL.Entry(x.owner, x.value))
  {
    hide SL.Sorted;
    var p := SL.Position(was, x.value);
    var items' := items[..p] + [x] + items[p..];
    assert forall i :: 0 <= i < p ==> items'[i] == items[i];
    assert forall i :: p < i < |items'| ==> items'[i] == items[i - 1];
  }

  /** Redirecting four pointers links a new item in. */
  lemma {:induction false} SplicedLinked(ring: seq<ListItem>, p: nat, x: ListItem)
    requires 0 < |ring| && p < |ring| && Distinct(ring) && x !in ring
    requires x.prev == ring[p] && x.next == ring[Succ(p, |ring|)]
    requires ring[p].next == x && ring[Succ(p, |ring|)].prev == x
    requires forall i {:trigger ring[i].next} :: 0 <= i < |ring| && i != p ==>
               ring[i].next == ring[Succ(i, |ring|)]
    requires forall i {:trigger ring[i].prev} :: 0 <= i < |ring| && i != Succ(p, |ring|) ==>
               ring[i].prev == ring[Pred(i, |ring|)]
    ensures Linked(Spliced(ring, p, x)) && Distinct(Spliced(ring, p, x))
  {
    var n, r := |ring|, Spliced(ring, p, x);
    hide Spliced;
    forall i | 0 <= i <= n
      ensures r[i].next == r[Succ(i, n + 1)] && r[i].prev == r[Pred(i, n + 1)]
    {
      if i <= p {
        assert r[i] == ring[i];
        assert i < p ==> ring[i].next == ring[Succ(i, n)];
        assert i != Succ(p, n) ==> ring[i].prev == ring[Pred(i, n)];
      } else if i > p + 1 {
        assert r[i] == ring[i - 1];
        assert ring[i - 1].next == ring[Succ(i - 1, n)];
        assert i - 1 != Succ(p, n) ==> ring[i - 1].prev == ring[Pred(i - 1, n)];
      }
    }
  }

  /** Redirecting two pointers takes an item out. */
  lemma {:induction false} CutLinked(ring: seq<ListItem>, p: nat)
    requires 1 <= p < |ring| && Distinct(ring)
    requires ring[p - 1].next == ring[Succ(p, |ring|)] && ring[Succ(p, |ring|)].prev == ring[p - 1]
    requires forall i {:trigger ring[i].next} :: 0 <= i < |ring| && i != p - 1 ==>
               ring[i].next == ring[Succ(i, |ring|)]
    requires forall i {:trigger ring[i].prev} :: 0 <= i < |ring| && i != Succ(p, |ring|) ==>
               ring[i].prev == ring[Pred(i, |ring|)]
    ensures Linked(Cut(ring, p)) && Distinct(Cut(ring, p))
  {
    var n, r := |ring|, Cut(ring, p);
    hide Cut;
    forall i | 0 <= i < n - 1
      ensures r[i].next == r[Succ(i, n - 1)] && r[i].prev == r[Pred(i, n - 1)]
    {
      var k := if i < p then i else i + 1;
      assert r[i] == ring[k];
      assert k != p - 1 ==> ring[k].next == ring[Succ(k, n)];
      assert k != Succ(p, n) ==> ring[k].prev == ring[Pred(k, n)];
    }
  }

  /** The four pointer writes of both insertions. */
  method LinkIn(before: ListItem, after: ListItem, x: ListItem, ghost ring: seq<ListItem>, ghost p: nat)
    requires 0 < |ring| && p < |ring| && Distinct(ring) && Linked(ring) && x !in ring
    requires before == ring[p] && after == ring[Succ(p, |ring|)]
    modifies x`next, x`prev, before`next, after`prev
    ensures Linked(Spliced(ring, p, x)) && Distinct(Spliced(ring, p, x))
  {
    x.next := after;
    x.prev := before;
    before.next := x;
    after.prev := x;
    hide Linked, Distinct;
    assert Distinct(ring);
    SplicedLinked(ring, p, x);
  }

  /** The pointer writes of a removal. */
  method LinkOut(x: ListItem, before: ListItem, after: ListItem, ghost ring: seq<ListItem>, ghost p: nat,
                 ghost list: List)
    requires 1 <= p < |ring| && Distinct(ring) && Linked(ring) && Held(ring, list)
    requires x == ring[p] && before == ring[p - 1] && after == ring[Succ(p, |ring|)]
    modifies before`next, after`prev, x`container
    ensures Linked(Cut(ring, p)) && Distinct(Cut(ring, p)) && Held(Cut(ring, p), list)
    ensures x.container == null
  {
    after.prev := before;
    before.next := after;
    CutLinked(ring, p);
    hide Linked;
    CutCursor(ring, p, p);
    x.container := null;
    HeldCut(ring, p, list);
  }

  class List {
    var count: nat
    var index: ListItem
    const end: ListItem
    ghost var ring: seq<ListItem>
    ghost var cursor: nat

    ghost predicate Valid()
      reads this, ring
    {
      && |ring| == count + 1 && ring[0] == end && end.value == MAX_DELAY
      && Distinct(ring) && Linked(ring)
      && cursor < |ring| && ring[cursor] == index
      && Held(ring, this)
    }

    /** The items, without the end marker. */
    ghost function Items(): seq<ListItem>
      reads this
      requires ring != []
    {
      ring[1..]
    }

    /** vListInitialise. */
    constructor ()
      ensures Valid() && Items() == [] && cursor == 0 && fresh(end)
    {
      end := new ListItem(0, MAX_DELAY);
      index, cursor := end, 0;
      count := 0;
      ring := [end];
      new;
      end.next, end.prev := end, end;
    }

    /** Takes an item in between two neighbours. */
    method Link(before: ListItem, after: ListItem, x: ListItem, ghost p: nat)
      requires Valid() && x !in ring && p < |ring|
      requires before == ring[p] && after == ring[Succ(p, |ring|)]
      modifies this`count, this`ring, this`cursor, x`next, x`prev, x`container, ring`next, ring`prev
      ensures Valid() && x.container == this && ring == Spliced(old(ring), p, x)
      ensures cursor == if old(cursor) > p then old(cursor) + 1 else old(cursor)
    {
      hide Linked, Distinct, Held, Spliced;
      LinkIn(before, after, x, ring, p);
      x.container := this;
      count := count + 1;
      HeldSpliced(ring, p, x, this);
      ring := Spliced(ring, p, x);
      cursor := if cursor > p then cursor + 1 else cursor;
    }

    /** vListInsertEnd: in front of the item that was handed out last. */
    method InsertEnd(x: ListItem)
      requires Valid() && x !in ring
      modifies this`count, this`ring, this`cursor, x`next, x`prev, x`container, ring`next, ring`prev
      ensures Valid() && x.container == this
      ensures Items() == if old(cursor) == 0 then old(Items()) + [x]
                         else old(Items()[..cursor - 1]) + [x] + old(Items()[cursor - 1..])
      ensures cursor == if old(cursor) == 0 then 0 else old(cursor) + 1
    {
      hide Linked, Distinct, Spliced;
      ghost var p := Pred(cursor, |ring|);
      Neighbours(ring, cursor);
      SplicedTail(ring, p, x);
      Link(index.prev, index, x, p);
    }

    /** The walk of vListInsert: to the last item not larger than a value,
        which is the one before the end marker for MAX_DELAY. */
    method Walk(value: Tick) returns (walker: ListItem, ghost p: nat)
      requires Valid()
      ensures p == SL.Position(Entries(Items()), value) && walker == ring[p]
    {
      if value == MAX_DELAY {
        walker := end.prev;
        p := count;
        assert ring[0].prev == ring[Pred(0, |ring|)];
      } else {
        walker := end;
        p := 0;
        assert ring[0].next == ring[Succ(0, |ring|)];
        while walker.next.value <= value
          invariant p < |ring| && walker == ring[p] && walker.next == ring[Succ(p, |ring|)]
          invariant forall i :: 1 <= i <= p ==> ring[i].value <= value
          decreases |ring| - p
        {
          walker := walker.next;
          p := p + 1;
          assert ring[p].next == ring[Succ(p, |ring|)];
        }
      }
      SL.PositionIs(Entries(Items()), value, p);
    }

    /** vListInsert: in front of the first larger value. */
    method Insert(x: ListItem) returns (ghost p: nat)
      requires Valid() && x !in ring
      modifies this`count, this`ring, this`cursor, x`next, x`prev, x`container, ring`next, ring`prev
      ensures Valid() && x.container == this
      ensures p == SL.Position(old(Entries(Items())), x.value)
      ensures Items() == old(Items())[..p] + [x] + old(Items())[p..]
      ensures cursor == if old(cursor) > p then old(cursor) + 1 else old(cursor)
      ensures Entries(Items()) == SL.Insert(old(Entries(Items())), SL.Entry(x.owner, x.value))
    {
      hide Linked, Distinct, Spliced, Held, Entries, SL.Insert, SL.Position, SL.Sorted;
      var walker;
      walker, p := Walk(x.value);
      Neighbours(ring, p);
      SplicedTail(ring, p, x);
      ghost var items := Items();
      EntriesInserted(items, Entries(items), x);
      Link(walker, walker.next, x, p);
      assert Items() == items[..p] + [x] + items[p..];
    }

    /** uxListRemove of an item of this list, which is what its container
        pointer stands for. */
    method Remove(x: ListItem, ghost p: nat) returns (left: nat)
      requires Valid() && 1 <= p < |ring| && ring[p] == x
      modifies this, x`container, ring`next, ring`prev
      ensures Valid() && x.container == null && left == count
      ensures Items() == old(Items()[..p - 1] + Items()[p..])
      ensures cursor == if p <= old(cursor) then old(cursor) - 1 else old(cursor)
    {
      hide Linked, Distinct, Held, Cut;
      Neighbours(ring, p);
      CutTail(ring, p);
      CutCursor(ring, p, cursor);
      var before := x.prev;
      LinkOut(x, before, x.next, ring, p, this);
      if index == x {
        index := before;
      }
      count := count - 1;
      cursor := if p <= cursor then cursor - 1 else cursor;
      ring := Cut(ring, p);
      left := count;
    }

    /** listGET_OWNER_OF_NEXT_ENTRY. */
    method NextEntry() returns (owner: nat)
      requires Valid() && count > 0
      modifies this`index, this`cursor
      ensures Valid() && cursor == RR.Advance(old(cursor), count)
      ensures owner == Items()[cursor - 1].owner
    {
      assert ring[cursor].next == ring[Succ(cursor, |ring|)];
      index, cursor := index.next, Succ(cursor, |ring|);
      if index == end {
        assert ring[0].next == ring[Succ(0, |ring|)];
        index, cursor := index.next, 1;
      }
      owner := index.owner;
    }
  }
}
