/** The byte storage of a queue: fixed-size slots used as a ring, with a write
    pointer to the next free slot and a read pointer one slot behind the oldest
    item. What it holds is a bounded sequence of items. */
module QueueRings {

  type Byte = b: int | 0 <= b < 256

  /** The storage area with the slot numbers its two pointers stand for. */
  datatype Ring = Ring(
    bytes: seq<Byte>,
    itemSize: nat,
    length: nat,
    writeSlot: nat,
    readSlot: nat,
    count: nat)

  datatype CopyPosition = Back | Front | Overwrite

  /** The slot a number of places after the given one. */
  function After(slot: nat, places: nat, length: nat): (r: nat)
    requires slot < length && places <= length
    ensures r < length
  {
    if slot + places < length then slot + places else slot + places - length
  }

  function Before(slot: nat, length: nat): (r: nat)
    requires slot < length
    ensures r < length && After(r, 1, length) == slot
  {
    if slot == 0 then length - 1 else slot - 1
  }

  /** Where a slot starts in the storage area. */
  function Offset(slot: nat, itemSize: nat): nat
  {
    slot * itemSize
  }

  ghost predicate Valid(r: Ring)
  {
    && 0 < r.length
    && |r.bytes| == Offset(r.length, r.itemSize)
    && r.writeSlot < r.length && r.readSlot < r.length
    && r.count <= r.length
    && r.writeSlot == After(After(r.readSlot, 1, r.length), r.count, r.length)
  }

  lemma {:induction false} SlotBounds(slot: nat, other: nat, itemSize: nat)
    requires slot < other
    ensures Offset(slot, itemSize) + itemSize <= Offset(other, itemSize)
  {
    var gap := other - slot - 1;
    assert other * itemSize == slot * itemSize + itemSize + gap * itemSize;
  }

  function Slot(r: Ring, slot: nat): (item: seq<Byte>)
    requires Valid(r) && slot < r.length
    ensures |item| == r.itemSize
  {
    SlotBounds(slot, r.length, r.itemSize);
    var at := Offset(slot, r.itemSize);
    r.bytes[at..at + r.itemSize]
  }

  /** The items in the order in which they will be received. */
  function Contents(r: Ring): (items: seq<seq<Byte>>)
    requires Valid(r)
    ensures |items| == r.count
    ensures forall i :: 0 <= i < r.count ==>
              items[i] == Slot(r, After(After(r.readSlot, 1, r.length), i, r.length))
  {
    seq(r.count, i requires 0 <= i < r.count => Slot(r, After(After(r.readSlot, 1, r.length), i, r.length)))
  }

  /** memcpy of one item into a slot. */
  function Put(r: Ring, slot: nat, item: seq<Byte>): (r': Ring)
    requires Valid(r) && slot < r.length && |item| == r.itemSize
    ensures Valid(r') && r' == r.(bytes := r'.bytes)
  {
    SlotBounds(slot, r.length, r.itemSize);
    var at := Offset(slot, r.itemSize);
    r.(bytes := r.bytes[..at] + item + r.bytes[at + r.itemSize..])
  }

  lemma {:induction false} SpliceGet(bytes: seq<Byte>, at: nat, item: seq<Byte>, from: nat)
    requires at + |item| <= |bytes| && from + |item| <= |bytes|
    requires from == at || from + |item| <= at || at + |item| <= from
    ensures (bytes[..at] + item + bytes[at + |item|..])[from..from + |item|]
            == if from == at then item else bytes[from..from + |item|]
  {
  }

  /** Slots do not overlap. */
  lemma {:induction false} PutGet(r: Ring, slot: nat, item: seq<Byte>, other: nat)
    requires Valid(r) && slot < r.length && other < r.length && |item| == r.itemSize
    ensures Slot(Put(r, slot, item), other) == if other == slot then item else Slot(r, other)
  {
    hide Offset;
    SlotBounds(slot, r.length, r.itemSize);
    SlotBounds(other, r.length, r.itemSize);
    if other < slot {
      SlotBounds(other, slot, r.itemSize);
    } else if slot < other {
      SlotBounds(slot, other, r.itemSize);
    }
    SpliceGet(r.bytes, Offset(slot, r.itemSize), item, Offset(other, r.itemSize));
  }

  /** The count prvCopyDataToQueue leaves behind. Only the branch for items
      with a size subtracts the message that an overwrite replaces. */
  function CountAfter(count: nat, itemSize: nat, position: CopyPosition): nat
  {
    (if itemSize > 0 && position == Overwrite && count > 0 then count - 1 else count) + 1
  }

  /** What the callers of prvCopyDataToQueue have made sure of: there is room,
      or the only slot is to be overwritten. */
  predicate Accepts(count: nat, length: nat, position: CopyPosition)
  {
    if position == Overwrite then length == 1 else count < length
  }

  /** A queue never counts more messages than it has slots, except when a full
      queue of items without a size is overwritten. */
  lemma {:induction false} CountFits(count: nat, length: nat, itemSize: nat, position: CopyPosition)
    requires count <= length && Accepts(count, length, position)
    ensures CountAfter(count, itemSize, position) <= length
            <==> !(position == Overwrite && itemSize == 0 && count == length)
  {
  }

  predicate FitsIn(count: nat, length: nat, itemSize: nat, position: CopyPosition)
  {
    && Accepts(count, length, position)
    && !(position == Overwrite && itemSize == 0 && count == length)
  }

  predicate Fits(r: Ring, position: CopyPosition)
  {
    FitsIn(r.count, r.length, r.itemSize, position)
  }

  /** prvCopyDataToQueue. Items without a size all look the same, so they may
      be pictured as joining at the back. */
  function CopyTo(r: Ring, item: seq<Byte>, position: CopyPosition): (r': Ring)
    requires Valid(r) && |item| == r.itemSize && Fits(r, position)
    ensures Valid(r') && r'.count == CountAfter(r.count, r.itemSize, position)
    ensures r'.itemSize == r.itemSize && r'.length == r.length
  {
    var count := CountAfter(r.count, r.itemSize, position);
    if position == Back || r.itemSize == 0 then
      Put(r, r.writeSlot, item).(writeSlot := After(r.writeSlot, 1, r.length), count := count)
    else
      Put(r, r.readSlot, item).(readSlot := Before(r.readSlot, r.length), count := count)
  }

  /** prvCopyDataFromQueue and the decrement its callers make. */
  function Take(r: Ring): (r': Ring)
    requires Valid(r) && r.count > 0
    ensures Valid(r')
  {
    r.(readSlot := After(r.readSlot, 1, r.length), count := r.count - 1)
  }

  /** What sending does to the abstract sequence. */
  function Sent(items: seq<seq<Byte>>, item: seq<Byte>, position: CopyPosition): seq<seq<Byte>>
  {
    match position
    case Back => items + [item]
    case Front => [item] + items
    case Overwrite => [item]
  }

  /** Reading a slot after a copy and a move of the pointers. */
  lemma {:induction false} GetAfterCopy(r: Ring, slot: nat, item: seq<Byte>, r': Ring, other: nat)
    requires Valid(r) && slot < r.length && other < r.length && |item| == r.itemSize
    requires Valid(r') && r'.(writeSlot := r.writeSlot, readSlot := r.readSlot, count := r.count)
                          == Put(r, slot, item)
    ensures Slot(r', other) == if other == slot then item else Slot(r, other)
  {
    PutGet(r, slot, item, other);
  }

  lemma {:induction false} SentLength(r: Ring, item: seq<Byte>, position: CopyPosition)
    requires Valid(r) && |item| == r.itemSize && Fits(r, position)
    ensures |Sent(Contents(r), item, position)| == CopyTo(r, item, position).count
  {
    hide Put, Contents;
  }

  /** Where the message at an index is, seen from the read pointer. */
  function At(readSlot: nat, i: nat, length: nat): nat
    requires readSlot < length && i <= length
  {
    After(After(readSlot, 1, length), i, length)
  }

  lemma {:induction false} BackSlots(readSlot: nat, count: nat, length: nat, i: nat)
    requires readSlot < length && i <= count < length
    ensures At(readSlot, i, length) == At(readSlot, count, length) <==> i == count
  {
  }

  lemma {:induction false} FrontSlots(readSlot: nat, length: nat, i: nat)
    requires readSlot < length && i < length
    ensures At(Before(readSlot, length), i, length) == readSlot <==> i == 0
    ensures i > 0 ==> At(Before(readSlot, length), i, length) == At(readSlot, i - 1, length)
  {
  }

  /** A message copied in is found there, and the others where they were. */
  lemma {:induction false} SlotAfterCopy(r: Ring, item: seq<Byte>, position: CopyPosition, i: nat)
    requires Valid(r) && |item| == r.itemSize && r.itemSize > 0 && Fits(r, position)
    requires i < CopyTo(r, item, position).count
    ensures var r' := CopyTo(r, item, position);
            |Sent(Contents(r), item, position)| == r'.count
            && Slot(r', At(r'.readSlot, i, r.length)) == Sent(Contents(r), item, position)[i]
  {
    SentLength(r, item, position);
    var r' := CopyTo(r, item, position);
    GetAfterCopy(r, if position == Back then r.writeSlot else r.readSlot, item, r', At(r'.readSlot, i, r.length));
    hide Put, Slot, Offset;
    if position == Back {
      BackSlots(r.readSlot, r.count, r.length, i);
      hide After;
    } else {
      FrontSlots(r.readSlot, r.length, i);
      hide After, Before;
    }
  }

  lemma {:induction false} CopyToRefines(r: Ring, item: seq<Byte>, position: CopyPosition)
    requires Valid(r) && |item| == r.itemSize && Fits(r, position)
    ensures Contents(CopyTo(r, item, position)) == Sent(Contents(r), item, position)
  {
    hide Put, Slot, Offset, After, Before;
    SentLength(r, item, position);
    var r' := CopyTo(r, item, position);
    forall i | 0 <= i < r'.count
      ensures Contents(r')[i] == Sent(Contents(r), item, position)[i]
    {
      if r.itemSize > 0 {
        SlotAfterCopy(r, item, position, i);
      } else {
        assert Contents(r')[i] == [] && Sent(Contents(r), item, position)[i] == [];
      }
    }
  }

  lemma {:induction false} TakeRefines(r: Ring)
    requires Valid(r) && r.count > 0
    ensures Contents(r)[0] == Slot(r, After(r.readSlot, 1, r.length))
    ensures Contents(Take(r)) == Contents(r)[1..]
  {
    var r' := Take(r);
    forall i | 0 <= i < r'.count ensures Contents(r')[i] == Contents(r)[i + 1] {
      var at := After(After(r'.readSlot, 1, r.length), i, r.length);
      assert at == After(After(r.readSlot, 1, r.length), i + 1, r.length);
      assert Slot(r', at) == Slot(r, at);
    }
  }

  /** The pointers alone cannot tell a full queue from an empty one; only the
      count does. */
  lemma {:induction false} PointersMeet(r: Ring)
    requires Valid(r)
    ensures r.writeSlot == After(r.readSlot, 1, r.length) <==> r.count == 0 || r.count == r.length
  {
  }

  // ---------------------------------------------------------------------
  // Runs
  // ---------------------------------------------------------------------

  datatype Op = Enqueue(item: seq<Byte>, position: CopyPosition) | Dequeue | Look

  /** What the ring hands out in a run of operations; an operation that finds
      the queue full (empty) leaves it alone. */
  function Handed(r: Ring, ops: seq<Op>): seq<seq<Byte>>
    requires Valid(r) && (forall i :: 0 <= i < |ops| ==> Sized(ops[i], r.itemSize))
    decreases |ops|
  {
    if ops == [] then
      []
    else
      assert Sized(ops[0], r.itemSize);
      match ops[0]
      case Enqueue(item, position) => Handed(if Fits(r, position) then CopyTo(r, item, position) else r, ops[1..])
      case Dequeue =>
        if r.count == 0 then
          Handed(r, ops[1..])
        else
          [Slot(r, After(r.readSlot, 1, r.length))] + Handed(Take(r), ops[1..])
      case Look =>
        if r.count == 0 then
          Handed(r, ops[1..])
        else
          [Slot(r, After(r.readSlot, 1, r.length))] + Handed(r, ops[1..])
  }

  predicate Sized(op: Op, itemSize: nat)
  {
    op.Enqueue? ==> |op.item| == itemSize
  }

  /** The same for a sequence with a bound on its length. */
  function Expected(items: seq<seq<Byte>>, length: nat, itemSize: nat, ops: seq<Op>): seq<seq<Byte>>
    decreases |ops|
  {
    if ops == [] then
      []
    else
      match ops[0]
      case Enqueue(item, position) =>
        Expected(if FitsIn(|items|, length, itemSize, position) then Sent(items, item, position) else items,
                 length, itemSize, ops[1..])
      case Dequeue =>
        if items == [] then
          Expected(items, length, itemSize, ops[1..])
        else
          [items[0]] + Expected(items[1..], length, itemSize, ops[1..])
      case Look =>
        if items == [] then
          Expected(items, length, itemSize, ops[1..])
        else
          [items[0]] + Expected(items, length, itemSize, ops[1..])
  }

  /** For any mix of operations the ring cannot be told from the sequence. */
  lemma {:induction false} RingIsSequence(r: Ring, ops: seq<Op>)
    requires Valid(r) && (forall i :: 0 <= i < |ops| ==> Sized(ops[i], r.itemSize))
    ensures Handed(r, ops) == Expected(Contents(r), r.length, r.itemSize, ops)
    decreases |ops|
  {
    hide Contents, Slot, CopyTo, Sent, Valid;
    if ops == [] {
    } else {
      var rest := ops[1..];
      var op := ops[0];
      match op
      case Enqueue(item, position) =>
        assert Sized(op, r.itemSize);
        if Fits(r, position) {
          CopyToRefines(r, item, position);
          RingIsSequence(CopyTo(r, item, position), rest);
        } else {
          RingIsSequence(r, rest);
        }
      case Dequeue =>
        if r.count == 0 {
          RingIsSequence(r, rest);
        } else {
          TakeRefines(r);
          RingIsSequence(Take(r), rest);
        }
      case Look =>
        if r.count > 0 {
          TakeRefines(r);
        }
        RingIsSequence(r, rest);
    }
  }
}
