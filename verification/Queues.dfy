/** The queue object of queue.c: the storage area with its byte offsets, the
    message count, the two lock counts and the two lists of waiting tasks. Each
    method is one critical section. Its contract says what became of the
    messages, in terms of the ring, and of the waiting tasks, in terms of the
    gate. */
module Queues {

  import opened SortedLists
  import opened QueueRings
  import G = QueueGates

  lemma {:induction false} NextOffset(slot: nat, length: nat, itemSize: nat)
    requires slot < length && itemSize > 0
    ensures Offset(slot + 1, itemSize) == Offset(slot, itemSize) + itemSize
    ensures Offset(slot, itemSize) + itemSize >= Offset(length, itemSize) <==> slot + 1 == length
  {
    SlotBounds(slot, length, itemSize);
    if slot + 1 < length {
      SlotBounds(slot + 1, length, itemSize);
    }
  }

  lemma {:induction false} PreviousOffset(slot: nat, length: nat, itemSize: nat)
    requires slot < length && itemSize > 0
    ensures Offset(slot, itemSize) - itemSize < 0 <==> slot == 0
    ensures slot > 0 ==> Offset(slot - 1, itemSize) == Offset(slot, itemSize) - itemSize
    ensures Offset(length - 1, itemSize) == Offset(length, itemSize) - itemSize
  {
    NextOffset(length - 1, length, itemSize);
    if slot > 0 {
      NextOffset(slot - 1, length, itemSize);
    }
  }

  lemma {:induction false} NoOffset(slot: nat, itemSize: nat)
    ensures itemSize == 0 ==> Offset(slot, itemSize) == 0
    ensures Offset(0, itemSize) == 0
  {
  }

  lemma {:induction false} PutNothing(r: Ring, slot: nat, item: seq<Byte>)
    requires QueueRings.Valid(r) && slot < r.length && item == [] && r.itemSize == 0
    ensures Put(r, slot, item) == r
  {
  }

  class Queue {
    const storage: array<Byte>
    const itemSize: nat
    const length: nat
    var writeTo: int          // pcWriteTo - pcHead
    var readFrom: int         // pcReadFrom - pcHead
    var messagesWaiting: nat
    var rxLock: int
    var txLock: int
    var waitingToSend: seq<Entry>
    var waitingToReceive: seq<Entry>

    ghost var writeSlot: nat
    ghost var readSlot: nat

    ghost function View(): Ring
      reads this, storage
    {
      Ring(storage[..], itemSize, length, writeSlot, readSlot, messagesWaiting)
    }

    ghost function Gate(): G.Gate
      reads this
    {
      G.Gate(messagesWaiting, length, itemSize, txLock, rxLock, waitingToReceive, waitingToSend)
    }

    ghost predicate Valid()
      reads this, storage
    {
      && QueueRings.Valid(View())
      && writeTo == Offset(writeSlot, itemSize) && readFrom == Offset(readSlot, itemSize)
    }

    ghost function Messages(): seq<seq<Byte>>
      reads this, storage
      requires Valid()
    {
      Contents(View())
    }

    /** Creation, by way of xQueueGenericReset on a new queue. */
    constructor (length: nat, itemSize: nat)
      requires 0 < length
      ensures Valid() && fresh(storage)
      ensures this.length == length && this.itemSize == itemSize
      ensures Messages() == []
      ensures Gate() == G.Gate(0, length, itemSize, G.UNLOCKED, G.UNLOCKED, [], [])
    {
      this.length, this.itemSize := length, itemSize;
      storage := new Byte[length * itemSize];
      messagesWaiting, writeTo, readFrom := 0, 0, (length - 1) * itemSize;
      writeSlot, readSlot := 0, length - 1;
      rxLock, txLock := G.UNLOCKED, G.UNLOCKED;
      waitingToSend, waitingToReceive := [], [];
    }

    /** memcpy of one item to a byte offset. */
    method CopyIn(at: int, item: seq<Byte>, ghost slot: nat)
      requires QueueRings.Valid(View()) && slot < length && at == Offset(slot, itemSize) && |item| == itemSize
      modifies storage
      ensures View() == Put(old(View()), slot, item)
    {
      SlotBounds(slot, length, itemSize);
      forall i | 0 <= i < |item| {
        storage[at + i] := item[i];
      }
      assert storage[..] == old(storage[..at]) + item + old(storage[at + |item|..]);
    }

    /** The slot after a given one, by offsets: past the tail comes the head. */
    method OffsetAfter(at: int, ghost slot: nat) returns (next: int)
      requires Valid() && slot < length && at == Offset(slot, itemSize)
      ensures next == Offset(After(slot, 1, length), itemSize)
    {
      hide Offset;
      NoOffset(slot, itemSize);
      NoOffset(After(slot, 1, length), itemSize);
      next := at + itemSize;
      if itemSize > 0 {
        NextOffset(slot, length, itemSize);
      }
      if next >= storage.Length {
        next := 0;
      }
    }

    /** The slot before a given one. */
    method OffsetBefore(at: int, ghost slot: nat) returns (previous: int)
      requires Valid() && slot < length && at == Offset(slot, itemSize) && itemSize > 0
      ensures previous == Offset(Before(slot, length), itemSize)
    {
      hide Offset;
      PreviousOffset(slot, length, itemSize);
      previous := at - itemSize;
      if previous < 0 {
        previous := storage.Length - itemSize;
      }
    }

    /** prvCopyDataToQueue, for a queue that is not a mutex. If a full queue of
        items without a size is overwritten, one message too many is counted. */
    method CopyDataToQueue(item: seq<Byte>, position: CopyPosition)
      requires Valid() && |item| == itemSize && Accepts(messagesWaiting, length, position)
      modifies this`writeTo, this`readFrom, this`messagesWaiting, this`writeSlot, this`readSlot, storage
      ensures messagesWaiting == CountAfter(old(messagesWaiting), itemSize, position)
      ensures old(Fits(View(), position)) ==> Valid() && View() == CopyTo(old(View()), item, position)
      ensures !old(Fits(View(), position)) ==> messagesWaiting == length + 1
    {
      hide Put, Offset;
      var messages := messagesWaiting;
      if itemSize == 0 {
        PutNothing(View(), writeSlot, item);
        NoOffset(writeSlot, itemSize);
        writeSlot := After(writeSlot, 1, length);
        NoOffset(writeSlot, itemSize);
      } else if position == Back {
        CopyIn(writeTo, item, writeSlot);
        writeTo := OffsetAfter(writeTo, writeSlot);
        writeSlot := After(writeSlot, 1, length);
      } else {
        CopyIn(readFrom, item, readSlot);
        readFrom := OffsetBefore(readFrom, readSlot);
        readSlot := Before(readSlot, length);
        if position == Overwrite {
          if messages > 0 {
            messages := messages - 1;
          }
        }
      }
      messagesWaiting := messages + 1;
    }

    /** prvCopyDataFromQueue: moves the read pointer on and copies what is there. */
    method CopyDataFromQueue() returns (item: seq<Byte>)
      requires Valid() && messagesWaiting > 0
      modifies this`readFrom, this`readSlot
      ensures readSlot == After(old(readSlot), 1, length) && readFrom == Offset(readSlot, itemSize)
      ensures item == old(Messages())[0]
    {
      hide Slot, Offset;
      TakeRefines(View());
      ghost var next := After(readSlot, 1, length);
      assert Messages()[0] == Slot(View(), next);
      if itemSize != 0 {
        readFrom := OffsetAfter(readFrom, readSlot);
        item := Fetch(readFrom, next);
      } else {
        NoOffset(readSlot, itemSize);
        NoOffset(next, itemSize);
        item := [];
      }
      readSlot := next;
    }

    /** memcpy of one item out of the storage area. */
    method Fetch(at: int, ghost slot: nat) returns (item: seq<Byte>)
      requires QueueRings.Valid(View()) && slot < length && at == Offset(slot, itemSize)
      ensures item == Slot(View(), slot)
    {
      SlotBounds(slot, length, itemSize);
      item := storage[at..at + itemSize];
    }

    /** xTaskRemoveFromEventList on the list of receivers, if it has any. */
    method ReadyReceiver() returns (woken: seq<nat>)
      modifies this`waitingToReceive
      ensures G.Moved(Gate(), woken) == G.WakeReceiver(old(Gate()))
    {
      woken := [];
      if waitingToReceive != [] {
        woken := [waitingToReceive[0].item];
        waitingToReceive := waitingToReceive[1..];
      }
    }

    method ReadySender() returns (woken: seq<nat>)
      modifies this`waitingToSend
      ensures G.Moved(Gate(), woken) == G.WakeSender(old(Gate()))
    {
      woken := [];
      if waitingToSend != [] {
        woken := [waitingToSend[0].item];
        waitingToSend := waitingToSend[1..];
      }
    }

    /** The critical section that opens the loop of xQueueGenericSend. */
    method Send(item: seq<Byte>, position: CopyPosition) returns (sent: bool, woken: seq<nat>)
      requires Valid() && |item| == itemSize && (position == Overwrite ==> length == 1)
      modifies this`writeTo, this`readFrom, this`messagesWaiting, this`writeSlot, this`readSlot, storage,
               this`waitingToReceive
      ensures sent == G.HasRoom(old(Gate()), position == Overwrite)
      ensures sent && !old(Fits(View(), position)) ==> messagesWaiting == length + 1
      ensures !sent || old(Fits(View(), position)) ==>
                Valid() && Messages() == if sent then Sent(old(Messages()), item, position) else old(Messages())
      ensures G.Moved(Gate(), woken)
              == if sent then G.TaskSend(old(Gate()), position == Overwrite) else G.Moved(old(Gate()), [])
    {
      hide CopyTo, Contents;
      sent, woken := false, [];
      if messagesWaiting < length || position == Overwrite {
        if Fits(View(), position) {
          CopyToRefines(View(), item, position);
        }
        CopyDataToQueue(item, position);
        woken := ReadyReceiver();
        sent := true;
      }
    }

    /** The critical section of xQueueGenericSendFromISR. */
    method SendFromIsr(item: seq<Byte>, position: CopyPosition) returns (sent: bool, woken: seq<nat>)
      requires Valid() && |item| == itemSize && (position == Overwrite ==> length == 1)
      modifies this`writeTo, this`readFrom, this`messagesWaiting, this`writeSlot, this`readSlot, storage,
               this`waitingToReceive, this`txLock
      ensures sent == G.HasRoom(old(Gate()), position == Overwrite)
      ensures sent && !old(Fits(View(), position)) ==> messagesWaiting == length + 1
      ensures !sent || old(Fits(View(), position)) ==>
                Valid() && Messages() == if sent then Sent(old(Messages()), item, position) else old(Messages())
      ensures G.Moved(Gate(), woken)
              == if sent then G.IsrSend(old(Gate()), position == Overwrite) else G.Moved(old(Gate()), [])
    {
      hide CopyTo, Contents;
      sent, woken := false, [];
      if messagesWaiting < length || position == Overwrite {
        if Fits(View(), position) {
          CopyToRefines(View(), item, position);
        }
        CopyDataToQueue(item, position);
        if txLock == G.UNLOCKED {
          woken := ReadyReceiver();
        } else {
          txLock := G.Int8(txLock + 1);
        }
        sent := true;
      }
    }

    /** The critical section that opens the loop of xQueueReceive. */
    method Receive() returns (received: bool, item: seq<Byte>, woken: seq<nat>)
      requires Valid()
      modifies this`readFrom, this`readSlot, this`messagesWaiting, this`waitingToSend
      ensures Valid() && received == (old(messagesWaiting) > 0)
      ensures received ==> [item] + Messages() == old(Messages())
      ensures received ==> G.Moved(Gate(), woken) == G.TaskReceive(old(Gate()))
      ensures !received ==> Messages() == old(Messages()) && Gate() == old(Gate()) && woken == []
    {
      hide Contents, Offset;
      received, item, woken := false, [], [];
      if messagesWaiting > 0 {
        TakeRefines(View());
        item := CopyDataFromQueue();
        messagesWaiting := messagesWaiting - 1;
        woken := ReadySender();
        received := true;
      }
    }

    /** The critical section of xQueueReceiveFromISR. */
    method ReceiveFromIsr() returns (received: bool, item: seq<Byte>, woken: seq<nat>)
      requires Valid()
      modifies this`readFrom, this`readSlot, this`messagesWaiting, this`waitingToSend, this`rxLock
      ensures Valid() && received == (old(messagesWaiting) > 0)
      ensures received ==> [item] + Messages() == old(Messages())
      ensures received ==> G.Moved(Gate(), woken) == G.IsrReceive(old(Gate()))
      ensures !received ==> Messages() == old(Messages()) && Gate() == old(Gate()) && woken == []
    {
      hide Contents, Offset;
      received, item, woken := false, [], [];
      if messagesWaiting > 0 {
        TakeRefines(View());
        item := CopyDataFromQueue();
        messagesWaiting := messagesWaiting - 1;
        if rxLock == G.UNLOCKED {
          woken := ReadySender();
        } else {
          rxLock := G.Int8(rxLock + 1);
        }
        received := true;
      }
    }

    /** The critical section that opens the loop of xQueuePeek: the message
        stays, and another receiver may have it. */
    method Peek() returns (seen: bool, item: seq<Byte>, woken: seq<nat>)
      requires Valid()
      modifies this`readFrom, this`readSlot, this`waitingToReceive
      ensures Valid() && seen == (old(messagesWaiting) > 0)
      ensures Messages() == old(Messages())
      ensures seen ==> item == old(Messages())[0] && G.Moved(Gate(), woken) == G.WakeReceiver(old(Gate()))
      ensures !seen ==> Gate() == old(Gate()) && woken == []
    {
      hide Contents, Offset;
      seen, item, woken := false, [], [];
      if messagesWaiting > 0 {
        var originalReadPosition := readFrom;
        ghost var originalReadSlot := readSlot;
        item := CopyDataFromQueue();
        readFrom, readSlot := originalReadPosition, originalReadSlot;
        woken := ReadyReceiver();
        seen := true;
      }
    }

    /** prvLockQueue. */
    method Lock()
      modifies this`rxLock, this`txLock
      ensures Gate() == G.Lock(old(Gate()))
    {
      if rxLock == G.UNLOCKED {
        rxLock := G.LOCKED_UNMODIFIED;
      }
      if txLock == G.UNLOCKED {
        txLock := G.LOCKED_UNMODIFIED;
      }
    }

    /** The first critical section of prvUnlockQueue: one receiver is readied
        for each post made meanwhile, until there are none left. */
    method UnlockTx() returns (woken: seq<nat>)
      modifies this`txLock, this`waitingToReceive
      ensures G.Moved(Gate(), woken) == G.UnlockTx(old(Gate()))
    {
      var count := txLock;
      woken := [];
      ghost var all := waitingToReceive;
      while count > G.LOCKED_UNMODIFIED && waitingToReceive != []
        invariant |woken| <= |all| && waitingToReceive == all[|woken|..]
        invariant woken == Items(all[..|woken|])
        invariant count == old(txLock) - |woken|
        invariant woken != [] ==> count >= 0
      {
        ItemsConcat(all[..|woken|], [waitingToReceive[0]]);
        assert all[..|woken| + 1] == all[..|woken|] + [waitingToReceive[0]];
        woken := woken + [waitingToReceive[0].item];
        waitingToReceive := waitingToReceive[1..];
        count := count - 1;
      }
      txLock := G.UNLOCKED;
    }

    /** The second critical section of prvUnlockQueue. */
    method UnlockRx() returns (woken: seq<nat>)
      modifies this`rxLock, this`waitingToSend
      ensures G.Moved(Gate(), woken) == G.UnlockRx(old(Gate()))
    {
      var count := rxLock;
      woken := [];
      ghost var all := waitingToSend;
      while count > G.LOCKED_UNMODIFIED && waitingToSend != []
        invariant |woken| <= |all| && waitingToSend == all[|woken|..]
        invariant woken == Items(all[..|woken|])
        invariant count == old(rxLock) - |woken|
        invariant woken != [] ==> count >= 0
      {
        ItemsConcat(all[..|woken|], [waitingToSend[0]]);
        assert all[..|woken| + 1] == all[..|woken|] + [waitingToSend[0]];
        woken := woken + [waitingToSend[0].item];
        waitingToSend := waitingToSend[1..];
        count := count - 1;
      }
      rxLock := G.UNLOCKED;
    }
  }
}
