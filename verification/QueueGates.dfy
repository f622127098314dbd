/** The counting and waking side of a queue: how many messages it holds, who
    waits on it, and the two lock counts that record what interrupts did while
    a task was examining the queue. */
module QueueGates {

  import opened SortedLists

  const UNLOCKED := -1
  const LOCKED_UNMODIFIED := 0

  /** Waiting tasks carry their event item value as key: the reversed priority. */
  datatype Gate = Gate(
    messages: nat,
    length: nat,
    itemSize: nat,
    txLock: int,
    rxLock: int,
    receivers: seq<Entry>,
    senders: seq<Entry>)

  /** A gate and the tasks readied on the way, in order. */
  datatype Moved = Moved(gate: Gate, woken: seq<nat>)

  /** Conversion to the int8_t in which the lock counts are kept. */
  function Int8(n: int): int
  {
    var r := n % 256;
    if r < 128 then r else r - 256
  }

  /** xTaskRemoveFromEventList, a number of times: always the head, which has
      the highest priority. */
  function ReadyReceivers(g: Gate, n: nat): Moved
    requires n <= |g.receivers|
  {
    Moved(g.(receivers := g.receivers[n..]), Items(g.receivers[..n]))
  }

  function ReadySenders(g: Gate, n: nat): Moved
    requires n <= |g.senders|
  {
    Moved(g.(senders := g.senders[n..]), Items(g.senders[..n]))
  }

  function WakeReceiver(g: Gate): Moved
  {
    ReadyReceivers(g, if g.receivers == [] then 0 else 1)
  }

  function WakeSender(g: Gate): Moved
  {
    ReadySenders(g, if g.senders == [] then 0 else 1)
  }

  predicate HasRoom(g: Gate, overwrite: bool)
  {
    g.messages < g.length || overwrite
  }

  /** The message count after prvCopyDataToQueue, which replaces a message only
      if messages have a size. */
  function Added(g: Gate, overwrite: bool): Gate
  {
    if overwrite && g.messages > 0 && g.itemSize > 0 then g else g.(messages := g.messages + 1)
  }

  /** Overwriting is for queues of length one. */
  predicate MayOverwrite(g: Gate)
  {
    g.length == 1
  }

  /** A queue holds no more messages than it has slots, except that overwriting
      a full one without a message size makes the count grow past its length. */
  predicate InBounds(g: Gate)
  {
    0 < g.length && (g.messages <= g.length || (g.length == 1 && g.itemSize == 0))
  }

  /** The successful branch of xQueueGenericSend. */
  function TaskSend(g: Gate, overwrite: bool): Moved
  {
    WakeReceiver(Added(g, overwrite))
  }

  /** The successful branch of xQueueGenericSendFromISR and xQueueGiveFromISR. */
  function IsrSend(g: Gate, overwrite: bool): Moved
  {
    if g.txLock == UNLOCKED then
      WakeReceiver(Added(g, overwrite))
    else
      Moved(Added(g, overwrite).(txLock := Int8(g.txLock + 1)), [])
  }

  /** The successful branch of xQueueReceive and xQueueSemaphoreTake. */
  function TaskReceive(g: Gate): Moved
    requires g.messages > 0
  {
    WakeSender(g.(messages := g.messages - 1))
  }

  function IsrReceive(g: Gate): Moved
    requires g.messages > 0
  {
    var g' := g.(messages := g.messages - 1);
    if g.rxLock == UNLOCKED then
      WakeSender(g')
    else
      Moved(g'.(rxLock := Int8(g.rxLock + 1)), [])
  }

  /** prvLockQueue. */
  function Lock(g: Gate): Gate
  {
    g.(rxLock := if g.rxLock == UNLOCKED then LOCKED_UNMODIFIED else g.rxLock,
       txLock := if g.txLock == UNLOCKED then LOCKED_UNMODIFIED else g.txLock)
  }

  function Min(a: int, b: int): int
  {
    if a < b then a else b
  }

  function Max(a: int, b: int): int
  {
    if a < b then b else a
  }

  /** How many waiting tasks an unlock readies: one for each counted operation,
      as long as there are any. */
  function Owed(lockCount: int, waiting: nat): (n: nat)
    ensures n <= waiting
  {
    Min(Max(lockCount, 0), waiting)
  }

  /** The first critical section of prvUnlockQueue, loop and all. */
  function UnlockTx(g: Gate): Moved
  {
    ReadyReceivers(g.(txLock := UNLOCKED), Owed(g.txLock, |g.receivers|))
  }

  /** The second one. */
  function UnlockRx(g: Gate): Moved
  {
    ReadySenders(g.(rxLock := UNLOCKED), Owed(g.rxLock, |g.senders|))
  }

  function PlaceReceiver(g: Gate, e: Entry): Gate
  {
    g.(receivers := Insert(g.receivers, e))
  }

  function PlaceSender(g: Gate, e: Entry): Gate
  {
    g.(senders := Insert(g.senders, e))
  }

  // ---------------------------------------------------------------------
  // The width of the lock count
  // ---------------------------------------------------------------------

  /** A number of interrupt posts into a locked queue. */
  function IsrSends(g: Gate, posts: nat): Gate
  {
    if posts == 0 then g else IsrSend(IsrSends(g, posts - 1), false).gate
  }

  lemma {:induction false} Int8Step(n: nat)
    ensures Int8(Int8(n) + 1) == Int8(n + 1)
  {
  }

  lemma {:induction false} IsrSendsIs(g: Gate, posts: nat)
    requires g.txLock == LOCKED_UNMODIFIED && posts < 256
    ensures IsrSends(g, posts) == g.(messages := g.messages + posts, txLock := Int8(posts))
  {
    if posts == 0 {
    } else {
      IsrSendsIs(g, posts - 1);
      assert Int8(posts - 1) != UNLOCKED;
      hide Int8;
      Int8Step(posts - 1);
    }
  }

  /** With 255 posts the count has come round to the value that means unlocked.
      From then on the queue is taken for unlocked in the middle of the window,
      and each post readies a receiver while a task is still at work on it. */
  lemma {:induction false} LockCountWraps(g: Gate, posts: nat)
    requires g.txLock == LOCKED_UNMODIFIED && posts >= 255
    ensures IsrSends(g, posts)
            == g.(messages := g.messages + posts, txLock := UNLOCKED,
                  receivers := g.receivers[Min(posts - 255, |g.receivers|)..])
  {
    if posts == 255 {
      IsrSendsIs(g, 255);
    } else {
      LockCountWraps(g, posts - 1);
      var before, n := IsrSends(g, posts - 1), Min(posts - 256, |g.receivers|);
      assert before.receivers == g.receivers[n..];
      assert n < |g.receivers| ==> g.receivers[n..][1..] == g.receivers[n + 1..];
    }
  }

  /** The unlock makes up for every post of the locked window exactly when the
      window saw at most 127 of them or nobody was waiting. */
  lemma {:induction false} LockCountExact(g: Gate, posts: nat)
    requires g.txLock == LOCKED_UNMODIFIED
    ensures |UnlockTx(IsrSends(g, posts)).woken| == Min(posts, |g.receivers|)
            <==> posts <= 127 || g.receivers == []
  {
    if posts < 256 {
      IsrSendsIs(g, posts);
    } else {
      LockCountWraps(g, posts);
    }
  }

  /** Posts into an unlocked queue. */
  lemma {:induction false} DirectSendsIs(g: Gate, posts: nat)
    requires g.txLock == UNLOCKED
    ensures IsrSends(g, posts)
            == g.(messages := g.messages + posts, receivers := g.receivers[Min(posts, |g.receivers|)..])
  {
    if posts > 0 {
      DirectSendsIs(g, posts - 1);
      var before, n := IsrSends(g, posts - 1), Min(posts - 1, |g.receivers|);
      assert before.receivers == g.receivers[n..];
      assert n < |g.receivers| ==> g.receivers[n..][1..] == g.receivers[n + 1..];
    }
  }

  /** How many receivers a number of posts into a locked queue and its unlock
      ready between them. */
  function ReadiedByWindow(posts: nat, waiting: nat): nat
  {
    if posts < 255 then Owed(Int8(posts), waiting) else Min(posts - 255, waiting)
  }

  lemma {:induction false} WindowIs(g: Gate, posts: nat)
    requires g.txLock == UNLOCKED && g.rxLock == UNLOCKED
    ensures ReadiedByWindow(posts, |g.receivers|) <= |g.receivers|
    ensures UnlockTx(IsrSends(Lock(g), posts)).gate
            == g.(messages := g.messages + posts, rxLock := LOCKED_UNMODIFIED,
                  receivers := g.receivers[ReadiedByWindow(posts, |g.receivers|)..])
  {
    if posts < 255 {
      IsrSendsIs(Lock(g), posts);
    } else {
      LockCountWraps(Lock(g), posts);
      hide Int8, IsrSends;
      var r := g.receivers[Min(posts - 255, |g.receivers|)..];
      assert r[0..] == r;
    }
  }

  lemma {:induction false} SuffixesDiffer(s: seq<Entry>, m: nat, n: nat)
    requires m <= |s| && n <= |s|
    ensures s[m..] == s[n..] <==> m == n
  {
    assert |s[m..]| == |s| - m && |s[n..]| == |s| - n;
  }

  /** Locking, posting and unlocking ends like posting without any lock exactly
      if the count did not overflow, nobody was waiting, or the posts went on
      after the count had come round until nobody was left. */
  lemma {:induction false} LockIsTransparent(g: Gate, posts: nat)
    requires g.txLock == UNLOCKED && g.rxLock == UNLOCKED
    ensures UnlockRx(UnlockTx(IsrSends(Lock(g), posts)).gate).gate == IsrSends(g, posts)
            <==> posts <= 127 || g.receivers == [] || posts >= 255 + |g.receivers|
    ensures UnlockRx(UnlockTx(IsrSends(Lock(g), posts)).gate).woken == []
  {
    WindowIs(g, posts);
    DirectSendsIs(g, posts);
    SuffixesDiffer(g.receivers, ReadiedByWindow(posts, |g.receivers|), Min(posts, |g.receivers|));
    hide IsrSends, UnlockTx, Lock;
    assert g.senders[0..] == g.senders;
  }
}
