/** Blocking sends and receives on one queue, with interrupts let in between
    any two critical sections: nobody sleeps through a wake-up. */
module QueueProtocol {

  import opened SortedLists
  import opened QueueGates

  datatype Op = Receive | Peek | Send(overwrite: bool)

  /** What a task does once it has unlocked the queue and resumed the scheduler. */
  datatype Then = Sleep | Again | GiveUp

  /** Where a task is inside a queue call. */
  datatype Place =
    | Outside
    | AtTop(op: Op)                        // before the critical section that opens the loop
    | Trying(op: Op)                       // found it empty (full), about to lock
    | Checking(op: Op)                     // queue locked, about to look again
    | Placing(op: Op)                      // still empty (full), about to join the waiting list
    | UnlockingTx(op: Op, next: Then)
    | UnlockingRx(op: Op, next: Then)
    | TimedOut(op: Op)                     // timed out and unlocked, about to look a last time

  datatype Owner = Nobody | Task(id: nat)

  /** The queue, the tasks using it, who holds it locked (with the scheduler
      suspended), and the tasks taken off a waiting list by an event that have
      not been back at their loop top yet. */
  datatype State = State(
    gate: Gate,
    at: map<nat, Place>,
    locker: Owner,
    wokenReceivers: set<nat>,
    wokenSenders: set<nat>)

  datatype Step =
    | Call(task: nat, op: Op)
    | Top(task: nat, mayBlock: bool)
    | LockIt(task: nat, timedOut: bool)
    | Look(task: nat)
    | Join(task: nat, eventValue: int)
    | ReleaseTx(task: nat)
    | ReleaseRx(task: nat)
    | LastLook(task: nat)
    | PostFromIsr(overwrite: bool)
    | FetchFromIsr
    | Expire(task: nat)

  predicate Waits(s: seq<Entry>, task: nat)
  {
    exists i :: 0 <= i < |s| && s[i].item == task
  }

  /** A task other than the locker runs only while nobody has the scheduler
      suspended and only if it is not on a waiting list. */
  predicate MayRun(s: State, task: nat)
  {
    && task in s.at
    && s.locker == Nobody
    && !Waits(s.gate.receivers, task) && !Waits(s.gate.senders, task)
  }

  predicate Owns(s: State, task: nat)
  {
    task in s.at && s.locker == Task(task)
  }

  predicate Enabled(s: State, step: Step)
  {
    match step
    case Call(t, op) =>
      MayRun(s, t) && s.at[t] == Outside && (op.Send? && op.overwrite ==> MayOverwrite(s.gate))
    case Top(t, _) => MayRun(s, t) && s.at[t].AtTop?
    case LockIt(t, _) => MayRun(s, t) && s.at[t].Trying?
    case Look(t) => Owns(s, t) && s.at[t].Checking?
    case Join(t, _) => Owns(s, t) && s.at[t].Placing?
    case ReleaseTx(t) => Owns(s, t) && s.at[t].UnlockingTx?
    case ReleaseRx(t) => Owns(s, t) && s.at[t].UnlockingRx?
    case LastLook(t) => MayRun(s, t) && s.at[t].TimedOut?
    case PostFromIsr(overwrite) =>
      // At most 127 operations on a locked queue: the lock counts are int8_t.
      HasRoom(s.gate, overwrite) && s.gate.txLock < 127 && (overwrite ==> MayOverwrite(s.gate))
    case FetchFromIsr => s.gate.messages > 0 && s.gate.rxLock < 127
    case Expire(t) =>
      s.locker == Nobody && (Waits(s.gate.receivers, t) || Waits(s.gate.senders, t))
  }

  function ToSet(s: seq<nat>): set<nat>
  {
    set x | x in s
  }

  /** A gate move that readies receivers. */
  function WithReceivers(s: State, m: Moved): State
  {
    s.(gate := m.gate, wokenReceivers := s.wokenReceivers + ToSet(m.woken))
  }

  function WithSenders(s: State, m: Moved): State
  {
    s.(gate := m.gate, wokenSenders := s.wokenSenders + ToSet(m.woken))
  }

  function Forget(s: State, t: nat): State
  {
    s.(wokenReceivers := s.wokenReceivers - {t}, wokenSenders := s.wokenSenders - {t})
  }

  /** The critical section at the loop top. */
  function AtLoopTop(s: State, t: nat, op: Op, mayBlock: bool): State
  {
    var s := Forget(s, t);
    var blocked := s.(at := s.at[t := if mayBlock then Trying(op) else Outside]);
    var done := s.(at := s.at[t := Outside]);
    match op
    case Receive => if s.gate.messages > 0 then WithSenders(done, TaskReceive(s.gate)) else blocked
    case Peek => if s.gate.messages > 0 then WithReceivers(done, WakeReceiver(s.gate)) else blocked
    case Send(overwrite) =>
      if HasRoom(s.gate, overwrite) then WithReceivers(done, TaskSend(s.gate, overwrite)) else blocked
  }

  function Next(s: State, step: Step): State
    requires Enabled(s, step)
  {
    match step
    case Call(t, op) => s.(at := s.at[t := AtTop(op)])
    case Top(t, mayBlock) => AtLoopTop(s, t, s.at[t].op, mayBlock)
    case LockIt(t, timedOut) =>
      var op := s.at[t].op;
      s.(gate := Lock(s.gate), locker := Task(t),
         at := s.at[t := if timedOut then UnlockingTx(op, GiveUp) else Checking(op)])
    case Look(t) =>
      var op := s.at[t].op;
      var blocked := if op.Send? then s.gate.messages == s.gate.length else s.gate.messages == 0;
      s.(at := s.at[t := if blocked then Placing(op) else UnlockingTx(op, Again)])
    case Join(t, eventValue) =>
      var op := s.at[t].op;
      var e := Entry(t, eventValue);
      s.(gate := if op.Send? then PlaceSender(s.gate, e) else PlaceReceiver(s.gate, e),
         at := s.at[t := UnlockingTx(op, Sleep)])
    case ReleaseTx(t) =>
      WithReceivers(s, UnlockTx(s.gate)).(at := s.at[t := UnlockingRx(s.at[t].op, s.at[t].next)])
    case ReleaseRx(t) =>
      var op := s.at[t].op;
      var next := match s.at[t].next
                  case Sleep => AtTop(op)
                  case Again => AtTop(op)
                  case GiveUp => if op.Send? then Outside else TimedOut(op);
      WithSenders(s, UnlockRx(s.gate)).(locker := Nobody, at := s.at[t := next])
    case LastLook(t) =>
      s.(at := s.at[t := if s.gate.messages == 0 then Outside else AtTop(s.at[t].op)])
    case PostFromIsr(overwrite) => WithReceivers(s, IsrSend(s.gate, overwrite))
    case FetchFromIsr => WithSenders(s, IsrReceive(s.gate))
    case Expire(t) =>
      s.(gate := s.gate.(receivers := Without(s.gate.receivers, t), senders := Without(s.gate.senders, t)))
  }

  // ---------------------------------------------------------------------
  // The invariant
  // ---------------------------------------------------------------------

  /** Nobody is on a list twice. */
  ghost predicate Distinct(s: seq<Entry>)
  {
    forall i, j :: 0 <= i < j < |s| ==> s[i].item != s[j].item
  }

  /** A task that is on a waiting list or has been taken off it by an event is
      past the point where it joined and has not been at its loop top since. */
  predicate Asleep(at: map<nat, Place>, t: nat, sending: bool)
  {
    t in at && AsleepPlace(at[t], sending)
  }

  predicate AsleepPlace(p: Place, sending: bool)
  {
    && (p.AtTop? || ((p.UnlockingTx? || p.UnlockingRx?) && p.next == Sleep))
    && (if sending then p.op == Send(false) else !p.op.Send?)
  }

  /** One waiting list, with the tasks events took off it. */
  ghost predicate SideFormed(list: seq<Entry>, woken: set<nat>, at: map<nat, Place>, sending: bool)
  {
    && Distinct(list) && Sorted(list)
    && (forall i :: 0 <= i < |list| ==> Asleep(at, list[i].item, sending) && list[i].item !in woken)
    && (forall t :: t in woken ==> Asleep(at, t, sending))
  }

  ghost predicate ListsFormed(s: State)
  {
    && SideFormed(s.gate.receivers, s.wokenReceivers, s.at, false)
    && SideFormed(s.gate.senders, s.wokenSenders, s.at, true)
  }

  predicate HoldsLock(p: Place)
  {
    p.Checking? || p.Placing? || p.UnlockingTx? || p.UnlockingRx?
  }

  /** An overwriting send is made to queues of length one only, is let in at
      once and never waits. */
  predicate Plausible(p: Place, g: Gate)
  {
    p.Outside? || p.op != Send(true) || (p.AtTop? && MayOverwrite(g))
  }

  ghost predicate LocksFormed(s: State)
  {
    && (forall t :: t in s.at ==> Plausible(s.at[t], s.gate))
    && InBounds(s.gate)
    && UNLOCKED <= s.gate.txLock && UNLOCKED <= s.gate.rxLock
    && (forall t :: t in s.at && HoldsLock(s.at[t]) ==> s.locker == Task(t))
    && (s.locker.Task? ==> s.locker.id in s.at && HoldsLock(s.at[s.locker.id]))
    && (s.locker == Nobody ==> s.gate.txLock == UNLOCKED && s.gate.rxLock == UNLOCKED)
    && (s.locker.Task? ==>
          && s.gate.rxLock >= LOCKED_UNMODIFIED
          && (s.gate.txLock == UNLOCKED <==> s.at[s.locker.id].UnlockingRx?))
  }

  /** While someone waits, everything there is to have is matched by a task on
      its way or by an operation the unlock will act on. */
  ghost predicate Matched(list: seq<Entry>, available: int, woken: set<nat>, lockCount: int)
  {
    list != [] ==> available <= |woken| + Max(lockCount, 0)
  }

  ghost predicate NoneLost(s: State)
  {
    && Matched(s.gate.receivers, s.gate.messages, s.wokenReceivers, s.gate.txLock)
    && Matched(s.gate.senders, s.gate.length - s.gate.messages, s.wokenSenders, s.gate.rxLock)
    && (s.locker.Task? && s.locker.id in s.at && s.at[s.locker.id].Placing? ==>
          if s.at[s.locker.id].op.Send?
          then s.gate.length - s.gate.messages <= Max(s.gate.rxLock, 0)
          else s.gate.messages <= Max(s.gate.txLock, 0))
  }

  ghost predicate Inv(s: State)
  {
    LocksFormed(s) && ListsFormed(s) && NoneLost(s)
  }

  ghost predicate Init(s: State)
  {
    && s.gate.messages <= s.gate.length && 0 < s.gate.length
    && s.gate.txLock == UNLOCKED && s.gate.rxLock == UNLOCKED
    && s.gate.receivers == [] && s.gate.senders == []
    && (forall t :: t in s.at ==> s.at[t] == Outside)
    && s.locker == Nobody && s.wokenReceivers == {} && s.wokenSenders == {}
  }

  // ---------------------------------------------------------------------
  // One waiting list
  // ---------------------------------------------------------------------

  lemma {:induction false} TakenMembers(list: seq<Entry>, n: nat)
    requires n <= |list|
    ensures forall t :: t in ToSet(Items(list[..n])) <==> exists i :: 0 <= i < n && list[i].item == t
  {
    var items := Items(list[..n]);
    assert forall i :: 0 <= i < n ==> items[i] == list[i].item;
    hide Items;
  }

  lemma {:induction false} ToSetOfTaken(list: seq<Entry>, n: nat, woken: set<nat>)
    requires n <= |list| && Distinct(list)
    requires forall i :: 0 <= i < |list| ==> list[i].item !in woken
    ensures |woken + ToSet(Items(list[..n]))| == |woken| + n
  {
    hide ToSet, Items;
    TakenMembers(list, n);
    if n == 0 {
      assert woken + ToSet(Items(list[..0])) == woken;
    } else {
      ToSetOfTaken(list, n - 1, woken);
      TakenMembers(list, n - 1);
      var last := list[n - 1].item;
      var before := ToSet(Items(list[..n - 1]));
      assert last !in woken + before;
      TakenGrows(list, n);
      assert woken + (before + {last}) == (woken + before) + {last};
    }
  }

  lemma {:induction false} TakenGrows(list: seq<Entry>, n: nat)
    requires 0 < n <= |list|
    ensures ToSet(Items(list[..n])) == ToSet(Items(list[..n - 1])) + {list[n - 1].item}
  {
    hide Items, ToSet;
    TakenMembers(list, n - 1);
    TakenMembers(list, n);
  }

  lemma {:induction false} SuffixOrder(list: seq<Entry>, n: nat)
    requires Distinct(list) && Sorted(list) && n <= |list|
    ensures Distinct(list[n..]) && Sorted(list[n..])
  {
  }

  lemma {:induction false} SidePop(list: seq<Entry>, woken: set<nat>, at: map<nat, Place>, sending: bool, n: nat)
    requires SideFormed(list, woken, at, sending) && n <= |list|
    ensures var woken' := woken + ToSet(Items(list[..n]));
            SideFormed(list[n..], woken', at, sending) && |woken'| == |woken| + n
  {
    hide ToSet, Items, Asleep, Sorted;
    ToSetOfTaken(list, n, woken);
    TakenMembers(list, n);
    SuffixOrder(list, n);
    var rest, woken' := list[n..], woken + ToSet(Items(list[..n]));
    forall i | 0 <= i < |rest| ensures Asleep(at, rest[i].item, sending) && rest[i].item !in woken' {
      assert rest[i] == list[n + i];
    }
  }

  /** A task moves on inside its call. */
  lemma {:induction false} SideMove(list: seq<Entry>, woken: set<nat>, at: map<nat, Place>, sending: bool,
                                    t: nat, p: Place)
    requires SideFormed(list, woken, at, sending)
    requires t in at && (AsleepPlace(at[t], sending) ==>
                           AsleepPlace(p, sending) || (!Waits(list, t) && t !in woken))
    ensures SideFormed(list, woken, at[t := p], sending)
  {
    hide AsleepPlace, Sorted;
    forall i | 0 <= i < |list| ensures Asleep(at[t := p], list[i].item, sending) {
      assert Asleep(at, list[i].item, sending);
    }
    forall x | x in woken ensures Asleep(at[t := p], x, sending) {
      assert Asleep(at, x, sending);
    }
  }

  lemma {:induction false} SideForget(list: seq<Entry>, woken: set<nat>, at: map<nat, Place>, sending: bool, t: nat)
    requires SideFormed(list, woken, at, sending)
    ensures SideFormed(list, woken - {t}, at, sending)
    ensures |woken - {t}| == |woken| - if t in woken then 1 else 0
  {
    hide Asleep, Sorted;
    if t !in woken {
      assert woken - {t} == woken;
    }
  }

  lemma {:induction false} SideJoin(list: seq<Entry>, woken: set<nat>, at: map<nat, Place>, sending: bool,
                                    e: Entry, p: Place)
    requires SideFormed(list, woken, at, sending)
    requires e.item in at && !AsleepPlace(at[e.item], sending) && AsleepPlace(p, sending)
    ensures SideFormed(Insert(list, e), woken, at[e.item := p], sending)
  {
    hide AsleepPlace;
    SideMove(list, woken, at, sending, e.item, p);
    InsertElements(list, e);
    var at' := at[e.item := p];
    var q := Position(list, e.key);
    var list' := Insert(list, e);
    assert Sorted(list');
    hide Sorted, Insert, Position;
    assert forall i :: 0 <= i < |list| ==> list[i].item != e.item;
    forall i | 0 <= i < |list'|
      ensures Asleep(at', list'[i].item, sending) && list'[i].item !in woken
      ensures i != q ==> exists k :: 0 <= k < |list| && k == (if i < q then i else i - 1) && list'[i] == list[k]
    {
      if i < q {
        assert list'[i] == list[i];
      } else if i > q {
        assert list'[i] == list[i - 1];
      }
    }
  }

  lemma {:induction false} SideExpire(list: seq<Entry>, woken: set<nat>, at: map<nat, Place>, sending: bool, t: nat)
    requires SideFormed(list, woken, at, sending)
    ensures SideFormed(Without(list, t), woken, at, sending)
    ensures Without(list, t) != [] ==> list != []
  {
    WithoutKeeps(list, t);
    WithoutDistinct(list, t);
    var list' := Without(list, t);
    hide Asleep, Sorted, Without, Distinct;
    forall i | 0 <= i < |list'|
      ensures Asleep(at, list'[i].item, sending) && list'[i].item !in woken
    {
      assert list'[i] in list;
    }
  }

  lemma {:induction false} WithoutDistinct(list: seq<Entry>, t: nat)
    requires Distinct(list)
    ensures Distinct(Without(list, t))
  {
    if list == [] {
    } else {
      WithoutDistinct(list[1..], t);
      WithoutKeeps(list[1..], t);
      var rest := Without(list[1..], t);
      forall i | 0 <= i < |rest| ensures rest[i].item != list[0].item {
        assert rest[i] in list[1..];
      }
    }
  }

  // ---------------------------------------------------------------------
  // Every step keeps the invariant
  // ---------------------------------------------------------------------

  /** Readying receivers moves them from the list to the tasks on their way. */
  lemma {:induction false} ReadyReceiversKeeps(s: State, g: Gate, n: nat)
    requires ListsFormed(s) && g.receivers == s.gate.receivers && g.senders == s.gate.senders
    requires n <= |g.receivers|
    ensures var s' := WithReceivers(s, ReadyReceivers(g, n));
            ListsFormed(s') && |s'.wokenReceivers| == |s.wokenReceivers| + n
  {
    hide SideFormed, Items, ToSet;
    SidePop(g.receivers, s.wokenReceivers, s.at, false, n);
  }

  lemma {:induction false} ReadySendersKeeps(s: State, g: Gate, n: nat)
    requires ListsFormed(s) && g.receivers == s.gate.receivers && g.senders == s.gate.senders
    requires n <= |g.senders|
    ensures var s' := WithSenders(s, ReadySenders(g, n));
            ListsFormed(s') && |s'.wokenSenders| == |s.wokenSenders| + n
  {
    hide SideFormed, Items, ToSet;
    SidePop(g.senders, s.wokenSenders, s.at, true, n);
  }

  /** A task that is on neither list and not on its way goes somewhere else. */
  lemma {:induction false} MoveKeeps(s: State, t: nat, p: Place)
    requires ListsFormed(s) && t in s.at
    requires AsleepPlace(s.at[t], false) ==>
               AsleepPlace(p, false) || (!Waits(s.gate.receivers, t) && t !in s.wokenReceivers)
    requires AsleepPlace(s.at[t], true) ==>
               AsleepPlace(p, true) || (!Waits(s.gate.senders, t) && t !in s.wokenSenders)
    ensures ListsFormed(s.(at := s.at[t := p]))
  {
    hide SideFormed, AsleepPlace, Waits;
    SideMove(s.gate.receivers, s.wokenReceivers, s.at, false, t, p);
    SideMove(s.gate.senders, s.wokenSenders, s.at, true, t, p);
  }

  lemma {:induction false} CallKeeps(s: State, t: nat, op: Op)
    requires Inv(s) && Enabled(s, Call(t, op))
    ensures Inv(Next(s, Call(t, op)))
  {
    hide SideFormed, Waits;
    MoveKeeps(s, t, AtTop(op));
  }

  /** A running task at its loop top is no longer on its way, and may go on. */
  lemma {:induction false} ForgetKeeps(s: State, t: nat, p: Place)
    requires ListsFormed(s) && t in s.at
    requires !Waits(s.gate.receivers, t) && !Waits(s.gate.senders, t)
    ensures ListsFormed(Forget(s, t).(at := s.at[t := p]))
    ensures |Forget(s, t).wokenReceivers| == |s.wokenReceivers| - if t in s.wokenReceivers then 1 else 0
    ensures |Forget(s, t).wokenSenders| == |s.wokenSenders| - if t in s.wokenSenders then 1 else 0
  {
    hide SideFormed, Waits, AsleepPlace;
    SideForget(s.gate.receivers, s.wokenReceivers, s.at, false, t);
    SideForget(s.gate.senders, s.wokenSenders, s.at, true, t);
    MoveKeeps(Forget(s, t), t, p);
  }

  /** What a running task may rely on: the queue is unlocked. */
  lemma {:induction false} Unlocked(s: State)
    requires LocksFormed(s) && s.locker == Nobody
    ensures s.gate.txLock == UNLOCKED && s.gate.rxLock == UNLOCKED
    ensures InBounds(s.gate)
  {
  }

  lemma {:induction false} TopLocks(s: State, t: nat, mayBlock: bool)
    requires LocksFormed(s) && Enabled(s, Top(t, mayBlock))
    ensures LocksFormed(Next(s, Top(t, mayBlock)))
  {
    hide Waits, ToSet, Items;
    assert Plausible(s.at[t], s.gate);
  }

  lemma {:induction false} TopBlocks(s: State, t: nat, mayBlock: bool)
    requires Inv(s) && Enabled(s, Top(t, mayBlock))
    requires if s.at[t].op.Send? then !HasRoom(s.gate, s.at[t].op.overwrite) else s.gate.messages == 0
    ensures Inv(Next(s, Top(t, mayBlock)))
  {
    hide SideFormed, Waits, ToSet, Items, AsleepPlace, LocksFormed;
    TopLocks(s, t, mayBlock);
    Unlocked(s);
    ForgetKeeps(s, t, if mayBlock then Trying(s.at[t].op) else Outside);
    SideOf(s, t);
  }

  lemma {:induction false} TopReceives(s: State, t: nat, mayBlock: bool)
    requires Inv(s) && Enabled(s, Top(t, mayBlock))
    requires s.at[t].op == Receive && s.gate.messages > 0
    ensures Inv(Next(s, Top(t, mayBlock)))
  {
    hide SideFormed, Waits, ToSet, Items, AsleepPlace, LocksFormed;
    TopLocks(s, t, mayBlock);
    Unlocked(s);
    ForgetKeeps(s, t, Outside);
    SideOf(s, t);
    var g := s.gate;
    ReadySendersKeeps(Forget(s, t).(at := s.at[t := Outside]), g.(messages := g.messages - 1),
                      if g.senders == [] then 0 else 1);
  }

  lemma {:induction false} TopPeeks(s: State, t: nat, mayBlock: bool)
    requires Inv(s) && Enabled(s, Top(t, mayBlock))
    requires s.at[t].op == Peek && s.gate.messages > 0
    ensures Inv(Next(s, Top(t, mayBlock)))
  {
    hide SideFormed, Waits, ToSet, Items, AsleepPlace, LocksFormed;
    TopLocks(s, t, mayBlock);
    Unlocked(s);
    ForgetKeeps(s, t, Outside);
    SideOf(s, t);
    var g := s.gate;
    ReadyReceiversKeeps(Forget(s, t).(at := s.at[t := Outside]), g, if g.receivers == [] then 0 else 1);
  }

  lemma {:induction false} TopSends(s: State, t: nat, mayBlock: bool)
    requires Inv(s) && Enabled(s, Top(t, mayBlock))
    requires s.at[t].op.Send? && HasRoom(s.gate, s.at[t].op.overwrite)
    ensures Inv(Next(s, Top(t, mayBlock)))
  {
    hide SideFormed, Waits, ToSet, Items, AsleepPlace, LocksFormed;
    TopLocks(s, t, mayBlock);
    Unlocked(s);
    ForgetKeeps(s, t, Outside);
    SideOf(s, t);
    var g := s.gate;
    ReadyReceiversKeeps(Forget(s, t).(at := s.at[t := Outside]), Added(g, s.at[t].op.overwrite),
                        if g.receivers == [] then 0 else 1);
  }

  lemma {:induction false} TopKeeps(s: State, t: nat, mayBlock: bool)
    requires Inv(s) && Enabled(s, Top(t, mayBlock))
    ensures Inv(Next(s, Top(t, mayBlock)))
  {
    hide SideFormed, Next, Waits;
    var op := s.at[t].op;
    if op.Send? && HasRoom(s.gate, op.overwrite) {
      TopSends(s, t, mayBlock);
    } else if op == Peek && s.gate.messages > 0 {
      TopPeeks(s, t, mayBlock);
    } else if op == Receive && s.gate.messages > 0 {
      TopReceives(s, t, mayBlock);
    } else {
      TopBlocks(s, t, mayBlock);
    }
  }

  /** A task woken as a receiver is receiving, one woken as a sender sending. */
  lemma {:induction false} SideOf(s: State, t: nat)
    requires ListsFormed(s) && t in s.at && s.at[t].AtTop?
    ensures t in s.wokenReceivers ==> !s.at[t].op.Send?
    ensures t in s.wokenSenders ==> s.at[t].op == Send(false)
  {
  }

  lemma {:induction false} LockItKeeps(s: State, t: nat, timedOut: bool)
    requires Inv(s) && Enabled(s, LockIt(t, timedOut))
    ensures Inv(Next(s, LockIt(t, timedOut)))
  {
    hide SideFormed, Waits;
    var op := s.at[t].op;
    MoveKeeps(s, t, if timedOut then UnlockingTx(op, GiveUp) else Checking(op));
  }

  lemma {:induction false} LookKeeps(s: State, t: nat)
    requires Inv(s) && Enabled(s, Look(t))
    ensures Inv(Next(s, Look(t)))
  {
    hide SideFormed, Waits;
    var op := s.at[t].op;
    MoveKeeps(s, t, Placing(op));
    MoveKeeps(s, t, UnlockingTx(op, Again));
  }

  lemma {:induction false} JoinKeeps(s: State, t: nat, eventValue: int)
    requires Inv(s) && Enabled(s, Join(t, eventValue))
    ensures Inv(Next(s, Join(t, eventValue)))
  {
    hide SideFormed, Waits, Insert;
    var op := s.at[t].op;
    var e, p := Entry(t, eventValue), UnlockingTx(op, Sleep);
    if op.Send? {
      SideJoin(s.gate.senders, s.wokenSenders, s.at, true, e, p);
      SideMove(s.gate.receivers, s.wokenReceivers, s.at, false, t, p);
    } else {
      SideJoin(s.gate.receivers, s.wokenReceivers, s.at, false, e, p);
      SideMove(s.gate.senders, s.wokenSenders, s.at, true, t, p);
    }
  }

  lemma {:induction false} ReleaseTxKeeps(s: State, t: nat)
    requires Inv(s) && Enabled(s, ReleaseTx(t))
    ensures Inv(Next(s, ReleaseTx(t)))
  {
    hide SideFormed, Waits, Items, ToSet;
    var g := s.gate;
    ReadyReceiversKeeps(s, g.(txLock := UNLOCKED), Owed(g.txLock, |g.receivers|));
    MoveKeeps(WithReceivers(s, UnlockTx(g)), t, UnlockingRx(s.at[t].op, s.at[t].next));
  }

  lemma {:induction false} ReleaseRxKeeps(s: State, t: nat)
    requires Inv(s) && Enabled(s, ReleaseRx(t))
    ensures Inv(Next(s, ReleaseRx(t)))
  {
    hide SideFormed, Waits, Items, ToSet;
    var g := s.gate;
    ReadySendersKeeps(s, g.(rxLock := UNLOCKED), Owed(g.rxLock, |g.senders|));
    var next := Next(s, ReleaseRx(t)).at[t];
    MoveKeeps(WithSenders(s, UnlockRx(g)), t, next);
  }

  lemma {:induction false} LastLookKeeps(s: State, t: nat)
    requires Inv(s) && Enabled(s, LastLook(t))
    ensures Inv(Next(s, LastLook(t)))
  {
    hide SideFormed, Waits;
    MoveKeeps(s, t, Outside);
    MoveKeeps(s, t, AtTop(s.at[t].op));
  }

  lemma {:induction false} PostLocks(s: State, overwrite: bool)
    requires LocksFormed(s) && Enabled(s, PostFromIsr(overwrite))
    ensures LocksFormed(Next(s, PostFromIsr(overwrite)))
  {
    hide Waits, ToSet, Items;
  }

  lemma {:induction false} PostKeeps(s: State, overwrite: bool)
    requires Inv(s) && Enabled(s, PostFromIsr(overwrite))
    ensures Inv(Next(s, PostFromIsr(overwrite)))
  {
    hide SideFormed, Items, ToSet, Plausible, HoldsLock;
    PostLocks(s, overwrite);
    var g := s.gate;
    if g.txLock == UNLOCKED {
      hide LocksFormed;
      ReadyReceiversKeeps(s, Added(g, overwrite), if g.receivers == [] then 0 else 1);
    } else {
      assert s.wokenReceivers + ToSet([]) == s.wokenReceivers by { NobodyWoken(); }
    }
  }

  lemma {:induction false} NobodyWoken()
    ensures ToSet([]) == {}
  {
  }

  lemma {:induction false} FetchLocks(s: State)
    requires LocksFormed(s) && Enabled(s, FetchFromIsr)
    ensures LocksFormed(Next(s, FetchFromIsr))
  {
    hide Waits, ToSet, Items;
  }

  lemma {:induction false} FetchKeeps(s: State)
    requires Inv(s) && Enabled(s, FetchFromIsr)
    ensures Inv(Next(s, FetchFromIsr))
  {
    hide SideFormed, Items, ToSet, Plausible, HoldsLock;
    FetchLocks(s);
    var g := s.gate;
    if g.rxLock == UNLOCKED {
      hide LocksFormed;
      ReadySendersKeeps(s, g.(messages := g.messages - 1), if g.senders == [] then 0 else 1);
    } else {
      assert s.wokenSenders + ToSet([]) == s.wokenSenders by { NobodyWoken(); }
    }
  }

  lemma {:induction false} ExpireKeeps(s: State, t: nat)
    requires Inv(s) && Enabled(s, Expire(t))
    ensures Inv(Next(s, Expire(t)))
  {
    hide SideFormed, Waits, Without;
    SideExpire(s.gate.receivers, s.wokenReceivers, s.at, false, t);
    SideExpire(s.gate.senders, s.wokenSenders, s.at, true, t);
  }

  lemma {:induction false} StepKeeps(s: State, step: Step)
    requires Inv(s) && Enabled(s, step)
    ensures Inv(Next(s, step))
  {
    hide Inv, Enabled, Next;
    match step
    case Call(t, op) => CallKeeps(s, t, op);
    case Top(t, mayBlock) => TopKeeps(s, t, mayBlock);
    case LockIt(t, timedOut) => LockItKeeps(s, t, timedOut);
    case Look(t) => LookKeeps(s, t);
    case Join(t, eventValue) => JoinKeeps(s, t, eventValue);
    case ReleaseTx(t) => ReleaseTxKeeps(s, t);
    case ReleaseRx(t) => ReleaseRxKeeps(s, t);
    case LastLook(t) => LastLookKeeps(s, t);
    case PostFromIsr(overwrite) => PostKeeps(s, overwrite);
    case FetchFromIsr => FetchKeeps(s);
    case Expire(t) => ExpireKeeps(s, t);
  }

  // ---------------------------------------------------------------------
  // Runs
  // ---------------------------------------------------------------------

  ghost predicate Possible(s: State, run: seq<Step>)
    decreases |run|
  {
    run == [] || (Enabled(s, run[0]) && Possible(Next(s, run[0]), run[1..]))
  }

  function After(s: State, run: seq<Step>): State
    requires Possible(s, run)
    decreases |run|
  {
    if run == [] then s else After(Next(s, run[0]), run[1..])
  }

  lemma {:induction false} RunKeeps(s: State, run: seq<Step>)
    requires Inv(s) && Possible(s, run)
    ensures Inv(After(s, run))
    decreases |run|
  {
    hide Inv, Enabled, Next;
    if run == [] {
    } else {
      StepKeeps(s, run[0]);
      RunKeeps(Next(s, run[0]), run[1..]);
    }
  }

  lemma {:induction false} InitInv(s: State)
    requires Init(s)
    ensures Inv(s)
  {
  }

  /** No wake-up is lost: in any interleaving of tasks and interrupts, a task
      waiting to receive means that at most as many messages are queued as
      there are receivers on their way and posts the unlock will act on; the
      same for senders and free slots. So once the queue is unlocked and nobody
      is on its way, a receiver waits only at an empty queue and a sender only
      at a full one. */
  lemma {:induction false} NoLostWakeUp(s: State, run: seq<Step>)
    requires Init(s) && Possible(s, run)
    ensures var e := After(s, run);
            && (e.gate.receivers != [] ==>
                  e.gate.messages <= |e.wokenReceivers| + Max(e.gate.txLock, 0))
            && (e.gate.senders != [] ==>
                  e.gate.length - e.gate.messages <= |e.wokenSenders| + Max(e.gate.rxLock, 0))
    ensures var e := After(s, run);
            e.locker == Nobody && e.wokenReceivers == {} && e.gate.receivers != [] ==>
              e.gate.messages == 0
    ensures var e := After(s, run);
            e.locker == Nobody && e.wokenSenders == {} && e.gate.senders != [] ==>
              e.gate.messages == e.gate.length
              || (e.gate.messages > e.gate.length == 1 && e.gate.itemSize == 0)
  {
    InitInv(s);
    RunKeeps(s, run);
  }

  // ---------------------------------------------------------------------
  // Who is readied
  // ---------------------------------------------------------------------

  /** A front part of a list has been readied and the rest left in order; nobody
      readied has a lower priority than anybody left. */
  ghost predicate FrontReadied(list: seq<Entry>, left: seq<Entry>, woken: set<nat>)
  {
    && |left| <= |list|
    && var n := |list| - |left|;
       && left == list[n..]
       && (forall i :: 0 <= i < |list| ==> (list[i].item in woken <==> i < n))
       && (forall i, j :: 0 <= i < n <= j < |list| ==> list[i].key <= list[j].key)
  }

  lemma {:induction false} TakenAreWoken(list: seq<Entry>, n: nat, woken: set<nat>)
    requires n <= |list|
    ensures forall i :: 0 <= i < n ==> list[i].item in woken + ToSet(Items(list[..n]))
  {
    hide Items, ToSet;
    TakenMembers(list, n);
  }

  /** How many receivers a step readies. */
  function ReceiversReadied(s: State, step: Step): nat
    requires Enabled(s, step)
  {
    var first := if s.gate.receivers == [] then 0 else 1;
    match step
    case Top(t, _) =>
      (match s.at[t].op
       case Peek => if s.gate.messages > 0 then first else 0
       case Send(overwrite) => if HasRoom(s.gate, overwrite) then first else 0
       case Receive => 0)
    case ReleaseTx(_) => Owed(s.gate.txLock, |s.gate.receivers|)
    case PostFromIsr(_) => if s.gate.txLock == UNLOCKED then first else 0
    case _ => 0
  }

  function SendersReadied(s: State, step: Step): nat
    requires Enabled(s, step)
  {
    var first := if s.gate.senders == [] then 0 else 1;
    match step
    case Top(t, _) => if s.at[t].op == Receive && s.gate.messages > 0 then first else 0
    case ReleaseRx(_) => Owed(s.gate.rxLock, |s.gate.senders|)
    case FetchFromIsr => if s.gate.rxLock == UNLOCKED then first else 0
    case _ => 0
  }

  lemma {:induction false} ReceiversMove(s: State, step: Step)
    requires Enabled(s, step) && !step.Join? && !step.Expire?
    ensures var s', n := Next(s, step), ReceiversReadied(s, step);
            && n <= |s.gate.receivers| && s'.gate.receivers == s.gate.receivers[n..]
            && forall i :: 0 <= i < n ==> s.gate.receivers[i].item in s'.wokenReceivers
  {
    hide Items, ToSet, Waits;
    var n := ReceiversReadied(s, step);
    TakenAreWoken(s.gate.receivers, n, s.wokenReceivers);
    if step.Top? {
      TakenAreWoken(s.gate.receivers, n, s.wokenReceivers - {step.task});
    }
  }

  lemma {:induction false} SendersMove(s: State, step: Step)
    requires Enabled(s, step) && !step.Join? && !step.Expire?
    ensures var s', n := Next(s, step), SendersReadied(s, step);
            && n <= |s.gate.senders| && s'.gate.senders == s.gate.senders[n..]
            && forall i :: 0 <= i < n ==> s.gate.senders[i].item in s'.wokenSenders
  {
    hide Items, ToSet, Waits;
    var n := SendersReadied(s, step);
    TakenAreWoken(s.gate.senders, n, s.wokenSenders);
    if step.Top? {
      TakenAreWoken(s.gate.senders, n, s.wokenSenders - {step.task});
    }
  }

  lemma {:induction false} MovedFront(list: seq<Entry>, left: seq<Entry>, n: nat, woken: set<nat>,
                                      at: map<nat, Place>, sending: bool)
    requires n <= |list| && left == list[n..] && Sorted(list) && SideFormed(left, woken, at, sending)
    requires forall i :: 0 <= i < n ==> list[i].item in woken
    ensures FrontReadied(list, left, woken)
  {
    hide Asleep;
    forall i | n <= i < |list| ensures list[i].item !in woken {
      assert list[i] == left[i - n];
    }
  }

  /** In every run, what an event or an unlock readies is the front part of the
      list, which has the highest priorities and among equals waited longest;
      the others stay in order. A task that joins and one whose block time is
      over ready nobody. */
  lemma {:induction false} HighestPriorityFirst(s: State, run: seq<Step>, step: Step)
    requires Init(s) && Possible(s, run) && Enabled(After(s, run), step)
    ensures var e := After(s, run);
            var e' := Next(e, step);
            if step.Join? || step.Expire? then
              e'.wokenReceivers == e.wokenReceivers && e'.wokenSenders == e.wokenSenders
            else
              && FrontReadied(e.gate.receivers, e'.gate.receivers, e'.wokenReceivers)
              && FrontReadied(e.gate.senders, e'.gate.senders, e'.wokenSenders)
  {
    hide Init, Possible, After, SideFormed, FrontReadied, LocksFormed, NoneLost;
    InitInv(s);
    RunKeeps(s, run);
    var e := After(s, run);
    var e' := Next(e, step);
    if !step.Join? && !step.Expire? {
      StepKeeps(e, step);
      ReceiversMove(e, step);
      SendersMove(e, step);
      assert Sorted(e.gate.receivers) && Sorted(e.gate.senders) by { SidesSorted(e); }
      hide Next, Enabled;
      MovedFront(e.gate.receivers, e'.gate.receivers, ReceiversReadied(e, step), e'.wokenReceivers, e'.at, false);
      MovedFront(e.gate.senders, e'.gate.senders, SendersReadied(e, step), e'.wokenSenders, e'.at, true);
    }
  }

  lemma {:induction false} SidesSorted(s: State)
    requires ListsFormed(s)
    ensures Sorted(s.gate.receivers) && Sorted(s.gate.senders)
  {
  }
}
