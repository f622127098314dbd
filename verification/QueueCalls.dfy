/** One task in a queue call with nobody interfering, and what all the calls and
    interrupts of a run do to the number of messages. */
module QueueCalls {

  import opened SortedLists
  import opened QueueGates
  import opened QueueProtocol

  /** There is nothing to receive, or no room to send. */
  predicate NothingThere(g: Gate, op: Op)
  {
    if op.Send? then g.messages == g.length else g.messages == 0
  }

  /** A call that finds the queue willing ends at its loop top, with a message
      more or less, or as many if it peeks; one that does not leaves the queue
      alone, and ends too if it may not block. */
  lemma {:induction false} TopMeans(s: State, t: nat, mayBlock: bool)
    requires Inv(s) && Enabled(s, Top(t, mayBlock))
    ensures var op, g, s' := s.at[t].op, s.gate, Next(s, Top(t, mayBlock));
            && s'.locker == s.locker && s'.at == s.at[t := s'.at[t]]
            && (if (op.Send? && (op.overwrite || g.messages < g.length)) || (!op.Send? && g.messages > 0) then
                  && s'.at[t] == Outside
                  && s'.gate.messages
                     == g.messages + match op
                                     case Receive => -1
                                     case Peek => 0
                                     case Send(overwrite) =>
                                       if overwrite && g.itemSize > 0 && g.messages > 0 then 0 else 1
                else
                  && s'.at[t] == (if mayBlock then Trying(op) else Outside)
                  && s'.gate == g)
  {
    hide Inv, ToSet, Items, Waits;
  }

  lemma {:induction false} FiveSteps(s: State, a: Step, b: Step, c: Step, d: Step, e: Step)
    requires Enabled(s, a)
    requires var s1 := Next(s, a); Enabled(s1, b)
    requires var s2 := Next(Next(s, a), b); Enabled(s2, c)
    requires var s3 := Next(Next(Next(s, a), b), c); Enabled(s3, d)
    requires var s4 := Next(Next(Next(Next(s, a), b), c), d); Enabled(s4, e)
    ensures Possible(s, [a, b, c, d, e])
    ensures After(s, [a, b, c, d, e]) == Next(Next(Next(Next(Next(s, a), b), c), d), e)
  {
    hide Enabled, Next;
    FourSteps(Next(s, a), b, c, d, e);
    assert [a, b, c, d, e][1..] == [b, c, d, e];
  }

  lemma {:induction false} FourSteps(s: State, a: Step, b: Step, c: Step, d: Step)
    requires Enabled(s, a)
    requires var s1 := Next(s, a); Enabled(s1, b)
    requires var s2 := Next(Next(s, a), b); Enabled(s2, c)
    requires var s3 := Next(Next(Next(s, a), b), c); Enabled(s3, d)
    ensures Possible(s, [a, b, c, d])
    ensures After(s, [a, b, c, d]) == Next(Next(Next(Next(s, a), b), c), d)
  {
    hide Enabled, Next;
    ThreeSteps(Next(s, a), b, c, d);
    assert [a, b, c, d][1..] == [b, c, d];
  }

  lemma {:induction false} ThreeSteps(s: State, a: Step, b: Step, c: Step)
    requires Enabled(s, a)
    requires var s1 := Next(s, a); Enabled(s1, b)
    requires var s2 := Next(Next(s, a), b); Enabled(s2, c)
    ensures Possible(s, [a, b, c])
    ensures After(s, [a, b, c]) == Next(Next(Next(s, a), b), c)
  {
    hide Enabled, Next;
    TwoSteps(Next(s, a), b, c);
    assert [a, b, c][1..] == [b, c];
  }

  lemma {:induction false} TwoSteps(s: State, a: Step, b: Step)
    requires Enabled(s, a)
    requires var s1 := Next(s, a); Enabled(s1, b)
    ensures Possible(s, [a, b]) && After(s, [a, b]) == Next(Next(s, a), b)
  {
    hide Enabled, Next;
    OneStep(Next(s, a), b);
    assert [a, b][1..] == [b];
  }

  lemma {:induction false} OneStep(s: State, a: Step)
    requires Enabled(s, a)
    ensures Possible(s, [a]) && After(s, [a]) == Next(s, a)
  {
    hide Enabled, Next;
    assert [a][1..] == [];
  }

  /** Unlocking a queue that nobody has touched since it was locked. */
  lemma {:induction false} UnlockUntouched(g: Gate)
    requires g.txLock == LOCKED_UNMODIFIED && g.rxLock == LOCKED_UNMODIFIED
    ensures UnlockTx(g) == Moved(g.(txLock := UNLOCKED), [])
    ensures UnlockRx(UnlockTx(g).gate) == Moved(g.(txLock := UNLOCKED, rxLock := UNLOCKED), [])
  {
    assert g.receivers[0..] == g.receivers && g.senders[0..] == g.senders;
  }

  lemma {:induction false} NobodyJoins(woken: set<nat>)
    ensures woken + ToSet([]) == woken
  {
  }

  lemma {:induction false} Releases(s: State, t: nat)
    requires Enabled(s, ReleaseTx(t)) && s.gate.txLock == LOCKED_UNMODIFIED && s.gate.rxLock == LOCKED_UNMODIFIED
    ensures var s1, op, next := Next(s, ReleaseTx(t)), s.at[t].op, s.at[t].next;
            && Enabled(s1, ReleaseRx(t))
            && Next(s1, ReleaseRx(t))
               == s.(gate := s.gate.(txLock := UNLOCKED, rxLock := UNLOCKED), locker := Nobody,
                     at := s.at[t := if next != GiveUp then AtTop(op) else if op.Send? then Outside else TimedOut(op)])
  {
    UnlockUntouched(s.gate);
    NobodyJoins(s.wokenReceivers);
    NobodyJoins(s.wokenSenders);
    hide UnlockTx, UnlockRx, ToSet;
    var s1 := Next(s, ReleaseTx(t));
    assert s1.at[t].next == s.at[t].next && s1.at[t].op == s.at[t].op;
    assert s1.at[t := AtTop(s.at[t].op)] == s.at[t := AtTop(s.at[t].op)];
  }

  lemma {:induction false} LockedFresh(s: State)
    requires Inv(s) && s.locker == Nobody
    ensures Lock(s.gate) == s.gate.(txLock := LOCKED_UNMODIFIED, rxLock := LOCKED_UNMODIFIED)
    ensures s.gate.(txLock := UNLOCKED, rxLock := UNLOCKED) == s.gate
  {
  }

  lemma {:induction false} JoinsLocked(s: State, t: nat, value: int)
    requires Inv(s) && MayRun(s, t) && s.at[t].Trying? && NothingThere(s.gate, s.at[t].op)
    ensures var op, s1 := s.at[t].op, Next(s, LockIt(t, false));
            && Enabled(s1, Look(t)) && Enabled(Next(s1, Look(t)), Join(t, value))
            && Next(Next(s1, Look(t)), Join(t, value))
               == s.(gate := (if op.Send? then PlaceSender(s.gate, Entry(t, value))
                              else PlaceReceiver(s.gate, Entry(t, value)))
                             .(txLock := LOCKED_UNMODIFIED, rxLock := LOCKED_UNMODIFIED),
                     locker := Task(t), at := s.at[t := UnlockingTx(op, Sleep)])
  {
    LockedFresh(s);
    hide Inv, Waits, Insert, Lock;
    var op := s.at[t].op;
    var s1 := Next(s, LockIt(t, false));
    assert s1.at == s.at[t := Checking(op)];
    var s2 := Next(s1, Look(t));
    assert s2.at == s.at[t := Placing(op)];
    assert s2.at[t := UnlockingTx(op, Sleep)] == s.at[t := UnlockingTx(op, Sleep)];
  }

  /** A task that has found the queue empty (full) and finds it so again once it
      has locked it goes to wait: it joins the list of those who wait to receive
      (send), behind those of its priority, and changes nothing else. */
  lemma {:induction false} WaitsAlone(s: State, t: nat, value: int)
    requires Inv(s) && MayRun(s, t) && s.at[t].Trying? && NothingThere(s.gate, s.at[t].op)
    ensures var op, run := s.at[t].op, [LockIt(t, false), Look(t), Join(t, value), ReleaseTx(t), ReleaseRx(t)];
            && Possible(s, run)
            && After(s, run)
               == s.(gate := if op.Send? then PlaceSender(s.gate, Entry(t, value))
                             else PlaceReceiver(s.gate, Entry(t, value)),
                     at := s.at[t := AtTop(op)])
  {
    LockedFresh(s);
    JoinsLocked(s, t, value);
    var op := s.at[t].op;
    var s3 := Next(Next(Next(s, LockIt(t, false)), Look(t)), Join(t, value));
    Unlocked(s);
    hide Inv, Waits, Insert, Lock, Next, Possible, After;
    Releases(s3, t);
    FiveSteps(s, LockIt(t, false), Look(t), Join(t, value), ReleaseTx(t), ReleaseRx(t));
    assert s3.at[t := AtTop(op)] == s.at[t := AtTop(op)];
  }

  /** If it finds something there now, it unlocks the queue and goes back to its
      loop top. */
  lemma {:induction false} RetriesAlone(s: State, t: nat)
    requires Inv(s) && MayRun(s, t) && s.at[t].Trying? && !NothingThere(s.gate, s.at[t].op)
    ensures var run := [LockIt(t, false), Look(t), ReleaseTx(t), ReleaseRx(t)];
            Possible(s, run) && After(s, run) == s.(at := s.at[t := AtTop(s.at[t].op)])
  {
    LockedFresh(s);
    hide Inv, Waits, Lock, WithReceivers, WithSenders;
    var op := s.at[t].op;
    var s1 := Next(s, LockIt(t, false));
    var s2 := Next(s1, Look(t));
    Releases(s2, t);
    FourSteps(s, LockIt(t, false), Look(t), ReleaseTx(t), ReleaseRx(t));
    assert s2.at[t := AtTop(op)] == s.at[t := AtTop(op)];
  }

  lemma {:induction false} GivesUpLocked(s: State, t: nat)
    requires Inv(s) && MayRun(s, t) && s.at[t].Trying?
    ensures var op, s1 := s.at[t].op, Next(s, LockIt(t, true));
            && Enabled(s1, ReleaseTx(t)) && Enabled(Next(s1, ReleaseTx(t)), ReleaseRx(t))
            && Next(Next(s1, ReleaseTx(t)), ReleaseRx(t))
               == s.(at := s.at[t := if op.Send? then Outside else TimedOut(op)])
  {
    LockedFresh(s);
    Unlocked(s);
    hide Inv, Waits, Lock, UnlockTx, UnlockRx;
    var s1 := Next(s, LockIt(t, true));
    Releases(s1, t);
    hide WithReceivers, WithSenders;
    var after := if s.at[t].op.Send? then Outside else TimedOut(s.at[t].op);
    assert s1.at[t := after] == s.at[t := after];
  }

  /** If its block time is over, a sender ends its call; a receiver looks a last
      time, and ends its call if there is nothing. */
  lemma {:induction false} GivesUpAlone(s: State, t: nat)
    requires Inv(s) && MayRun(s, t) && s.at[t].Trying?
    ensures var op, run := s.at[t].op, [LockIt(t, true), ReleaseTx(t), ReleaseRx(t)];
            && Possible(s, run)
            && After(s, run) == s.(at := s.at[t := if op.Send? then Outside else TimedOut(op)])
    ensures !s.at[t].op.Send? ==>
              var op, run := s.at[t].op, [LockIt(t, true), ReleaseTx(t), ReleaseRx(t), LastLook(t)];
              && Possible(s, run)
              && After(s, run) == s.(at := s.at[t := if s.gate.messages == 0 then Outside else AtTop(op)])
  {
    GivesUpLocked(s, t);
    ThreeSteps(s, LockIt(t, true), ReleaseTx(t), ReleaseRx(t));
    if !s.at[t].op.Send? {
      var op := s.at[t].op;
      var s3 := s.(at := s.at[t := TimedOut(op)]);
      LooksLast(s3, t);
      hide Next, Waits, Inv;
      FourSteps(s, LockIt(t, true), ReleaseTx(t), ReleaseRx(t), LastLook(t));
      var last := if s.gate.messages == 0 then Outside else AtTop(op);
      assert s3.at[t := last] == s.at[t := last];
    }
  }

  lemma {:induction false} LooksLast(s: State, t: nat)
    requires MayRun(s, t) && s.at[t].TimedOut?
    ensures Next(s, LastLook(t))
            == s.(at := s.at[t := if s.gate.messages == 0 then Outside else AtTop(s.at[t].op)])
  {
  }

  // ---------------------------------------------------------------------
  // Counting messages
  // ---------------------------------------------------------------------

  /** What one completed send, receive, post or fetch adds. */
  function Adds(s: State, step: Step): int
    requires Enabled(s, step)
  {
    var g := s.gate;
    match step
    case Top(t, _) =>
      (match s.at[t].op
       case Receive => if g.messages > 0 then -1 else 0
       case Peek => 0
       case Send(overwrite) =>
         if overwrite then (if g.itemSize > 0 && g.messages > 0 then 0 else 1)
         else if g.messages < g.length then 1 else 0)
    case PostFromIsr(overwrite) => if overwrite && g.itemSize > 0 && g.messages > 0 then 0 else 1
    case FetchFromIsr => -1
    case _ => 0
  }

  function Added(s: State, run: seq<Step>): int
    requires Possible(s, run)
    decreases |run|
  {
    if run == [] then 0 else Adds(s, run[0]) + Added(Next(s, run[0]), run[1..])
  }

  lemma {:induction false} StepAdds(s: State, step: Step)
    requires Enabled(s, step)
    ensures Next(s, step).gate.messages == s.gate.messages + Adds(s, step)
    ensures Next(s, step).gate.length == s.gate.length && Next(s, step).gate.itemSize == s.gate.itemSize
  {
    hide Waits, Items, ToSet, Insert, Without;
  }

  /** Messages are conserved: in every run there are as many at the end as at the
      start and have been sent and posted since, less those received. */
  lemma {:induction false} MessagesAreConserved(s: State, run: seq<Step>)
    requires Possible(s, run)
    ensures After(s, run).gate.messages == s.gate.messages + Added(s, run)
    decreases |run|
  {
    hide Enabled, Next, Adds;
    if run == [] {
    } else {
      StepAdds(s, run[0]);
      MessagesAreConserved(Next(s, run[0]), run[1..]);
    }
  }

  /** A task whose block time ends while it waits leaves the list, without having
      been woken, and its call goes on at the loop top. */
  lemma {:induction false} ExpireMeans(s: State, t: nat)
    requires Inv(s) && Enabled(s, Expire(t))
    ensures var s' := Next(s, Expire(t));
            && !Waits(s'.gate.receivers, t) && !Waits(s'.gate.senders, t)
            && s'.wokenReceivers == s.wokenReceivers && s'.wokenSenders == s.wokenSenders && s'.at == s.at
            && t in s.at && s.at[t].AtTop?
            && forall u :: u != t ==>
                 (Waits(s'.gate.receivers, u) <==> Waits(s.gate.receivers, u))
                 && (Waits(s'.gate.senders, u) <==> Waits(s.gate.senders, u))
  {
    AsleepAtTop(s, t);
    hide Inv, Waits, Without;
    forall u ensures Waits(Without(s.gate.receivers, t), u) <==> Waits(s.gate.receivers, u) && u != t {
      WithoutWaits(s.gate.receivers, t, u);
    }
    forall u ensures Waits(Without(s.gate.senders, t), u) <==> Waits(s.gate.senders, u) && u != t {
      WithoutWaits(s.gate.senders, t, u);
    }
  }

  lemma {:induction false} WaitsTail(first: Entry, rest: seq<Entry>, u: nat)
    ensures Waits([first] + rest, u) <==> first.item == u || Waits(rest, u)
  {
    var all := [first] + rest;
    assert all[0] == first;
    assert forall i :: 0 <= i < |rest| ==> all[i + 1] == rest[i];
    assert forall i :: 0 < i < |all| ==> rest[i - 1] == all[i];
  }

  lemma {:induction false} WithoutWaits(list: seq<Entry>, t: nat, u: nat)
    ensures Waits(Without(list, t), u) <==> Waits(list, u) && u != t
  {
    if list != [] {
      var rest := Without(list[1..], t);
      WithoutWaits(list[1..], t, u);
      WaitsTail(list[0], list[1..], u);
      WaitsTail(list[0], rest, u);
      assert [list[0]] + list[1..] == list;
      assert [] + rest == rest;
      assert Without(list, t) == if list[0].item == t then rest else [list[0]] + rest;
      hide Waits, Without;
    }
  }

  lemma {:induction false} AsleepAtTop(s: State, t: nat)
    requires Inv(s) && Enabled(s, Expire(t))
    ensures t in s.at && s.at[t].AtTop?
  {
    var list := if Waits(s.gate.receivers, t) then s.gate.receivers else s.gate.senders;
    var i :| 0 <= i < |list| && list[i].item == t;
  }
}
