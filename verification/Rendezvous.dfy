/** A rendezvous: tasks with disjoint bits that each keep calling
    xEventGroupSync, setting their own and waiting for all of them, without a
    time-out and with the event group to themselves. */
module Rendezvous {

  import opened EventGroups

  /** Where a task is in its current call. `Through` found all bits set, and
      `Woken` was unblocked by the task that did; neither has returned yet. */
  datatype Phase = Idle | Waiting | Through(bits: Bits) | Woken(value: Bits)

  datatype Member = Member(phase: Phase, called: nat, returned: nat)

  datatype State = State(group: Group, members: seq<Member>)

  datatype Step = Call(task: nat) | Return(task: nat)

  function Union(masks: seq<Bits>): Bits
  {
    if masks == [] then 0 else Or(masks[0], Union(masks[1..]))
  }

  predicate Covers(bits: Bits, mask: Bits)
  {
    bits & mask == mask
  }

  /** Each task has bits of its own and no two share one. */
  ghost predicate Planned(masks: seq<Bits>)
  {
    && (forall i :: 0 <= i < |masks| ==> masks[i] != 0 && IsUserBits(masks[i]))
    && (forall i, j :: 0 <= i < j < |masks| ==> !Meets(masks[i], masks[j]))
  }

  /** The tasks an event group call readied find their new item value. */
  function Wake(members: seq<Member>, readied: seq<Waiter>): (r: seq<Member>)
    ensures |r| == |members|
    decreases |readied|
  {
    if readied == [] then
      members
    else if readied[0].task < |members| then
      var t := readied[0].task;
      Wake(members[t := members[t].(phase := Woken(readied[0].value))], readied[1..])
    else
      Wake(members, readied[1..])
  }

  predicate Enabled(s: State, step: Step)
  {
    && step.task < |s.members|
    && match step
       case Call(t) => s.members[t].phase == Idle
       case Return(t) => s.members[t].phase.Through? || s.members[t].phase.Woken?
  }

  function Next(s: State, masks: seq<Bits>, step: Step): State
    requires Enabled(s, step) && |masks| == |s.members|
  {
    match step
    case Call(t) =>
      var (o, answer) := Sync(s.group, t, masks[t], Union(masks), true);
      var members := Wake(s.members, o.readied);
      var phase := match answer case Returns(bits) => Through(bits) case Blocks => Waiting;
      State(o.group, members[t := Member(phase, s.members[t].called + 1, s.members[t].returned)])
    case Return(t) =>
      var m := s.members[t];
      var group := match m.phase
                   case Woken(value) => Resume(s.group, value, Union(masks), true, true).0
                   case _ => s.group;
      State(group, s.members[t := Member(Idle, m.called, m.returned + 1)])
  }

  /** What a returning call returns. */
  function Returned(s: State, masks: seq<Bits>, t: nat): Bits
    requires Enabled(s, Return(t))
  {
    match s.members[t].phase
    case Woken(value) => Resume(s.group, value, Union(masks), true, true).1
    case Through(bits) => bits
  }

  // ---------------------------------------------------------------------
  // The invariant
  // ---------------------------------------------------------------------

  /** All of the bits arrived together. */
  predicate Complete(phase: Phase, all: Bits)
  {
    match phase
    case Through(bits) => Covers(bits, all)
    case Woken(value) => Meets(value, UNBLOCKED_DUE_TO_BIT_SET) && Covers(Wanted(value), all)
    case _ => true
  }

  /** A member in a state where so many rounds are over. */
  predicate Paced(m: Member, rounds: nat)
  {
    match m.phase
    case Idle => m.called == rounds && m.returned == rounds
    case Waiting => m.called == rounds + 1 && m.returned == rounds
    case _ => m.called == rounds && m.returned + 1 == rounds
  }

  predicate Names(waiters: seq<Waiter>, t: nat)
  {
    exists i :: 0 <= i < |waiters| && waiters[i].task == t
  }

  ghost predicate Listed(waiters: seq<Waiter>, members: seq<Member>, all: Bits)
  {
    && (forall i :: 0 <= i < |waiters| ==> waiters[i].value == Packed(all, true, true))
    && (forall i :: 0 <= i < |waiters| ==>
          waiters[i].task < |members| && members[waiters[i].task].phase == Waiting)
    && (forall t :: 0 <= t < |members| && members[t].phase == Waiting ==> Names(waiters, t))
  }

  /** The bits of the tasks that wait are set, no others are. */
  ghost predicate BitsMatch(bits: Bits, members: seq<Member>, masks: seq<Bits>)
    requires |members| == |masks|
  {
    && Covers(Union(masks), bits)
    && forall t :: 0 <= t < |members| ==>
         if members[t].phase == Waiting then Covers(bits, masks[t]) else !Meets(bits, masks[t])
  }

  ghost predicate Inv(s: State, masks: seq<Bits>, rounds: nat)
  {
    && |s.members| == |masks| && Planned(masks)
    && Listed(s.group.waiters, s.members, Union(masks))
    && BitsMatch(s.group.bits, s.members, masks)
    && forall t :: 0 <= t < |s.members| ==>
         Paced(s.members[t], rounds) && Complete(s.members[t].phase, Union(masks))
  }

  // ---------------------------------------------------------------------
  // Bits
  // ---------------------------------------------------------------------

  lemma {:induction false} OrCoversMore(a: Bits, b: Bits, mask: Bits)
    ensures Covers(a, mask) ==> Covers(Or(a, b), mask)
    ensures Covers(Or(a, b), b)
  {
  }

  lemma {:induction false} CoversParts(bits: Bits, a: Bits, b: Bits)
    requires Covers(bits, Or(a, b))
    ensures Covers(bits, a)
  {
  }

  lemma {:induction false} CoversWhole(bits: Bits, a: Bits, b: Bits)
    requires Covers(bits, a) && Covers(bits, b)
    ensures Covers(bits, Or(a, b))
  {
  }

  lemma {:induction false} OrSymmetric(a: Bits, b: Bits)
    ensures Or(a, b) == Or(b, a)
  {
  }

  lemma {:induction false} CoversBoth(bits: Bits, a: Bits, b: Bits)
    ensures Covers(bits, Or(a, b)) <==> Covers(bits, a) && Covers(bits, b)
  {
    hide Covers, Or;
    if Covers(bits, Or(a, b)) {
      CoversParts(bits, a, b);
      OrSymmetric(a, b);
      CoversParts(bits, b, a);
    } else if Covers(bits, a) && Covers(bits, b) {
      CoversWhole(bits, a, b);
    }
  }

  /** A mask covered by both parts but meeting one of them not at all. */
  lemma {:induction false} CoveredByOther(bits: Bits, own: Bits, mask: Bits)
    requires Covers(Or(bits, own), mask) && !Meets(own, mask) && mask != 0
    ensures Meets(bits, mask)
  {
  }

  lemma {:induction false} MeetsOr(bits: Bits, own: Bits, mask: Bits)
    ensures !Meets(own, mask) ==> (Meets(Or(bits, own), mask) <==> Meets(bits, mask))
  {
    hide Meets, Or;
    OrMeets(bits, own, mask);
  }

  lemma {:induction false} MeetsSymmetric(a: Bits, b: Bits)
    ensures Meets(a, b) == Meets(b, a)
  {
  }

  lemma {:induction false} UnionCovers(masks: seq<Bits>, bits: Bits)
    ensures Covers(bits, Union(masks)) <==> forall i :: 0 <= i < |masks| ==> Covers(bits, masks[i])
  {
    if masks == [] {
      CoversNothing(bits);
    } else {
      hide Covers, Or;
      UnionCovers(masks[1..], bits);
      CoversBoth(bits, masks[0], Union(masks[1..]));
      assert forall i :: 0 <= i < |masks| - 1 ==> masks[1..][i] == masks[i + 1];
      assert forall i :: 1 <= i < |masks| ==> masks[i] == masks[1..][i - 1];
    }
  }

  lemma {:induction false} CoversNothing(bits: Bits)
    ensures Covers(bits, 0)
  {
  }

  lemma {:induction false} MinusAll(bits: Bits, gone: Bits, all: Bits, mask: Bits)
    requires Covers(all, bits)
    ensures Minus(Minus(bits, gone), all) == 0
  {
  }

  lemma {:induction false} MinusNothing(bits: Bits)
    ensures Minus(bits, 0) == bits
  {
  }

  lemma {:induction false} UnionIsUser(masks: seq<Bits>)
    requires forall i :: 0 <= i < |masks| ==> IsUserBits(masks[i])
    ensures IsUserBits(Union(masks))
  {
    if masks == [] {
    } else {
      UnionIsUser(masks[1..]);
      OrIsUser(masks[0], Union(masks[1..]));
      hide IsUserBits, Or;
    }
  }

  lemma {:induction false} OrIsUser(a: Bits, b: Bits)
    requires IsUserBits(a) && IsUserBits(b)
    ensures IsUserBits(Or(a, b))
  {
  }

  lemma {:induction false} CoveredIsUser(all: Bits, bits: Bits)
    requires Covers(all, bits) && IsUserBits(all)
    ensures IsUserBits(bits)
  {
  }

  lemma {:induction false} ConditionCovers(bits: Bits, all: Bits)
    ensures TestWaitCondition(bits, all, true) == Covers(bits, all)
  {
  }

  // ---------------------------------------------------------------------
  // A call that completes the round, and one that does not
  // ---------------------------------------------------------------------

  function AllStamped(waiters: seq<Waiter>, value: Bits): (r: seq<Waiter>)
    ensures |r| == |waiters|
    ensures forall i :: 0 <= i < |r| ==> r[i] == Waiter(waiters[i].task, value)
  {
    seq(|waiters|, i requires 0 <= i < |waiters| => Waiter(waiters[i].task, value))
  }

  lemma {:induction false} EverybodyUnblocked(waiters: seq<Waiter>, bits: Bits)
    requires forall i :: 0 <= i < |waiters| ==> Satisfied(waiters[i].value, bits)
    ensures Remaining(waiters, bits) == []
    ensures Unblocked(waiters, bits) == AllStamped(waiters, Stamped(bits))
  {
    hide Satisfied, Stamped;
    if waiters == [] {
    } else {
      EverybodyUnblocked(waiters[1..], bits);
    }
  }

  lemma {:induction false} NobodyUnblocked(waiters: seq<Waiter>, bits: Bits)
    requires forall i :: 0 <= i < |waiters| ==> !Satisfied(waiters[i].value, bits)
    ensures Remaining(waiters, bits) == waiters && Unblocked(waiters, bits) == [] && ToClear(waiters, bits) == 0
  {
    hide Satisfied, Or;
    if waiters == [] {
    } else {
      NobodyUnblocked(waiters[1..], bits);
      OrLaws(0, 0, 0);
    }
  }

  lemma {:induction false} PackedSatisfied(all: Bits, bits: Bits)
    requires IsUserBits(all)
    ensures Satisfied(Packed(all, true, true), bits) == Covers(bits, all)
  {
    UnpackPacked(all, true, true);
    hide Packed, Wanted, WantsAll, IsUserBits, Covers, TestWaitCondition;
    ConditionCovers(bits, all);
  }

  /** Everyone named is woken, nobody else is touched. */
  lemma {:induction false} WakeAll(members: seq<Member>, readied: seq<Waiter>, value: Bits)
    requires forall i :: 0 <= i < |readied| ==> readied[i].value == value
    ensures forall t :: 0 <= t < |members| ==>
              Wake(members, readied)[t]
              == if Names(readied, t) then members[t].(phase := Woken(value)) else members[t]
    decreases |readied|
  {
    if readied == [] {
    } else {
      var t := readied[0].task;
      var rest := readied[1..];
      assert forall i :: 1 <= i < |readied| ==> readied[i] == rest[i - 1];
      assert forall i :: 0 <= i < |rest| ==> rest[i] == readied[i + 1];
      WakeAll(if t < |members| then members[t := members[t].(phase := Woken(value))] else members, rest, value);
    }
  }

  /** What a call does to the group when it finds every bit set... */
  lemma {:induction false} SyncCompletes(g: Group, t: nat, mask: Bits, all: Bits)
    requires forall i :: 0 <= i < |g.waiters| ==> g.waiters[i].value == Packed(all, true, true)
    requires IsUserBits(all) && Covers(all, Or(g.bits, mask)) && Covers(Or(g.bits, mask), all)
    ensures var now := Or(g.bits, mask);
            Sync(g, t, mask, all, true)
            == (Outcome(Group(0, []),
                        AllStamped(g.waiters, Stamped(now))),
                Returns(now))
  {
    hide Or, Minus, Satisfied, Covers, IsUserBits, TestWaitCondition, Packed, Remaining, Unblocked, ToClear, Stamped;
    var now := Or(g.bits, mask);
    PackedSatisfied(all, now);
    EverybodyUnblocked(g.waiters, now);
    ConditionCovers(now, all);
    MinusAll(now, ToClear(g.waiters, now), all, mask);
  }

  /** ... and when it does not. */
  lemma {:induction false} SyncBlocks(g: Group, t: nat, mask: Bits, all: Bits)
    requires forall i :: 0 <= i < |g.waiters| ==> g.waiters[i].value == Packed(all, true, true)
    requires IsUserBits(all) && !Covers(Or(g.bits, mask), all)
    ensures Sync(g, t, mask, all, true)
            == (Outcome(Group(Or(g.bits, mask), g.waiters + [Waiter(t, Packed(all, true, true))]), []), Blocks)
  {
    hide Or, Minus, Satisfied, Covers, IsUserBits, TestWaitCondition, Packed, Remaining, Unblocked, ToClear;
    var now := Or(g.bits, mask);
    PackedSatisfied(all, now);
    NobodyUnblocked(g.waiters, now);
    ConditionCovers(now, all);
    MinusNothing(now);
  }

  /** The round is complete exactly when everybody else waits. */
  lemma {:induction false} CompleteWhenAllWait(s: State, masks: seq<Bits>, t: nat, rounds: nat)
    requires Inv(s, masks, rounds) && Enabled(s, Call(t))
    ensures Covers(Or(s.group.bits, masks[t]), Union(masks))
            <==> forall j :: 0 <= j < |masks| && j != t ==> s.members[j].phase == Waiting
  {
    hide Or, Covers, Meets, Listed, Paced, Complete, IsUserBits;
    var now := Or(s.group.bits, masks[t]);
    UnionCovers(masks, now);
    forall j | 0 <= j < |masks| ensures Covers(now, masks[j]) <==> j == t || s.members[j].phase == Waiting {
      OrCoversMore(s.group.bits, masks[t], masks[j]);
      if j != t && Covers(now, masks[j]) {
        MeetsSymmetric(masks[t], masks[j]);
        CoveredByOther(s.group.bits, masks[t], masks[j]);
      }
    }
  }

  lemma {:induction false} NowIsCovered(s: State, masks: seq<Bits>, t: nat, rounds: nat)
    requires Inv(s, masks, rounds) && Enabled(s, Call(t))
    ensures Covers(Union(masks), Or(s.group.bits, masks[t])) && IsUserBits(Union(masks))
    ensures Covers(Union(masks), masks[t])
  {
    UnionIsUser(masks);
    hide Or, Covers, Meets, Listed, Paced, Complete, IsUserBits;
    CoversSelf(Union(masks));
    UnionCovers(masks, Union(masks));
    CoversBoth(Union(masks), s.group.bits, masks[t]);
  }

  lemma {:induction false} CoversSelf(bits: Bits)
    ensures Covers(bits, bits)
  {
  }

  lemma {:induction false} NoBits(mask: Bits)
    ensures Covers(mask, 0) && !Meets(0, mask)
  {
  }

  lemma {:induction false} StampedComplete(now: Bits, all: Bits)
    requires Covers(now, all) && IsUserBits(now)
    ensures Complete(Through(now), all) && Complete(Woken(Stamped(now)), all)
  {
    hide Covers, Meets, Stamped, Wanted, IsUserBits;
    StampedMeets(now);
    StampedWanted(now);
  }

  /** The call that completes a round lets everybody go. */
  lemma {:induction false} CallCompletes(s: State, masks: seq<Bits>, t: nat, rounds: nat)
    requires Inv(s, masks, rounds) && Enabled(s, Call(t))
    requires Covers(Or(s.group.bits, masks[t]), Union(masks))
    ensures var s' := Next(s, masks, Call(t));
            && Inv(s', masks, rounds + 1)
            && forall j :: 0 <= j < |masks| ==> s'.members[j].phase.Through? || s'.members[j].phase.Woken?
  {
    hide Or, Covers, Meets, Stamped, IsUserBits, Packed, Sync, Wake, Union;
    var all, now := Union(masks), Or(s.group.bits, masks[t]);
    CompleteWhenAllWait(s, masks, t, rounds);
    NowIsCovered(s, masks, t, rounds);
    SyncCompletes(s.group, t, masks[t], all);
    CoveredIsUser(all, now);
    StampedComplete(now, all);
    hide Complete;
    var readied := Sync(s.group, t, masks[t], all, true).0.readied;
    WakeAll(s.members, readied, Stamped(now));
    forall j | 0 <= j < |masks| && j != t ensures Names(readied, j) {
      assert s.members[j].phase == Waiting && Names(s.group.waiters, j);
      var i :| 0 <= i < |s.group.waiters| && s.group.waiters[i].task == j;
      assert readied[i].task == j;
    }
    hide Names;
    NoBits(all);
    forall j | 0 <= j < |masks| ensures !Meets(0, masks[j]) {
      NoBits(masks[j]);
    }
  }

  /** A call that does not complete the round waits. */
  lemma {:induction false} CallWaits(s: State, masks: seq<Bits>, t: nat, rounds: nat)
    requires Inv(s, masks, rounds) && Enabled(s, Call(t))
    requires !Covers(Or(s.group.bits, masks[t]), Union(masks))
    ensures Inv(Next(s, masks, Call(t)), masks, rounds)
  {
    hide Or, Covers, Meets, IsUserBits, Packed, Sync, Union, Complete;
    var all, now := Union(masks), Or(s.group.bits, masks[t]);
    NowIsCovered(s, masks, t, rounds);
    SyncBlocks(s.group, t, masks[t], all);
    assert Wake(s.members, []) == s.members;
    hide Wake;
    var s' := Next(s, masks, Call(t));
    assert Complete(Waiting, all) by { WaitingComplete(all); }
    forall j | 0 <= j < |masks|
      ensures if s'.members[j].phase == Waiting then Covers(now, masks[j]) else !Meets(now, masks[j])
    {
      OrCoversMore(s.group.bits, masks[t], masks[j]);
      if j != t {
        MeetsSymmetric(masks[t], masks[j]);
        MeetsOr(s.group.bits, masks[t], masks[j]);
      }
    }
    ListedGrows(s.group.waiters, s.members, all, t, s'.members[t]);
  }

  lemma {:induction false} WaitingComplete(all: Bits)
    ensures Complete(Waiting, all) && Complete(Idle, all)
  {
  }

  lemma {:induction false} ListedGrows(waiters: seq<Waiter>, members: seq<Member>, all: Bits, t: nat, m: Member)
    requires Listed(waiters, members, all) && t < |members| && m.phase == Waiting
    ensures Listed(waiters + [Waiter(t, Packed(all, true, true))], members[t := m], all)
  {
    hide Packed;
    var waiters', members' := waiters + [Waiter(t, Packed(all, true, true))], members[t := m];
    assert waiters'[|waiters|].task == t;
    forall j | 0 <= j < |members'| && members'[j].phase == Waiting ensures Names(waiters', j) {
      if j != t {
        assert Names(waiters, j);
        var i :| 0 <= i < |waiters| && waiters[i].task == j;
        assert waiters'[i].task == j;
      }
    }
  }

  lemma {:induction false} ReturnKeeps(s: State, masks: seq<Bits>, t: nat, rounds: nat)
    requires Inv(s, masks, rounds) && Enabled(s, Return(t))
    ensures Inv(Next(s, masks, Return(t)), masks, rounds)
    ensures Covers(Returned(s, masks, t), Union(masks))
  {
    hide Covers, Meets, IsUserBits, Packed, Union, TestWaitCondition, Wanted, Minus;
  }

  // ---------------------------------------------------------------------
  // Runs
  // ---------------------------------------------------------------------

  ghost predicate Init(s: State, masks: seq<Bits>)
  {
    && |s.members| == |masks| && Planned(masks)
    && s.group == Group(0, [])
    && forall t :: 0 <= t < |s.members| ==> s.members[t] == Member(Idle, 0, 0)
  }

  ghost predicate Possible(s: State, masks: seq<Bits>, run: seq<Step>)
    requires |masks| == |s.members|
    decreases |run|
  {
    run == [] || (Enabled(s, run[0]) && Possible(Next(s, masks, run[0]), masks, run[1..]))
  }

  function After(s: State, masks: seq<Bits>, run: seq<Step>): State
    requires |masks| == |s.members| && Possible(s, masks, run)
    decreases |run|
  {
    if run == [] then s else After(Next(s, masks, run[0]), masks, run[1..])
  }

  lemma {:induction false} StepKeeps(s: State, masks: seq<Bits>, step: Step, rounds: nat) returns (rounds': nat)
    requires Inv(s, masks, rounds) && Enabled(s, step)
    ensures Inv(Next(s, masks, step), masks, rounds')
  {
    hide Next, Covers, Or, Union, Listed, BitsMatch, Paced, Complete, Planned;
    rounds' := rounds;
    match step {
      case Call(t) =>
        if Covers(Or(s.group.bits, masks[t]), Union(masks)) {
          rounds' := rounds + 1;
          CallCompletes(s, masks, t, rounds);
        } else {
          CallWaits(s, masks, t, rounds);
        }
      case Return(t) => ReturnKeeps(s, masks, t, rounds);
    }
  }

  lemma {:induction false} RunKeeps(s: State, masks: seq<Bits>, run: seq<Step>, rounds: nat) returns (rounds': nat)
    requires Inv(s, masks, rounds) && Possible(s, masks, run)
    ensures Inv(After(s, masks, run), masks, rounds')
    decreases |run|
  {
    hide Enabled, Next, Listed, BitsMatch, Paced, Complete, Planned;
    rounds' := rounds;
    if run == [] {
    } else {
      rounds' := StepKeeps(s, masks, run[0], rounds);
      rounds' := RunKeeps(Next(s, masks, run[0]), masks, run[1..], rounds');
    }
  }

  lemma {:induction false} InitInv(s: State, masks: seq<Bits>)
    requires Init(s, masks)
    ensures Inv(s, masks, 0)
  {
    hide Covers, Meets, IsUserBits, Union, Complete;
    NoBits(Union(masks));
    WaitingComplete(Union(masks));
    forall j | 0 <= j < |masks| ensures !Meets(0, masks[j]) {
      NoBits(masks[j]);
    }
  }

  /** In every run the tasks are never more than one call apart, nobody's k-th
      call is over before everybody has made a k-th call, and every call that
      returns reports all of the bits. */
  lemma {:induction false} Lockstep(s: State, masks: seq<Bits>, run: seq<Step>, i: nat, j: nat)
    requires Init(s, masks) && Possible(s, masks, run) && i < |masks| && j < |masks|
    ensures var e := After(s, masks, run);
            && |e.members| == |masks|
            && e.members[i].returned <= e.members[j].called
            && e.members[i].called <= e.members[j].called + 1
            && (Enabled(e, Return(i)) ==> Covers(Returned(e, masks, i), Union(masks)))
  {
    InitInv(s, masks);
    var rounds := RunKeeps(s, masks, run, 0);
    hide Next, Covers, Union, Complete, Listed, BitsMatch, Planned;
    var e := After(s, masks, run);
    assert Paced(e.members[i], rounds) && Paced(e.members[j], rounds);
    if Enabled(e, Return(i)) {
      ReturnKeeps(e, masks, i, rounds);
    }
  }

  /** And no round hangs: once the last task calls, all of them may return. */
  lemma {:induction false} LastCallReleases(s: State, masks: seq<Bits>, run: seq<Step>, t: nat)
    requires Init(s, masks) && Possible(s, masks, run)
    requires Enabled(After(s, masks, run), Call(t))
    requires forall j :: 0 <= j < |After(s, masks, run).members| && j != t ==>
               After(s, masks, run).members[j].phase == Waiting
    ensures |masks| == |After(s, masks, run).members|
    ensures forall j :: 0 <= j < |masks| ==> Enabled(Next(After(s, masks, run), masks, Call(t)), Return(j))
  {
    InitInv(s, masks);
    var rounds := RunKeeps(s, masks, run, 0);
    var e := After(s, masks, run);
    hide Next, Covers, Or, Union, Complete, Listed, BitsMatch, Planned, Paced;
    CompleteWhenAllWait(e, masks, t, rounds);
    CallCompletes(e, masks, t, rounds);
  }
}
