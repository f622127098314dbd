/** Event groups: a word of event bits and the list of tasks waiting for some
    of them, whose wait condition is packed into their event list item. */
module EventGroups {

  const CLEAR_EVENTS_ON_EXIT_BIT: bv32 := 0x0100_0000
  const UNBLOCKED_DUE_TO_BIT_SET: bv32 := 0x0200_0000
  const WAIT_FOR_ALL_BITS: bv32 := 0x0400_0000
  const EVENT_BITS_CONTROL_BYTES: bv32 := 0xff00_0000
  const EVENT_LIST_ITEM_VALUE_IN_USE: bv32 := 0x8000_0000

  type Bits = bv32

  /** A task and its event list item value. */
  datatype Waiter = Waiter(task: nat, value: Bits)

  datatype Group = Group(bits: Bits, waiters: seq<Waiter>)

  /** A group after a call, the tasks it readied, and what it returned. */
  datatype Outcome = Outcome(group: Group, readied: seq<Waiter>)

  predicate IsUserBits(bits: Bits)
  {
    bits & EVENT_BITS_CONTROL_BYTES == 0
  }

  /** prvTestWaitCondition. */
  predicate TestWaitCondition(bits: Bits, wanted: Bits, all: bool)
  {
    if all then bits & wanted == wanted else bits & wanted != 0
  }

  /** How a wait condition is packed when the task blocks. */
  function Packed(wanted: Bits, clear: bool, all: bool): Bits
  {
    wanted
    | (if clear then CLEAR_EVENTS_ON_EXIT_BIT else 0)
    | (if all then WAIT_FOR_ALL_BITS else 0)
    | EVENT_LIST_ITEM_VALUE_IN_USE
  }

  function Wanted(value: Bits): Bits
  {
    value & !EVENT_BITS_CONTROL_BYTES
  }

  predicate WantsAll(value: Bits)
  {
    value & EVENT_BITS_CONTROL_BYTES & WAIT_FOR_ALL_BITS != 0
  }

  predicate Clears(value: Bits)
  {
    value & EVENT_BITS_CONTROL_BYTES & CLEAR_EVENTS_ON_EXIT_BIT != 0
  }

  lemma {:induction false} UnpackWanted(wanted: Bits, c: Bits, a: Bits)
    requires wanted & 0xff00_0000 == 0 && (c == 0 || c == 0x0100_0000) && (a == 0 || a == 0x0400_0000)
    ensures (wanted | c | a | 0x8000_0000) & !0xff00_0000 == wanted
  {
  }

  lemma {:induction false} UnpackControl(wanted: Bits, c: Bits, a: Bits)
    requires wanted & 0xff00_0000 == 0 && (c == 0 || c == 0x0100_0000) && (a == 0 || a == 0x0400_0000)
    ensures (wanted | c | a | 0x8000_0000) & 0xff00_0000 & 0x0400_0000 == a
    ensures (wanted | c | a | 0x8000_0000) & 0xff00_0000 & 0x0100_0000 == c
  {
  }

  /** The packing loses nothing. */
  lemma {:induction false} UnpackPacked(wanted: Bits, clear: bool, all: bool)
    requires IsUserBits(wanted)
    ensures Wanted(Packed(wanted, clear, all)) == wanted
    ensures WantsAll(Packed(wanted, clear, all)) == all
    ensures Clears(Packed(wanted, clear, all)) == clear
  {
    var c: Bits := if clear then 0x0100_0000 else 0;
    var a: Bits := if all then 0x0400_0000 else 0;
    UnpackWanted(wanted, c, a);
    UnpackControl(wanted, c, a);
    var p := wanted | c | a | 0x8000_0000;
    assert Packed(wanted, clear, all) == p;
  }

  predicate Satisfied(value: Bits, bits: Bits)
  {
    TestWaitCondition(bits, Wanted(value), WantsAll(value))
  }

  // ---------------------------------------------------------------------
  // Setting bits
  // ---------------------------------------------------------------------

  /** The event list item value that an unblocked task finds. */
  function Stamped(bits: Bits): Bits
  {
    bits | UNBLOCKED_DUE_TO_BIT_SET | EVENT_LIST_ITEM_VALUE_IN_USE
  }

  /** The waiters that bits unblock, with the value each is given. */
  function Unblocked(waiters: seq<Waiter>, bits: Bits): seq<Waiter>
  {
    if waiters == [] then
      []
    else
      (if Satisfied(waiters[0].value, bits)
       then [Waiter(waiters[0].task, Stamped(bits))]
       else [])
      + Unblocked(waiters[1..], bits)
  }

  /** The waiters they leave, in order. */
  function Remaining(waiters: seq<Waiter>, bits: Bits): (r: seq<Waiter>)
    ensures |r| <= |waiters|
  {
    if waiters == [] then
      []
    else
      (if Satisfied(waiters[0].value, bits) then [] else [waiters[0]]) + Remaining(waiters[1..], bits)
  }

  function Or(a: Bits, b: Bits): Bits
  {
    a | b
  }

  function Minus(a: Bits, b: Bits): Bits
  {
    a & !b
  }

  /** Some bit is in both. */
  predicate Meets(a: Bits, b: Bits)
  {
    a & b != 0
  }

  /** The bits to clear on account of one waiter. */
  function ClearedFor(value: Bits, bits: Bits): Bits
  {
    if Satisfied(value, bits) && Clears(value) then Wanted(value) else 0
  }

  /** The bits that the unblocked ones want cleared. */
  function ToClear(waiters: seq<Waiter>, bits: Bits): Bits
  {
    if waiters == [] then
      0
    else
      Or(ClearedFor(waiters[0].value, bits), ToClear(waiters[1..], bits))
  }

  /** xEventGroupSetBits. */
  function SetBits(g: Group, set_: Bits): Outcome
  {
    var bits := Or(g.bits, set_);
    Outcome(Group(Minus(bits, ToClear(g.waiters, bits)), Remaining(g.waiters, bits)), Unblocked(g.waiters, bits))
  }

  lemma {:induction false} OrLaws(a: Bits, b: Bits, c: Bits)
    ensures Or(Or(a, b), c) == Or(a, Or(b, c)) && Or(0, a) == a && Or(a, 0) == a
  {
  }

  function UnblockedOne(w: Waiter, bits: Bits): seq<Waiter>
  {
    if Satisfied(w.value, bits) then [Waiter(w.task, Stamped(bits))] else []
  }

  lemma {:induction false} UnblockedFirst(waiters: seq<Waiter>, bits: Bits)
    requires waiters != []
    ensures Unblocked(waiters, bits) == UnblockedOne(waiters[0], bits) + Unblocked(waiters[1..], bits)
  {
    hide Satisfied, Stamped;
  }

  lemma {:induction false} UnblockedConcat(a: seq<Waiter>, b: seq<Waiter>, bits: Bits)
    ensures Unblocked(a + b, bits) == Unblocked(a, bits) + Unblocked(b, bits)
  {
    if a == [] {
      assert a + b == b;
    } else {
      hide Unblocked, UnblockedOne;
      assert (a + b)[0] == a[0] && (a + b)[1..] == a[1..] + b;
      UnblockedFirst(a, bits);
      UnblockedFirst(a + b, bits);
      UnblockedConcat(a[1..], b, bits);
    }
  }

  lemma {:induction false} RemainingConcat(a: seq<Waiter>, b: seq<Waiter>, bits: Bits)
    ensures Remaining(a + b, bits) == Remaining(a, bits) + Remaining(b, bits)
  {
    hide Satisfied;
    if a == [] {
      assert a + b == b;
    } else {
      assert (a + b)[1..] == a[1..] + b;
      RemainingConcat(a[1..], b, bits);
    }
  }

  lemma {:induction false} ToClearConcat(a: seq<Waiter>, b: seq<Waiter>, bits: Bits)
    ensures ToClear(a + b, bits) == Or(ToClear(a, bits), ToClear(b, bits))
  {
    hide ClearedFor, Or;
    OrLaws(ToClear(b, bits), 0, 0);
    if a == [] {
      assert a + b == b;
    } else {
      assert (a + b)[1..] == a[1..] + b;
      ToClearConcat(a[1..], b, bits);
      OrLaws(ClearedFor(a[0].value, bits), ToClear(a[1..], bits), ToClear(b, bits));
    }
  }

  /** Who is unblocked: exactly the tasks whose condition the bits satisfy, and
      each is told all the bits, before any are cleared. */
  lemma {:induction false} UnblockedExactly(waiters: seq<Waiter>, bits: Bits, w: Waiter)
    ensures w in Unblocked(waiters, bits)
            <==> w.value == Stamped(bits)
                 && exists i :: 0 <= i < |waiters| && waiters[i].task == w.task && Satisfied(waiters[i].value, bits)
  {
    hide Satisfied;
    if waiters == [] {
    } else {
      var rest := waiters[1..];
      UnblockedExactly(rest, bits, w);
      assert forall i :: 0 < i < |waiters| ==> waiters[i] == rest[i - 1];
      assert forall i :: 0 <= i < |rest| ==> rest[i] == waiters[i + 1];
    }
  }

  /** Who stays: exactly those whose condition the bits do not satisfy. */
  lemma {:induction false} RemainingExactly(waiters: seq<Waiter>, bits: Bits, w: Waiter)
    ensures w in Remaining(waiters, bits) <==> w in waiters && !Satisfied(w.value, bits)
  {
    hide Satisfied;
    if waiters == [] {
    } else {
      RemainingExactly(waiters[1..], bits, w);
    }
  }

  /** In which order, and how often: those that stay are the waiters at some
      places, all of those not satisfied, in the order they had. */
  lemma {:induction false} RemainingInOrder(waiters: seq<Waiter>, bits: Bits) returns (places: seq<nat>)
    ensures |places| == |Remaining(waiters, bits)|
    ensures forall k :: 0 <= k < |places| ==>
              places[k] < |waiters| && Remaining(waiters, bits)[k] == waiters[places[k]]
    ensures forall j, k :: 0 <= j < k < |places| ==> places[j] < places[k]
    ensures forall i :: 0 <= i < |waiters| ==> (i in places <==> !Satisfied(waiters[i].value, bits))
  {
    hide Satisfied, Remaining;
    places := [];
    var n, kept: seq<Waiter> := 0, [];
    RemainingOne(waiters, n, bits);
    assert waiters[..0] == [];
    while n < |waiters|
      invariant n <= |waiters| && kept == Remaining(waiters[..n], bits) && |places| == |kept|
      invariant forall k :: 0 <= k < |places| ==> places[k] < n && kept[k] == waiters[places[k]]
      invariant forall j, k :: 0 <= j < k < |places| ==> places[j] < places[k]
      invariant forall i :: 0 <= i < n ==> (i in places <==> !Satisfied(waiters[i].value, bits))
    {
      RemainingOne(waiters, n, bits);
      if !Satisfied(waiters[n].value, bits) {
        places := places + [n];
        kept := kept + [waiters[n]];
      }
      n := n + 1;
    }
    assert waiters[..n] == waiters;
  }

  lemma {:induction false} RemainingOne(waiters: seq<Waiter>, n: nat, bits: Bits)
    ensures Remaining([], bits) == []
    ensures n < |waiters| ==>
              Remaining(waiters[..n + 1], bits)
              == Remaining(waiters[..n], bits) + if Satisfied(waiters[n].value, bits) then [] else [waiters[n]]
  {
    if n < |waiters| {
      WalkOn(waiters, n, bits);
    }
  }

  lemma {:induction false} OrHits(a: Bits, b: Bits, probe: Bits)
    ensures (a | b) & probe != 0 <==> a & probe != 0 || b & probe != 0
  {
  }

  lemma {:induction false} OrMeets(a: Bits, b: Bits, probe: Bits)
    ensures Meets(Or(a, b), probe) <==> Meets(a, probe) || Meets(b, probe)
  {
    hide Or;
    OrHits(a, b, probe);
    assert Or(a, b) == a | b by { OrIs(a, b); }
  }

  lemma {:induction false} OrIs(a: Bits, b: Bits)
    ensures Or(a, b) == a | b
  {
  }

  lemma {:induction false} ZeroMeets(probe: Bits)
    ensures !Meets(0, probe)
  {
  }

  /** One waiter met on the walk. */
  lemma {:induction false} OneWaiter(item: Waiter, bits: Bits)
    ensures Unblocked([item], bits)
            == if Satisfied(item.value, bits)
               then [Waiter(item.task, Stamped(bits))] else []
    ensures Remaining([item], bits) == if Satisfied(item.value, bits) then [] else [item]
    ensures ToClear([item], bits) == ClearedFor(item.value, bits)
  {
    hide Satisfied, ClearedFor, Or;
    OrLaws(ClearedFor(item.value, bits), 0, 0);
  }

  lemma {:induction false} WhatIsCleared(value: Bits, bits: Bits)
    ensures ClearedFor(value, bits) == if Satisfied(value, bits) && Clears(value) then Wanted(value) else 0
  {
  }

  lemma {:induction false} WalkOn(all: seq<Waiter>, done: nat, bits: Bits)
    requires done < |all|
    ensures Remaining(all[..done + 1], bits)
            == Remaining(all[..done], bits) + if Satisfied(all[done].value, bits) then [] else [all[done]]
    ensures Unblocked(all[..done + 1], bits)
            == Unblocked(all[..done], bits)
               + if Satisfied(all[done].value, bits) then [Waiter(all[done].task, Stamped(bits))] else []
    ensures ToClear(all[..done + 1], bits) == Or(ToClear(all[..done], bits), ClearedFor(all[done].value, bits))
  {
    hide Satisfied, ClearedFor, Or, Stamped, Remaining, Unblocked, ToClear;
    assert all[..done + 1] == all[..done] + [all[done]];
    UnblockedConcat(all[..done], [all[done]], bits);
    RemainingConcat(all[..done], [all[done]], bits);
    ToClearConcat(all[..done], [all[done]], bits);
    OneWaiter(all[done], bits);
  }

  /** What is cleared: a bit goes exactly if an unblocked task waited for it and
      asked for its bits to be cleared. */
  lemma {:induction false} ToClearExactly(waiters: seq<Waiter>, bits: Bits, probe: Bits)
    ensures Meets(ToClear(waiters, bits), probe)
            <==> exists i :: 0 <= i < |waiters| && Meets(ClearedFor(waiters[i].value, bits), probe)
    ensures forall w :: w in waiters ==>
              (Meets(ClearedFor(w.value, bits), probe)
               <==> Satisfied(w.value, bits) && Clears(w.value) && Meets(Wanted(w.value), probe))
  {
    ZeroMeets(probe);
    hide Meets, Satisfied, Clears, Wanted, Or;
    if waiters == [] {
    } else {
      var rest := waiters[1..];
      ToClearExactly(rest, bits, probe);
      OrMeets(ClearedFor(waiters[0].value, bits), ToClear(rest, bits), probe);
      hide ClearedFor;
      assert forall i :: 0 < i < |waiters| ==> waiters[i] == rest[i - 1];
      assert forall i :: 0 <= i < |rest| ==> rest[i] == waiters[i + 1];
      if Meets(ToClear(rest, bits), probe) {
        var i :| 0 <= i < |rest| && Meets(ClearedFor(rest[i].value, bits), probe);
        assert Meets(ClearedFor(waiters[i + 1].value, bits), probe);
      }
    }
  }

  /** Where the walk stands: what it kept, then what it has not seen. */
  lemma {:induction false} Walked(kept: seq<Waiter>, all: seq<Waiter>, done: nat)
    requires done < |all|
    ensures var list, at := kept + all[done..], |kept|;
            && list[at] == all[done]
            && list[..at] + list[at + 1..] == kept + all[done + 1..]
            && list == kept + [all[done]] + all[done + 1..]
  {
  }

  // ---------------------------------------------------------------------
  // Waiting, synchronising, clearing
  // ---------------------------------------------------------------------

  datatype Answer = Returns(bits: Bits) | Blocks

  /** The part of xEventGroupWaitBits that runs with the scheduler suspended. */
  function WaitBits(g: Group, task: nat, wanted: Bits, clear: bool, all: bool, mayBlock: bool): (Group, Answer)
  {
    if TestWaitCondition(g.bits, wanted, all) then
      (if clear then g.(bits := Minus(g.bits, wanted)) else g, Returns(g.bits))
    else if !mayBlock then
      (g, Returns(g.bits))
    else
      (g.(waiters := g.waiters + [Waiter(task, Packed(wanted, clear, all))]), Blocks)
  }

  /** The part of xEventGroupSync that runs with the scheduler suspended. */
  function Sync(g: Group, task: nat, set_: Bits, wanted: Bits, mayBlock: bool): (Outcome, Answer)
  {
    var o := SetBits(g, set_);
    if TestWaitCondition(Or(g.bits, set_), wanted, true) then
      (o.(group := o.group.(bits := Minus(o.group.bits, wanted))), Returns(Or(g.bits, set_)))
    else if !mayBlock then
      (o, Returns(o.group.bits))
    else
      (o.(group := o.group.(waiters := o.group.waiters + [Waiter(task, Packed(wanted, true, true))])), Blocks)
  }

  /** What either does when the task runs again, with the event list item value
      it finds: the bits it was unblocked with or, after a time-out, the bits
      of the moment. */
  function Resume(g: Group, value: Bits, wanted: Bits, clear: bool, all: bool): (Group, Bits)
  {
    if Meets(value, UNBLOCKED_DUE_TO_BIT_SET) then
      (g, Wanted(value))
    else
      (if TestWaitCondition(g.bits, wanted, all) && clear then g.(bits := Minus(g.bits, wanted)) else g,
       Wanted(g.bits))
  }

  lemma {:induction false} StampedLiteral(bits: Bits)
    requires bits & 0xff00_0000 == 0
    ensures (bits | 0x0200_0000 | 0x8000_0000) & 0x0200_0000 != 0
    ensures (bits | 0x0200_0000 | 0x8000_0000) & !0xff00_0000 == bits
  {
  }

  lemma {:induction false} StampedForm(bits: Bits)
    ensures Stamped(bits) == bits | 0x0200_0000 | 0x8000_0000
  {
  }

  lemma {:induction false} StampedMeets(bits: Bits)
    requires IsUserBits(bits)
    ensures Meets(Stamped(bits), UNBLOCKED_DUE_TO_BIT_SET)
  {
    hide Stamped;
    StampedForm(bits);
    StampedLiteral(bits);
  }

  lemma {:induction false} StampedWanted(bits: Bits)
    requires IsUserBits(bits)
    ensures Wanted(Stamped(bits)) == bits
  {
    hide Stamped;
    StampedForm(bits);
    StampedLiteral(bits);
  }

  /** An unblocked task returns the bits it was unblocked with, control bits
      taken off again, and changes nothing. */
  lemma {:induction false} ResumeStamped(g: Group, bits: Bits, wanted: Bits, clear: bool, all: bool)
    requires IsUserBits(bits)
    ensures Resume(g, Stamped(bits), wanted, clear, all) == (g, bits)
  {
    hide TestWaitCondition, Minus, Meets, Stamped, Wanted, IsUserBits;
    StampedMeets(bits);
    StampedWanted(bits);
  }

  /** A task whose block time has ended before it was unblocked returns the bits
      of the moment; if they satisfy its condition after all, and it was to clear
      them, the bits it waited for are cleared, and otherwise none. */
  lemma {:induction false} ResumeExpired(g: Group, value: Bits, wanted: Bits, clear: bool, all: bool, i: Place)
    requires !Meets(value, UNBLOCKED_DUE_TO_BIT_SET) && IsUserBits(g.bits)
    ensures var (g', answer) := Resume(g, value, wanted, clear, all);
            && answer == g.bits && g'.waiters == g.waiters
            && (IsSet(g'.bits, i)
                <==> IsSet(g.bits, i) && !(clear && TestWaitCondition(g.bits, wanted, all) && IsSet(wanted, i)))
  {
    UserBitsWanted(g.bits);
    MinusIsSet(g.bits, wanted, i);
    hide TestWaitCondition, Minus, Meets, Wanted, IsUserBits, IsSet;
  }

  lemma {:induction false} UserBitsLiteral(bits: Bits)
    requires bits & 0xff00_0000 == 0
    ensures bits & !0xff00_0000 == bits
  {
  }

  lemma {:induction false} UserBitsWanted(bits: Bits)
    requires IsUserBits(bits)
    ensures Wanted(bits) == bits
  {
    UserBitsLiteral(bits);
  }

  // ---------------------------------------------------------------------
  // Bit by bit
  // ---------------------------------------------------------------------

  type Place = bv5

  predicate IsSet(bits: Bits, i: Place)
  {
    (bits >> i) & 1 == 1
  }

  function Bit(i: Place): Bits
  {
    1 << i
  }

  lemma {:induction false} BitMeets(bits: Bits, i: Place)
    ensures Meets(bits, Bit(i)) <==> IsSet(bits, i)
  {
  }

  lemma {:induction false} MinusIsSet(a: Bits, b: Bits, i: Place)
    ensures IsSet(Minus(a, b), i) <==> IsSet(a, i) && !IsSet(b, i)
  {
  }

  lemma {:induction false} AndIsSet(a: Bits, b: Bits, i: Place)
    ensures IsSet(a & b, i) <==> IsSet(a, i) && IsSet(b, i)
  {
  }

  lemma {:induction false} OrIsSet(a: Bits, b: Bits, i: Place)
    ensures IsSet(Or(a, b), i) <==> IsSet(a, i) || IsSet(b, i)
  {
  }

  lemma {:induction false} NoneIsSet(i: Place)
    ensures !IsSet(0, i)
  {
  }

  /** Something is set at a place or above it. */
  predicate SomeFrom(bits: Bits, i: Place)
  {
    bits >> i != 0
  }

  lemma {:induction false} NextPlace(bits: Bits, i: Place)
    requires SomeFrom(bits, i) && !IsSet(bits, i)
    ensures i < 31 && 31 - (i + 1) < 31 - i && SomeFrom(bits, i + 1)
  {
  }

  lemma {:induction false} SomeFromNought(bits: Bits)
    requires bits != 0
    ensures SomeFrom(bits, 0)
  {
  }

  lemma {:induction false} FindSet(bits: Bits, from: Place) returns (i: Place)
    requires SomeFrom(bits, from)
    ensures IsSet(bits, i)
    decreases 31 - from
  {
    hide IsSet, SomeFrom;
    if IsSet(bits, from) {
      i := from;
    } else {
      NextPlace(bits, from);
      i := FindSet(bits, from + 1);
    }
  }

  function Both(a: Bits, b: Bits): Bits
  {
    a & b
  }

  lemma {:induction false} BothIsSet(a: Bits, b: Bits, i: Place)
    ensures IsSet(Both(a, b), i) <==> IsSet(a, i) && IsSet(b, i)
  {
    AndIsSet(a, b, i);
  }

  lemma {:induction false} ConditionIs(bits: Bits, wanted: Bits, all: bool)
    ensures TestWaitCondition(bits, wanted, all)
            <==> if all then Minus(wanted, bits) == 0 else Both(bits, wanted) != 0
  {
    if all {
      MissingLiteral(bits, wanted);
      assert Minus(wanted, bits) == wanted & !bits by { MinusForm(wanted, bits); }
      hide Minus;
    } else {
      assert Both(bits, wanted) == bits & wanted;
      hide Both;
    }
  }

  lemma {:induction false} MinusForm(a: Bits, b: Bits)
    ensures Minus(a, b) == a & !b
  {
  }

  lemma {:induction false} MissingLiteral(a: Bits, b: Bits)
    ensures a & b == b <==> b & !a == 0
  {
    PartLiteral(a, b);
    if a & b == b {
      assert b & !a == (a & b) & !a;
    }
    if b & !a == 0 {
      assert b == (b & a) | 0;
    }
  }

  lemma {:induction false} PartLiteral(a: Bits, b: Bits)
    ensures (a & b) & !a == 0 && (b & a) | (b & !a) == b
    ensures (b & a) | 0 == a & b
  {
  }

  lemma {:induction false} NothingSet(bits: Bits)
    ensures bits == 0 <==> forall i :: !IsSet(bits, i)
  {
    if bits == 0 {
      forall i ensures !IsSet(0, i) {
        NoneIsSet(i);
      }
    } else {
      SomeFromNought(bits);
      hide IsSet, SomeFrom;
      var i := FindSet(bits, 0);
      assert IsSet(bits, i);
    }
  }

  /** What prvTestWaitCondition tests: that every bit waited for is set, or that
      some is. */
  lemma {:induction false} ConditionMeans(bits: Bits, wanted: Bits, all: bool)
    ensures all ==> (TestWaitCondition(bits, wanted, all) <==> forall i :: IsSet(wanted, i) ==> IsSet(bits, i))
    ensures !all ==> (TestWaitCondition(bits, wanted, all) <==> exists i :: IsSet(wanted, i) && IsSet(bits, i))
  {
    hide TestWaitCondition, Minus, Both, IsSet;
    ConditionIs(bits, wanted, all);
    var found := if all then Minus(wanted, bits) else Both(bits, wanted);
    NothingSet(found);
    forall i ensures IsSet(found, i) <==> IsSet(wanted, i) && (if all then !IsSet(bits, i) else IsSet(bits, i)) {
      if all {
        MinusIsSet(wanted, bits, i);
      } else {
        BothIsSet(bits, wanted, i);
      }
    }
  }

  /** The bits after xEventGroupSetBits: those that were set or have been set now,
      without those that an unblocked task waited for and was to clear. */
  lemma {:induction false} SetExactly(g: Group, set_: Bits, i: Place)
    ensures var now := Or(g.bits, set_);
            IsSet(SetBits(g, set_).group.bits, i)
            <==> (IsSet(g.bits, i) || IsSet(set_, i))
                 && !exists k :: 0 <= k < |g.waiters| && Meets(ClearedFor(g.waiters[k].value, now), Bit(i))
  {
    var now := Or(g.bits, set_);
    OrIsSet(g.bits, set_, i);
    MinusIsSet(now, ToClear(g.waiters, now), i);
    BitMeets(ToClear(g.waiters, now), i);
    ToClearExactly(g.waiters, now, Bit(i));
    hide Meets, Minus, Or, IsSet, Bit, ToClear, ClearedFor, Remaining, Unblocked;
  }

  // ---------------------------------------------------------------------
  // Nobody waits for what is there
  // ---------------------------------------------------------------------

  datatype Step =
    | Set(bits: Bits)
    | Clear(bits: Bits)
    | Wait(task: nat, wanted: Bits, clear: bool, all: bool, mayBlock: bool)
    | Synchronise(task: nat, bits: Bits, wanted: Bits, mayBlock: bool)
    | Expire(task: nat)
    | RunAgain(value: Bits, wanted: Bits, clear: bool, all: bool)

  /** What the asserts at the head of each call demand. */
  predicate Allowed(step: Step)
  {
    match step
    case Set(bits) => IsUserBits(bits)
    case Clear(bits) => IsUserBits(bits)
    case Wait(_, wanted, _, _, _) => IsUserBits(wanted) && wanted != 0
    case Synchronise(_, bits, wanted, _) => IsUserBits(bits) && IsUserBits(wanted) && wanted != 0
    case Expire(_) => true
    case RunAgain(_, wanted, _, _) => IsUserBits(wanted) && wanted != 0
  }

  function Leave(waiters: seq<Waiter>, task: nat): seq<Waiter>
  {
    if waiters == [] then []
    else (if waiters[0].task == task then [] else [waiters[0]]) + Leave(waiters[1..], task)
  }

  function Next(g: Group, step: Step): Group
  {
    match step
    case Set(bits) => SetBits(g, bits).group
    case Clear(bits) => g.(bits := Minus(g.bits, bits))
    case Wait(task, wanted, clear, all, mayBlock) => WaitBits(g, task, wanted, clear, all, mayBlock).0
    case Synchronise(task, bits, wanted, mayBlock) => Sync(g, task, bits, wanted, mayBlock).0.group
    case Expire(task) => g.(waiters := Leave(g.waiters, task))
    case RunAgain(value, wanted, clear, all) => Resume(g, value, wanted, clear, all).0
  }

  ghost predicate NoneSatisfied(waiters: seq<Waiter>, bits: Bits)
  {
    forall w :: w in waiters ==> !Satisfied(w.value, bits)
  }

  lemma {:induction false} FewerBits(value: Bits, bits: Bits, gone: Bits)
    ensures Satisfied(value, Minus(bits, gone)) ==> Satisfied(value, bits)
  {
    FewerLiteral(bits, gone, Wanted(value));
    hide Wanted, WantsAll;
    if WantsAll(value) {
    } else {
    }
  }

  lemma {:induction false} FewerLiteral(bits: Bits, gone: Bits, wanted: Bits)
    ensures bits & !gone & wanted != 0 ==> bits & wanted != 0
    ensures bits & !gone & wanted == wanted ==> bits & wanted == wanted
  {
  }

  lemma {:induction false} ClearingKeeps(waiters: seq<Waiter>, bits: Bits, gone: Bits)
    requires NoneSatisfied(waiters, bits)
    ensures NoneSatisfied(waiters, Minus(bits, gone))
  {
    hide Satisfied, Minus;
    forall w | w in waiters ensures !Satisfied(w.value, Minus(bits, gone)) {
      FewerBits(w.value, bits, gone);
    }
  }

  lemma {:induction false} SettingKeeps(g: Group, bits: Bits)
    ensures NoneSatisfied(Remaining(g.waiters, Or(g.bits, bits)), Or(g.bits, bits))
    ensures NoneSatisfied(SetBits(g, bits).group.waiters, SetBits(g, bits).group.bits)
  {
    hide Satisfied, Minus, Or, Remaining, ToClear, Unblocked;
    var now := Or(g.bits, bits);
    forall w | w in Remaining(g.waiters, now) ensures !Satisfied(w.value, now) {
      RemainingExactly(g.waiters, now, w);
    }
    ClearingKeeps(Remaining(g.waiters, now), now, ToClear(g.waiters, now));
  }

  lemma {:induction false} BlockingKeeps(waiters: seq<Waiter>, bits: Bits, task: nat, wanted: Bits,
                                         clear: bool, all: bool)
    requires NoneSatisfied(waiters, bits) && IsUserBits(wanted) && !TestWaitCondition(bits, wanted, all)
    ensures NoneSatisfied(waiters + [Waiter(task, Packed(wanted, clear, all))], bits)
  {
    UnpackPacked(wanted, clear, all);
    hide Packed, TestWaitCondition, Wanted, WantsAll;
  }

  lemma {:induction false} LeaveMembers(waiters: seq<Waiter>, task: nat, w: Waiter)
    ensures w in Leave(waiters, task) <==> w in waiters && w.task != task
  {
    if waiters == [] {
    } else {
      LeaveMembers(waiters[1..], task, w);
    }
  }

  lemma {:induction false} SyncKeeps(g: Group, task: nat, bits: Bits, wanted: Bits, mayBlock: bool)
    requires NoneSatisfied(g.waiters, g.bits) && IsUserBits(wanted)
    ensures var g' := Sync(g, task, bits, wanted, mayBlock).0.group; NoneSatisfied(g'.waiters, g'.bits)
  {
    SettingKeeps(g, bits);
    var o, now := SetBits(g, bits).group, Or(g.bits, bits);
    LateCondition(wanted, now, ToClear(g.waiters, now));
    hide Satisfied, Minus, Or, TestWaitCondition, IsUserBits, Packed, Remaining, Unblocked, ToClear;
    ClearingKeeps(o.waiters, o.bits, wanted);
    if !TestWaitCondition(o.bits, wanted, true) {
      BlockingKeeps(o.waiters, o.bits, task, wanted, true, true);
    }
  }

  lemma {:induction false} LateCondition(wanted: Bits, bits: Bits, gone: Bits)
    ensures TestWaitCondition(Minus(bits, gone), wanted, true) ==> TestWaitCondition(bits, wanted, true)
  {
    FewerLiteral(bits, gone, wanted);
  }

  lemma {:induction false} StepKeeps(g: Group, step: Step)
    requires NoneSatisfied(g.waiters, g.bits) && Allowed(step)
    ensures NoneSatisfied(Next(g, step).waiters, Next(g, step).bits)
  {
    hide Satisfied, Minus, Or, SetBits, TestWaitCondition, IsUserBits, Meets, Packed, Wanted, Sync;
    match step
    case Set(bits) => SettingKeeps(g, bits);
    case Clear(bits) => ClearingKeeps(g.waiters, g.bits, bits);
    case Wait(task, wanted, clear, all, mayBlock) =>
      ClearingKeeps(g.waiters, g.bits, wanted);
      if !TestWaitCondition(g.bits, wanted, all) {
        BlockingKeeps(g.waiters, g.bits, task, wanted, clear, all);
      }
    case Synchronise(task, bits, wanted, mayBlock) => SyncKeeps(g, task, bits, wanted, mayBlock);
    case Expire(task) =>
      forall w | w in Leave(g.waiters, task) ensures !Satisfied(w.value, g.bits) {
        LeaveMembers(g.waiters, task, w);
      }
    case RunAgain(value, wanted, clear, all) => ClearingKeeps(g.waiters, g.bits, wanted);
  }

  lemma {:induction false} NobodyLeaves(waiters: seq<Waiter>, task: nat)
    requires forall i :: 0 <= i < |waiters| ==> waiters[i].task != task
    ensures Leave(waiters, task) == waiters
  {
    if waiters != [] {
      NobodyLeaves(waiters[1..], task);
      assert [waiters[0]] + waiters[1..] == waiters;
    }
  }

  lemma {:induction false} OneLeaves(waiters: seq<Waiter>, k: nat)
    requires k < |waiters| && forall i :: 0 <= i < |waiters| && i != k ==> waiters[i].task != waiters[k].task
    ensures Leave(waiters, waiters[k].task) == waiters[..k] + waiters[k + 1..]
  {
    if k == 0 {
      NobodyLeaves(waiters[1..], waiters[0].task);
    } else {
      OneLeaves(waiters[1..], k - 1);
      assert [waiters[0]] + (waiters[1..][..k - 1] + waiters[1..][k..]) == waiters[..k] + waiters[k + 1..];
    }
  }

  /** A task whose block time ends is taken from its place in the list; the others
      stay in order, and so do the bits. */
  lemma {:induction false} ExpireMeans(g: Group, k: nat)
    requires k < |g.waiters|
    requires forall i :: 0 <= i < |g.waiters| && i != k ==> g.waiters[i].task != g.waiters[k].task
    ensures Next(g, Expire(g.waiters[k].task)) == Group(g.bits, g.waiters[..k] + g.waiters[k + 1..])
  {
    OneLeaves(g.waiters, k);
  }

  function After(g: Group, run: seq<Step>): Group
    decreases |run|
  {
    if run == [] then g else After(Next(g, run[0]), run[1..])
  }

  /** In every state a group can reach from its creation, no task is left
      waiting for bits that are set. */
  lemma {:induction false} NobodyWaitsInVain(g: Group, run: seq<Step>)
    requires NoneSatisfied(g.waiters, g.bits)
    requires forall i :: 0 <= i < |run| ==> Allowed(run[i])
    ensures NoneSatisfied(After(g, run).waiters, After(g, run).bits)
    decreases |run|
  {
    hide NoneSatisfied, Next, Allowed;
    if run == [] {
    } else {
      assert Allowed(run[0]);
      StepKeeps(g, run[0]);
      NobodyWaitsInVain(Next(g, run[0]), run[1..]);
    }
  }

  lemma {:induction false} NobodyWalked(bits: Bits)
    ensures Remaining([], bits) == [] && Unblocked([], bits) == [] && ToClear([], bits) == 0
  {
  }

  /** What xEventGroupWaitBits does before it may block. */
  lemma {:induction false} WaitMeans(g: Group, task: nat, wanted: Bits, clear: bool, all: bool, mayBlock: bool)
    ensures var (g', answer) := WaitBits(g, task, wanted, clear, all, mayBlock);
            && (answer == Blocks <==> mayBlock && !TestWaitCondition(g.bits, wanted, all))
            && (answer != Blocks ==> answer == Returns(g.bits) && g'.waiters == g.waiters)
            && (clear && TestWaitCondition(g.bits, wanted, all) ==>
                  forall i :: IsSet(g'.bits, i) <==> IsSet(g.bits, i) && !IsSet(wanted, i))
            && (!(clear && TestWaitCondition(g.bits, wanted, all)) ==> g'.bits == g.bits)
    ensures IsUserBits(wanted) && NoneSatisfied(g.waiters, g.bits) ==>
              var g' := WaitBits(g, task, wanted, clear, all, mayBlock).0; NoneSatisfied(g'.waiters, g'.bits)
    ensures IsUserBits(wanted) ==>
              Wanted(Packed(wanted, clear, all)) == wanted && WantsAll(Packed(wanted, clear, all)) == all
              && Clears(Packed(wanted, clear, all)) == clear
  {
    hide TestWaitCondition, Minus, Packed, NoneSatisfied, Wanted, WantsAll, Clears, IsUserBits, IsSet;
    forall i ensures IsSet(Minus(g.bits, wanted), i) <==> IsSet(g.bits, i) && !IsSet(wanted, i) {
      MinusIsSet(g.bits, wanted, i);
    }
    if IsUserBits(wanted) {
      UnpackPacked(wanted, clear, all);
      if NoneSatisfied(g.waiters, g.bits) {
        ClearingKeeps(g.waiters, g.bits, wanted);
        if !TestWaitCondition(g.bits, wanted, all) {
          BlockingKeeps(g.waiters, g.bits, task, wanted, clear, all);
        }
      }
    }
  }

  class EventGroup {
    var bits: Bits
    var waiters: seq<Waiter>

    ghost function View(): Group
      reads this
    {
      Group(bits, waiters)
    }

    /** The loop of xEventGroupSetBits over the waiting tasks. */
    method Walk() returns (readied: seq<Waiter>, bitsToClear: Bits)
      modifies this`waiters
      ensures waiters == Remaining(old(waiters), bits)
      ensures readied == Unblocked(old(waiters), bits)
      ensures bitsToClear == ToClear(old(waiters), bits)
    {
      hide *;
      readied, bitsToClear := [], 0;
      var at := 0;
      ghost var all, done, kept: seq<Waiter> := waiters, 0, [];
      NobodyWalked(bits);
      assert all[..0] == [] && all[0..] == all;
      while at < |waiters|
        invariant done <= |all| && at == |kept|
        invariant waiters == kept + all[done..]
        invariant kept == Remaining(all[..done], bits)
        invariant readied == Unblocked(all[..done], bits)
        invariant bitsToClear == ToClear(all[..done], bits)
        decreases |all| - done
      {
        var item := waiters[at];
        Walked(kept, all, done);
        WalkOn(all, done, bits);
        OrLaws(bitsToClear, 0, 0);
        WhatIsCleared(item.value, bits);
        if Satisfied(item.value, bits) {
          if Clears(item.value) {
            bitsToClear := Or(bitsToClear, Wanted(item.value));
          }
          readied := readied + [Waiter(item.task, Stamped(bits))];
          waiters := waiters[..at] + waiters[at + 1..];
        } else {
          at := at + 1;
          kept := kept + [item];
        }
        done := done + 1;
      }
      assert all[..done] == all;
    }

    /** xEventGroupSetBits. */
    method Set(bitsToSet: Bits) returns (readied: seq<Waiter>)
      modifies this
      ensures Outcome(View(), readied) == SetBits(old(View()), bitsToSet)
      ensures forall i ::
                IsSet(bits, i)
                <==> (IsSet(old(bits), i) || IsSet(bitsToSet, i))
                     && !exists k :: 0 <= k < |old(waiters)|
                                     && Meets(ClearedFor(old(waiters)[k].value, Or(old(bits), bitsToSet)), Bit(i))
    {
      forall i
        ensures IsSet(SetBits(View(), bitsToSet).group.bits, i)
                <==> (IsSet(bits, i) || IsSet(bitsToSet, i))
                     && !exists k :: 0 <= k < |waiters|
                                     && Meets(ClearedFor(waiters[k].value, Or(bits, bitsToSet)), Bit(i))
      {
        SetExactly(View(), bitsToSet, i);
      }
      hide Remaining, Unblocked, ToClear, Or, Minus, Meets, IsSet, Bit, ClearedFor;
      var bitsToClear;
      bits := Or(bits, bitsToSet);
      readied, bitsToClear := Walk();
      bits := Minus(bits, bitsToClear);
    }

    /** xEventGroupWaitBits, up to the point where the caller may block. */
    method WaitFor(task: nat, wanted: Bits, clear: bool, all: bool, mayBlock: bool) returns (answer: Answer)
      modifies this
      ensures (View(), answer) == WaitBits(old(View()), task, wanted, clear, all, mayBlock)
      ensures answer == Blocks <==> mayBlock && !TestWaitCondition(old(bits), wanted, all)
      ensures answer == Blocks ==>
                bits == old(bits) && |waiters| == |old(waiters)| + 1 && waiters[..|old(waiters)|] == old(waiters)
                && var w := waiters[|old(waiters)|];
                   w.task == task
                   && (IsUserBits(wanted) ==>
                         Wanted(w.value) == wanted && WantsAll(w.value) == all && Clears(w.value) == clear)
      ensures answer != Blocks ==> answer == Returns(old(bits)) && waiters == old(waiters)
      ensures !(clear && TestWaitCondition(old(bits), wanted, all)) ==> bits == old(bits)
      ensures clear && TestWaitCondition(old(bits), wanted, all) ==>
                forall i :: IsSet(bits, i) <==> IsSet(old(bits), i) && !IsSet(wanted, i)
      ensures IsUserBits(wanted) && NoneSatisfied(old(waiters), old(bits)) ==> NoneSatisfied(waiters, bits)
    {
      WaitMeans(View(), task, wanted, clear, all, mayBlock);
      hide TestWaitCondition, Minus, Packed, NoneSatisfied, Wanted, WantsAll, Clears, IsUserBits, IsSet;
      answer := Blocks;
      if TestWaitCondition(bits, wanted, all) {
        answer := Returns(bits);
        if clear {
          bits := Minus(bits, wanted);
        }
      } else if !mayBlock {
        answer := Returns(bits);
      } else {
        waiters := waiters + [Waiter(task, Packed(wanted, clear, all))];
      }
    }

    /** xEventGroupClearBits, which returns the bits as they were. */
    method ClearBits(bitsToClear: Bits) returns (before: Bits)
      modifies this`bits
      ensures before == old(bits) && Next(old(View()), Clear(bitsToClear)) == View()
      ensures forall i :: IsSet(bits, i) <==> IsSet(before, i) && !IsSet(bitsToClear, i)
    {
      hide Minus, IsSet;
      forall i ensures IsSet(Minus(bits, bitsToClear), i) <==> IsSet(bits, i) && !IsSet(bitsToClear, i) {
        MinusIsSet(bits, bitsToClear, i);
      }
      before := bits;
      bits := Minus(bits, bitsToClear);
    }

    /** xEventGroupSync, up to the point where the caller may block. */
    method Rendezvous(task: nat, bitsToSet: Bits, wanted: Bits, mayBlock: bool)
      returns (readied: seq<Waiter>, answer: Answer)
      modifies this
      ensures (Outcome(View(), readied), answer) == Sync(old(View()), task, bitsToSet, wanted, mayBlock)
      ensures var now, o := Or(old(bits), bitsToSet), SetBits(old(View()), bitsToSet);
              && readied == o.readied
              && if TestWaitCondition(now, wanted, true) then
                   && answer == Returns(now) && waiters == o.group.waiters
                   && forall i :: IsSet(bits, i) <==> IsSet(o.group.bits, i) && !IsSet(wanted, i)
                 else
                   && bits == o.group.bits
                   && answer == (if mayBlock then Blocks else Returns(bits))
                   && waiters == o.group.waiters
                                 + if mayBlock then [Waiter(task, Packed(wanted, true, true))] else []
    {
      forall a, i ensures IsSet(Minus(a, wanted), i) <==> IsSet(a, i) && !IsSet(wanted, i) {
        MinusIsSet(a, wanted, i);
      }
      hide IsSet, Meets, Bit, ClearedFor;
      hide TestWaitCondition, Minus, Or, Packed, SetBits;
      var original := bits;
      answer := Blocks;
      readied := Set(bitsToSet);
      if TestWaitCondition(Or(original, bitsToSet), wanted, true) {
        answer := Returns(Or(original, bitsToSet));
        bits := Minus(bits, wanted);
      } else if mayBlock {
        waiters := waiters + [Waiter(task, Packed(wanted, true, true))];
      } else {
        answer := Returns(bits);
      }
    }
  }
}
