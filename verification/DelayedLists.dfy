/** The tick counter and the two delayed-task lists of tasks.c, and what they
    stand for: one endless line of deadlines on unbounded time. */
module DelayedLists {

  import opened Ticks
  import opened SortedLists

  /** xTickCount, xNumOfOverflows, xNextTaskUnblockTime, and the current and
      overflow delayed lists with the items' wake times. */
  datatype Clock = Clock(
    tickCount: Tick,
    overflows: int,
    nextUnblock: Tick,
    delayed: seq<Entry>,
    overflow: seq<Entry>)

  function Now(c: Clock): int
  {
    c.overflows * TICK_MODULUS + c.tickCount
  }

  /** The deadlines the two lists hold, in one line and on unbounded time. */
  function Timeline(c: Clock): seq<Entry>
  {
    Shift(c.delayed, c.overflows * TICK_MODULUS)
    + Shift(c.overflow, (c.overflows + 1) * TICK_MODULUS)
  }

  ghost predicate Ranged(s: seq<Entry>)
  {
    forall i :: 0 <= i < |s| ==> 0 <= s[i].key < TICK_MODULUS
  }

  /** xNextTaskUnblockTime is never later than the current head. */
  ghost predicate AlarmSet(c: Clock)
  {
    c.delayed != [] ==> c.nextUnblock <= c.delayed[0].key
  }

  ghost predicate Formed(c: Clock)
  {
    && Sorted(c.delayed) && Ranged(c.delayed)
    && Sorted(c.overflow) && Ranged(c.overflow)
    && AlarmSet(c)
  }

  /** What every kernel step keeps: both lists sorted, the alarm early enough,
      and nobody listed whose time has come. */
  ghost predicate Valid(c: Clock)
  {
    && Formed(c)
    && forall i :: 0 <= i < |c.delayed| ==> c.delayed[i].key > c.tickCount
  }

  lemma TimelineOf(c: Clock)
    requires Formed(c)
    ensures Sorted(Timeline(c))
    ensures forall i :: 0 <= i < |c.delayed| ==>
              Timeline(c)[i] == Entry(c.delayed[i].item, c.overflows * TICK_MODULUS + c.delayed[i].key)
    ensures Valid(c) ==> forall i :: 0 <= i < |Timeline(c)| ==> Timeline(c)[i].key > Now(c)
  {
  }

  // ---------------------------------------------------------------------
  // Entering and leaving the lists
  // ---------------------------------------------------------------------

  /** prvResetNextTaskUnblockTime. */
  function ResetNextUnblock(c: Clock): Clock
    requires Ranged(c.delayed)
  {
    c.(nextUnblock := if c.delayed == [] then MAX_DELAY else c.delayed[0].key)
  }

  /** The timed branch of prvAddCurrentTaskToDelayedList. */
  function Block(c: Clock, task: nat, ticksToWait: Tick): Clock
  {
    var timeToWake := Wrap(c.tickCount + ticksToWait);
    if timeToWake < c.tickCount then
      c.(overflow := Insert(c.overflow, Entry(task, timeToWake)))
    else
      c.(delayed := Insert(c.delayed, Entry(task, timeToWake)),
         nextUnblock := if timeToWake < c.nextUnblock then timeToWake else c.nextUnblock)
  }

  lemma {:induction false} BlockInThisEpoch(c: Clock, task: nat, wake: Tick)
    requires Valid(c) && c.tickCount < wake
    ensures var c' := c.(delayed := Insert(c.delayed, Entry(task, wake)),
                         nextUnblock := if wake < c.nextUnblock then wake else c.nextUnblock);
            && Valid(c')
            && Timeline(c') == Insert(Timeline(c), Entry(task, c.overflows * TICK_MODULUS + wake))
  {
    hide Sorted, Insert, Shift;
    var base := c.overflows * TICK_MODULUS;
    var e := Entry(task, wake);
    ShiftInsert(c.delayed, e, base);
    InsertLeft(Shift(c.delayed, base), Shift(c.overflow, base + TICK_MODULUS), Entry(task, base + wake));
    InsertBounds(c.delayed, e, c.tickCount + 1, TICK_MODULUS);
  }

  lemma {:induction false} BlockInNextEpoch(c: Clock, task: nat, wake: Tick)
    requires Valid(c)
    ensures var c' := c.(overflow := Insert(c.overflow, Entry(task, wake)));
            && Valid(c')
            && Timeline(c') == Insert(Timeline(c), Entry(task, (c.overflows + 1) * TICK_MODULUS + wake))
  {
    hide Sorted, Insert, Shift;
    var next := (c.overflows + 1) * TICK_MODULUS;
    var e := Entry(task, wake);
    ShiftInsert(c.overflow, e, next);
    InsertRight(Shift(c.delayed, next - TICK_MODULUS), Shift(c.overflow, next), Entry(task, next + wake));
    InsertBounds(c.overflow, e, 0, TICK_MODULUS);
  }

  /** Blocking for n ticks is one stable insertion at the instant now + n. */
  lemma {:induction false} BlockRefines(c: Clock, task: nat, ticksToWait: Tick)
    requires Valid(c) && 0 < ticksToWait
    ensures Valid(Block(c, task, ticksToWait))
    ensures Now(Block(c, task, ticksToWait)) == Now(c)
    ensures Timeline(Block(c, task, ticksToWait))
            == Insert(Timeline(c), Entry(task, Now(c) + ticksToWait))
  {
    hide Valid, Timeline, Insert;
    var wake := Wrap(c.tickCount + ticksToWait);
    if wake < c.tickCount {
      BlockInNextEpoch(c, task, wake);
    } else {
      BlockInThisEpoch(c, task, wake);
    }
  }

  /** uxListRemove of a task's state item, when an event readies it early. */
  function Cancel(c: Clock, task: nat): Clock
  {
    c.(delayed := Without(c.delayed, task), overflow := Without(c.overflow, task))
  }

  lemma {:induction false} CancelRefines(c: Clock, task: nat)
    requires Valid(c)
    ensures Valid(Cancel(c, task)) && Now(Cancel(c, task)) == Now(c)
    ensures Timeline(Cancel(c, task)) == Without(Timeline(c), task)
  {
    var base := c.overflows * TICK_MODULUS;
    var next := (c.overflows + 1) * TICK_MODULUS;
    CancelKeeps(c, task);
    hide Valid, Shift, Without;
    WithoutShift(c.delayed, task, base);
    WithoutShift(c.overflow, task, next);
    WithoutConcat(Shift(c.delayed, base), Shift(c.overflow, next), task);
  }

  lemma {:induction false} CancelKeeps(c: Clock, task: nat)
    requires Valid(c)
    ensures Valid(Cancel(c, task))
  {
    assert forall i :: 0 <= i < |c.delayed| ==> c.delayed[i].key >= c.nextUnblock;
    hide Sorted, Without;
    WithoutKeeps(c.delayed, task);
    WithoutKeeps(c.overflow, task);
    var c' := Cancel(c, task);
    forall i | 0 <= i < |c'.delayed|
      ensures 0 <= c'.delayed[i].key < TICK_MODULUS && c'.delayed[i].key > c.tickCount
              && c'.delayed[i].key >= c.nextUnblock
    {
      assert c'.delayed[i] in c.delayed;
    }
    forall i | 0 <= i < |c'.overflow| ensures 0 <= c'.overflow[i].key < TICK_MODULUS {
      assert c'.overflow[i] in c.overflow;
    }
  }

  // ---------------------------------------------------------------------
  // The tick
  // ---------------------------------------------------------------------

  /** A new clock and the tasks moved to the ready lists, in that order. */
  datatype Ticked = Ticked(clock: Clock, readied: seq<nat>)

  /** The loop of xTaskIncrementTick. */
  function Wake(c: Clock): Ticked
    requires Ranged(c.delayed)
    decreases |c.delayed|
  {
    if c.delayed == [] then
      Ticked(c.(nextUnblock := MAX_DELAY), [])
    else if c.tickCount < c.delayed[0].key then
      Ticked(c.(nextUnblock := c.delayed[0].key), [])
    else
      var rest := Wake(c.(delayed := c.delayed[1..]));
      Ticked(rest.clock, [c.delayed[0].item] + rest.readied)
  }

  /** taskSWITCH_DELAYED_LISTS. */
  function SwitchLists(c: Clock): Clock
    requires Ranged(c.overflow)
  {
    ResetNextUnblock(c.(delayed := c.overflow, overflow := c.delayed, overflows := c.overflows + 1))
  }

  /** xTaskIncrementTick for an accepted tick while the scheduler runs. */
  function IncrementTick(c: Clock): Ticked
    requires Formed(c)
  {
    var next := Wrap(c.tickCount + 1);
    var moved := if next == 0 then SwitchLists(c.(tickCount := next)) else c.(tickCount := next);
    if next >= moved.nextUnblock then Wake(moved) else Ticked(moved, [])
  }

  lemma {:induction false} WakeIs(c: Clock)
    requires Ranged(c.delayed)
    ensures Wake(c).clock == ResetNextUnblockTo(c, Beyond(c.delayed, c.tickCount))
    ensures Wake(c).readied == Items(UpTo(c.delayed, c.tickCount))
    decreases |c.delayed|
  {
    hide Sorted;
    if c.delayed == [] {
    } else if c.tickCount < c.delayed[0].key {
    } else {
      WakeIs(c.(delayed := c.delayed[1..]));
      PositionOfTail(c.delayed, c.tickCount);
      var p := Position(c.delayed, c.tickCount);
      hide Position;
      assert c.delayed[..p] == [c.delayed[0]] + c.delayed[1..][..p - 1];
      assert c.delayed[p..] == c.delayed[1..][p - 1..];
    }
  }

  lemma {:induction false} BeyondRanged(s: seq<Entry>, threshold: int)
    requires Ranged(s)
    ensures Ranged(Beyond(s, threshold))
  {
    hide Position;
  }

  /** The clock with the given list, and the alarm exactly at its head. */
  function ResetNextUnblockTo(c: Clock, delayed: seq<Entry>): Clock
    requires Ranged(delayed)
  {
    ResetNextUnblock(c.(delayed := delayed))
  }

  /** Moving the counter to a later value in the same epoch, waking all that are
      due by then: the effect of any number of ticks without a wrap. */
  ghost function Advance(c: Clock, tickCount: Tick): Ticked
    requires Formed(c)
  {
    if tickCount >= c.nextUnblock then
      Ticked(ResetNextUnblockTo(c.(tickCount := tickCount), Beyond(c.delayed, tickCount)),
             Items(UpTo(c.delayed, tickCount)))
    else
      Ticked(c.(tickCount := tickCount), [])
  }

  lemma {:induction false} AdvanceKeeps(c: Clock, tickCount: Tick)
    requires Formed(c)
    ensures Valid(Advance(c, tickCount).clock)
    ensures Advance(c, tickCount).clock.delayed == Beyond(c.delayed, tickCount)
    ensures Advance(c, tickCount).readied == Items(UpTo(c.delayed, tickCount))
  {
    hide Sorted, Position, Items, UpTo, Beyond;
    Cut(c.delayed, tickCount);
    BeyondRanged(c.delayed, tickCount);
  }

  lemma {:induction false} TickIsAdvance(c: Clock)
    requires Formed(c)
    ensures c.tickCount != MAX_DELAY ==> IncrementTick(c) == Advance(c, c.tickCount + 1)
    ensures c.tickCount == MAX_DELAY ==> IncrementTick(c) == Advance(SwitchLists(c), 0)
  {
    hide Sorted, UpTo, Beyond, Items, Wake;
    var next := Wrap(c.tickCount + 1);
    WakeIs(if next == 0 then SwitchLists(c.(tickCount := next)) else c.(tickCount := next));
  }

  /** What an advance does to the alarm: if it wakes anyone it sets it anew. */
  lemma {:induction false} AlarmAfterAdvance(c: Clock, tickCount: Tick)
    requires Formed(c)
    ensures Ranged(Beyond(c.delayed, tickCount))
    ensures Advance(c, tickCount).clock
            == if tickCount >= c.nextUnblock
               then ResetNextUnblockTo(c.(tickCount := tickCount), Beyond(c.delayed, tickCount))
               else c.(tickCount := tickCount)
    ensures tickCount < c.nextUnblock ==> Beyond(c.delayed, tickCount) == c.delayed
  {
    hide Sorted, Position, Items, UpTo, Beyond;
    Cut(c.delayed, tickCount);
    BeyondRanged(c.delayed, tickCount);
  }

  /** An advance does not look at the counter it starts from. */
  lemma {:induction false} AdvanceFrom(c: Clock, start: Tick, tickCount: Tick)
    requires Formed(c)
    ensures Formed(c.(tickCount := start))
    ensures Advance(c.(tickCount := start), tickCount) == Advance(c, tickCount)
  {
    hide Sorted, Ranged, UpTo, Beyond, Items;
  }

  lemma {:induction false} AdvanceTwice(c: Clock, first: Tick, second: Tick)
    requires Formed(c) && first <= second
    ensures Formed(Advance(c, first).clock)
    ensures Advance(Advance(c, first).clock, second).clock == Advance(c, second).clock
    ensures Advance(c, first).readied + Advance(Advance(c, first).clock, second).readied
            == Advance(c, second).readied
  {
    hide Sorted, UpTo, Beyond, Items, Ranged, Advance;
    AdvanceKeeps(c, first);
    AdvanceKeeps(c, second);
    var mid := Advance(c, first).clock;
    AdvanceKeeps(mid, second);
    CutTwice(c.delayed, first, second);
    ItemsConcat(UpTo(c.delayed, first), UpTo(mid.delayed, second));
    AlarmAfterAdvance(c, first);
    AlarmAfterAdvance(c, second);
    AlarmAfterAdvance(mid, second);
  }

  lemma NobodyDueBeforeNow(c: Clock)
    requires Valid(c) && c.delayed != []
    ensures c.tickCount < MAX_DELAY
  {
    assert c.delayed[0].key > c.tickCount;
  }

  /** At the wrap, the list that is switched out is empty: everyone in it was
      due before the wrap and has been woken. */
  lemma {:induction false} EmptyAtSwitch(c: Clock)
    requires Valid(c) && Wrap(c.tickCount + 1) == 0
    ensures c.delayed == []
  {
    if c.delayed != [] {
      NobodyDueBeforeNow(c);
    }
  }

  function Served(tasks: seq<nat>, due: int): seq<Entry>
  {
    seq(|tasks|, i requires 0 <= i < |tasks| => Entry(tasks[i], due))
  }

  ghost predicate AllDueAt(s: seq<Entry>, t: int)
  {
    forall i :: 0 <= i < |s| ==> s[i].key == t
  }

  lemma {:induction false} ShiftToServed(s: seq<Entry>, offset: int, t: int)
    requires AllDueAt(s, t)
    ensures Shift(s, offset) == Served(Items(s), offset + t)
  {
    hide Sorted;
  }

  /** Switching out an empty list leaves the line as it is. */
  lemma {:induction false} SwitchKeepsTimeline(c: Clock)
    requires Valid(c) && c.delayed == []
    ensures Timeline(SwitchLists(c)) == Timeline(c)
    ensures Formed(SwitchLists(c))
  {
    var s := SwitchLists(c);
    assert s.overflows * TICK_MODULUS == (c.overflows + 1) * TICK_MODULUS;
  }

  /** Entries due no earlier than t: those up to t are due exactly then. */
  lemma {:induction false} ShiftCut(s: seq<Entry>, t: Tick, offset: int)
    requires Sorted(s)
    requires forall i :: 0 <= i < |s| ==> s[i].key >= t
    ensures Shift(s, offset) == Served(Items(UpTo(s, t)), offset + t) + Shift(Beyond(s, t), offset)
  {
    CutAtDue(s, t);
    hide Sorted, Shift, Served, Items, UpTo, Beyond, AllDueAt;
    ShiftToServed(UpTo(s, t), offset, t);
    ShiftConcat(UpTo(s, t), Beyond(s, t), offset);
  }

  lemma {:induction false} CutAtDue(s: seq<Entry>, t: Tick)
    requires Sorted(s)
    requires forall i :: 0 <= i < |s| ==> s[i].key >= t
    ensures s == UpTo(s, t) + Beyond(s, t)
    ensures AllDueAt(UpTo(s, t), t)
  {
    Cut(s, t);
    hide Sorted, Position, Beyond;
  }

  lemma {:induction false} AdvanceRefines(c: Clock, tickCount: Tick)
    requires Formed(c)
    requires forall i :: 0 <= i < |c.delayed| ==> c.delayed[i].key >= tickCount
    ensures var t := Advance(c, tickCount);
            Timeline(c) == Served(t.readied, c.overflows * TICK_MODULUS + tickCount) + Timeline(t.clock)
  {
    hide Sorted, Shift, Items, Advance, UpTo, Beyond;
    AdvanceKeeps(c, tickCount);
    AlarmAfterAdvance(c, tickCount);
    ShiftCut(c.delayed, tickCount, c.overflows * TICK_MODULUS);
  }

  /** One tick moves time by one and takes from the front of the line exactly
      the tasks due at the new instant. */
  lemma {:induction false} TickRefines(c: Clock)
    requires Valid(c)
    ensures Valid(IncrementTick(c).clock)
    ensures Now(IncrementTick(c).clock) == Now(c) + 1
    ensures Timeline(c) == Served(IncrementTick(c).readied, Now(c) + 1) + Timeline(IncrementTick(c).clock)
  {
    hide IncrementTick, Timeline, Sorted, Advance, Position, Beyond, Items;
    TickIsAdvance(c);
    if c.tickCount == MAX_DELAY {
      EmptyAtSwitch(c);
      SwitchKeepsTimeline(c);
      AlarmAfterAdvance(SwitchLists(c), 0);
      AdvanceKeeps(SwitchLists(c), 0);
      AdvanceRefines(SwitchLists(c), 0);
    } else {
      AlarmAfterAdvance(c, c.tickCount + 1);
      AdvanceKeeps(c, c.tickCount + 1);
      AdvanceRefines(c, c.tickCount + 1);
    }
  }

  /** A task waiting for an instant is still listed before it and is readied by
      the very tick that reaches it. */
  lemma {:induction false} WokenExactlyWhenDue(c: Clock, e: Entry)
    requires Valid(c) && e in Timeline(c)
    ensures e.key > Now(c) + 1 ==> e in Timeline(IncrementTick(c).clock)
    ensures e.key == Now(c) + 1 ==> e.item in IncrementTick(c).readied
    ensures e.key >= Now(c) + 1
  {
    hide Sorted, Timeline, IncrementTick, Position;
    TickRefines(c);
    var t := IncrementTick(c);
    var i :| 0 <= i < |Timeline(c)| && Timeline(c)[i] == e;
    hide Now, Ranged;
    if i < |t.readied| {
      assert Served(t.readied, Now(c) + 1)[i] == e;
    } else {
      assert Timeline(t.clock)[i - |t.readied|] == e;
      TimelineOf(t.clock);
    }
  }

  // ---------------------------------------------------------------------
  // Stepping over suppressed ticks
  // ---------------------------------------------------------------------

  function IncrementTicks(c: Clock, count: nat): Ticked
    requires Valid(c)
    ensures Valid(IncrementTicks(c, count).clock)
  {
    if count == 0 then
      Ticked(c, [])
    else
      var before := IncrementTicks(c, count - 1);
      TickRefines(before.clock);
      var last := IncrementTick(before.clock);
      Ticked(last.clock, before.readied + last.readied)
  }

  lemma {:induction false} TakeServed(line: seq<Entry>, p: nat, tasks: seq<nat>, due: int, rest: seq<Entry>)
    requires p <= |line| && line[p..] == Served(tasks, due) + rest
    ensures p + |tasks| <= |line|
    ensures Items(line[..p]) + tasks == Items(line[..p + |tasks|])
    ensures line[p + |tasks|..] == rest
  {
    var served := Served(tasks, due);
    assert |line| - p == |tasks| + |rest|;
    forall i | 0 <= i < |tasks| ensures line[p + i].item == tasks[i] {
      assert line[p..][i] == served[i];
    }
    forall i | 0 <= i < |rest| ensures line[p + |tasks|..][i] == rest[i] {
      assert line[p..][|tasks| + i] == rest[i];
    }
  }

  /** Any number of ticks: time moves by that number and the front of the line
      up to that instant has been readied, in order. */
  lemma {:induction false} TicksRefine(c: Clock, count: nat)
    requires Valid(c)
    ensures var t := IncrementTicks(c, count);
            && Now(t.clock) == Now(c) + count
            && |t.readied| <= |Timeline(c)|
            && t.readied == Items(Timeline(c)[..|t.readied|])
            && Timeline(t.clock) == Timeline(c)[|t.readied|..]
  {
    hide Timeline, Items, Sorted, Ranged, AlarmSet, IncrementTick, Now;
    if count == 0 {
      assert Timeline(c)[..0] == [];
      assert Items([]) == [];
      assert IncrementTicks(c, 0) == Ticked(c, []);
    } else {
      TicksRefine(c, count - 1);
      var before := IncrementTicks(c, count - 1);
      TickRefines(before.clock);
      var last := IncrementTick(before.clock);
      TakeServed(Timeline(c), |before.readied|, last.readied, Now(before.clock) + 1, Timeline(last.clock));
    }
  }

  lemma {:induction false} TicksSplit(c: Clock, first: nat, second: nat)
    requires Valid(c)
    ensures var a := IncrementTicks(c, first); var b := IncrementTicks(a.clock, second);
            IncrementTicks(c, first + second) == Ticked(b.clock, a.readied + b.readied)
  {
    hide Valid, Formed, IncrementTick;
    var a := IncrementTicks(c, first);
    if second == 0 {
      assert a.readied + [] == a.readied;
    } else {
      TicksSplit(c, first, second - 1);
      var b := IncrementTicks(a.clock, second - 1);
      LastTick(a.clock, second);
      LastTick(c, first + second);
      var last := IncrementTick(b.clock);
      assert first + second - 1 == first + (second - 1);
      assert (a.readied + b.readied) + last.readied == a.readied + (b.readied + last.readied);
    }
  }

  lemma {:induction false} LastTick(c: Clock, count: nat)
    requires Valid(c) && count > 0
    ensures var before := IncrementTicks(c, count - 1);
            && Formed(before.clock)
            && var last := IncrementTick(before.clock);
               IncrementTicks(c, count) == Ticked(last.clock, before.readied + last.readied)
  {
    hide Sorted, Ranged, AlarmSet, IncrementTick;
  }

  lemma {:induction false} TicksAreAdvance(c: Clock, count: nat)
    requires Valid(c) && 0 < count && c.tickCount + count < TICK_MODULUS
    ensures IncrementTicks(c, count) == Advance(c, c.tickCount + count)
  {
    hide Sorted, Ranged, AlarmSet, Advance;
    if count == 1 {
      TickIsAdvance(c);
      assert IncrementTicks(c, 0) == Ticked(c, []);
      assert IncrementTicks(c, 1).readied == IncrementTick(c).readied;
    } else {
      TicksAreAdvance(c, count - 1);
      var before := IncrementTicks(c, count - 1);
      AdvanceTwice(c, c.tickCount + count - 1, c.tickCount + count);
      TickIsAdvance(before.clock);
      AlarmAfterAdvance(c, c.tickCount + count - 1);
    }
  }

  /** vTaskStepTickSafe: if the jump reaches the wrap, everyone left in the
      current list is readied and the lists are switched first. */
  function StepTickSafe(c: Clock, ticksToJump: Tick): Ticked
    requires Formed(c)
  {
    var delta := Wrap(0 - c.tickCount);
    var landing := Wrap(c.tickCount + ticksToJump);
    if ticksToJump >= delta then
      Ticked(SwitchLists(c.(delayed := [])).(tickCount := landing), Items(c.delayed))
    else
      Ticked(c.(tickCount := landing), [])
  }

  function StepThenTick(c: Clock, ticksToJump: Tick): Ticked
    requires Formed(c)
  {
    var step := StepTickSafe(c, ticksToJump);
    var tick := IncrementTick(step.clock);
    Ticked(tick.clock, step.readied + tick.readied)
  }

  /** Stepping without reaching the wrap, with room left for one more tick. */
  lemma {:induction false} StepWithinEpoch(c: Clock, n: Tick)
    requires Valid(c) && c.tickCount != 0 && c.tickCount + n + 1 < TICK_MODULUS
    ensures StepThenTick(c, n) == IncrementTicks(c, n + 1)
  {
    hide Sorted, Ranged, Advance, IncrementTick, IncrementTicks;
    TicksAreAdvance(c, n + 1);
    var step := StepTickSafe(c, n);
    AdvanceFrom(c, n + c.tickCount, n + c.tickCount + 1);
    TickIsAdvance(step.clock);
    assert step.readied + IncrementTick(step.clock).readied == IncrementTick(step.clock).readied;
  }

  /** The state after the last tick before the wrap: nobody is left. */
  lemma {:induction false} TicksToTheLast(c: Clock)
    requires Valid(c) && c.tickCount != 0
    ensures var t := IncrementTicks(c, MAX_DELAY - c.tickCount);
            && t.readied == Items(c.delayed)
            && t.clock.delayed == [] && t.clock.tickCount == MAX_DELAY
            && t.clock.overflow == c.overflow && t.clock.overflows == c.overflows
  {
    hide Sorted, Ranged, Advance, IncrementTick, Items;
    var k := MAX_DELAY - c.tickCount;
    if k == 0 {
      EmptyAtSwitch(c);
      assert Items([]) == [] by { hide Sorted; }
    } else {
      TicksAreAdvance(c, k);
      AdvanceKeeps(c, MAX_DELAY);
      AlarmAfterAdvance(c, MAX_DELAY);
      EverybodyDueByTheLast(c.delayed);
    }
    EmptyAtSwitch(IncrementTicks(c, k).clock);
  }

  lemma {:induction false} EverybodyDueByTheLast(s: seq<Entry>)
    requires Ranged(s)
    ensures UpTo(s, MAX_DELAY) == s
  {
    PositionIs(s, MAX_DELAY, |s|);
  }

  lemma {:induction false} SwitchedFormed(c: Clock)
    requires Formed(c)
    ensures Formed(SwitchLists(c))
    ensures Formed(SwitchLists(c.(delayed := [])))
  {
  }

  /** The ticks up to and including the wrap. */
  lemma {:induction false} TicksToTheWrap(c: Clock)
    requires Valid(c) && c.tickCount != 0
    ensures var k := TICK_MODULUS - c.tickCount; var flipped := SwitchLists(c.(delayed := []));
            && IncrementTicks(c, k).clock == Advance(flipped, 0).clock
            && IncrementTicks(c, k).readied == Items(c.delayed) + Advance(flipped, 0).readied
  {
    hide Sorted, Ranged, AlarmSet, Advance, IncrementTick, Items;
    var k := TICK_MODULUS - c.tickCount;
    TicksToTheLast(c);
    var before := IncrementTicks(c, k - 1);
    TickIsAdvance(before.clock);
    SwitchedFormed(before.clock);
    SwitchedFormed(c);
    assert SwitchLists(before.clock).(tickCount := 0) == SwitchLists(c.(delayed := [])).(tickCount := 0);
    AdvanceFrom(SwitchLists(before.clock), 0, 0);
    AdvanceFrom(SwitchLists(c.(delayed := [])), 0, 0);
  }

  /** Ticks up to the wrap and on from there. */
  lemma {:induction false} TicksAcrossWrap(c: Clock, landing: nat)
    requires Valid(c) && c.tickCount != 0 && landing < c.tickCount
    ensures var flipped := SwitchLists(c.(delayed := []));
            && Formed(flipped)
            && var t := Advance(flipped, landing + 1);
               IncrementTicks(c, TICK_MODULUS - c.tickCount + landing + 1)
               == Ticked(t.clock, Items(c.delayed) + t.readied)
  {
    hide Sorted, Ranged, AlarmSet, Advance, IncrementTick, IncrementTicks, Items, UpTo, Beyond;
    var k := TICK_MODULUS - c.tickCount;
    var flipped := SwitchLists(c.(delayed := []));
    TicksToTheWrap(c);
    SwitchedFormed(c);
    TicksSplit(c, k, landing + 1);
    var a := IncrementTicks(c, k);
    AdvanceKeeps(flipped, 0);
    AlarmAfterAdvance(flipped, 0);
    TicksAreAdvance(a.clock, landing + 1);
    AdvanceTwice(flipped, 0, landing + 1);
    assert Items(c.delayed) + (Advance(flipped, 0).readied + Advance(a.clock, landing + 1).readied)
        == (Items(c.delayed) + Advance(flipped, 0).readied) + Advance(a.clock, landing + 1).readied;
  }

  lemma {:induction false} StepLands(c: Clock, n: Tick)
    requires Valid(c) && c.tickCount != 0 && c.tickCount + n >= TICK_MODULUS
    ensures var landing := n - (TICK_MODULUS - c.tickCount); var flipped := SwitchLists(c.(delayed := []));
            Formed(flipped) && StepTickSafe(c, n) == Ticked(flipped.(tickCount := landing), Items(c.delayed))
  {
    hide Items;
    SwitchedFormed(c);
  }

  /** Stepping across the wrap. */
  lemma {:induction false} StepAcrossWrap(c: Clock, n: Tick)
    requires Valid(c) && c.tickCount != 0 && c.tickCount + n >= TICK_MODULUS
    ensures StepThenTick(c, n) == IncrementTicks(c, n + 1)
  {
    var landing := n - (TICK_MODULUS - c.tickCount);
    var flipped := SwitchLists(c.(delayed := []));
    var step := StepTickSafe(c, n);
    StepLands(c, n);
    hide Valid, Formed, Advance, IncrementTick, IncrementTicks, Items, SwitchLists, StepTickSafe;
    TicksAcrossWrap(c, landing);
    AdvanceFrom(flipped, landing, landing + 1);
    TickIsAdvance(step.clock);
  }

  /** At tick zero the step counts a wrap that did not happen. */
  lemma {:induction false} StepAtZeroDiffers(c: Clock, n: Tick)
    requires Valid(c) && c.tickCount == 0
    ensures StepThenTick(c, n).clock.overflows != IncrementTicks(c, n + 1).clock.overflows
  {
    var step := StepTickSafe(c, n).clock;
    assert step.tickCount == n && step.overflows == c.overflows + 1;
    hide Valid, Formed, IncrementTick, IncrementTicks;
    TicksMoveTime(c, n + 1);
    TickMovesTime(step);
  }

  lemma {:induction false} TicksMoveTime(c: Clock, count: nat)
    requires Valid(c)
    ensures Now(IncrementTicks(c, count).clock) == Now(c) + count
  {
    hide Valid, Timeline, Items, IncrementTicks, Now;
    TicksRefine(c, count);
  }

  lemma {:induction false} TickMovesTime(c: Clock)
    requires Formed(c)
    ensures Now(IncrementTick(c).clock) == Now(c) + 1
  {
    TickIsAdvance(c);
    hide Sorted, UpTo, Beyond, Items, Wake, IncrementTick;
  }

  /** Landing on the last counter value makes the next tick switch out a list
      that single ticks would have emptied. */
  lemma {:induction false} StepOntoTheLastTick(c: Clock, n: Tick)
    requires Valid(c) && c.tickCount != 0 && c.tickCount + n == MAX_DELAY
    ensures StepThenTick(c, n) == IncrementTicks(c, n + 1) <==> c.delayed == []
  {
    var step := StepTickSafe(c, n);
    assert step == Ticked(c.(tickCount := MAX_DELAY), []);
    TicksToTheWrap(c);
    TickIsAdvance(step.clock);
    SwitchedFormed(step.clock);
    SwitchedFormed(c);
    var single, emptied := IncrementTicks(c, n + 1), SwitchLists(c.(delayed := []));
    assert SwitchLists(step.clock).overflow == c.delayed && emptied.overflow == [];
    hide Sorted, Ranged, AlarmSet, IncrementTick, IncrementTicks, Items, UpTo, Beyond;
    AdvanceOverflow(SwitchLists(step.clock));
    AdvanceOverflow(emptied);
    if c.delayed == [] {
      assert SwitchLists(step.clock).(tickCount := 0) == emptied.(tickCount := 0);
      AdvanceFrom(SwitchLists(step.clock), 0, 0);
      AdvanceFrom(emptied, 0, 0);
      assert Items(c.delayed) == [] by { ItemsOfNone(); }
      hide Advance;
      assert [] + IncrementTick(step.clock).readied == IncrementTick(step.clock).readied;
    }
  }

  lemma ItemsOfNone()
    ensures Items([]) == []
  {
  }

  lemma {:induction false} AdvanceOverflow(c: Clock)
    requires Formed(c)
    ensures Advance(c, 0).clock.overflow == c.overflow
  {
    hide Sorted, UpTo, Beyond, Items;
  }

  /** Sleeping through n ticks and then taking one is the same as n + 1 single
      ticks -- same counter, wrap count, lists, alarm and wake order -- exactly
      when the sleep does not start at counter value zero and does not end on
      the last counter value with someone still in the current list. */
  lemma StepTickSafeExact(c: Clock, n: Tick)
    requires Valid(c)
    ensures StepThenTick(c, n) == IncrementTicks(c, n + 1)
            <==> c.tickCount != 0 && (c.tickCount + n == MAX_DELAY ==> c.delayed == [])
  {
    if c.tickCount == 0 {
      StepAtZeroDiffers(c, n);
    } else if c.tickCount + n == MAX_DELAY {
      StepOntoTheLastTick(c, n);
    } else if c.tickCount + n < MAX_DELAY {
      StepWithinEpoch(c, n);
    } else {
      StepAcrossWrap(c, n);
    }
  }

  // ---------------------------------------------------------------------
  // The alarm
  // ---------------------------------------------------------------------

  /** xNextTaskUnblockTime is the wake time at the head of the current list. A
      task that is readied early can leave it set too early, and nothing else. */
  ghost predicate AlarmAtHead(c: Clock)
  {
    c.nextUnblock == if c.delayed == [] then MAX_DELAY else c.delayed[0].key
  }

  lemma {:induction false} BlockKeepsAlarm(c: Clock, task: nat, ticksToWait: Tick)
    requires Formed(c) && AlarmAtHead(c)
    ensures AlarmAtHead(Block(c, task, ticksToWait))
  {
    var timeToWake := Wrap(c.tickCount + ticksToWait);
    if timeToWake >= c.tickCount {
      HeadOfInsert(c.delayed, Entry(task, timeToWake));
    }
    hide Sorted, Insert, Wrap;
  }

  lemma {:induction false} HeadOfInsert(s: seq<Entry>, e: Entry)
    ensures Insert(s, e) != []
    ensures Insert(s, e)[0] == if s == [] || s[0].key > e.key then e else s[0]
  {
    var p := Position(s, e.key);
    hide Sorted, Position;
    assert p == 0 <==> s == [] || s[0].key > e.key;
  }

  /** A tick keeps the alarm at the head; one that wraps the counter or reaches
      the alarm sets it there, wherever it was. */
  lemma {:induction false} TickSetsAlarm(c: Clock)
    requires Valid(c)
    requires AlarmAtHead(c) || c.tickCount == MAX_DELAY || c.tickCount + 1 >= c.nextUnblock
    ensures AlarmAtHead(IncrementTick(c).clock)
  {
    TickIsAdvance(c);
    if c.tickCount == MAX_DELAY {
      assert Formed(SwitchLists(c)) && AlarmAtHead(SwitchLists(c));
      hide Formed, AlarmAtHead, SwitchLists, IncrementTick, Advance;
      AdvanceSetsAlarm(SwitchLists(c), 0);
    } else {
      hide Formed, AlarmAtHead, SwitchLists, IncrementTick, Advance;
      AdvanceSetsAlarm(c, c.tickCount + 1);
    }
  }

  lemma {:induction false} AdvanceSetsAlarm(c: Clock, tickCount: Tick)
    requires Formed(c) && (AlarmAtHead(c) || tickCount >= c.nextUnblock)
    ensures AlarmAtHead(Advance(c, tickCount).clock)
  {
    AlarmAfterAdvance(c, tickCount);
    hide Sorted, Ranged, AlarmSet, Advance, Beyond;
  }

  /** Between wraps, such an alarm is the next instant at which a tick readies
      anybody. */
  lemma {:induction false} AlarmIsNextWake(c: Clock)
    requires Valid(c) && AlarmAtHead(c) && c.tickCount < MAX_DELAY
    ensures IncrementTick(c).readied != [] <==> c.delayed != [] && c.nextUnblock == c.tickCount + 1
  {
    TickIsAdvance(c);
    AdvanceKeeps(c, c.tickCount + 1);
    hide Sorted, Ranged, AlarmSet, IncrementTick, Advance, Beyond;
    assert UpTo(c.delayed, c.tickCount + 1) != [] <==> c.delayed != [] && c.delayed[0].key <= c.tickCount + 1;
    assert |Items(UpTo(c.delayed, c.tickCount + 1))| == |UpTo(c.delayed, c.tickCount + 1)|;
  }
}
