/** The loops of tasks.c over the lists it keeps: waking delayed tasks at a
    tick or when ticks are skipped, moving pending tasks to the ready lists,
    cleaning up after deleted tasks, and looking for the next task to run. */
module Scheduler {

  import opened Ticks
  import opened SortedLists
  import D = DelayedLists
  import opened Registries
  import opened Kernel

  // ---------------------------------------------------------------------
  // The tick counter and the delayed lists
  // ---------------------------------------------------------------------

  lemma {:induction false} ItemsPop(s: seq<Entry>)
    requires s != []
    ensures Items(s) == [s[0].item] + Items(s[1..])
  {
    hide Sorted;
  }

  class TickClock {
    var tickCount: Tick
    var overflows: int
    var nextUnblock: Tick
    var delayed: seq<Entry>
    var overflow: seq<Entry>

    ghost function View(): D.Clock
      reads this
    {
      D.Clock(tickCount, overflows, nextUnblock, delayed, overflow)
    }

    /** taskSWITCH_DELAYED_LISTS, which ends in prvResetNextTaskUnblockTime. */
    method SwitchDelayedLists()
      requires D.Ranged(overflow)
      modifies this
      ensures View() == D.SwitchLists(old(View()))
    {
      delayed, overflow := overflow, delayed;
      overflows := overflows + 1;
      nextUnblock := if delayed == [] then MAX_DELAY else delayed[0].key;
    }

    /** The loop of xTaskIncrementTick. */
    method WakeDueTasks() returns (readied: seq<nat>)
      requires D.Ranged(delayed)
      modifies this`delayed, this`nextUnblock
      ensures D.Ticked(View(), readied) == D.Wake(old(View()))
    {
      readied := [];
      var more := true;
      while more
        invariant D.Ranged(delayed)
        invariant more ==> D.Ticked(D.Wake(View()).clock, readied + D.Wake(View()).readied) == D.Wake(old(View()))
        invariant !more ==> D.Ticked(View(), readied) == D.Wake(old(View()))
        decreases more, |delayed|
      {
        if delayed == [] {
          nextUnblock := MAX_DELAY;
          more := false;
        } else if tickCount < delayed[0].key {
          nextUnblock := delayed[0].key;
          more := false;
        } else {
          readied := readied + [delayed[0].item];
          delayed := delayed[1..];
        }
      }
    }

    /** xTaskIncrementTick for an accepted tick while the scheduler runs. */
    method IncrementTick() returns (readied: seq<nat>)
      requires D.Formed(View())
      modifies this
      ensures D.Ticked(View(), readied) == D.IncrementTick(old(View()))
    {
      hide D.Wake;
      readied := [];
      tickCount := Wrap(tickCount + 1);
      if tickCount == 0 {
        SwitchDelayedLists();
      }
      if tickCount >= nextUnblock {
        readied := WakeDueTasks();
      }
    }

    /** The ticks held back while the scheduler was suspended, replayed by
        xTaskResumeAll. */
    method ReplayTicks(pendedTicks: Tick) returns (readied: seq<nat>)
      requires D.Valid(View())
      modifies this
      ensures D.Ticked(View(), readied) == D.IncrementTicks(old(View()), pendedTicks)
      ensures D.Valid(View()) && D.Now(View()) == old(D.Now(View())) + pendedTicks
      ensures |readied| <= |old(D.Timeline(View()))|
      ensures readied == Items(old(D.Timeline(View()))[..|readied|])
      ensures D.Timeline(View()) == old(D.Timeline(View()))[|readied|..]
    {
      hide D.IncrementTick, D.Timeline, Items, Sorted, D.Ranged, D.AlarmSet, D.Now;
      readied := [];
      var left := pendedTicks;
      while left > 0
        invariant 0 <= left <= pendedTicks && D.Valid(View())
        invariant D.Ticked(View(), readied) == D.IncrementTicks(old(View()), pendedTicks - left)
      {
        D.TickRefines(View());
        var more := IncrementTick();
        readied := readied + more;
        left := left - 1;
      }
      D.TicksRefine(old(View()), pendedTicks);
    }

    /** The loop of vTaskStepTickSafe, which empties the current list. */
    method WakeAllDelayed() returns (readied: seq<nat>)
      modifies this`delayed
      ensures delayed == [] && readied == Items(old(delayed))
    {
      ghost var was := Items(delayed);
      readied := [];
      while delayed != []
        invariant readied + Items(delayed) == was
        decreases |delayed|
      {
        hide Items;
        ItemsPop(delayed);
        ghost var rest := Items(delayed[1..]);
        assert readied + ([delayed[0].item] + rest) == (readied + [delayed[0].item]) + rest;
        readied := readied + [delayed[0].item];
        delayed := delayed[1..];
      }
    }

    /** vTaskStepTickSafe. */
    method StepTickSafe(ticksToJump: Tick) returns (readied: seq<nat>)
      requires D.Formed(View())
      modifies this
      ensures D.Ticked(View(), readied) == D.StepTickSafe(old(View()), ticksToJump)
    {
      readied := [];
      var tickDelta := Wrap(0 - tickCount);
      if ticksToJump >= tickDelta {
        readied := WakeAllDelayed();
        SwitchDelayedLists();
      }
      tickCount := Wrap(tickCount + ticksToJump);
    }

    /** prvAddCurrentTaskToDelayedList; a task that may wait for ever is left
        to the suspended list. */
    method AddToDelayedList(task: nat, ticksToWait: Tick, canBlockIndefinitely: bool) returns (suspended: bool)
      modifies this
      ensures suspended == (ticksToWait == MAX_DELAY && canBlockIndefinitely)
      ensures View() == if suspended then old(View()) else D.Block(old(View()), task, ticksToWait)
    {
      hide Insert;
      suspended := ticksToWait == MAX_DELAY && canBlockIndefinitely;
      if !suspended {
        var timeToWake := Wrap(tickCount + ticksToWait);
        if timeToWake < tickCount {
          overflow := Insert(overflow, Entry(task, timeToWake));
        } else {
          delayed := Insert(delayed, Entry(task, timeToWake));
          if timeToWake < nextUnblock {
            nextUnblock := timeToWake;
          }
        }
      }
    }
  }

  // ---------------------------------------------------------------------
  // The pending and the deleted tasks
  // ---------------------------------------------------------------------

  /** xTaskResumeAll empties the pending ready list... */
  function Drained(k: Kernel): (r: Kernel)
    requires Sound(k) && k.schedulerSuspended == 1
    ensures Sound(r) && r.schedulerSuspended == 1 && 0 < |r.events.lists| && r.events.lists[PENDING_READY] == []
    decreases |k.events.at|
  {
    EventsAreListed(k);
    if k.events.lists[PENDING_READY] == [] then
      k
    else
      StepKeeps(k, ResumeOne);
      DrainShrinks(k);
      Drained(Next(k, ResumeOne))
  }

  lemma {:induction false} DrainShrinks(k: Kernel)
    requires Sound(k) && k.schedulerSuspended == 1
    requires 0 < |k.events.lists| && k.events.lists[PENDING_READY] != []
    ensures Defined(k, ResumeOne)
    ensures |Next(k, ResumeOne).events.at| < |k.events.at| && Next(k, ResumeOne).schedulerSuspended == 1
  {
    var t := k.events.lists[PENDING_READY][0];
    BlockedFacts(k, PENDING_READY, t);
    SoundIsDefined(k, ResumeOne);
    hide Sound, Defined;
    RemoveAt(k.events, t);
    var at := k.events.at - {t};
    assert at.Keys == k.events.at.Keys - {t};
    assert |at.Keys| == |at| && |k.events.at.Keys| == |k.events.at|;
  }

  /** ... and then resumes. */
  function ResumedAll(k: Kernel): (r: Kernel)
    requires Sound(k) && k.schedulerSuspended > 0
    ensures Sound(r) && r.schedulerSuspended == k.schedulerSuspended - 1
  {
    var k' := if k.schedulerSuspended == 1 then Drained(k) else k;
    EventsAreListed(k');
    StepKeeps(k', Step.ResumeAll);
    Next(k', Step.ResumeAll)
  }

  /** prvCheckTasksWaitingTermination. */
  function CleanedUp(k: Kernel): (r: Kernel)
    requires Sound(k)
    ensures Sound(r) && r.toCleanUp == 0 && r.states.lists[TERMINATION] == []
    decreases k.toCleanUp
  {
    if k.toCleanUp > 0 then
      StepKeeps(k, Reap);
      CleanedUp(Next(k, Reap))
    else
      k
  }

  lemma {:induction false} ReadiedPlaces(k: Kernel, h: nat, t: nat)
    requires HasState(k, h) && Linked(k.states) && t in k.states.at && h in k.states.at
    ensures Readied(k, h).tcbs == k.tcbs && IsReady(Readied(k, h), h)
    ensures t != h ==> t in Readied(k, h).states.at && Readied(k, h).states.at[t] == k.states.at[t]
    ensures Readied(k, h).events == k.events
  {
    MovedEffect(k.states, k.tcbs[h].priority, h);
    hide Linked, Moved;
  }

  lemma {:induction false} ResumeOneEffect(k: Kernel, t: nat)
    requires Sound(k) && Enabled(k, ResumeOne) && t in k.tcbs
    ensures Defined(k, ResumeOne)
    ensures var h, k' := k.events.lists[PENDING_READY][0], Next(k, ResumeOne);
            && k'.tcbs == k.tcbs && IsReady(k', h)
            && (t != h ==> t in k'.states.at && k'.states.at[t] == k.states.at[t])
            && (t in k.events.lists[PENDING_READY] && t != h ==> t in k'.events.lists[PENDING_READY])
  {
    hide Linked, Remove, Readied, Defined, StatesFormed, CountsMatch, BitsCover;
    var h := k.events.lists[PENDING_READY][0];
    SoundIsDefined(k, ResumeOne);
    BlockedFacts(k, PENDING_READY, h);
    StateFacts(k, t);
    StateFacts(k, h);
    ReadiedPlaces(Unawaited(k, h), h, t);
    PendingHead(k.events, k.states.at);
  }

  lemma {:induction false} PendingHead(events: Registry, at: map<nat, nat>)
    requires EventsFormed(at, events) && events.lists[PENDING_READY] != []
    ensures var h := events.lists[PENDING_READY][0];
            && h in events.at && events.at[h] == PENDING_READY
            && forall t :: t in events.lists[PENDING_READY] && t != h ==> t in Remove(events, h).lists[PENDING_READY]
  {
    var h := events.lists[PENDING_READY][0];
    assert h in events.lists[PENDING_READY];
    RemoveEffect(events, h);
    hide Remove;
  }

  /** Resuming the scheduler makes every pending task ready and takes no ready
      task off its list. */
  lemma {:induction false} PendingBecomeReady(k: Kernel, t: nat)
    requires Sound(k) && k.schedulerSuspended == 1 && t in k.tcbs && 0 < |k.events.lists|
    requires t in k.events.lists[PENDING_READY] || IsReady(k, t)
    ensures IsReady(Drained(k), t) && Drained(k).tcbs == k.tcbs
    decreases |k.events.at|
  {
    hide Sound, Defined, Next;
    if k.events.lists[PENDING_READY] == [] {
    } else {
      StepKeeps(k, ResumeOne);
      DrainShrinks(k);
      ResumeOneEffect(k, t);
      var k' := Next(k, ResumeOne);
      EventsAreListed(k');
      PendingBecomeReady(k', t);
    }
  }

  lemma {:induction false} ReapEffect(k: Kernel, t: nat)
    requires Sound(k) && Enabled(k, Reap) && t in k.tcbs
    ensures Defined(k, Reap)
    ensures var h, k' := k.states.lists[TERMINATION][0], Next(k, Reap);
            && k'.tcbs == k.tcbs - {h} && k.states.at[h] == TERMINATION
            && k'.count == k.count - 1 && k'.toCleanUp == k.toCleanUp - 1
            && (t != h ==> t in k'.states.at && k'.states.at[t] == k.states.at[t])
  {
    SoundIsDefined(k, Reap);
    HeadOfTermination(k);
    RemoveAt(k.states, k.states.lists[TERMINATION][0]);
    SoundHasState(k, t);
    hide Sound, Remove;
  }

  /** Cleaning up forgets the tasks in the termination list, and no others. */
  lemma {:induction false} CleanUpExact(k: Kernel, t: nat)
    requires Sound(k)
    ensures t in CleanedUp(k).tcbs <==> t in k.tcbs && !(t in k.states.at && k.states.at[t] == TERMINATION)
    ensures CleanedUp(k).count == k.count - k.toCleanUp
    decreases k.toCleanUp
  {
    if k.toCleanUp > 0 {
      StepKeeps(k, Reap);
      var h := k.states.lists[TERMINATION][0];
      ReapEffect(k, h);
      if t in k.tcbs {
        ReapEffect(k, t);
      }
      CleanUpExact(Next(k, Reap), t);
      hide Sound, Defined, Next;
    } else if t in k.tcbs {
      NobodyTerminated(k, t);
    }
  }

  lemma {:induction false} NobodyTerminated(k: Kernel, t: nat)
    requires Sound(k) && k.toCleanUp <= 0 && t in k.tcbs
    ensures t in k.states.at && k.states.at[t] != TERMINATION
  {
    assert t in k.states.lists[k.states.at[t]];
  }

  /** The task lists as the kernel changes them. */
  class TaskLists {
    var tcbs: map<nat, Tcb>
    var states: Registry
    var events: Registry
    var current: nat
    var count: int
    var toCleanUp: int
    var schedulerSuspended: nat
    var topReady: set<nat>
    var swapped: bool

    ghost function View(): Kernel
      reads this
    {
      Kernel(tcbs, states, events, current, count, toCleanUp, schedulerSuspended, topReady, swapped)
    }

    /** prvAddTaskToReadyList, after its state item has left another list. */
    method MoveToReadyList(t: nat)
      requires HasState(View(), t)
      modifies this`states, this`topReady
      ensures View() == Readied(old(View()), t)
      ensures old(Linked(states)) ==>
                && Linked(states) && states.at == old(states.at)[t := tcbs[t].priority]
                && |states.lists| == |old(states.lists)|
                && forall j :: 0 <= j < |states.lists| ==>
                     states.lists[j] == Less(old(states.lists)[j], t) + if j == tcbs[t].priority then [t] else []
    {
      ghost var was := states;
      hide Linked;
      if Linked(states) {
        MovedEffect(states, tcbs[t].priority, t);
        forall j | 0 <= j < |states.lists|
          ensures Moved(states, tcbs[t].priority, t).lists[j]
                  == Less(states.lists[j], t) + if j == tcbs[t].priority then [t] else []
        {
          MovedOrder(states, tcbs[t].priority, t, j);
        }
      }
      states := Remove(states, t);
      topReady := topReady + {tcbs[t].priority};
      states := Add(states, tcbs[t].priority, t);
    }

    /** The body of the loop in xTaskResumeAll. */
    method MovePendingTask()
      requires Enabled(View(), ResumeOne) && Defined(View(), ResumeOne)
      requires events.lists[PENDING_READY][0] in events.at
      modifies this`states, this`topReady, this`events
      ensures View() == Next(old(View()), ResumeOne)
    {
      var t := events.lists[PENDING_READY][0];
      events := Remove(events, t);
      hide Remove, Moved;
      MoveToReadyList(t);
    }

    /** The loop of xTaskResumeAll. */
    method MovePendingTasks()
      requires Sound(View()) && schedulerSuspended == 1
      modifies this`states, this`topReady, this`events
      ensures View() == Drained(old(View()))
    {
      hide Sound, Next, Defined;
      EventsAreListed(View());
      while events.lists[PENDING_READY] != []
        invariant Sound(View()) && schedulerSuspended == 1 && 0 < |events.lists|
        invariant Drained(View()) == Drained(old(View()))
        decreases |events.at|
      {
        DrainShrinks(View());
        StepKeeps(View(), ResumeOne);
        BlockedFacts(View(), PENDING_READY, events.lists[PENDING_READY][0]);
        MovePendingTask();
        EventsAreListed(View());
      }
    }

    /** xTaskResumeAll, without the ticks held back meanwhile. */
    method ResumeAll()
      requires Sound(View()) && schedulerSuspended > 0
      modifies this
      ensures View() == ResumedAll(old(View()))
    {
      hide Sound, Drained;
      if schedulerSuspended == 1 {
        MovePendingTasks();
      }
      schedulerSuspended := schedulerSuspended - 1;
    }

    /** The body of the loop in prvCheckTasksWaitingTermination. */
    method CleanUpTask()
      requires Enabled(View(), Reap) && Defined(View(), Reap)
      modifies this`states, this`count, this`toCleanUp, this`tcbs
      ensures View() == Next(old(View()), Reap) && toCleanUp == old(toCleanUp) - 1
    {
      hide Remove;
      var t := states.lists[TERMINATION][0];
      states := Remove(states, t);
      count := count - 1;
      toCleanUp := toCleanUp - 1;
      tcbs := tcbs - {t};
    }

    /** prvCheckTasksWaitingTermination. */
    method CheckTasksWaitingTermination()
      requires Sound(View())
      modifies this`states, this`count, this`toCleanUp, this`tcbs
      ensures View() == CleanedUp(old(View()))
    {
      hide Sound, Next, Defined;
      while toCleanUp > 0
        invariant Sound(View())
        invariant CleanedUp(View()) == CleanedUp(old(View()))
        decreases toCleanUp
      {
        StepKeeps(View(), Reap);
        CleanUpTask();
      }
    }

    /** The generic taskSELECT_HIGHEST_PRIORITY_TASK, from any priority that is
        not too low. Taking the next task of the list is another matter. */
    method HighestReadyPriority(from: nat) returns (top: nat)
      requires from < |states.lists| && exists l :: 0 <= l <= from && states.lists[l] != []
      ensures top == Scan(states.lists, from)
    {
      top := from;
      while states.lists[top] == []
        invariant top <= from && exists l :: 0 <= l <= top && states.lists[l] != []
        invariant Scan(states.lists, top) == Scan(states.lists, from)
        decreases top
      {
        top := top - 1;
      }
    }
  }
}
