/** What each kernel step does to the tasks: to which list the one it is about
    goes, with what priority, and that all others stay where and as they are. */
module Effects {

  import opened Registries
  import opened Kernel

  /** A task's state item is in a list. */
  predicate InList(k: Kernel, t: nat, list: nat)
  {
    t in k.tcbs && t in k.states.at && k.states.at[t] == list
  }

  predicate InEvent(k: Kernel, t: nat, event: nat)
  {
    t in k.events.at && k.events.at[t] == event
  }

  predicate ReadyNow(k: Kernel, t: nat)
  {
    t in k.tcbs && InList(k, t, k.tcbs[t].priority) && t !in k.events.at
  }

  predicate SameTcb(k: Kernel, k': Kernel, t: nat)
  {
    t in k.tcbs && t in k'.tcbs && k'.tcbs[t] == k.tcbs[t]
  }

  /** Two maps are the same but for one key. */
  ghost predicate SameBut<V>(m: map<nat, V>, m': map<nat, V>, t: nat)
  {
    forall u :: u != t ==> (u in m <==> u in m') && (u in m ==> m'[u] == m[u])
  }

  lemma {:induction false} Updated<V>(m: map<nat, V>, t: nat)
    ensures SameBut(m, m, t) && SameBut(m, m - {t}, t)
    ensures forall v {:trigger m[t := v]} :: SameBut(m, m[t := v], t)
    ensures forall v {:trigger (m - {t})[t := v]} :: SameBut(m, (m - {t})[t := v], t)
  {
  }

  /** All tasks but one are where and as they were. */
  ghost predicate OthersStay(k: Kernel, k': Kernel, t: nat)
  {
    SameBut(k.tcbs, k'.tcbs, t) && SameBut(k.states.at, k'.states.at, t) && SameBut(k.events.at, k'.events.at, t)
  }

  /** Nothing else changes. */
  predicate SameRest(k: Kernel, k': Kernel)
  {
    k'.current == k.current && k'.schedulerSuspended == k.schedulerSuspended && k'.swapped == k.swapped
  }

  /** Readied by an event: at once, or held pending while the scheduler is
      suspended. */
  predicate ReadiedBy(k: Kernel, k': Kernel, t: nat)
  {
    && SameTcb(k, k', t)
    && if k.schedulerSuspended == 0 then ReadyNow(k', t)
       else t in k.states.at && InList(k', t, k.states.at[t]) && InEvent(k', t, PENDING_READY)
  }

  /** With another priority, in its ready list if it was ready. */
  predicate Moves(k: Kernel, k': Kernel, t: nat, priority: nat)
  {
    && t in k.tcbs && t in k'.tcbs && t in k.states.at
    && k'.tcbs[t].priority == priority
    && InList(k', t, if IsReady(k, t) then priority else k.states.at[t])
    && (t in k.events.at <==> t in k'.events.at) && (t in k.events.at ==> k'.events.at[t] == k.events.at[t])
  }

  // ---------------------------------------------------------------------
  // The building blocks
  // ---------------------------------------------------------------------

  lemma {:induction false} ParkedMaps(k: Kernel, t: nat, list: nat)
    requires HasState(k, t) && list < STATE_LISTS
    ensures var k' := Parked(k, t, list);
            && k'.states.at == k.states.at[t := list] && k'.tcbs == k.tcbs && k'.events == k.events && SameRest(k, k')
            && k'.count == k.count && k'.toCleanUp == k.toCleanUp
  {
    RemoveAt(k.states, t);
    hide Remove, BitsAfterRemoval;
  }

  lemma {:induction false} ReadiedMaps(k: Kernel, t: nat)
    requires HasState(k, t)
    ensures var k' := Readied(k, t);
            && k'.states.at == k.states.at[t := k.tcbs[t].priority] && k'.tcbs == k.tcbs && k'.events == k.events
            && SameRest(k, k')
  {
    RemoveAt(k.states, t);
    hide Remove;
  }

  lemma {:induction false} UnawaitedMaps(k: Kernel, t: nat)
    requires t in k.events.at ==> k.events.at[t] < |k.events.lists|
    ensures var k' := Unawaited(k, t);
            && k'.events.at == k.events.at - {t} && |k'.events.lists| == |k.events.lists|
            && k' == k.(events := k'.events) && (HasState(k, t) ==> HasState(k', t))
  {
    if t in k.events.at {
      RemoveAt(k.events, t);
    }
  }

  lemma {:induction false} ReprioritisedMaps(k: Kernel, t: nat, tcb: Tcb)
    requires HasState(k, t) && tcb.priority < MAX_PRIORITIES
    ensures var k' := Reprioritised(k, t, tcb);
            && k'.tcbs == k.tcbs[t := tcb] && k'.events == k.events && SameRest(k, k')
            && k'.states.at
               == if k.states.at[t] == k.tcbs[t].priority then k.states.at[t := tcb.priority] else k.states.at
  {
    RemoveAt(k.states, t);
    hide Remove, BitsAfterRemoval;
  }

  lemma {:induction false} LoweredMaps(k: Kernel, t: nat, tcb: Tcb)
    requires HasState(k, t) && tcb.priority < MAX_PRIORITIES
    ensures var k' := Lowered(k, t, tcb);
            && k'.tcbs == k.tcbs[t := tcb] && k'.events == k.events && SameRest(k, k')
            && k'.states.at
               == if k.states.at[t] == k.tcbs[t].priority then k.states.at[t := tcb.priority] else k.states.at
  {
    RemoveAt(k.states, t);
    hide Remove;
  }

  // ---------------------------------------------------------------------
  // The steps
  // ---------------------------------------------------------------------

  /** The running task blocks, with a time-out or without. */
  lemma {:induction false} BlockEffect(k: Kernel, list: nat)
    requires Sound(k) && Enabled(k, Delay(list))
    ensures Defined(k, Delay(list))
    ensures var k' := Next(k, Delay(list));
            && OthersStay(k, k', k.current) && SameRest(k, k') && SameTcb(k, k', k.current)
            && InList(k', k.current, list) && k.current !in k'.events.at
  {
    hide Defined, Sound, SameBut, HasState;
    Updated(k.tcbs, k.current);
    Updated(k.states.at, k.current);
    Updated(k.events.at, k.current);
    SoundIsDefined(k, Delay(list));
    SoundHasState(k, k.current);
    ParkedMaps(k, k.current, list);
    hide Parked;
  }

  /** The same for an event. */
  lemma {:induction false} WaitForEffect(k: Kernel, event: nat, list: nat)
    requires Sound(k) && Enabled(k, WaitFor(event, list))
    ensures Defined(k, WaitFor(event, list))
    ensures var k' := Next(k, WaitFor(event, list));
            && OthersStay(k, k', k.current) && SameRest(k, k') && SameTcb(k, k', k.current)
            && InList(k', k.current, list) && InEvent(k', k.current, event)
  {
    hide Defined, Sound, SameBut, HasState;
    Updated(k.tcbs, k.current);
    Updated(k.states.at, k.current);
    Updated(k.events.at, k.current);
    SoundIsDefined(k, WaitFor(event, list));
    SoundHasState(k, k.current);
    ParkedMaps(k, k.current, list);
    hide Parked;
  }

  lemma {:induction false} ReadiedEffect(k: Kernel, t: nat)
    requires Sound(k) && t in k.tcbs && IsBlocked(k.states.at[t])
    ensures HasState(k, t) && (t in k.events.at ==> k.events.at[t] < |k.events.lists|)
    ensures HasState(Unawaited(k, t), t)
    ensures var k' := Readied(Unawaited(k, t), t);
            OthersStay(k, k', t) && SameRest(k, k') && SameTcb(k, k', t) && ReadyNow(k', t)
  {
    hide Defined, Sound, SameBut, HasState;
    Updated(k.tcbs, t);
    Updated(k.states.at, t);
    Updated(k.events.at, t);
    SoundHasState(k, t);
    EventsAreListed(k);
    UnawaitedMaps(k, t);
    assert HasState(Unawaited(k, t), t);
    ReadiedMaps(Unawaited(k, t), t);
    hide Readied, Unawaited;
  }

  lemma {:induction false} WokenEffect(k: Kernel, t: nat)
    requires Sound(k) && t in k.tcbs && IsBlocked(k.states.at[t])
    ensures HasState(k, t) && 0 < |k.events.lists| && (t in k.events.at ==> k.events.at[t] < |k.events.lists|)
    ensures OthersStay(k, Woken(k, t), t) && SameRest(k, Woken(k, t)) && ReadiedBy(k, Woken(k, t), t)
  {
    hide Defined, Sound, SameBut, HasState;
    Updated(k.tcbs, t);
    Updated(k.states.at, t);
    Updated(k.events.at, t);
    SoundHasState(k, t);
    EventsAreListed(k);
    UnawaitedMaps(k, t);
    if k.schedulerSuspended == 0 {
      ReadiedEffect(k, t);
      hide Readied, Unawaited, HasState, OthersStay, ReadyNow, SameTcb;
    } else {
      hide Unawaited;
    }
  }

  /** An event readies the task that waited for it, and nobody else. */
  lemma {:induction false} EventEffect(k: Kernel, event: nat, t: nat)
    requires Sound(k) && Enabled(k, Event(event, t))
    ensures Defined(k, Event(event, t))
    ensures var k' := Next(k, Event(event, t)); OthersStay(k, k', t) && SameRest(k, k') && ReadiedBy(k, k', t)
  {
    hide Defined, Sound, SameBut;
    SoundIsDefined(k, Event(event, t));
    BlockedFacts(k, event, t);
    hide Woken, ReadiedBy, OthersStay;
    WokenEffect(k, t);
  }

  /** So does an event group, which has the scheduler suspended. */
  lemma {:induction false} UnorderedEventEffect(k: Kernel, event: nat, t: nat)
    requires Sound(k) && Enabled(k, UnorderedEvent(event, t))
    ensures Defined(k, UnorderedEvent(event, t))
    ensures var k' := Next(k, UnorderedEvent(event, t));
            OthersStay(k, k', t) && SameRest(k, k') && SameTcb(k, k', t) && ReadyNow(k', t)
  {
    hide Defined, Sound, SameBut;
    SoundIsDefined(k, UnorderedEvent(event, t));
    BlockedFacts(k, event, t);
    hide Readied, Unawaited, OthersStay;
    ReadiedEffect(k, t);
  }

  /** A task whose block time is over is ready, and waits for no event. */
  lemma {:induction false} ExpireEffect(k: Kernel, t: nat)
    requires Sound(k) && Enabled(k, Expire(t))
    ensures Defined(k, Expire(t))
    ensures var k' := Next(k, Expire(t));
            OthersStay(k, k', t) && SameRest(k, k') && SameTcb(k, k', t) && ReadyNow(k', t)
  {
    hide Defined, Sound, SameBut;
    SoundIsDefined(k, Expire(t));
    hide Readied, Unawaited, OthersStay;
    ReadiedEffect(k, t);
  }

  /** Notifying a task that waits for a notification readies it. */
  lemma {:induction false} NotifyEffect(k: Kernel, t: nat)
    requires Sound(k) && Enabled(k, Notify(t))
    ensures Defined(k, Notify(t))
    ensures var k' := Next(k, Notify(t));
            OthersStay(k, k', t) && SameRest(k, k') && SameTcb(k, k', t) && ReadyNow(k', t)
  {
    hide Defined, Sound, SameBut;
    SoundIsDefined(k, Notify(t));
    assert Unawaited(k, t) == k;
    hide Readied, OthersStay;
    ReadiedEffect(k, t);
  }

  lemma {:induction false} NotifyFromIsrEffect(k: Kernel, t: nat)
    requires Sound(k) && Enabled(k, NotifyFromIsr(t))
    ensures Defined(k, NotifyFromIsr(t))
    ensures var k' := Next(k, NotifyFromIsr(t)); OthersStay(k, k', t) && SameRest(k, k') && ReadiedBy(k, k', t)
  {
    hide Defined, Sound, SameBut;
    SoundIsDefined(k, NotifyFromIsr(t));
    hide Woken, ReadiedBy, OthersStay;
    WokenEffect(k, t);
  }

  /** A suspended task is in the suspended list whatever it did before, and
      waits for nothing. */
  lemma {:induction false} SuspendEffect(k: Kernel, t: nat)
    requires Sound(k) && Enabled(k, Suspend(t))
    ensures Defined(k, Suspend(t))
    ensures var k' := Next(k, Suspend(t));
            && OthersStay(k, k', t) && SameRest(k, k') && SameTcb(k, k', t)
            && InList(k', t, SUSPENDED) && t !in k'.events.at
  {
    hide Defined, Sound, SameBut, HasState;
    Updated(k.tcbs, t);
    Updated(k.states.at, t);
    Updated(k.events.at, t);
    SoundIsDefined(k, Suspend(t));
    SoundHasState(k, t);
    EventsAreListed(k);
    UnawaitedMaps(k, t);
    ParkedMaps(Unawaited(k, t), t, SUSPENDED);
    hide Parked, Unawaited;
  }

  /** A task that is resumed is ready, or pending while the scheduler is
      suspended and an interrupt resumes it. */
  lemma {:induction false} ResumeEffect(k: Kernel, t: nat)
    requires Sound(k) && Enabled(k, Resume(t))
    ensures Defined(k, Resume(t))
    ensures var k' := Next(k, Resume(t));
            OthersStay(k, k', t) && SameRest(k, k') && SameTcb(k, k', t) && ReadyNow(k', t)
  {
    hide Defined, Sound, SameBut;
    SoundIsDefined(k, Resume(t));
    assert Unawaited(k, t) == k;
    hide Readied, OthersStay;
    ReadiedEffect(k, t);
  }

  lemma {:induction false} ResumeFromIsrEffect(k: Kernel, t: nat)
    requires Sound(k) && Enabled(k, ResumeFromIsr(t))
    ensures Defined(k, ResumeFromIsr(t))
    ensures var k' := Next(k, ResumeFromIsr(t)); OthersStay(k, k', t) && SameRest(k, k') && ReadiedBy(k, k', t)
  {
    hide Defined, Sound, SameBut;
    SoundIsDefined(k, ResumeFromIsr(t));
    hide Woken, ReadiedBy, OthersStay;
    WokenEffect(k, t);
  }

  lemma {:induction false} ReprioritisedEffect(k: Kernel, t: nat, tcb: Tcb)
    requires Sound(k) && t in k.tcbs && InRange(tcb)
    ensures HasState(k, t)
    ensures var k' := Reprioritised(k, t, tcb);
            && OthersStay(k, k', t) && SameRest(k, k') && Moves(k, k', t, tcb.priority) && k'.tcbs[t].base == tcb.base
  {
    hide Defined, Sound, SameBut, HasState;
    Updated(k.tcbs, t);
    Updated(k.states.at, t);
    Updated(k.events.at, t);
    SoundHasState(k, t);
    ReprioritisedMaps(k, t, tcb);
    hide Reprioritised;
  }

  /** After vTaskPrioritySet the base priority is the one given. The priority is
      that too, and the task in that ready list if it is ready, unless it is
      inheriting: then both stay. */
  lemma {:induction false} SetPriorityEffect(k: Kernel, t: nat, priority: nat)
    requires Sound(k) && Enabled(k, SetPriority(t, priority))
    ensures Defined(k, SetPriority(t, priority))
    ensures var k' := Next(k, SetPriority(t, priority));
            && OthersStay(k, k', t) && SameRest(k, k') && t in k.tcbs && t in k'.tcbs && k'.tcbs[t].base == priority
            && Moves(k, k', t, if k.tcbs[t].priority == k.tcbs[t].base then priority else k.tcbs[t].priority)
  {
    hide Defined, Sound, SameBut, HasState;
    Updated(k.tcbs, t);
    Updated(k.states.at, t);
    Updated(k.events.at, t);
    SoundIsDefined(k, SetPriority(t, priority));
    PriorityFacts(k, t);
    if k.tcbs[t].base == priority {
      SoundHasState(k, t);
    } else {
      hide Reprioritised, Moves, OthersStay;
      ReprioritisedEffect(k, t, PrioritySet(k.tcbs[t], priority));
    }
  }

  /** A holder inherits the priority of the running task, and keeps its base. */
  lemma {:induction false} InheritEffect(k: Kernel, t: nat)
    requires Sound(k) && Enabled(k, Inherit(t))
    ensures Defined(k, Inherit(t))
    ensures var k' := Next(k, Inherit(t));
            && OthersStay(k, k', t) && SameRest(k, k') && k.current in k.tcbs && t in k'.tcbs
            && Moves(k, k', t, k.tcbs[k.current].priority) && k'.tcbs[t].base == k.tcbs[t].base
  {
    hide Defined, Sound, SameBut;
    SoundIsDefined(k, Inherit(t));
    PriorityFacts(k, k.current);
    PriorityFacts(k, t);
    hide Reprioritised, Moves, OthersStay;
    ReprioritisedEffect(k, t, k.tcbs[t].(priority := k.tcbs[k.current].priority));
  }

  /** The running task goes back to its base priority. */
  lemma {:induction false} DisinheritEffect(k: Kernel)
    requires Sound(k) && Enabled(k, Disinherit)
    ensures Defined(k, Disinherit)
    ensures var k' := Next(k, Disinherit);
            && OthersStay(k, k', k.current) && SameRest(k, k') && k.current in k'.tcbs
            && Moves(k, k', k.current, k.tcbs[k.current].base) && k'.tcbs[k.current].base == k.tcbs[k.current].base
  {
    hide Defined, Sound, SameBut, HasState;
    Updated(k.tcbs, k.current);
    Updated(k.states.at, k.current);
    Updated(k.events.at, k.current);
    SoundIsDefined(k, Disinherit);
    PriorityFacts(k, k.current);
    SoundHasState(k, k.current);
    if k.tcbs[k.current].priority != k.tcbs[k.current].base {
      hide Reprioritised, Moves, OthersStay;
      ReprioritisedEffect(k, k.current, k.tcbs[k.current].(priority := k.tcbs[k.current].base));
    }
  }

  /** A holder is given a lower priority after a time-out. */
  lemma {:induction false} LowerEffect(k: Kernel, t: nat, priority: nat)
    requires Sound(k) && Enabled(k, LowerAfterTimeOut(t, priority))
    ensures Defined(k, LowerAfterTimeOut(t, priority))
    ensures var k' := Next(k, LowerAfterTimeOut(t, priority));
            && OthersStay(k, k', t) && SameRest(k, k') && t in k.tcbs && t in k'.tcbs
            && Moves(k, k', t, priority) && k'.tcbs[t].base == k.tcbs[t].base
  {
    hide Defined, Sound, SameBut, HasState;
    Updated(k.tcbs, t);
    Updated(k.states.at, t);
    Updated(k.events.at, t);
    SoundIsDefined(k, LowerAfterTimeOut(t, priority));
    SoundHasState(k, t);
    LoweredMaps(k, t, k.tcbs[t].(priority := priority));
    hide Lowered;
  }

  lemma {:induction false} NoEventYet(k: Kernel, t: nat)
    requires Sound(k) && t !in k.tcbs
    ensures t !in k.events.at
  {
  }

  /** A new task is ready. */
  lemma {:induction false} CreateEffect(k: Kernel, t: nat, priority: nat)
    requires Sound(k) && Enabled(k, Create(t, priority))
    ensures Defined(k, Create(t, priority))
    ensures var k' := Next(k, Create(t, priority));
            && OthersStay(k, k', t) && SameRest(k, k') && ReadyNow(k', t)
            && k'.tcbs[t] == Tcb(priority, priority) && k'.count == k.count + 1 && k'.toCleanUp == k.toCleanUp
  {
    hide Defined, Sound, SameBut, HasState;
    Updated(k.tcbs, t);
    Updated(k.states.at, t);
    Updated(k.events.at, t);
    SoundIsDefined(k, Create(t, priority));
    NoStateYet(k, t);
    NoEventYet(k, t);
  }

  /** A task that another deletes is gone. */
  lemma {:induction false} DeleteEffect(k: Kernel, t: nat)
    requires Sound(k) && Enabled(k, Delete(t)) && t != k.current
    ensures Defined(k, Delete(t))
    ensures var k' := Next(k, Delete(t));
            && OthersStay(k, k', t) && SameRest(k, k')
            && t !in k'.tcbs && t !in k'.states.at && t !in k'.events.at
            && k'.count == k.count - 1 && k'.toCleanUp == k.toCleanUp
  {
    hide Defined, Sound, SameBut, HasState;
    Updated(k.tcbs, t);
    Updated(k.states.at, t);
    Updated(k.events.at, t);
    SoundIsDefined(k, Delete(t));
    SoundHasState(k, t);
    EventsAreListed(k);
    UnawaitedMaps(k, t);
    RemoveAt(k.states, t);
    hide Unawaited, Remove, BitsAfterRemoval;
  }

  /** A task that deletes itself waits to be cleaned up. */
  lemma {:induction false} DeleteItselfEffect(k: Kernel)
    requires Sound(k) && Enabled(k, Delete(k.current))
    ensures Defined(k, Delete(k.current))
    ensures var k', t := Next(k, Delete(k.current)), k.current;
            && OthersStay(k, k', t) && SameRest(k, k') && SameTcb(k, k', t)
            && InList(k', t, TERMINATION) && t !in k'.events.at
            && k'.count == k.count && k'.toCleanUp == k.toCleanUp + 1
  {
    hide Defined, Sound, SameBut, HasState;
    Updated(k.tcbs, k.current);
    Updated(k.states.at, k.current);
    Updated(k.events.at, k.current);
    SoundIsDefined(k, Delete(k.current));
    SoundHasState(k, k.current);
    EventsAreListed(k);
    UnawaitedMaps(k, k.current);
    ParkedMaps(Unawaited(k, k.current), k.current, TERMINATION);
    hide Parked, Unawaited;
  }

  /** Which is done to the first that waits. */
  lemma {:induction false} ReapEffect(k: Kernel)
    requires Sound(k) && Enabled(k, Reap)
    ensures Defined(k, Reap) && |k.states.lists| == STATE_LISTS && k.states.lists[TERMINATION] != []
    ensures var k', t := Next(k, Reap), k.states.lists[TERMINATION][0];
            && OthersStay(k, k', t) && SameRest(k, k') && t !in k'.tcbs && t !in k'.states.at
            && k'.count == k.count - 1 && k'.toCleanUp == k.toCleanUp - 1
  {
    hide Defined, Sound, SameBut, HasState;
    SoundIsDefined(k, Reap);
    HeadOfTermination(k);
    Updated(k.tcbs, k.states.lists[TERMINATION][0]);
    Updated(k.states.at, k.states.lists[TERMINATION][0]);
    Updated(k.events.at, k.states.lists[TERMINATION][0]);
    RemoveAt(k.states, k.states.lists[TERMINATION][0]);
    hide Remove;
  }

  /** The steps that move no task. */
  lemma {:induction false} SimpleEffect(k: Kernel, step: Step)
    requires Sound(k) && Enabled(k, step)
    requires step.SwitchLists? || step.SuspendAll? || step.ResumeAll? || step.SwitchContext?
    ensures Defined(k, step)
    ensures var k' := Next(k, step);
            && k'.tcbs == k.tcbs && k'.states == k.states && k'.events == k.events
            && k'.current == (if step.SwitchContext? then step.task else k.current)
            && (step.SwitchLists? ==> DelayedList(k') != DelayedList(k))
            && (!step.SwitchLists? ==> DelayedList(k') == DelayedList(k))
            && k'.schedulerSuspended
               == k.schedulerSuspended + if step.SuspendAll? then 1 else if step.ResumeAll? then -1 else 0
  {
    hide Defined, Sound, SameBut;
    SoundIsDefined(k, step);
  }

  /** Resuming the scheduler readies the first of the pending tasks. */
  lemma {:induction false} ResumeOneEffect(k: Kernel)
    requires Sound(k) && Enabled(k, ResumeOne)
    ensures Defined(k, ResumeOne)
    ensures var k', t := Next(k, ResumeOne), k.events.lists[PENDING_READY][0];
            OthersStay(k, k', t) && SameRest(k, k') && SameTcb(k, k', t) && ReadyNow(k', t)
  {
    hide Defined, Sound, SameBut;
    SoundIsDefined(k, ResumeOne);
    BlockedFacts(k, PENDING_READY, k.events.lists[PENDING_READY][0]);
    hide Readied, Unawaited, OthersStay;
    ReadiedEffect(k, k.events.lists[PENDING_READY][0]);
  }
}
