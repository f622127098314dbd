/** Where the kernel keeps its tasks: a ready list for each priority, two
    delayed lists, the suspended and the termination list for their state
    items; event lists and the pending ready list for their event items. */
module Kernel {

  import opened Registries

  const MAX_PRIORITIES: nat := 32

  // The lists of state items. The ready lists are numbered by their priority.
  const DELAYED_1: nat := 32
  const DELAYED_2: nat := 33
  const SUSPENDED: nat := 34
  const TERMINATION: nat := 35
  const STATE_LISTS: nat := 36

  // The list of event items that is not an event's.
  const PENDING_READY: nat := 0

  datatype Tcb = Tcb(priority: nat, base: nat)

  /** `topReady` is the set of priorities whose bit is set in
      uxTopReadyPriority; `swapped` says which of the two lists is the current
      delayed list. */
  datatype Kernel = Kernel(
    tcbs: map<nat, Tcb>,
    states: Registry,
    events: Registry,
    current: nat,
    count: int,
    toCleanUp: int,
    schedulerSuspended: nat,
    topReady: set<nat>,
    swapped: bool)

  function DelayedList(k: Kernel): nat
  {
    if k.swapped then DELAYED_2 else DELAYED_1
  }

  predicate IsBlocked(list: nat)
  {
    list == DELAYED_1 || list == DELAYED_2 || list == SUSPENDED
  }

  // ---------------------------------------------------------------------
  // What is promised
  // ---------------------------------------------------------------------

  predicate InRange(tcb: Tcb)
  {
    tcb.priority < MAX_PRIORITIES && tcb.base < MAX_PRIORITIES
  }

  ghost predicate SameTasks(tcbs: map<nat, Tcb>, at: map<nat, nat>)
  {
    forall t :: t in at <==> t in tcbs
  }

  predicate ReadyByPriority(tcbs: map<nat, Tcb>, at: map<nat, nat>)
  {
    && (forall t :: t in tcbs ==> InRange(tcbs[t]))
    && (forall t :: t in at && at[t] < MAX_PRIORITIES ==> t in tcbs && at[t] == tcbs[t].priority)
  }

  /** Every task there is has its state item in exactly one list, a ready task
      in that of its priority. */
  ghost predicate StatesFormed(tcbs: map<nat, Tcb>, states: Registry)
  {
    && Linked(states) && |states.lists| == STATE_LISTS
    && SameTasks(tcbs, states.at) && ReadyByPriority(tcbs, states.at)
  }

  /** Event items are in at most one list, and only those of blocked tasks. */
  ghost predicate EventsFormed(at: map<nat, nat>, events: Registry)
  {
    && Linked(events) && 0 < |events.lists|
    && (forall t :: t in events.at ==> t in at && IsBlocked(at[t]))
  }

  ghost predicate CountsMatch(states: Registry, count: int, toCleanUp: int)
  {
    && |states.lists| == STATE_LISTS
    && count == Total(states.lists)
    && toCleanUp == |states.lists[TERMINATION]|
  }

  /** Tasks are held pending only while the scheduler is suspended. */
  predicate PendingInOrder(events: Registry, schedulerSuspended: nat)
  {
    0 < |events.lists| && (events.lists[PENDING_READY] != [] ==> schedulerSuspended > 0)
  }

  /** A priority with ready tasks has its bit set. */
  predicate BitsCover(states: Registry, topReady: set<nat>)
  {
    && |states.lists| == STATE_LISTS
    && (forall p :: p in topReady ==> p < MAX_PRIORITIES)
    && forall p :: 0 <= p < MAX_PRIORITIES && states.lists[p] != [] ==> p in topReady
  }

  /** And no other priority has. */
  predicate BitsExact(states: Registry, topReady: set<nat>)
  {
    && |states.lists| == STATE_LISTS
    && forall p :: p in topReady ==> p < MAX_PRIORITIES && states.lists[p] != []
  }

  ghost predicate Sound(k: Kernel)
  {
    && StatesFormed(k.tcbs, k.states) && EventsFormed(k.states.at, k.events)
    && CountsMatch(k.states, k.count, k.toCleanUp)
    && PendingInOrder(k.events, k.schedulerSuspended) && BitsCover(k.states, k.topReady)
  }

  predicate Exact(k: Kernel)
  {
    BitsExact(k.states, k.topReady)
  }

  // ---------------------------------------------------------------------
  // The building blocks
  // ---------------------------------------------------------------------

  ghost predicate HasState(k: Kernel, t: nat)
  {
    && t in k.states.at && k.states.at[t] < |k.states.lists| == STATE_LISTS
    && t in k.tcbs && InRange(k.tcbs[t])
  }

  /** The bits after a state item has been taken out of a list, and
      taskRESET_READY_PRIORITY if that left the list empty. */
  function BitsAfterRemoval(k: Kernel, t: nat): set<nat>
    requires HasState(k, t)
  {
    var p, lists := k.tcbs[t].priority, Remove(k.states, t).lists;
    if lists[k.states.at[t]] == [] && lists[p] == [] then k.topReady - {p} else k.topReady
  }

  /** From any list to one that is not a ready list. */
  function Parked(k: Kernel, t: nat, list: nat): Kernel
    requires HasState(k, t) && list < STATE_LISTS
  {
    k.(states := Moved(k.states, list, t), topReady := BitsAfterRemoval(k, t))
  }

  /** From a list that is not a ready list to the one of its priority. */
  function Readied(k: Kernel, t: nat): Kernel
    requires HasState(k, t)
  {
    var p := k.tcbs[t].priority;
    k.(states := Moved(k.states, p, t), topReady := k.topReady + {p})
  }

  /** The event item leaves its list, if it is in one. */
  function Unawaited(k: Kernel, t: nat): Kernel
    requires t in k.events.at ==> k.events.at[t] < |k.events.lists|
  {
    if t in k.events.at then k.(events := Remove(k.events, t)) else k
  }

  function Awaiting(k: Kernel, t: nat, event: nat): Kernel
    requires event < |k.events.lists|
  {
    k.(events := Add(k.events, event, t))
  }

  /** A new priority, and a new ready list if the task is ready. The old list
      loses its bit if it is left empty. */
  function Reprioritised(k: Kernel, t: nat, tcb: Tcb): Kernel
    requires HasState(k, t) && tcb.priority < MAX_PRIORITIES
  {
    var k' := k.(tcbs := k.tcbs[t := tcb]);
    if k.states.at[t] == k.tcbs[t].priority then
      k'.(states := Moved(k.states, tcb.priority, t), topReady := BitsAfterRemoval(k, t) + {tcb.priority})
    else
      k'
  }

  /** The same as vTaskPriorityDisinheritAfterTimeout does it, which clears the
      bit of the new priority instead. */
  function Lowered(k: Kernel, t: nat, tcb: Tcb): Kernel
    requires HasState(k, t) && tcb.priority < MAX_PRIORITIES
  {
    var k' := k.(tcbs := k.tcbs[t := tcb]);
    if k.states.at[t] == k.tcbs[t].priority then
      var emptied := Remove(k.states, t).lists[k.states.at[t]] == [];
      var bits := if emptied then k.topReady - {tcb.priority} else k.topReady;
      k'.(states := Moved(k.states, tcb.priority, t), topReady := bits + {tcb.priority})
    else
      k'
  }

  // ---------------------------------------------------------------------
  // They keep the promise
  // ---------------------------------------------------------------------

  lemma {:induction false} SoundHasState(k: Kernel, t: nat)
    requires Sound(k) && t in k.tcbs
    ensures HasState(k, t)
  {
  }

  lemma {:induction false} RelistedTasks(tcbs: map<nat, Tcb>, tcb: Tcb, at: map<nat, nat>, t: nat, list: nat)
    requires SameTasks(tcbs, at) && ReadyByPriority(tcbs, at) && InRange(tcb)
    requires list < MAX_PRIORITIES ==> list == tcb.priority
    ensures SameTasks(tcbs[t := tcb], at[t := list]) && ReadyByPriority(tcbs[t := tcb], at[t := list])
  {
  }

  lemma {:induction false} MovedStates(tcbs: map<nat, Tcb>, tcb: Tcb, states: Registry, t: nat, list: nat)
    requires StatesFormed(tcbs, states) && t in tcbs && list < STATE_LISTS && InRange(tcb)
    requires list < MAX_PRIORITIES ==> list == tcb.priority
    ensures StatesFormed(tcbs[t := tcb], Moved(states, list, t))
  {
    assert t in states.at;
    hide Linked, Moved, SameTasks, ReadyByPriority;
    MovedEffect(states, list, t);
    RelistedTasks(tcbs, tcb, states.at, t, list);
  }

  lemma {:induction false} MovedCounts(states: Registry, t: nat, list: nat, count: int, toCleanUp: int)
    requires Linked(states) && t in states.at && list < STATE_LISTS && CountsMatch(states, count, toCleanUp)
    requires states.at[t] != TERMINATION && list != TERMINATION
    ensures CountsMatch(Moved(states, list, t), count, toCleanUp)
  {
    MovedEffect(states, list, t);
    hide Linked, Moved;
  }

  lemma {:induction false} MovedEvents(states: Registry, events: Registry, t: nat, list: nat)
    requires Linked(states) && t in states.at && list < |states.lists| && EventsFormed(states.at, events)
    requires IsBlocked(list) || t !in events.at
    ensures EventsFormed(Moved(states, list, t).at, events)
  {
    MovedEffect(states, list, t);
    hide Linked, Moved;
  }

  /** The lists after a move, whichever two lists it involves. */
  lemma {:induction false} MovedLists(states: Registry, t: nat, list: nat)
    requires Linked(states) && t in states.at && list < |states.lists|
    ensures |Moved(states, list, t).lists| == |states.lists| && Moved(states, list, t).lists[list] != []
    ensures forall p :: 0 <= p < |states.lists| && p != list ==>
              Moved(states, list, t).lists[p] == Remove(states, t).lists[p]
    ensures forall p :: 0 <= p < |states.lists| && p != states.at[t] ==>
              Remove(states, t).lists[p] == states.lists[p]
  {
    RemoveEffect(states, t);
    AddEffect(Remove(states, t), list, t);
    hide Linked, Remove;
  }

  lemma {:induction false} ParkedBits(k: Kernel, t: nat, list: nat)
    requires HasState(k, t) && Linked(k.states) && MAX_PRIORITIES <= list < STATE_LISTS
    requires BitsCover(k.states, k.topReady)
    requires k.states.at[t] < MAX_PRIORITIES ==> k.states.at[t] == k.tcbs[t].priority
    ensures BitsCover(Parked(k, t, list).states, Parked(k, t, list).topReady)
    ensures Exact(k) ==> Exact(Parked(k, t, list))
  {
    MovedLists(k.states, t, list);
    hide Linked, Moved, Remove;
  }

  lemma {:induction false} StateFacts(k: Kernel, t: nat)
    requires StatesFormed(k.tcbs, k.states) && t in k.tcbs
    ensures HasState(k, t) && Linked(k.states)
    ensures k.states.at[t] < MAX_PRIORITIES ==> k.states.at[t] == k.tcbs[t].priority
    ensures k.tcbs[t := k.tcbs[t]] == k.tcbs
  {
  }

  lemma {:induction false} ParkedKeeps(k: Kernel, t: nat, list: nat)
    requires Sound(k) && t in k.tcbs && IsBlocked(list) && k.states.at[t] != TERMINATION
    ensures Sound(Parked(k, t, list))
    ensures Exact(k) ==> Exact(Parked(k, t, list))
  {
    hide StatesFormed, EventsFormed, CountsMatch, BitsCover, Exact, Linked, Moved, BitsAfterRemoval;
    StateFacts(k, t);
    MovedStates(k.tcbs, k.tcbs[t], k.states, t, list);
    MovedCounts(k.states, t, list, k.count, k.toCleanUp);
    MovedEvents(k.states, k.events, t, list);
    ParkedBits(k, t, list);
  }

  lemma {:induction false} ReadiedBits(k: Kernel, t: nat)
    requires HasState(k, t) && Linked(k.states) && BitsCover(k.states, k.topReady)
    requires k.states.at[t] >= MAX_PRIORITIES
    ensures BitsCover(Readied(k, t).states, Readied(k, t).topReady)
    ensures Exact(k) ==> Exact(Readied(k, t))
  {
    MovedLists(k.states, t, k.tcbs[t].priority);
    hide Linked, Moved, Remove;
  }

  lemma {:induction false} ReadiedKeeps(k: Kernel, t: nat)
    requires Sound(k) && t in k.tcbs && IsBlocked(k.states.at[t]) && t !in k.events.at
    ensures Sound(Readied(k, t))
    ensures Exact(k) ==> Exact(Readied(k, t))
  {
    hide StatesFormed, EventsFormed, CountsMatch, BitsCover, Exact, Linked, Moved;
    StateFacts(k, t);
    var p := k.tcbs[t].priority;
    MovedStates(k.tcbs, k.tcbs[t], k.states, t, p);
    MovedCounts(k.states, t, p, k.count, k.toCleanUp);
    MovedEvents(k.states, k.events, t, p);
    ReadiedBits(k, t);
  }

  lemma {:induction false} UnlistedEvents(at: map<nat, nat>, events: Registry, schedulerSuspended: nat, t: nat)
    requires EventsFormed(at, events) && PendingInOrder(events, schedulerSuspended) && t in events.at
    ensures EventsFormed(at, Remove(events, t)) && PendingInOrder(Remove(events, t), schedulerSuspended)
    ensures t !in Remove(events, t).at
  {
    RemoveLinked(events, t);
    RemoveEffect(events, t);
    RemoveAt(events, t);
    assert events.lists[events.at[t]] != [];
    hide Linked, Remove;
  }

  lemma {:induction false} UnawaitedKeeps(k: Kernel, t: nat)
    requires Sound(k)
    ensures Sound(Unawaited(k, t)) && t !in Unawaited(k, t).events.at
    ensures Exact(k) ==> Exact(Unawaited(k, t))
    ensures Unawaited(k, t) == k.(events := Unawaited(k, t).events)
  {
    hide StatesFormed, CountsMatch, BitsCover, PendingInOrder, BitsExact;
    if t in k.events.at {
      UnlistedEvents(k.states.at, k.events, k.schedulerSuspended, t);
    }
    hide Remove;
  }

  lemma {:induction false} ListedEvents(at: map<nat, nat>, events: Registry, schedulerSuspended: nat,
                                        t: nat, event: nat)
    requires EventsFormed(at, events) && PendingInOrder(events, schedulerSuspended)
    requires t !in events.at && t in at && IsBlocked(at[t]) && event < |events.lists|
    requires event == PENDING_READY ==> schedulerSuspended > 0
    ensures EventsFormed(at, Add(events, event, t)) && PendingInOrder(Add(events, event, t), schedulerSuspended)
  {
    AddLinked(events, event, t);
    AddEffect(events, event, t);
    hide Linked;
  }

  lemma {:induction false} AwaitingKeeps(k: Kernel, t: nat, event: nat)
    requires Sound(k) && t in k.tcbs && IsBlocked(k.states.at[t]) && t !in k.events.at && event < |k.events.lists|
    requires event == PENDING_READY ==> k.schedulerSuspended > 0
    ensures Sound(Awaiting(k, t, event))
    ensures Exact(k) ==> Exact(Awaiting(k, t, event))
  {
    StateFacts(k, t);
    hide StatesFormed, CountsMatch, BitsCover, PendingInOrder, EventsFormed, BitsExact, Add;
    ListedEvents(k.states.at, k.events, k.schedulerSuspended, t, event);
  }

  // ---------------------------------------------------------------------
  // Kernel calls
  // ---------------------------------------------------------------------

  /** prvAddNewTaskToReadyList. */
  function Created(k: Kernel, t: nat, priority: nat): Kernel
    requires priority < |k.states.lists|
  {
    k.(tcbs := k.tcbs[t := Tcb(priority, priority)], count := k.count + 1,
       states := Add(k.states, priority, t), topReady := k.topReady + {priority})
  }

  /** vTaskDelete of another task. */
  function Deleted(k: Kernel, t: nat): Kernel
    requires HasState(k, t) && (t in k.events.at ==> k.events.at[t] < |k.events.lists|)
  {
    var k' := Unawaited(k, t);
    k'.(states := Remove(k.states, t), topReady := BitsAfterRemoval(k, t),
        count := k.count - 1, tcbs := k.tcbs - {t})
  }

  /** vTaskDelete of the running task, which the idle task has to clean up. */
  function Terminated(k: Kernel): Kernel
    requires HasState(k, k.current)
    requires k.current in k.events.at ==> k.events.at[k.current] < |k.events.lists|
  {
    Parked(Unawaited(k, k.current), k.current, TERMINATION).(toCleanUp := k.toCleanUp + 1)
  }

  /** One round of prvCheckTasksWaitingTermination. */
  function Reaped(k: Kernel): Kernel
    requires |k.states.lists| == STATE_LISTS && k.states.lists[TERMINATION] != []
    requires k.states.lists[TERMINATION][0] in k.states.at
    requires k.states.at[k.states.lists[TERMINATION][0]] < |k.states.lists|
  {
    var t := k.states.lists[TERMINATION][0];
    k.(states := Remove(k.states, t), count := k.count - 1, toCleanUp := k.toCleanUp - 1, tcbs := k.tcbs - {t})
  }

  /** xTaskRemoveFromEventList, and what interrupts do to a task that waits for
      a notification: ready now, or held pending. */
  function Woken(k: Kernel, t: nat): Kernel
    requires HasState(k, t) && 0 < |k.events.lists| && (t in k.events.at ==> k.events.at[t] < |k.events.lists|)
  {
    var k' := Unawaited(k, t);
    if k.schedulerSuspended == 0 then Readied(k', t) else Awaiting(k', t, PENDING_READY)
  }

  /** prvTaskIsTaskSuspended. */
  predicate IsSuspended(k: Kernel, t: nat)
  {
    t in k.states.at && k.states.at[t] == SUSPENDED && t !in k.events.at
  }

  /** The new priorities vTaskPrioritySet gives a task. */
  function PrioritySet(tcb: Tcb, priority: nat): Tcb
  {
    Tcb(if tcb.base == tcb.priority then priority else tcb.priority, priority)
  }

  datatype Step =
    | Create(task: nat, priority: nat)
    | Delete(task: nat)
    | Reap
    | Delay(list: nat)                       // prvAddCurrentTaskToDelayedList
    | WaitFor(event: nat, list: nat)         // vTaskPlaceOnEventList and its variants
    | Event(event: nat, task: nat)           // xTaskRemoveFromEventList
    | UnorderedEvent(event: nat, task: nat)  // vTaskRemoveFromUnorderedEventList
    | Expire(task: nat)                      // a delayed task in xTaskIncrementTick
    | SwitchLists                            // taskSWITCH_DELAYED_LISTS
    | Notify(task: nat)                      // of a waiting task, by a task
    | NotifyFromIsr(task: nat)
    | Suspend(task: nat)
    | Resume(task: nat)
    | ResumeFromIsr(task: nat)
    | SetPriority(task: nat, priority: nat)
    | Inherit(task: nat)
    | Disinherit
    | LowerAfterTimeOut(task: nat, priority: nat)
    | SuspendAll
    | ResumeOne                              // one task in the loop of xTaskResumeAll
    | ResumeAll                              // once nothing is pending
    | SwitchContext(task: nat)

  predicate IsReady(k: Kernel, t: nat)
  {
    t in k.tcbs && t in k.states.at && k.states.at[t] == k.tcbs[t].priority
  }

  predicate IsLive(k: Kernel, t: nat)
  {
    t in k.tcbs && t in k.states.at && k.states.at[t] != TERMINATION
  }

  predicate Enabled(k: Kernel, step: Step)
  {
    match step
    case Create(t, priority) => t !in k.tcbs && priority < MAX_PRIORITIES
    case Delete(t) => IsLive(k, t) && (t == k.current ==> k.schedulerSuspended == 0)
    case Reap => k.toCleanUp > 0
    case Delay(list) => IsReady(k, k.current) && IsBlocked(list) && k.current !in k.events.at
    case WaitFor(event, list) =>
      && IsReady(k, k.current) && IsBlocked(list) && k.current !in k.events.at
      && PENDING_READY < event < |k.events.lists|
    case Event(event, t) => PENDING_READY < event < |k.events.lists| && t in k.events.lists[event]
    case UnorderedEvent(event, t) =>
      k.schedulerSuspended > 0 && PENDING_READY < event < |k.events.lists| && t in k.events.lists[event]
    case Expire(t) =>
      && k.schedulerSuspended == 0 && IsLive(k, t) && k.states.at[t] == DelayedList(k)
    case SwitchLists =>
      k.schedulerSuspended == 0 && |k.states.lists| == STATE_LISTS && k.states.lists[DelayedList(k)] == []
    case Notify(t) => IsLive(k, t) && IsBlocked(k.states.at[t]) && t !in k.events.at
    case NotifyFromIsr(t) => IsLive(k, t) && IsBlocked(k.states.at[t]) && t !in k.events.at
    case Suspend(t) => IsLive(k, t) && (t == k.current ==> k.schedulerSuspended == 0)
    case Resume(t) => IsLive(k, t) && t != k.current && IsSuspended(k, t)
    case ResumeFromIsr(t) => IsLive(k, t) && IsSuspended(k, t)
    case SetPriority(t, priority) => IsLive(k, t) && priority < MAX_PRIORITIES
    case Inherit(t) => IsLive(k, t) && IsReady(k, k.current) && k.tcbs[t].priority < k.tcbs[k.current].priority
    case Disinherit => IsReady(k, k.current)
    case LowerAfterTimeOut(t, priority) => IsLive(k, t) && priority < MAX_PRIORITIES && priority != k.tcbs[t].priority
    case SuspendAll => true
    case ResumeOne => k.schedulerSuspended == 1 && 0 < |k.events.lists| && k.events.lists[PENDING_READY] != []
    case ResumeAll =>
      && k.schedulerSuspended > 0 && 0 < |k.events.lists|
      && (k.schedulerSuspended == 1 ==> k.events.lists[PENDING_READY] == [])
    case SwitchContext(t) => k.schedulerSuspended == 0 && IsReady(k, t)
  }

  /** Nothing a call dereferences is missing. */
  ghost predicate Defined(k: Kernel, step: Step)
  {
    && |k.states.lists| == STATE_LISTS && 0 < |k.events.lists|
    && (forall t :: t in k.tcbs ==> HasState(k, t))
    && (forall t :: t in k.events.at ==> k.events.at[t] < |k.events.lists|)
    && (step.Event? || step.UnorderedEvent? ==> step.task in k.tcbs)
    && (step.Reap? ==> k.states.lists[TERMINATION] != [] && k.states.lists[TERMINATION][0] in k.tcbs)
    && (step.ResumeOne? ==> k.events.lists[PENDING_READY] != [] && k.events.lists[PENDING_READY][0] in k.tcbs)
  }

  function Next(k: Kernel, step: Step): Kernel
    requires Enabled(k, step) && Defined(k, step)
  {
    match step
    case Create(t, priority) => Created(k, t, priority)
    case Delete(t) => if t == k.current then Terminated(k) else Deleted(k, t)
    case Reap => Reaped(k)
    case Delay(list) => Parked(k, k.current, list)
    case WaitFor(event, list) => Awaiting(Parked(k, k.current, list), k.current, event)
    case Event(event, t) => Woken(k, t)
    case UnorderedEvent(event, t) => Readied(Unawaited(k, t), t)
    case Expire(t) => Readied(Unawaited(k, t), t)
    case SwitchLists => k.(swapped := !k.swapped)
    case Notify(t) => Readied(k, t)
    case NotifyFromIsr(t) => Woken(k, t)
    case Suspend(t) => Parked(Unawaited(k, t), t, SUSPENDED)
    case Resume(t) => Readied(k, t)
    case ResumeFromIsr(t) => Woken(k, t)
    case SetPriority(t, priority) =>
      if k.tcbs[t].base == priority then k else Reprioritised(k, t, PrioritySet(k.tcbs[t], priority))
    case Inherit(t) => Reprioritised(k, t, k.tcbs[t].(priority := k.tcbs[k.current].priority))
    case Disinherit =>
      var tcb := k.tcbs[k.current];
      if tcb.priority == tcb.base then k else Reprioritised(k, k.current, tcb.(priority := tcb.base))
    case LowerAfterTimeOut(t, priority) => Lowered(k, t, k.tcbs[t].(priority := priority))
    case SuspendAll => k.(schedulerSuspended := k.schedulerSuspended + 1)
    case ResumeOne =>
      var t := k.events.lists[PENDING_READY][0];
      Readied(Unawaited(k, t), t)
    case ResumeAll => k.(schedulerSuspended := k.schedulerSuspended - 1)
    case SwitchContext(t) => k.(current := t)
  }

  lemma {:induction false} SoundIsDefined(k: Kernel, step: Step)
    requires Sound(k) && Enabled(k, step)
    ensures Defined(k, step)
  {
  }

  // ---------------------------------------------------------------------
  // Every call keeps the promise
  // ---------------------------------------------------------------------

  lemma {:induction false} AddedStates(tcbs: map<nat, Tcb>, states: Registry, t: nat, priority: nat)
    requires StatesFormed(tcbs, states) && t !in tcbs && priority < MAX_PRIORITIES
    ensures StatesFormed(tcbs[t := Tcb(priority, priority)], Add(states, priority, t))
  {
    assert t !in states.at;
    hide Linked, SameTasks, ReadyByPriority;
    AddLinked(states, priority, t);
    AddEffect(states, priority, t);
    RelistedTasks(tcbs, Tcb(priority, priority), states.at, t, priority);
  }

  lemma {:induction false} AddedEvents(states: Registry, events: Registry, t: nat, priority: nat)
    requires EventsFormed(states.at, events) && t !in states.at && priority < |states.lists|
    ensures EventsFormed(Add(states, priority, t).at, events)
  {
    hide Linked;
  }

  lemma {:induction false} AddedBits(states: Registry, topReady: set<nat>, t: nat, priority: nat,
                                     count: int, toCleanUp: int)
    requires CountsMatch(states, count, toCleanUp) && BitsCover(states, topReady) && priority < MAX_PRIORITIES
    ensures CountsMatch(Add(states, priority, t), count + 1, toCleanUp)
    ensures BitsCover(Add(states, priority, t), topReady + {priority})
    ensures BitsExact(states, topReady) ==> BitsExact(Add(states, priority, t), topReady + {priority})
  {
    AddEffect(states, priority, t);
    hide Add;
  }

  lemma {:induction false} CreatedKeeps(k: Kernel, t: nat, priority: nat)
    requires Sound(k) && t !in k.tcbs && priority < MAX_PRIORITIES
    ensures |k.states.lists| == STATE_LISTS && Sound(Created(k, t, priority))
    ensures Exact(k) ==> Exact(Created(k, t, priority))
  {
    EventsAreListed(k);
    NoStateYet(k, t);
    hide StatesFormed, EventsFormed, CountsMatch, BitsCover, BitsExact, Add;
    AddedStates(k.tcbs, k.states, t, priority);
    AddedEvents(k.states, k.events, t, priority);
    AddedBits(k.states, k.topReady, t, priority, k.count, k.toCleanUp);
  }

  lemma {:induction false} NoStateYet(k: Kernel, t: nat)
    requires Sound(k) && t !in k.tcbs
    ensures t !in k.states.at
  {
  }

  /** Taking a state item out for good. */
  lemma {:induction false} RemovedStates(tcbs: map<nat, Tcb>, states: Registry, t: nat)
    requires StatesFormed(tcbs, states) && t in tcbs
    ensures StatesFormed(tcbs - {t}, Remove(states, t))
  {
    assert t in states.at;
    hide Linked, Remove, SameTasks, ReadyByPriority;
    RemoveLinked(states, t);
    RemoveEffect(states, t);
    RemoveAt(states, t);
    ForgottenTask(tcbs, states.at, t);
  }

  lemma {:induction false} ForgottenTask(tcbs: map<nat, Tcb>, at: map<nat, nat>, t: nat)
    requires SameTasks(tcbs, at) && ReadyByPriority(tcbs, at)
    ensures SameTasks(tcbs - {t}, at - {t}) && ReadyByPriority(tcbs - {t}, at - {t})
  {
  }

  lemma {:induction false} RemovedEvents(states: Registry, events: Registry, t: nat)
    requires EventsFormed(states.at, events) && t !in events.at && t in states.at && states.at[t] < |states.lists|
    ensures EventsFormed(Remove(states, t).at, events)
  {
    RemoveAt(states, t);
    hide Linked, Remove;
  }

  lemma {:induction false} RemovedBits(k: Kernel, t: nat)
    requires HasState(k, t) && Linked(k.states) && BitsCover(k.states, k.topReady)
    requires k.states.at[t] < MAX_PRIORITIES ==> k.states.at[t] == k.tcbs[t].priority
    ensures BitsCover(Remove(k.states, t), BitsAfterRemoval(k, t))
    ensures Exact(k) ==> BitsExact(Remove(k.states, t), BitsAfterRemoval(k, t))
  {
    RemoveEffect(k.states, t);
    hide Linked, Remove;
  }

  lemma {:induction false} RemovedCounts(states: Registry, t: nat, count: int, toCleanUp: int)
    requires Linked(states) && t in states.at && CountsMatch(states, count, toCleanUp)
    ensures CountsMatch(Remove(states, t), count - 1, if states.at[t] == TERMINATION then toCleanUp - 1 else toCleanUp)
  {
    RemoveEffect(states, t);
    hide Linked, Remove;
  }

  lemma {:induction false} DeletedKeeps(k: Kernel, t: nat)
    requires Sound(k) && t in k.tcbs && k.states.at[t] != TERMINATION
    ensures HasState(k, t) && (t in k.events.at ==> k.events.at[t] < |k.events.lists|)
    ensures Sound(Deleted(k, t))
    ensures Exact(k) ==> Exact(Deleted(k, t))
  {
    hide StatesFormed, EventsFormed, CountsMatch, PendingInOrder, BitsCover, BitsExact, BitsAfterRemoval;
    hide Linked, Remove;
    EventsAreListed(k);
    StateFacts(k, t);
    UnawaitedKeeps(k, t);
    var k' := Unawaited(k, t);
    hide Unawaited;
    StateFacts(k', t);
    RemovedStates(k'.tcbs, k'.states, t);
    RemovedEvents(k'.states, k'.events, t);
    RemovedBits(k', t);
    RemovedCounts(k'.states, t, k.count, k.toCleanUp);
    SameBits(k, k', t);
  }

  lemma {:induction false} EventsAreListed(k: Kernel)
    requires Sound(k)
    ensures forall t :: t in k.events.at ==> k.events.at[t] < |k.events.lists|
    ensures 0 < |k.events.lists| && |k.states.lists| == STATE_LISTS
  {
  }

  lemma {:induction false} SameBits(k: Kernel, k': Kernel, t: nat)
    requires HasState(k, t) && k' == k.(events := k'.events)
    ensures HasState(k', t) && BitsAfterRemoval(k', t) == BitsAfterRemoval(k, t)
  {
  }

  lemma {:induction false} TerminatedCounts(states: Registry, t: nat, count: int, toCleanUp: int)
    requires Linked(states) && t in states.at && CountsMatch(states, count, toCleanUp) && states.at[t] != TERMINATION
    ensures CountsMatch(Moved(states, TERMINATION, t), count, toCleanUp + 1)
  {
    MovedEffect(states, TERMINATION, t);
    hide Linked, Moved;
  }

  lemma {:induction false} TerminatedKeeps(k: Kernel)
    requires Sound(k) && k.current in k.tcbs && k.states.at[k.current] != TERMINATION
    ensures HasState(k, k.current) && (k.current in k.events.at ==> k.events.at[k.current] < |k.events.lists|)
    ensures Sound(Terminated(k))
    ensures Exact(k) ==> Exact(Terminated(k))
  {
    EventsAreListed(k);
    hide StatesFormed, EventsFormed, CountsMatch, BitsCover, BitsExact, Linked, Moved, BitsAfterRemoval, Unawaited;
    var t := k.current;
    UnawaitedKeeps(k, t);
    var k' := Unawaited(k, t);
    StateFacts(k', t);
    StateFacts(k, t);
    MovedStates(k'.tcbs, k'.tcbs[t], k'.states, t, TERMINATION);
    MovedEvents(k'.states, k'.events, t, TERMINATION);
    ParkedBits(k', t, TERMINATION);
    TerminatedCounts(k'.states, t, k.count, k.toCleanUp);
  }

  lemma {:induction false} HeadOfTermination(k: Kernel)
    requires Sound(k) && k.toCleanUp > 0
    ensures |k.states.lists| == STATE_LISTS && k.states.lists[TERMINATION] != []
    ensures var t := k.states.lists[TERMINATION][0];
            t in k.tcbs && t in k.states.at && k.states.at[t] == TERMINATION && t !in k.events.at
  {
    var t := k.states.lists[TERMINATION][0];
    assert t in k.states.lists[TERMINATION];
  }

  /** Cleaning up after a deleted task. Its priority's bit is left alone. */
  lemma {:induction false} ReapedKeeps(k: Kernel)
    requires Sound(k) && k.toCleanUp > 0
    ensures |k.states.lists| == STATE_LISTS && k.states.lists[TERMINATION] != []
    ensures k.states.lists[TERMINATION][0] in k.states.at
    ensures k.states.at[k.states.lists[TERMINATION][0]] < |k.states.lists|
    ensures Sound(Reaped(k))
    ensures Exact(k) ==> Exact(Reaped(k))
  {
    HeadOfTermination(k);
    hide StatesFormed, EventsFormed, CountsMatch, BitsCover, BitsExact, Linked, Remove;
    var t := k.states.lists[TERMINATION][0];
    StateFacts(k, t);
    RemovedStates(k.tcbs, k.states, t);
    RemovedEvents(k.states, k.events, t);
    RemovedCounts(k.states, t, k.count, k.toCleanUp);
    ReapedBits(k.states, k.topReady, t);
  }

  lemma {:induction false} ReapedBits(states: Registry, topReady: set<nat>, t: nat)
    requires Linked(states) && t in states.at && MAX_PRIORITIES <= states.at[t] && BitsCover(states, topReady)
    ensures BitsCover(Remove(states, t), topReady)
    ensures BitsExact(states, topReady) ==> BitsExact(Remove(states, t), topReady)
  {
    RemoveEffect(states, t);
    hide Linked, Remove;
  }

  lemma {:induction false} WokenKeeps(k: Kernel, t: nat)
    requires Sound(k) && t in k.tcbs && IsBlocked(k.states.at[t])
    ensures HasState(k, t) && 0 < |k.events.lists| && (t in k.events.at ==> k.events.at[t] < |k.events.lists|)
    ensures Sound(Woken(k, t))
    ensures Exact(k) ==> Exact(Woken(k, t))
  {
    EventsAreListed(k);
    SoundHasState(k, t);
    UnawaitedKeeps(k, t);
    var k' := Unawaited(k, t);
    EventsAreListed(k');
    hide Sound, Exact, Unawaited;
    if k.schedulerSuspended == 0 {
      ReadiedKeeps(k', t);
    } else {
      AwaitingKeeps(k', t, PENDING_READY);
    }
  }

  lemma {:induction false} ReprioritisedBits(k: Kernel, t: nat, tcb: Tcb)
    requires HasState(k, t) && Linked(k.states) && BitsCover(k.states, k.topReady) && InRange(tcb)
    requires k.states.at[t] == k.tcbs[t].priority
    ensures var k' := Reprioritised(k, t, tcb);
            BitsCover(k'.states, k'.topReady) && (Exact(k) ==> Exact(k'))
  {
    MovedLists(k.states, t, tcb.priority);
    hide Linked, Moved, Remove;
  }

  /** A change of priority of a task that is not in a ready list. */
  lemma {:induction false} RenamedStates(tcbs: map<nat, Tcb>, states: Registry, t: nat, tcb: Tcb)
    requires StatesFormed(tcbs, states) && t in tcbs && InRange(tcb) && states.at[t] != tcbs[t].priority
    ensures StatesFormed(tcbs[t := tcb], states)
  {
    hide Linked;
  }

  lemma {:induction false} ReadyHasNoEvent(k: Kernel, t: nat)
    requires EventsFormed(k.states.at, k.events) && StatesFormed(k.tcbs, k.states) && IsReady(k, t)
    ensures t !in k.events.at && k.states.at[t] < MAX_PRIORITIES
  {
  }

  lemma {:induction false} ReprioritisedKeeps(k: Kernel, t: nat, tcb: Tcb)
    requires Sound(k) && t in k.tcbs && InRange(tcb)
    ensures HasState(k, t) && Sound(Reprioritised(k, t, tcb))
    ensures Exact(k) ==> Exact(Reprioritised(k, t, tcb))
  {
    hide StatesFormed, EventsFormed, CountsMatch, BitsCover, BitsExact, Linked, Moved, BitsAfterRemoval;
    StateFacts(k, t);
    if k.states.at[t] == k.tcbs[t].priority {
      ReadyHasNoEvent(k, t);
      MovedStates(k.tcbs, tcb, k.states, t, tcb.priority);
      MovedCounts(k.states, t, tcb.priority, k.count, k.toCleanUp);
      MovedEvents(k.states, k.events, t, tcb.priority);
      ReprioritisedBits(k, t, tcb);
    } else {
      RenamedStates(k.tcbs, k.states, t, tcb);
    }
  }

  lemma {:induction false} AloneOrNot(s: seq<nat>, t: nat)
    requires t in s
    ensures s == [t] <==> |s| == 1
  {
  }

  lemma {:induction false} AloneWhenEmptied(states: Registry, t: nat)
    requires Linked(states) && t in states.at
    ensures Remove(states, t).lists[states.at[t]] == [] <==> states.lists[states.at[t]] == [t]
  {
    RemoveEffect(states, t);
    assert t in states.lists[states.at[t]];
    AloneOrNot(states.lists[states.at[t]], t);
    hide Linked, Remove;
  }

  /** The time-out's way of lowering the priority of a ready task leaves the bit
      of the old one set, which is right exactly if another ready task has it. */
  lemma {:induction false} LoweredBits(k: Kernel, t: nat, tcb: Tcb)
    requires HasState(k, t) && Linked(k.states) && BitsCover(k.states, k.topReady) && InRange(tcb)
    requires k.states.at[t] == k.tcbs[t].priority != tcb.priority
    ensures var k' := Lowered(k, t, tcb);
            && BitsCover(k'.states, k'.topReady)
            && (Exact(k) ==> (Exact(k') <==> k.states.lists[k.tcbs[t].priority] != [t]))
  {
    MovedLists(k.states, t, tcb.priority);
    AloneWhenEmptied(k.states, t);
    assert k.states.lists[k.states.at[t]] != [];
    hide Linked, Moved, Remove;
  }

  lemma {:induction false} LoweredKeeps(k: Kernel, t: nat, tcb: Tcb)
    requires Sound(k) && t in k.tcbs && InRange(tcb) && tcb.priority != k.tcbs[t].priority
    ensures HasState(k, t) && Sound(Lowered(k, t, tcb))
    ensures |k.states.lists| == STATE_LISTS
    ensures Exact(k) ==>
              (Exact(Lowered(k, t, tcb)) <==> !(IsReady(k, t) && k.states.lists[k.tcbs[t].priority] == [t]))
  {
    EventsAreListed(k);
    hide StatesFormed, EventsFormed, CountsMatch, BitsCover, BitsExact, Linked, Moved;
    StateFacts(k, t);
    if k.states.at[t] == k.tcbs[t].priority {
      ReadyHasNoEvent(k, t);
      MovedStates(k.tcbs, tcb, k.states, t, tcb.priority);
      MovedCounts(k.states, t, tcb.priority, k.count, k.toCleanUp);
      MovedEvents(k.states, k.events, t, tcb.priority);
      LoweredBits(k, t, tcb);
    } else {
      RenamedStates(k.tcbs, k.states, t, tcb);
    }
  }

  lemma {:induction false} BlockedFacts(k: Kernel, event: nat, t: nat)
    requires Sound(k) && event < |k.events.lists| && t in k.events.lists[event]
    ensures t in k.events.at && t in k.tcbs && IsBlocked(k.states.at[t])
  {
  }

  /** Where the running task goes when it blocks. */
  lemma {:induction false} BlockKeeps(k: Kernel, list: nat)
    requires Sound(k) && Enabled(k, Delay(list))
    ensures HasState(k, k.current) && Sound(Parked(k, k.current, list))
    ensures Exact(k) ==> Exact(Parked(k, k.current, list))
    ensures var k' := Parked(k, k.current, list);
            k.current in k'.states.at && k'.states.at[k.current] == list
  {
    SoundHasState(k, k.current);
    ParkedKeeps(k, k.current, list);
    hide Sound, Exact;
  }

  lemma {:induction false} WaitForKeeps(k: Kernel, event: nat, list: nat)
    requires Sound(k) && Enabled(k, WaitFor(event, list))
    ensures Defined(k, WaitFor(event, list)) && Sound(Next(k, WaitFor(event, list)))
    ensures Exact(k) ==> Exact(Next(k, WaitFor(event, list)))
  {
    SoundIsDefined(k, WaitFor(event, list));
    BlockKeeps(k, list);
    var k' := Parked(k, k.current, list);
    assert k' == k.(states := k'.states, topReady := k'.topReady);
    hide Sound, Exact, Parked;
    AwaitingKeeps(k', k.current, event);
  }

  lemma {:induction false} ReadyUnawaited(k: Kernel, t: nat)
    requires Sound(k) && t in k.tcbs && IsBlocked(k.states.at[t])
    ensures HasState(k, t) && (t in k.events.at ==> k.events.at[t] < |k.events.lists|)
    ensures HasState(Unawaited(k, t), t) && Sound(Readied(Unawaited(k, t), t))
    ensures Exact(k) ==> Exact(Readied(Unawaited(k, t), t))
  {
    EventsAreListed(k);
    SoundHasState(k, t);
    UnawaitedKeeps(k, t);
    hide Sound, Exact, Unawaited;
    ReadiedKeeps(Unawaited(k, t), t);
  }

  lemma {:induction false} SuspendKeeps(k: Kernel, t: nat)
    requires Sound(k) && IsLive(k, t)
    ensures HasState(k, t) && (t in k.events.at ==> k.events.at[t] < |k.events.lists|)
    ensures HasState(Unawaited(k, t), t) && Sound(Parked(Unawaited(k, t), t, SUSPENDED))
    ensures Exact(k) ==> Exact(Parked(Unawaited(k, t), t, SUSPENDED))
  {
    EventsAreListed(k);
    SoundHasState(k, t);
    UnawaitedKeeps(k, t);
    hide Sound, Exact, Unawaited;
    ParkedKeeps(Unawaited(k, t), t, SUSPENDED);
  }

  /** A task taken off by the time-out way of lowering a priority that was the
      only ready one of its priority. */
  predicate LeavesStaleBit(k: Kernel, step: Step)
  {
    && step.LowerAfterTimeOut? && IsReady(k, step.task)
    && k.tcbs[step.task].priority < |k.states.lists| && k.states.lists[k.tcbs[step.task].priority] == [step.task]
  }

  lemma {:induction false} SimpleKeeps(k: Kernel, step: Step)
    requires Sound(k) && Enabled(k, step)
    requires step.SwitchLists? || step.SuspendAll? || step.ResumeAll? || step.SwitchContext?
    ensures Defined(k, step) && Sound(Next(k, step)) && (Exact(k) ==> Exact(Next(k, step)))
  {
    SoundIsDefined(k, step);
    hide StatesFormed, EventsFormed, CountsMatch, BitsCover, BitsExact, Defined;
  }

  lemma {:induction false} PriorityFacts(k: Kernel, t: nat)
    requires Sound(k) && t in k.tcbs
    ensures InRange(k.tcbs[t])
  {
  }

  predicate IsPriorityStep(step: Step)
  {
    step.SetPriority? || step.Inherit? || step.Disinherit? || step.LowerAfterTimeOut?
  }

  lemma {:induction false} SetPriorityKeeps(k: Kernel, t: nat, priority: nat)
    requires Sound(k) && Enabled(k, SetPriority(t, priority))
    ensures Defined(k, SetPriority(t, priority)) && Sound(Next(k, SetPriority(t, priority)))
    ensures Exact(k) ==> Exact(Next(k, SetPriority(t, priority)))
  {
    SoundIsDefined(k, SetPriority(t, priority));
    PriorityFacts(k, t);
    hide Sound, Exact, Defined, Reprioritised;
    ReprioritisedKeeps(k, t, PrioritySet(k.tcbs[t], priority));
  }

  lemma {:induction false} InheritKeeps(k: Kernel, t: nat)
    requires Sound(k) && Enabled(k, Inherit(t))
    ensures Defined(k, Inherit(t)) && Sound(Next(k, Inherit(t))) && (Exact(k) ==> Exact(Next(k, Inherit(t))))
  {
    SoundIsDefined(k, Inherit(t));
    PriorityFacts(k, k.current);
    PriorityFacts(k, t);
    hide Sound, Exact, Defined, Reprioritised;
    ReprioritisedKeeps(k, t, k.tcbs[t].(priority := k.tcbs[k.current].priority));
  }

  lemma {:induction false} DisinheritKeeps(k: Kernel)
    requires Sound(k) && Enabled(k, Disinherit)
    ensures Defined(k, Disinherit) && Sound(Next(k, Disinherit)) && (Exact(k) ==> Exact(Next(k, Disinherit)))
  {
    SoundIsDefined(k, Disinherit);
    PriorityFacts(k, k.current);
    hide Sound, Exact, Defined, Reprioritised;
    ReprioritisedKeeps(k, k.current, k.tcbs[k.current].(priority := k.tcbs[k.current].base));
  }

  lemma {:induction false} PriorityKeeps(k: Kernel, step: Step)
    requires Sound(k) && Enabled(k, step) && IsPriorityStep(step)
    ensures Defined(k, step) && Sound(Next(k, step))
    ensures Exact(k) ==> (Exact(Next(k, step)) <==> !LeavesStaleBit(k, step))
  {
    SoundIsDefined(k, step);
    hide Sound, Exact, Defined, Reprioritised, Lowered;
    match step
    case SetPriority(t, priority) => SetPriorityKeeps(k, t, priority);
    case Inherit(t) => InheritKeeps(k, t);
    case Disinherit => DisinheritKeeps(k);
    case LowerAfterTimeOut(t, priority) =>
      PriorityFacts(k, t);
      LoweredKeeps(k, t, k.tcbs[t].(priority := priority));
  }

  predicate IsMoveStep(step: Step)
  {
    || step.Delay? || step.WaitFor? || step.Event? || step.UnorderedEvent? || step.Expire?
    || step.Notify? || step.NotifyFromIsr? || step.ResumeOne?
  }

  lemma {:induction false} MoveKeeps(k: Kernel, step: Step)
    requires Sound(k) && Enabled(k, step) && IsMoveStep(step)
    ensures Defined(k, step) && Sound(Next(k, step)) && (Exact(k) ==> Exact(Next(k, step)))
  {
    SoundIsDefined(k, step);
    hide Sound, Exact, Defined, HasState, Parked, Readied, Unawaited, Woken, Awaiting;
    match step
    case Delay(list) => BlockKeeps(k, list);
    case WaitFor(event, list) => WaitForKeeps(k, event, list);
    case Event(event, t) => EventKeeps(k, event, t);
    case UnorderedEvent(event, t) => UnorderedEventKeeps(k, event, t);
    case Expire(t) => ReadyUnawaited(k, t);
    case Notify(t) => ReadiedKeeps(k, t);
    case NotifyFromIsr(t) => WokenKeeps(k, t);
    case ResumeOne => ResumeOneKeeps(k);
  }

  lemma {:induction false} EventKeeps(k: Kernel, event: nat, t: nat)
    requires Sound(k) && Enabled(k, Event(event, t))
    ensures Defined(k, Event(event, t))
    ensures Sound(Next(k, Event(event, t))) && (Exact(k) ==> Exact(Next(k, Event(event, t))))
  {
    SoundIsDefined(k, Event(event, t));
    hide Sound, Exact, Defined, HasState, Readied, Unawaited, Woken;
    BlockedFacts(k, event, t);
    WokenKeeps(k, t);
  }

  lemma {:induction false} UnorderedEventKeeps(k: Kernel, event: nat, t: nat)
    requires Sound(k) && Enabled(k, UnorderedEvent(event, t))
    ensures Defined(k, UnorderedEvent(event, t))
    ensures Sound(Next(k, UnorderedEvent(event, t))) && (Exact(k) ==> Exact(Next(k, UnorderedEvent(event, t))))
  {
    SoundIsDefined(k, UnorderedEvent(event, t));
    hide Sound, Exact, Defined, HasState, Readied, Unawaited, Woken;
    BlockedFacts(k, event, t);
    ReadyUnawaited(k, t);
  }

  lemma {:induction false} ResumeOneKeeps(k: Kernel)
    requires Sound(k) && Enabled(k, ResumeOne)
    ensures Defined(k, ResumeOne)
    ensures Sound(Next(k, ResumeOne)) && (Exact(k) ==> Exact(Next(k, ResumeOne)))
  {
    SoundIsDefined(k, ResumeOne);
    hide Sound, Exact, Defined, HasState, Readied, Unawaited, Woken;
    BlockedFacts(k, PENDING_READY, k.events.lists[PENDING_READY][0]);
    ReadyUnawaited(k, k.events.lists[PENDING_READY][0]);
  }

  lemma {:induction false} StepKeeps(k: Kernel, step: Step)
    requires Sound(k) && Enabled(k, step)
    ensures Defined(k, step) && Sound(Next(k, step))
    ensures Exact(k) ==> (Exact(Next(k, step)) <==> !LeavesStaleBit(k, step))
  {
    SoundIsDefined(k, step);
    hide Sound, Exact, Defined, Parked, Readied, Unawaited, Woken, Awaiting;
    if IsPriorityStep(step) {
      PriorityKeeps(k, step);
    } else if IsMoveStep(step) {
      MoveKeeps(k, step);
    } else {
      match step
      case Create(t, priority) => CreatedKeeps(k, t, priority);
      case Delete(t) =>
        if t == k.current {
          TerminatedKeeps(k);
        } else {
          DeletedKeeps(k, t);
        }
      case Reap => ReapedKeeps(k);
      case Suspend(t) => SuspendKeeps(k, t);
      case Resume(t) => ReadiedKeeps(k, t);
      case ResumeFromIsr(t) => WokenKeeps(k, t);
      case SwitchLists => SimpleKeeps(k, step);
      case SuspendAll => SimpleKeeps(k, step);
      case ResumeAll => SimpleKeeps(k, step);
      case SwitchContext(_) => SimpleKeeps(k, step);
      case _ =>
    }
  }

  // ---------------------------------------------------------------------
  // Runs
  // ---------------------------------------------------------------------

  ghost predicate Possible(k: Kernel, run: seq<Step>)
    decreases |run|
  {
    run == []
    || (Enabled(k, run[0]) && Defined(k, run[0]) && Possible(Next(k, run[0]), run[1..]))
  }

  function After(k: Kernel, run: seq<Step>): Kernel
    requires Possible(k, run)
    decreases |run|
  {
    if run == [] then k else After(Next(k, run[0]), run[1..])
  }

  /** A run in which lowering a priority after a time-out never takes the last
      ready task of a priority. */
  ghost predicate Shared(k: Kernel, run: seq<Step>)
    requires Possible(k, run)
    decreases |run|
  {
    run == [] || (!LeavesStaleBit(k, run[0]) && Shared(Next(k, run[0]), run[1..]))
  }

  lemma {:induction false} RunKeeps(k: Kernel, run: seq<Step>)
    requires Sound(k) && Possible(k, run)
    ensures Sound(After(k, run))
    ensures Exact(k) && Shared(k, run) ==> Exact(After(k, run))
    decreases |run|
  {
    hide Sound, Exact, Enabled, Defined, Next, LeavesStaleBit;
    if run == [] {
    } else {
      StepKeeps(k, run[0]);
      RunKeeps(Next(k, run[0]), run[1..]);
    }
  }

  /** Nothing is in any list, nobody is pending, and no bit is set. */
  predicate Init(k: Kernel)
  {
    && k.tcbs == map[] && k.states == Registry(seq(STATE_LISTS, i => []), map[])
    && k.events.at == map[] && 0 < |k.events.lists|
    && (forall i :: 0 <= i < |k.events.lists| ==> k.events.lists[i] == [])
    && k.count == 0 && k.toCleanUp == 0 && k.topReady == {}
  }

  lemma {:induction false} TotalOfNone(lists: seq<seq<nat>>)
    requires forall i :: 0 <= i < |lists| ==> lists[i] == []
    ensures Total(lists) == 0
  {
    if lists == [] {
    } else {
      TotalOfNone(lists[1..]);
    }
  }

  lemma {:induction false} InitSound(k: Kernel)
    requires Init(k)
    ensures Sound(k) && Exact(k)
  {
    TotalOfNone(k.states.lists);
  }

  /** How many lists a task's state item is in, and where. */
  ghost predicate InOneList(k: Kernel, t: nat, list: nat)
  {
    && |k.states.lists| == STATE_LISTS && list < STATE_LISTS && t in k.states.lists[list]
    && (forall l :: 0 <= l < STATE_LISTS && l != list ==> t !in k.states.lists[l])
  }

  /** Tasks are conserved: after any run every task there is, and no other, is
      in exactly one state list, in its ready list if it is ready, and in at
      most one event list; the count of tasks is the number of entries in all
      state lists, the count of tasks to clean up is the length of the
      termination list, and tasks are pending only while the scheduler is
      suspended. */
  lemma {:induction false} TasksAreConserved(k: Kernel, run: seq<Step>, t: nat)
    requires Init(k) && Possible(k, run)
    ensures var e := After(k, run);
            && |e.states.lists| == STATE_LISTS && 0 < |e.events.lists|
            && e.count == Total(e.states.lists) && e.toCleanUp == |e.states.lists[TERMINATION]|
            && (e.events.lists[PENDING_READY] != [] ==> e.schedulerSuspended > 0)
            && (t in e.tcbs ==> t in e.states.at && InOneList(e, t, e.states.at[t])
                                && (e.states.at[t] < MAX_PRIORITIES ==> e.states.at[t] == e.tcbs[t].priority))
            && (forall l :: 0 <= l < STATE_LISTS && t in e.states.lists[l] ==> t in e.tcbs)
            && (forall l :: 0 <= l < |e.events.lists| && t in e.events.lists[l] ==>
                              t in e.events.at && e.events.at[t] == l)
  {
    InitSound(k);
    RunKeeps(k, run);
    hide Init, Possible, After, BitsCover, Exact;
  }

  // ---------------------------------------------------------------------
  // Choosing the next task
  // ---------------------------------------------------------------------

  /** portGET_HIGHEST_PRIORITY. */
  function HighestBit(topReady: set<nat>, from: nat): (p: nat)
    requires exists b :: b in topReady && b <= from
    ensures p in topReady && p <= from && forall b :: b in topReady && b <= from ==> b <= p
  {
    if from in topReady then from else HighestBit(topReady, from - 1)
  }

  /** The downward scan of the generic taskSELECT_HIGHEST_PRIORITY_TASK. */
  function Scan(lists: seq<seq<nat>>, from: nat): (p: nat)
    requires from < |lists| && exists l :: 0 <= l <= from && lists[l] != []
    ensures p <= from && lists[p] != [] && forall l :: p < l <= from ==> lists[l] == []
  {
    if lists[from] != [] then from else Scan(lists, from - 1)
  }

  /** While the bits are exact, looking at them chooses the same list as
      looking through all the ready lists. */
  lemma {:induction false} BitsChooseAlike(k: Kernel)
    requires Sound(k) && Exact(k) && exists p :: 0 <= p < MAX_PRIORITIES && k.states.lists[p] != []
    ensures |k.states.lists| == STATE_LISTS
    ensures exists b :: b in k.topReady && b <= MAX_PRIORITIES - 1
    ensures HighestBit(k.topReady, MAX_PRIORITIES - 1) == Scan(k.states.lists, MAX_PRIORITIES - 1)
  {
    var p :| 0 <= p < MAX_PRIORITIES && k.states.lists[p] != [];
    assert p in k.topReady;
    hide StatesFormed, EventsFormed, CountsMatch;
    var b, l := HighestBit(k.topReady, MAX_PRIORITIES - 1), Scan(k.states.lists, MAX_PRIORITIES - 1);
    assert k.states.lists[b] != [] && l in k.topReady;
  }
}
