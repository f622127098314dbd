/** Mutexes with priority inheritance: tasks on one processor taking, waiting
    for, giving up on and giving back mutexes, one critical section a step. */
module Mutexes {

  datatype Doing =
    | Free
    | Wants(m: nat, inherited: bool, late: bool)  // at the loop top of a take; `late`: the block time is over
    | Placing(m: nat, inherited: bool)            // found it taken, about to suspend the scheduler
    | GivingUp(m: nat, inherited: bool)           // timed out, about to look a last time
    | Lowering(m: nat)                            // about to undo the inheritance it caused

  /** `Away` stands for being blocked on anything but a mutex. */
  datatype Status = Ready(doing: Doing) | Waiting(m: nat, inherited: bool) | Away

  /** uxPriority, uxBasePriority and uxMutexesHeld, and what the task does. */
  datatype Task = Task(priority: nat, base: nat, held: nat, status: Status)

  datatype Holder = Nobody | By(task: nat)

  datatype Mutex = Mutex(holder: Holder, waiters: seq<nat>)

  /** `ignored` records that queue.c, with a waiter to wake, has paid no heed to
      the context switch that disinheriting calls for. */
  datatype State = State(tasks: seq<Task>, mutexes: seq<Mutex>, running: nat, yieldPending: bool, ignored: bool)

  datatype Step =
    | Switch(to: nat)                  // vTaskSwitchContext
    | Begin(m: nat)                    // the running task calls xQueueSemaphoreTake
    | Top(wait: bool)                  // its first critical section
    | Section(timedOut: bool)          // its section with the scheduler suspended
    | Check                            // prvIsQueueEmpty after the time-out
    | Lower                            // the last critical section
    | Give(m: nat)                     // xQueueGenericSend on a mutex
    | Leave                            // the running task blocks on something else
    | Wake(task: nat)                  // and is readied again
    | Expire(task: nat)                // the block time of a waiting task ends

  function SetTask(s: State, t: nat, task: Task): State
    requires t < |s.tasks|
  {
    s.(tasks := s.tasks[t := task])
  }

  function SetMutex(s: State, m: nat, mutex: Mutex): State
    requires m < |s.mutexes|
  {
    s.(mutexes := s.mutexes[m := mutex])
  }

  predicate IsReady(s: State, t: nat)
  {
    t < |s.tasks| && s.tasks[t].status.Ready?
  }

  /** The highest priority of a ready task is that of this one. */
  predicate IsTop(s: State, t: nat)
  {
    IsReady(s, t) && forall u :: 0 <= u < |s.tasks| && IsReady(s, u) ==> s.tasks[u].priority <= s.tasks[t].priority
  }

  /** The running task may take its next step. */
  predicate Runs(s: State)
  {
    IsReady(s, s.running) && !s.yieldPending
  }

  function DoingOf(s: State): Doing
    requires IsReady(s, s.running)
  {
    s.tasks[s.running].status.doing
  }

  predicate Enabled(s: State, step: Step)
  {
    match step
    case Switch(to) => IsTop(s, to)
    case Begin(m) =>
      Runs(s) && DoingOf(s) == Free && m < |s.mutexes| && s.mutexes[m].holder != By(s.running)
    case Top(wait) =>
      // A take that made somebody inherit has block time left until it is found to be over.
      && Runs(s) && DoingOf(s).Wants? && DoingOf(s).m < |s.mutexes|
      && (!wait ==> !DoingOf(s).inherited || DoingOf(s).late)
    case Section(_) =>
      && Runs(s) && DoingOf(s).Placing? && DoingOf(s).m < |s.mutexes|
      && (s.mutexes[DoingOf(s).m].holder.By? ==> s.mutexes[DoingOf(s).m].holder.task < |s.tasks|)
      && (forall i :: 0 <= i < |s.mutexes[DoingOf(s).m].waiters| ==> s.mutexes[DoingOf(s).m].waiters[i] < |s.tasks|)
    case Check => Runs(s) && DoingOf(s).GivingUp? && DoingOf(s).m < |s.mutexes|
    case Lower =>
      && Runs(s) && DoingOf(s).Lowering? && DoingOf(s).m < |s.mutexes|
      && (s.mutexes[DoingOf(s).m].holder.By? ==> s.mutexes[DoingOf(s).m].holder.task < |s.tasks|)
      && (forall i :: 0 <= i < |s.mutexes[DoingOf(s).m].waiters| ==> s.mutexes[DoingOf(s).m].waiters[i] < |s.tasks|)
    case Give(m) =>
      && Runs(s) && DoingOf(s) == Free && m < |s.mutexes|
      && s.mutexes[m].holder == By(s.running) && s.tasks[s.running].held > 0
      && (s.mutexes[m].waiters != [] ==>
            s.mutexes[m].waiters[0] < |s.tasks| && s.tasks[s.mutexes[m].waiters[0]].status.Waiting?)
    case Leave => Runs(s) && DoingOf(s) == Free
    case Wake(t) => t < |s.tasks| && s.tasks[t].status == Away && s.running < |s.tasks|
    case Expire(t) =>
      && t < |s.tasks| && s.tasks[t].status.Waiting? && s.tasks[t].status.m < |s.mutexes|
      && s.running < |s.tasks|
  }

  function Do(s: State, doing: Doing): State
    requires IsReady(s, s.running)
  {
    SetTask(s, s.running, s.tasks[s.running].(status := Ready(doing)))
  }

  // ---------------------------------------------------------------------
  // Priorities
  // ---------------------------------------------------------------------

  /** xTaskPriorityInherit: the holder's new priority, and whether it inherits. */
  function Inherited(holder: Task, waiter: nat): (nat, bool)
  {
    if holder.priority < waiter then (waiter, true) else (holder.priority, holder.base < waiter)
  }

  /** xTaskPriorityDisinherit: the giver, and whether a switch is called for. */
  function Disinherited(giver: Task): (Task, bool)
    requires giver.held > 0
  {
    var less := giver.(held := giver.held - 1);
    if giver.priority != giver.base && less.held == 0 then (less.(priority := giver.base), true) else (less, false)
  }

  /** vTaskPriorityDisinheritAfterTimeout. */
  function LoweredTo(holder: Task, highestWaiting: nat): nat
  {
    var use := if holder.base < highestWaiting then highestWaiting else holder.base;
    if holder.priority != use && holder.held == 1 then use else holder.priority
  }

  /** Where a task joins a list of waiting tasks: behind those of the same
      priority. Event list item values follow the priorities. */
  function JoinAt(tasks: seq<Task>, waiters: seq<nat>, priority: nat): (p: nat)
    requires forall i :: 0 <= i < |waiters| ==> waiters[i] < |tasks|
    ensures p <= |waiters|
    ensures forall i :: 0 <= i < p ==> tasks[waiters[i]].priority >= priority
    ensures p < |waiters| ==> tasks[waiters[p]].priority < priority
  {
    if waiters == [] || tasks[waiters[0]].priority < priority then 0 else 1 + JoinAt(tasks, waiters[1..], priority)
  }

  function Joined(tasks: seq<Task>, waiters: seq<nat>, t: nat): seq<nat>
    requires t < |tasks| && forall i :: 0 <= i < |waiters| ==> waiters[i] < |tasks|
  {
    var p := JoinAt(tasks, waiters, tasks[t].priority);
    waiters[..p] + [t] + waiters[p..]
  }

  function Left(waiters: seq<nat>, t: nat): seq<nat>
  {
    if waiters == [] then []
    else (if waiters[0] == t then [] else [waiters[0]]) + Left(waiters[1..], t)
  }

  // ---------------------------------------------------------------------
  // Steps
  // ---------------------------------------------------------------------

  /** Taking a free mutex. */
  function Taken(s: State, m: nat): State
    requires IsReady(s, s.running) && m < |s.mutexes|
  {
    var t := s.running;
    var s' := SetTask(s, t, s.tasks[t].(held := s.tasks[t].held + 1, status := Ready(Free)));
    SetMutex(s', m, s.mutexes[m].(holder := By(t)))
  }

  /** Waiting for a mutex that is held, which may raise its holder. */
  function Placed(s: State, m: nat): State
    requires IsReady(s, s.running) && m < |s.mutexes|
    requires s.mutexes[m].holder.By? && s.mutexes[m].holder.task < |s.tasks|
    requires forall i :: 0 <= i < |s.mutexes[m].waiters| ==> s.mutexes[m].waiters[i] < |s.tasks|
  {
    var t, h := s.running, s.mutexes[m].holder.task;
    var (priority, inherited) := Inherited(s.tasks[h], s.tasks[t].priority);
    var s1 := SetTask(s, h, s.tasks[h].(priority := priority));
    var s2 := SetTask(s1, t, s1.tasks[t].(status := Waiting(m, inherited)));
    SetMutex(s2, m, s.mutexes[m].(waiters := Joined(s1.tasks, s.mutexes[m].waiters, t))).(yieldPending := true)
  }

  /** Giving a mutex back: disinherit, free it, wake the first waiter. */
  function Given(s: State, m: nat): State
    requires IsReady(s, s.running) && m < |s.mutexes| && s.tasks[s.running].held > 0
    requires s.mutexes[m].waiters != [] ==>
               s.mutexes[m].waiters[0] < |s.tasks| && s.tasks[s.mutexes[m].waiters[0]].status.Waiting?
  {
    var (giver, required) := Disinherited(s.tasks[s.running]);
    var s1 := SetTask(s, s.running, giver);
    var waiters := s.mutexes[m].waiters;
    if waiters == [] then
      SetMutex(s1, m, Mutex(Nobody, [])).(yieldPending := required)
    else
      var w := waiters[0];
      var woken := s.tasks[w].(status := Ready(Wants(m, s.tasks[w].status.inherited, false)));
      var outranks := woken.priority > giver.priority;
      SetMutex(SetTask(s1, w, woken), m, Mutex(Nobody, waiters[1..]))
        .(yieldPending := outranks, ignored := s.ignored || (required && !outranks))
  }

  function Next(s: State, step: Step): State
    requires Enabled(s, step)
  {
    match step
    case Switch(to) => s.(running := to, yieldPending := false)
    case Begin(m) => Do(s, Wants(m, false, false))
    case Top(wait) =>
      var d := DoingOf(s);
      if s.mutexes[d.m].holder == Nobody then Taken(s, d.m)
      else if !wait then Do(s, Free)
      else Do(s, Placing(d.m, d.inherited))
    case Section(timedOut) =>
      var d := DoingOf(s);
      if timedOut then Do(s, GivingUp(d.m, d.inherited))
      else if s.mutexes[d.m].holder == Nobody then Do(s, Wants(d.m, d.inherited, false))
      else Placed(s, d.m)
    case Check =>
      var d := DoingOf(s);
      if s.mutexes[d.m].holder == Nobody then Do(s, Wants(d.m, d.inherited, true))
      else if d.inherited then Do(s, Lowering(d.m))
      else Do(s, Free)
    case Lower =>
      var mutex := s.mutexes[DoingOf(s).m];
      var s' := Do(s, Free);
      if mutex.holder == Nobody then
        s'
      else
        var h := s'.tasks[mutex.holder.task];
        var highest := if mutex.waiters == [] then 0 else s.tasks[mutex.waiters[0]].priority;
        SetTask(s', mutex.holder.task, h.(priority := LoweredTo(h, highest)))
    case Give(m) => Given(s, m)
    case Leave => SetTask(s, s.running, s.tasks[s.running].(status := Away)).(yieldPending := true)
    case Wake(t) =>
      var s' := SetTask(s, t, s.tasks[t].(status := Ready(Free)));
      s'.(yieldPending := s.yieldPending || s.tasks[t].priority > s.tasks[s.running].priority)
    case Expire(t) =>
      var m, inherited := s.tasks[t].status.m, s.tasks[t].status.inherited;
      var s' := SetTask(s, t, s.tasks[t].(status := Ready(Wants(m, inherited, false))));
      SetMutex(s', m, s.mutexes[m].(waiters := Left(s.mutexes[m].waiters, t)))
        .(yieldPending := s.yieldPending || s.tasks[t].priority >= s.tasks[s.running].priority)
  }

  // ---------------------------------------------------------------------
  // The bookkeeping, in every run
  // ---------------------------------------------------------------------

  /** The mutexes that name a task as their holder. */
  function HeldBy(mutexes: seq<Mutex>, t: nat): set<nat>
  {
    set m | 0 <= m < |mutexes| && mutexes[m].holder == By(t)
  }

  /** The mutex a task is trying to take, if any. */
  predicate Wanted(task: Task, m: nat)
  {
    match task.status
    case Ready(Wants(w, _, _)) => w == m
    case Ready(Placing(w, _)) => w == m
    case Ready(GivingUp(w, _)) => w == m
    case Ready(Lowering(w)) => w == m
    case Waiting(w, _) => w == m
    case _ => false
  }

  predicate IsFree(task: Task)
  {
    task.status == Away || task.status == Ready(Free)
  }

  /** What it wants exists, and it does not hold it. */
  ghost predicate Wanting(t: nat, task: Task, mutexes: seq<Mutex>)
  {
    IsFree(task) || exists m :: 0 <= m < |mutexes| && Wanted(task, m) && mutexes[m].holder != By(t)
  }

  ghost predicate Distinct(s: seq<nat>)
  {
    forall i, j :: 0 <= i < j < |s| ==> s[i] != s[j]
  }

  predicate WaitsFor(task: Task, m: nat)
  {
    task.status.Waiting? && task.status.m == m
  }

  /** Exactly the tasks that wait for a mutex are in its list. */
  ghost predicate MutexFormed(m: nat, mutex: Mutex, tasks: seq<Task>)
  {
    && (mutex.holder.By? ==> mutex.holder.task < |tasks|)
    && Distinct(mutex.waiters)
    && (forall i :: 0 <= i < |mutex.waiters| ==> mutex.waiters[i] < |tasks| && WaitsFor(tasks[mutex.waiters[i]], m))
    && (forall t :: 0 <= t < |tasks| && WaitsFor(tasks[t], m) ==> t in mutex.waiters)
  }

  predicate TaskFormed(task: Task)
  {
    task.base <= task.priority && (task.held == 0 ==> task.priority == task.base)
  }

  ghost predicate Formed(s: State)
  {
    && s.running < |s.tasks|
    && (forall m :: 0 <= m < |s.mutexes| ==> MutexFormed(m, s.mutexes[m], s.tasks))
    && (forall t :: 0 <= t < |s.tasks| ==> TaskFormed(s.tasks[t]))
    && (forall t :: 0 <= t < |s.tasks| ==> Wanting(t, s.tasks[t], s.mutexes))
  }

  ghost predicate Counted(s: State)
  {
    forall t :: 0 <= t < |s.tasks| ==> s.tasks[t].held == |HeldBy(s.mutexes, t)|
  }

  // ---------------------------------------------------------------------
  // Counting
  // ---------------------------------------------------------------------

  /** A mutex that changes hands. */
  lemma {:induction false} HandedOver(mutexes: seq<Mutex>, m: nat, mutex: Mutex, t: nat)
    requires m < |mutexes|
    ensures HeldBy(mutexes[m := mutex], t)
            == if mutex.holder == By(t) then HeldBy(mutexes, t) + {m} else HeldBy(mutexes, t) - {m}
  {
  }

  /** One of no holder is taken, or one is given back. */
  lemma {:induction false} HeldCounts(mutexes: seq<Mutex>, m: nat, mutex: Mutex, t: nat)
    requires m < |mutexes|
    ensures |HeldBy(mutexes[m := mutex], t)|
            == |HeldBy(mutexes, t)| + (if mutex.holder == By(t) then 1 else 0)
               - (if mutexes[m].holder == By(t) then 1 else 0)
  {
    HandedOver(mutexes, m, mutex, t);
    assert m in HeldBy(mutexes, t) <==> mutexes[m].holder == By(t);
    hide HeldBy;
    var h := HeldBy(mutexes, t);
    if m in h {
      assert h + {m} == h;
    } else {
      assert h - {m} == h;
    }
  }

  lemma {:induction false} CountedAfter(s: State, s': State, m: nat)
    requires Counted(s) && m < |s.mutexes| == |s'.mutexes| && |s'.tasks| == |s.tasks|
    requires s'.mutexes == s.mutexes[m := s'.mutexes[m]]
    requires forall t :: 0 <= t < |s.tasks| ==>
               s'.tasks[t].held == s.tasks[t].held + (if s'.mutexes[m].holder == By(t) then 1 else 0)
                                   - (if s.mutexes[m].holder == By(t) then 1 else 0)
    ensures Counted(s')
  {
    hide HeldBy;
    forall t | 0 <= t < |s.tasks| ensures s'.tasks[t].held == |HeldBy(s'.mutexes, t)| {
      HeldCounts(s.mutexes, m, s'.mutexes[m], t);
    }
  }

  /** No mutex changes hands. */
  lemma {:induction false} CountedSame(s: State, s': State)
    requires Counted(s) && s'.mutexes == s.mutexes && |s'.tasks| == |s.tasks|
    requires forall t :: 0 <= t < |s.tasks| ==> s'.tasks[t].held == s.tasks[t].held
    ensures Counted(s')
  {
    hide HeldBy;
  }

  lemma {:induction false} CountTop(s: State, wait: bool)
    requires Counted(s) && Enabled(s, Top(wait))
    ensures Counted(Next(s, Top(wait)))
  {
    hide Counted;
    if s.mutexes[DoingOf(s).m].holder == Nobody {
      CountedAfter(s, Next(s, Top(wait)), DoingOf(s).m);
    } else {
      CountedSame(s, Next(s, Top(wait)));
    }
  }

  lemma {:induction false} CountSection(s: State, timedOut: bool)
    requires Counted(s) && Enabled(s, Section(timedOut))
    ensures Counted(Next(s, Section(timedOut)))
  {
    hide Counted, Joined, Inherited;
    if !timedOut && s.mutexes[DoingOf(s).m].holder != Nobody {
      CountedAfter(s, Next(s, Section(timedOut)), DoingOf(s).m);
    } else {
      CountedSame(s, Next(s, Section(timedOut)));
    }
  }

  lemma {:induction false} CountGive(s: State, m: nat)
    requires Counted(s) && Enabled(s, Give(m))
    ensures Counted(Next(s, Give(m)))
  {
    hide Counted;
    CountedAfter(s, Next(s, Give(m)), m);
  }

  lemma {:induction false} CountExpire(s: State, t: nat)
    requires Counted(s) && Enabled(s, Expire(t))
    ensures Counted(Next(s, Expire(t)))
  {
    hide Counted, Left;
    CountedAfter(s, Next(s, Expire(t)), s.tasks[t].status.m);
  }

  lemma {:induction false} CountLower(s: State)
    requires Counted(s) && Enabled(s, Lower)
    ensures Counted(Next(s, Lower))
  {
    hide Counted, LoweredTo;
    CountedSame(s, Next(s, Lower));
  }

  lemma {:induction false} StepKeepsCount(s: State, step: Step)
    requires Counted(s) && Enabled(s, step)
    ensures Counted(Next(s, step))
  {
    hide Counted;
    match step
    case Top(wait) => CountTop(s, wait);
    case Section(timedOut) => CountSection(s, timedOut);
    case Give(m) => CountGive(s, m);
    case Expire(t) => CountExpire(s, t);
    case Lower => CountLower(s);
    case Switch(_) => CountedSame(s, Next(s, step));
    case Begin(_) => CountedSame(s, Next(s, step));
    case Check => CountedSame(s, Next(s, step));
    case Leave => CountedSame(s, Next(s, step));
    case Wake(_) => CountedSame(s, Next(s, step));
  }

  // ---------------------------------------------------------------------
  // Lists and priorities
  // ---------------------------------------------------------------------

  lemma {:induction false} MutexKept(m: nat, mutex: Mutex, tasks: seq<Task>, t: nat, task: Task)
    requires MutexFormed(m, mutex, tasks) && t < |tasks| && WaitsFor(task, m) == WaitsFor(tasks[t], m)
    ensures MutexFormed(m, mutex, tasks[t := task])
  {
    hide Distinct, WaitsFor;
  }

  /** A task changes without joining or leaving a list. */
  lemma {:induction false} TaskChanges(s: State, t: nat, task: Task)
    requires Formed(s) && t < |s.tasks| && TaskFormed(task) && Wanting(t, task, s.mutexes)
    requires forall m :: 0 <= m < |s.mutexes| ==> WaitsFor(task, m) == WaitsFor(s.tasks[t], m)
    ensures Formed(SetTask(s, t, task))
  {
    hide MutexFormed, TaskFormed, Wanting, WaitsFor;
    forall m | 0 <= m < |s.mutexes| ensures MutexFormed(m, s.mutexes[m], s.tasks[t := task]) {
      MutexKept(m, s.mutexes[m], s.tasks, t, task);
    }
  }

  /** What the others want is not taken from them by a change of one mutex. */
  lemma {:induction false} WantingKept(t: nat, task: Task, mutexes: seq<Mutex>, m: nat, mutex: Mutex)
    requires Wanting(t, task, mutexes) && m < |mutexes|
    requires mutex.holder == mutexes[m].holder || mutex.holder == Nobody || (mutex.holder == By(t) ==> IsFree(task))
    ensures Wanting(t, task, mutexes[m := mutex])
  {
    if !IsFree(task) {
      var w :| 0 <= w < |mutexes| && Wanted(task, w) && mutexes[w].holder != By(t);
      assert mutexes[m := mutex][w].holder != By(t);
    }
  }

  /** A task changes together with one mutex. */
  lemma {:induction false} BothChange(s: State, t: nat, task: Task, m: nat, mutex: Mutex)
    requires Formed(s) && t < |s.tasks| && m < |s.mutexes| && TaskFormed(task)
    requires Wanting(t, task, s.mutexes[m := mutex]) && MutexFormed(m, mutex, s.tasks[t := task])
    requires forall k :: 0 <= k < |s.mutexes| && k != m ==> WaitsFor(task, k) == WaitsFor(s.tasks[t], k)
    requires mutex.holder == s.mutexes[m].holder || mutex.holder == Nobody || mutex.holder == By(t)
    ensures Formed(SetMutex(SetTask(s, t, task), m, mutex))
  {
    hide MutexFormed, TaskFormed, Wanting, WaitsFor;
    var s' := SetMutex(SetTask(s, t, task), m, mutex);
    forall k | 0 <= k < |s.mutexes| ensures MutexFormed(k, s'.mutexes[k], s'.tasks) {
      if k != m {
        MutexKept(k, s.mutexes[k], s.tasks, t, task);
      }
    }
    forall u | 0 <= u < |s.tasks| ensures Wanting(u, s'.tasks[u], s'.mutexes) {
      if u != t {
        WantingKept(u, s.tasks[u], s.mutexes, m, mutex);
      }
    }
  }

  lemma {:induction false} SameLists(s: State, s': State)
    requires Formed(s) && s'.tasks == s.tasks && s'.mutexes == s.mutexes && s'.running < |s.tasks|
    ensures Formed(s')
  {
    hide MutexFormed, TaskFormed, Wanting;
  }

  lemma {:induction false} WantedStays(t: nat, task: Task, task': Task, mutexes: seq<Mutex>)
    requires Wanting(t, task, mutexes) && !IsFree(task)
    requires forall m :: Wanted(task, m) ==> Wanted(task', m)
    ensures Wanting(t, task', mutexes)
  {
    var m :| 0 <= m < |mutexes| && Wanted(task, m) && mutexes[m].holder != By(t);
    assert Wanted(task', m);
  }

  lemma {:induction false} JoinedElements(tasks: seq<Task>, waiters: seq<nat>, t: nat)
    requires t < |tasks| && forall i :: 0 <= i < |waiters| ==> waiters[i] < |tasks|
    ensures var p := JoinAt(tasks, waiters, tasks[t].priority);
            var r := Joined(tasks, waiters, t);
            && |r| == |waiters| + 1 && r[p] == t
            && (forall i :: 0 <= i < p ==> r[i] == waiters[i])
            && (forall i :: p < i < |r| ==> r[i] == waiters[i - 1])
  {
    hide JoinAt;
  }

  lemma {:induction false} JoinedMembers(tasks: seq<Task>, waiters: seq<nat>, t: nat)
    requires t < |tasks| && forall i :: 0 <= i < |waiters| ==> waiters[i] < |tasks|
    requires Distinct(waiters) && t !in waiters
    ensures Distinct(Joined(tasks, waiters, t))
    ensures forall u :: u in Joined(tasks, waiters, t) <==> u in waiters || u == t
  {
    JoinedElements(tasks, waiters, t);
    var p, r := JoinAt(tasks, waiters, tasks[t].priority), Joined(tasks, waiters, t);
    hide JoinAt, Joined;
    forall u | u in waiters ensures u in r {
      var i :| 0 <= i < |waiters| && waiters[i] == u;
      assert r[if i < p then i else i + 1] == u;
    }
  }

  lemma {:induction false} JoinedFormed(m: nat, mutex: Mutex, tasks: seq<Task>, t: nat, task: Task)
    requires MutexFormed(m, mutex, tasks) && t < |tasks| && !WaitsFor(tasks[t], m) && WaitsFor(task, m)
    ensures MutexFormed(m, mutex.(waiters := Joined(tasks, mutex.waiters, t)), tasks[t := task])
  {
    assert t !in mutex.waiters;
    JoinedMembers(tasks, mutex.waiters, t);
    hide WaitsFor, Joined, Distinct;
    var r := Joined(tasks, mutex.waiters, t);
    forall i | 0 <= i < |r| ensures r[i] < |tasks| && WaitsFor(tasks[t := task][r[i]], m) {
      assert r[i] in r;
    }
  }

  lemma {:induction false} LeftMembers(waiters: seq<nat>, t: nat)
    ensures forall u :: u in Left(waiters, t) <==> u in waiters && u != t
    ensures Distinct(waiters) ==> Distinct(Left(waiters, t))
  {
    if waiters == [] {
    } else {
      LeftMembers(waiters[1..], t);
      var rest := Left(waiters[1..], t);
      if Distinct(waiters) {
        forall i | 0 <= i < |rest| ensures rest[i] != waiters[0] {
          assert rest[i] in waiters[1..];
        }
      }
    }
  }

  lemma {:induction false} LeftFormed(m: nat, mutex: Mutex, tasks: seq<Task>, t: nat, task: Task, waiters: seq<nat>)
    requires MutexFormed(m, mutex, tasks) && t < |tasks| && !WaitsFor(task, m)
    requires Distinct(waiters) && forall u :: u in waiters <==> u in mutex.waiters && u != t
    ensures MutexFormed(m, Mutex(mutex.holder, waiters), tasks[t := task])
  {
    hide WaitsFor, Distinct;
    forall i | 0 <= i < |waiters| ensures waiters[i] < |tasks| && WaitsFor(tasks[t := task][waiters[i]], m) {
      assert waiters[i] in mutex.waiters;
    }
  }

  lemma {:induction false} HeadLeaves(waiters: seq<nat>)
    requires waiters != [] && Distinct(waiters)
    ensures Distinct(waiters[1..])
    ensures forall u :: u in waiters[1..] <==> u in waiters && u != waiters[0]
  {
  }

  lemma {:induction false} HolderChanges(m: nat, mutex: Mutex, tasks: seq<Task>, holder: Holder)
    requires MutexFormed(m, mutex, tasks) && (holder.By? ==> holder.task < |tasks|)
    ensures MutexFormed(m, mutex.(holder := holder), tasks)
  {
    hide WaitsFor, Distinct;
  }

  // ---------------------------------------------------------------------
  // Every step keeps the lists and priorities in order
  // ---------------------------------------------------------------------

  lemma {:induction false} DoKeeps(s: State, doing: Doing)
    requires Formed(s) && IsReady(s, s.running)
    requires Wanting(s.running, s.tasks[s.running].(status := Ready(doing)), s.mutexes)
    ensures Formed(Do(s, doing))
  {
    hide Wanting, MutexFormed;
    TaskChanges(s, s.running, s.tasks[s.running].(status := Ready(doing)));
  }

  lemma {:induction false} BeginKeeps(s: State, m: nat)
    requires Formed(s) && Enabled(s, Begin(m))
    ensures Formed(Next(s, Begin(m)))
  {
    assert Wanted(s.tasks[s.running].(status := Ready(Wants(m, false, false))), m);
    DoKeeps(s, Wants(m, false, false));
  }

  /** The running task goes on with the same mutex, or stops wanting it. */
  lemma {:induction false} GoesOn(s: State, doing: Doing)
    requires Formed(s) && IsReady(s, s.running)
    requires doing == Free || !IsFree(s.tasks[s.running])
    requires forall m :: Wanted(s.tasks[s.running], m) && doing != Free ==>
               Wanted(s.tasks[s.running].(status := Ready(doing)), m)
    ensures Formed(Do(s, doing))
  {
    var task := s.tasks[s.running];
    assert Wanting(s.running, task, s.mutexes);
    if doing != Free {
      WantedStays(s.running, task, task.(status := Ready(doing)), s.mutexes);
    }
    hide Formed;
    DoKeeps(s, doing);
  }

  lemma {:induction false} TakeKeeps(s: State, m: nat)
    requires Formed(s) && Runs(s) && m < |s.mutexes|
    ensures Formed(Taken(s, m))
  {
    var t := s.running;
    var task := s.tasks[t].(held := s.tasks[t].held + 1, status := Ready(Free));
    hide MutexFormed, Wanting;
    assert TaskFormed(s.tasks[t]) && TaskFormed(task);
    FreeWants(t, task, s.mutexes[m := s.mutexes[m].(holder := By(t))]);
    MutexKept(m, s.mutexes[m], s.tasks, t, task);
    HolderChanges(m, s.mutexes[m], s.tasks[t := task], By(t));
    hide Formed;
    BothChange(s, t, task, m, s.mutexes[m].(holder := By(t)));
  }

  lemma {:induction false} FreeWants(t: nat, task: Task, mutexes: seq<Mutex>)
    requires IsFree(task)
    ensures Wanting(t, task, mutexes)
  {
  }

  lemma {:induction false} TopKeeps(s: State, wait: bool)
    requires Formed(s) && Enabled(s, Top(wait))
    ensures Formed(Next(s, Top(wait)))
  {
    hide Formed, Taken;
    var d := DoingOf(s);
    if s.mutexes[d.m].holder == Nobody {
      TakeKeeps(s, d.m);
    } else {
      GoesOn(s, if wait then Placing(d.m, d.inherited) else Free);
    }
  }

  lemma {:induction false} CheckKeeps(s: State)
    requires Formed(s) && Enabled(s, Check)
    ensures Formed(Next(s, Check))
  {
    hide Formed;
    var d := DoingOf(s);
    if s.mutexes[d.m].holder == Nobody {
      GoesOn(s, Wants(d.m, d.inherited, true));
    } else if d.inherited {
      GoesOn(s, Lowering(d.m));
    } else {
      GoesOn(s, Free);
    }
  }

  /** A holder inherits a higher priority. */
  lemma {:induction false} RaiseKeeps(s: State, h: nat, priority: nat)
    requires Formed(s) && h < |s.tasks| && s.tasks[h].priority <= priority
    requires s.tasks[h].held > 0 || priority == s.tasks[h].priority
    ensures Formed(SetTask(s, h, s.tasks[h].(priority := priority)))
  {
    var task := s.tasks[h].(priority := priority);
    hide MutexFormed, Wanting;
    assert TaskFormed(s.tasks[h]) && Wanting(h, s.tasks[h], s.mutexes);
    SamePlace(h, s.tasks[h], priority, s.mutexes);
    hide Formed;
    TaskChanges(s, h, task);
  }

  lemma {:induction false} SamePlace(t: nat, task: Task, priority: nat, mutexes: seq<Mutex>)
    requires Wanting(t, task, mutexes)
    ensures Wanting(t, task.(priority := priority), mutexes)
  {
    if !IsFree(task) {
      WantedStays(t, task, task.(priority := priority), mutexes);
    }
  }

  lemma {:induction false} HolderHolds(s: State, m: nat)
    requires Counted(s) && m < |s.mutexes| && s.mutexes[m].holder.By? && s.mutexes[m].holder.task < |s.tasks|
    ensures s.tasks[s.mutexes[m].holder.task].held > 0
  {
    assert m in HeldBy(s.mutexes, s.mutexes[m].holder.task);
  }

  lemma {:induction false} JoinKeeps(s: State, m: nat, inherited: bool)
    requires Formed(s) && IsReady(s, s.running) && m < |s.mutexes| && Wanted(s.tasks[s.running], m)
    requires !IsFree(s.tasks[s.running])
    requires forall i :: 0 <= i < |s.mutexes[m].waiters| ==> s.mutexes[m].waiters[i] < |s.tasks|
    ensures var t := s.running;
            Formed(SetMutex(SetTask(s, t, s.tasks[t].(status := Waiting(m, inherited))), m,
                            s.mutexes[m].(waiters := Joined(s.tasks, s.mutexes[m].waiters, t))))
  {
    var t := s.running;
    var task := s.tasks[t].(status := Waiting(m, inherited));
    hide MutexFormed, Joined;
    assert TaskFormed(s.tasks[t]) && Wanting(t, s.tasks[t], s.mutexes);
    var w :| 0 <= w < |s.mutexes| && Wanted(s.tasks[t], w) && s.mutexes[w].holder != By(t);
    assert w == m;
    var mutex := s.mutexes[m].(waiters := Joined(s.tasks, s.mutexes[m].waiters, t));
    assert Wanted(task, m) && s.mutexes[m := mutex][m].holder != By(t);
    JoinedFormed(m, s.mutexes[m], s.tasks, t, task);
    hide Formed, Wanting;
    BothChange(s, t, task, m, mutex);
  }

  lemma {:induction false} SectionKeeps(s: State, timedOut: bool)
    requires Formed(s) && Counted(s) && Enabled(s, Section(timedOut))
    ensures Formed(Next(s, Section(timedOut)))
  {
    hide Formed, Counted, Joined;
    var d := DoingOf(s);
    if timedOut {
      GoesOn(s, GivingUp(d.m, d.inherited));
    } else if s.mutexes[d.m].holder == Nobody {
      GoesOn(s, Wants(d.m, d.inherited, false));
    } else {
      PlaceKeeps(s, d.m);
    }
  }

  lemma {:induction false} PlaceKeeps(s: State, m: nat)
    requires Formed(s) && Counted(s) && Enabled(s, Section(false)) && DoingOf(s).m == m
    requires s.mutexes[m].holder != Nobody
    ensures Formed(Placed(s, m))
  {
    hide Formed, Counted, Joined;
    HolderHolds(s, m);
    var h := s.mutexes[m].holder.task;
    var (priority, inherited) := Inherited(s.tasks[h], s.tasks[s.running].priority);
    RaiseKeeps(s, h, priority);
    var s1 := SetTask(s, h, s.tasks[h].(priority := priority));
    JoinKeeps(s1, m, inherited);
    var s2 := SetTask(s1, s.running, s1.tasks[s.running].(status := Waiting(m, inherited)));
    RunningInRange(s1);
    SameLists(SetMutex(s2, m, s.mutexes[m].(waiters := Joined(s1.tasks, s.mutexes[m].waiters, s.running))),
              Placed(s, m));
  }

  lemma {:induction false} RunningInRange(s: State)
    requires Formed(s)
    ensures s.running < |s.tasks|
  {
  }

  lemma {:induction false} LowerKeeps(s: State)
    requires Formed(s) && Counted(s) && Enabled(s, Lower)
    ensures Formed(Next(s, Lower))
  {
    hide Formed, Counted;
    var m := DoingOf(s).m;
    var mutex := s.mutexes[m];
    GoesOn(s, Free);
    if mutex.holder != Nobody {
      HolderHolds(s, m);
      var s' := Do(s, Free);
      var h := s'.tasks[mutex.holder.task];
      var highest := if mutex.waiters == [] then 0 else s.tasks[mutex.waiters[0]].priority;
      LoweringKeeps(s', mutex.holder.task, LoweredTo(h, highest));
    }
  }

  lemma {:induction false} LoweringKeeps(s: State, h: nat, priority: nat)
    requires Formed(s) && h < |s.tasks| && s.tasks[h].held > 0
    requires s.tasks[h].base <= priority || priority == s.tasks[h].priority
    ensures Formed(SetTask(s, h, s.tasks[h].(priority := priority)))
  {
    hide MutexFormed, Wanting;
    assert TaskFormed(s.tasks[h]) && Wanting(h, s.tasks[h], s.mutexes);
    SamePlace(h, s.tasks[h], priority, s.mutexes);
    hide Formed;
    TaskChanges(s, h, s.tasks[h].(priority := priority));
  }

  lemma {:induction false} GiveKeeps(s: State, m: nat)
    requires Formed(s) && Enabled(s, Give(m))
    ensures Formed(Next(s, Give(m)))
  {
    var t := s.running;
    var (giver, required) := Disinherited(s.tasks[t]);
    var mutex := s.mutexes[m];
    hide MutexFormed, Wanting;
    assert TaskFormed(s.tasks[t]) && TaskFormed(giver);
    FreeWants(t, giver, s.mutexes);
    hide Formed;
    TaskChanges(s, t, giver);
    var s1 := SetTask(s, t, giver);
    if mutex.waiters == [] {
      FreedKeeps(s1, m);
      RunningInRange(s1);
      SameLists(SetMutex(s1, m, Mutex(Nobody, [])), Next(s, Give(m)));
    } else {
      WakeHeadKeeps(s1, m);
      RunningInRange(s1);
      var w := mutex.waiters[0];
      var woken := s.tasks[w].(status := Ready(Wants(m, s.tasks[w].status.inherited, false)));
      SameLists(SetMutex(SetTask(s1, w, woken), m, Mutex(Nobody, mutex.waiters[1..])), Next(s, Give(m)));
    }
  }

  lemma {:induction false} FreedKeeps(s: State, m: nat)
    requires Formed(s) && m < |s.mutexes|
    ensures Formed(SetMutex(s, m, s.mutexes[m].(holder := Nobody)))
  {
    hide Wanting, TaskFormed, MutexFormed;
    var t, mutex := s.running, s.mutexes[m].(holder := Nobody);
    assert s.tasks[t := s.tasks[t]] == s.tasks;
    HolderChanges(m, s.mutexes[m], s.tasks, Nobody);
    WantingKept(t, s.tasks[t], s.mutexes, m, mutex);
    BothChange(s, t, s.tasks[t], m, mutex);
  }

  lemma {:induction false} WakeHeadKeeps(s: State, m: nat)
    requires Formed(s) && m < |s.mutexes| && s.mutexes[m].waiters != []
    requires s.mutexes[m].waiters[0] < |s.tasks| && s.tasks[s.mutexes[m].waiters[0]].status.Waiting?
    ensures var w := s.mutexes[m].waiters[0];
            var woken := s.tasks[w].(status := Ready(Wants(m, s.tasks[w].status.inherited, false)));
            Formed(SetMutex(SetTask(s, w, woken), m, Mutex(Nobody, s.mutexes[m].waiters[1..])))
  {
    var mutex := s.mutexes[m];
    var w := mutex.waiters[0];
    var woken := s.tasks[w].(status := Ready(Wants(m, s.tasks[w].status.inherited, false)));
    assert MutexFormed(m, mutex, s.tasks);
    HeadLeaves(mutex.waiters);
    LeftFormed(m, mutex, s.tasks, w, woken, mutex.waiters[1..]);
    var mutex' := Mutex(Nobody, mutex.waiters[1..]);
    HolderChanges(m, Mutex(mutex.holder, mutex.waiters[1..]), s.tasks[w := woken], Nobody);
    assert TaskFormed(s.tasks[w]);
    assert Wanted(woken, m) && s.mutexes[m := mutex'][m].holder != By(w);
    hide MutexFormed, Formed;
    BothChange(s, w, woken, m, mutex');
  }

  lemma {:induction false} ExpireKeeps(s: State, t: nat)
    requires Formed(s) && Enabled(s, Expire(t))
    ensures Formed(Next(s, Expire(t)))
  {
    var m := s.tasks[t].status.m;
    var mutex := s.mutexes[m];
    var task := s.tasks[t].(status := Ready(Wants(m, s.tasks[t].status.inherited, false)));
    hide MutexFormed, Left;
    LeftMembers(mutex.waiters, t);
    assert Distinct(mutex.waiters) by { MutexDistinct(m, mutex, s.tasks); }
    LeftFormed(m, mutex, s.tasks, t, task, Left(mutex.waiters, t));
    var mutex' := mutex.(waiters := Left(mutex.waiters, t));
    assert TaskFormed(s.tasks[t]) && Wanting(t, s.tasks[t], s.mutexes);
    WantedStays(t, s.tasks[t], task, s.mutexes);
    WantingKept(t, task, s.mutexes, m, mutex');
    hide Formed, Wanting;
    BothChange(s, t, task, m, mutex');
    SameLists(SetMutex(SetTask(s, t, task), m, mutex'), Next(s, Expire(t)));
  }

  lemma {:induction false} MutexDistinct(m: nat, mutex: Mutex, tasks: seq<Task>)
    requires MutexFormed(m, mutex, tasks)
    ensures Distinct(mutex.waiters)
  {
  }

  lemma {:induction false} ComesAndGoes(s: State, t: nat, status: Status)
    requires Formed(s) && t < |s.tasks| && IsFree(s.tasks[t]) && (status == Away || status == Ready(Free))
    ensures Formed(SetTask(s, t, s.tasks[t].(status := status)))
  {
    var task := s.tasks[t].(status := status);
    assert TaskFormed(s.tasks[t]);
    FreeWants(t, task, s.mutexes);
    hide MutexFormed, Wanting, Formed;
    TaskChanges(s, t, task);
  }

  lemma {:induction false} StepKeepsForm(s: State, step: Step)
    requires Formed(s) && Counted(s) && Enabled(s, step)
    ensures Formed(Next(s, step))
  {
    hide Formed, Counted, MutexFormed;
    match step
    case Switch(to) => SameLists(s, Next(s, step));
    case Begin(m) => BeginKeeps(s, m);
    case Top(wait) => TopKeeps(s, wait);
    case Section(timedOut) => SectionKeeps(s, timedOut);
    case Check => CheckKeeps(s);
    case Lower => LowerKeeps(s);
    case Give(m) => GiveKeeps(s, m);
    case Leave =>
      ComesAndGoes(s, s.running, Away);
      SameLists(SetTask(s, s.running, s.tasks[s.running].(status := Away)), Next(s, step));
    case Wake(t) =>
      ComesAndGoes(s, t, Ready(Free));
      SameLists(SetTask(s, t, s.tasks[t].(status := Ready(Free))), Next(s, step));
    case Expire(t) => ExpireKeeps(s, t);
  }
}
