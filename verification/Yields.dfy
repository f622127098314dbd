/** Why a take over the head of a more urgent task is rare: the running task is
    the right one, and somebody urgent enough is on the way to any free mutex,
    unless a call for a context switch has been dropped. It takes a time-out to
    have one dropped. */
module Yields {

  import opened Mutexes
  import opened Inversion

  predicate Heading(task: Task, m: nat)
  {
    task.status.Ready? && task.status.doing.Wants? && task.status.doing.m == m
  }

  /** Somebody at least as urgent as everyone waiting for a free mutex is on the
      way to take it. */
  ghost predicate Approached(m: nat, mutex: Mutex, tasks: seq<Task>)
  {
    mutex.holder == Nobody && mutex.waiters != [] ==>
      && NamesTasks(mutex.waiters, tasks)
      && exists u :: 0 <= u < |tasks| && Heading(tasks[u], m) && Outranks(tasks[u].priority, mutex.waiters, tasks)
  }

  ghost predicate AllApproached(s: State)
  {
    forall m :: 0 <= m < |s.mutexes| ==> Approached(m, s.mutexes[m], s.tasks)
  }

  /** The running task is the right one, or will not get any further. */
  predicate RightTask(s: State)
  {
    s.yieldPending || IsTop(s, s.running)
  }

  ghost predicate Promised(s: State)
  {
    RightTask(s) && AllApproached(s)
  }

  /** Then the task that takes a free mutex is urgent enough. */
  lemma {:induction false} PromisedIsOrderly(s: State, step: Step)
    requires Formed(s) && Promised(s) && Enabled(s, step)
    ensures !InvertingTake(s, step)
  {
    if step.Top? && s.mutexes[DoingOf(s).m].holder == Nobody && s.mutexes[DoingOf(s).m].waiters != [] {
      var m := DoingOf(s).m;
      var w := s.mutexes[m].waiters;
      assert Approached(m, s.mutexes[m], s.tasks);
      var u :| 0 <= u < |s.tasks| && Heading(s.tasks[u], m) && Outranks(s.tasks[u].priority, w, s.tasks);
      assert IsReady(s, u);
    }
  }

  // ---------------------------------------------------------------------
  // Somebody is on the way
  // ---------------------------------------------------------------------

  /** A task changes that is not in the list, and not the one on its way. */
  lemma {:induction false} StillApproached(m: nat, mutex: Mutex, tasks: seq<Task>, t: nat, task: Task)
    requires Approached(m, mutex, tasks) && t < |tasks|
    requires task.priority == tasks[t].priority || t !in mutex.waiters
    requires mutex.holder == Nobody && Heading(tasks[t], m) ==> Heading(task, m) && task.priority == tasks[t].priority
    ensures Approached(m, mutex, tasks[t := task])
  {
    var tasks' := tasks[t := task];
    hide Heading;
    forall i | 0 <= i < |mutex.waiters| && mutex.waiters[i] < |tasks|
      ensures tasks'[mutex.waiters[i]].priority == tasks[mutex.waiters[i]].priority
    {
      assert mutex.waiters[i] in mutex.waiters;
    }
    if mutex.holder == Nobody && mutex.waiters != [] {
      var u :| 0 <= u < |tasks| && Heading(tasks[u], m) && Outranks(tasks[u].priority, mutex.waiters, tasks);
      assert Heading(tasks'[u], m) && Outranks(tasks'[u].priority, mutex.waiters, tasks');
    }
  }

  lemma {:induction false} OneApproached(s: State, t: nat, task: Task)
    requires AllApproached(s) && t < |s.tasks|
    requires task.priority == s.tasks[t].priority || forall m :: 0 <= m < |s.mutexes| ==> t !in s.mutexes[m].waiters
    requires forall m :: 0 <= m < |s.mutexes| && s.mutexes[m].holder == Nobody && Heading(s.tasks[t], m) ==>
               Heading(task, m) && task.priority == s.tasks[t].priority
    ensures AllApproached(SetTask(s, t, task))
  {
    hide Approached, Heading;
    forall m | 0 <= m < |s.mutexes| ensures Approached(m, s.mutexes[m], s.tasks[t := task]) {
      StillApproached(m, s.mutexes[m], s.tasks, t, task);
    }
  }

  /** A mutex changes and is held afterwards, or approached. */
  lemma {:induction false} MutexApproached(s: State, m: nat, mutex: Mutex)
    requires AllApproached(s) && m < |s.mutexes| && Approached(m, mutex, s.tasks)
    ensures AllApproached(SetMutex(s, m, mutex))
  {
    hide Approached;
  }

  lemma {:induction false} SameApproach(s: State, s': State)
    requires AllApproached(s) && s'.tasks == s.tasks && s'.mutexes == s.mutexes
    ensures AllApproached(s')
  {
    hide Approached;
  }

  /** The running task goes on, and was not on the way to a free mutex. */
  lemma {:induction false} DoApproached(s: State, doing: Doing)
    requires AllApproached(s) && IsReady(s, s.running)
    requires forall m :: 0 <= m < |s.mutexes| && s.mutexes[m].holder == Nobody ==> !Heading(s.tasks[s.running], m)
    ensures AllApproached(Do(s, doing))
  {
    hide AllApproached, Heading;
    OneApproached(s, s.running, s.tasks[s.running].(status := Ready(doing)));
  }

  lemma {:induction false} TakeApproached(s: State, m: nat)
    requires Formed(s) && AllApproached(s) && IsReady(s, s.running) && m < |s.mutexes| && Heading(s.tasks[s.running], m)
    ensures AllApproached(Taken(s, m))
  {
    var t := s.running;
    var task := s.tasks[t].(held := s.tasks[t].held + 1, status := Ready(Free));
    var mutex := s.mutexes[m].(holder := By(t));
    assert Approached(m, mutex, s.tasks);
    hide Formed, AllApproached;
    MutexApproached(s, m, mutex);
    OneApproached(SetMutex(s, m, mutex), t, task);
    SameApproach(SetTask(SetMutex(s, m, mutex), t, task), Taken(s, m));
  }

  lemma {:induction false} TopApproached(s: State, wait: bool)
    requires Formed(s) && AllApproached(s) && Enabled(s, Top(wait))
    ensures AllApproached(Next(s, Top(wait)))
  {
    var d := DoingOf(s);
    hide AllApproached, Formed, Taken;
    if s.mutexes[d.m].holder == Nobody {
      TakeApproached(s, d.m);
    } else {
      DoApproached(s, if wait then Placing(d.m, d.inherited) else Free);
    }
  }

  lemma {:induction false} PlaceApproached(s: State, m: nat)
    requires Formed(s) && OneEach(s) && Counted(s) && AllApproached(s) && Enabled(s, Section(false))
    requires DoingOf(s).m == m && s.mutexes[m].holder != Nobody
    ensures AllApproached(Placed(s, m))
  {
    var t, h := s.running, s.mutexes[m].holder.task;
    var (priority, inherited) := Inherited(s.tasks[h], s.tasks[t].priority);
    assert Wanted(s.tasks[t], m);
    NotItsHolder(s, t, m);
    HolderHolds(s, m);
    HolderIsUnlisted(s, h);
    hide Formed, Counted, OneEach, Joined, AllApproached, Inherited;
    var s1 := SetTask(s, h, s.tasks[h].(priority := priority));
    OneApproached(s, h, s.tasks[h].(priority := priority));
    var task := s1.tasks[t].(status := Waiting(m, inherited));
    OneApproached(s1, t, task);
    var mutex := s.mutexes[m].(waiters := Joined(s1.tasks, s.mutexes[m].waiters, t));
    MutexApproached(SetTask(s1, t, task), m, mutex);
    SameApproach(SetMutex(SetTask(s1, t, task), m, mutex), Placed(s, m));
  }

  lemma {:induction false} SectionApproached(s: State, timedOut: bool)
    requires Formed(s) && Counted(s) && OneEach(s) && AllApproached(s) && Enabled(s, Section(timedOut))
    ensures AllApproached(Next(s, Section(timedOut)))
  {
    hide Formed, Counted, OneEach, AllApproached, Placed;
    var d := DoingOf(s);
    if !timedOut && s.mutexes[d.m].holder != Nobody {
      PlaceApproached(s, d.m);
    } else {
      DoApproached(s, Next(s, Section(timedOut)).tasks[s.running].status.doing);
    }
  }

  lemma {:induction false} CheckApproached(s: State)
    requires AllApproached(s) && Enabled(s, Check)
    ensures AllApproached(Next(s, Check))
  {
    hide AllApproached;
    DoApproached(s, Next(s, Check).tasks[s.running].status.doing);
  }

  lemma {:induction false} LowerApproached(s: State)
    requires Formed(s) && Counted(s) && OneEach(s) && AllApproached(s) && Enabled(s, Lower)
    ensures AllApproached(Next(s, Lower))
  {
    var m := DoingOf(s).m;
    var s' := Do(s, Free);
    NotItsHolder(s, s.running, m);
    if s.mutexes[m].holder != Nobody {
      HolderHolds(s, m);
      HolderIsUnlisted(s, s.mutexes[m].holder.task);
    }
    hide Formed, Counted, OneEach, AllApproached, LoweredTo;
    DoApproached(s, Free);
    if s.mutexes[m].holder != Nobody {
      var h := s.mutexes[m].holder.task;
      OneApproached(s', h, Next(s, Lower).tasks[h]);
      SameApproach(SetTask(s', h, Next(s, Lower).tasks[h]), Next(s, Lower));
    }
  }

  /** The task woken by a give is urgent enough for those still waiting. */
  lemma {:induction false} WokenIsOnItsWay(m: nat, mutex: Mutex, tasks: seq<Task>, w: nat)
    requires MutexBounded(mutex, tasks) && mutex.waiters != [] && mutex.waiters[0] == w && Heading(tasks[w], m)
    ensures Approached(m, Mutex(Nobody, mutex.waiters[1..]), tasks)
  {
    TailDescends(mutex.waiters, tasks);
    HeadOutranks(mutex.waiters, tasks, tasks[w].priority);
    OutranksFewer(tasks[w].priority, mutex.waiters, mutex.waiters[1..], tasks);
  }

  lemma {:induction false} GiveApproached(s: State, m: nat)
    requires Formed(s) && OneEach(s) && Bounded(s) && AllApproached(s) && Enabled(s, Give(m))
    ensures AllApproached(Next(s, Give(m)))
  {
    var t, mutex, s' := s.running, s.mutexes[m], Next(s, Give(m));
    ReadyIsUnlisted(s, t);
    assert MutexBounded(mutex, s.tasks) && MutexFormed(m, mutex, s.tasks);
    hide Formed, OneEach, Bounded, AllApproached, MutexBounded;
    var s1 := SetTask(s, t, Disinherited(s.tasks[t]).0);
    OneApproached(s, t, s1.tasks[t]);
    if mutex.waiters == [] {
      assert Approached(m, Mutex(Nobody, []), s1.tasks);
      MutexApproached(s1, m, Mutex(Nobody, []));
      SameApproach(SetMutex(s1, m, Mutex(Nobody, [])), s');
    } else {
      var w := mutex.waiters[0];
      assert w in mutex.waiters && w != t;
      var s2 := SetTask(s1, w, s'.tasks[w]);
      OneApproached(s1, w, s'.tasks[w]);
      var given := mutex.(holder := Nobody);
      assert MutexBounded(given, s.tasks) by { FreedIsBounded(mutex, s.tasks); }
      StillBounded(given, s.tasks, t, s1.tasks[t]);
      StillBounded(given, s1.tasks, w, s'.tasks[w]);
      WokenIsOnItsWay(m, given, s2.tasks, w);
      MutexApproached(s2, m, Mutex(Nobody, mutex.waiters[1..]));
      SameApproach(SetMutex(s2, m, Mutex(Nobody, mutex.waiters[1..])), s');
    }
  }

  lemma {:induction false} FreedIsBounded(mutex: Mutex, tasks: seq<Task>)
    requires MutexBounded(mutex, tasks)
    ensures MutexBounded(mutex.(holder := Nobody), tasks)
  {
  }

  lemma {:induction false} LeaveApproached(s: State)
    requires AllApproached(s) && Enabled(s, Leave)
    ensures AllApproached(Next(s, Leave))
  {
    hide AllApproached;
    var task := s.tasks[s.running].(status := Away);
    OneApproached(s, s.running, task);
    SameApproach(SetTask(s, s.running, task), Next(s, Leave));
  }

  lemma {:induction false} WakeApproached(s: State, t: nat)
    requires AllApproached(s) && Enabled(s, Wake(t))
    ensures AllApproached(Next(s, Wake(t)))
  {
    hide AllApproached;
    var task := s.tasks[t].(status := Ready(Free));
    OneApproached(s, t, task);
    SameApproach(SetTask(s, t, task), Next(s, Wake(t)));
  }

  lemma {:induction false} LeftApproached(m: nat, mutex: Mutex, tasks: seq<Task>, t: nat)
    requires Approached(m, mutex, tasks)
    ensures Approached(m, mutex.(waiters := Left(mutex.waiters, t)), tasks)
  {
    var w, w' := mutex.waiters, Left(mutex.waiters, t);
    LeftMembers(w, t);
    assert forall i :: 0 <= i < |w'| ==> w'[i] in w';
    hide Left, Heading;
    if mutex.holder == Nobody && w' != [] {
      assert w'[0] in w;
      var u :| 0 <= u < |tasks| && Heading(tasks[u], m) && Outranks(tasks[u].priority, w, tasks);
      OutranksFewer(tasks[u].priority, w, w', tasks);
    }
  }

  lemma {:induction false} ExpireApproached(s: State, t: nat)
    requires AllApproached(s) && Enabled(s, Expire(t))
    ensures AllApproached(Next(s, Expire(t)))
  {
    var m := s.tasks[t].status.m;
    var task := s.tasks[t].(status := Ready(Wants(m, s.tasks[t].status.inherited, false)));
    var mutex := s.mutexes[m].(waiters := Left(s.mutexes[m].waiters, t));
    assert Approached(m, s.mutexes[m], s.tasks);
    hide AllApproached, Approached, Left;
    LeftApproached(m, s.mutexes[m], s.tasks, t);
    MutexApproached(s, m, mutex);
    OneApproached(SetMutex(s, m, mutex), t, task);
    SameApproach(SetTask(SetMutex(s, m, mutex), t, task), Next(s, Expire(t)));
  }

  lemma {:induction false} StepApproached(s: State, step: Step)
    requires Formed(s) && Counted(s) && OneEach(s) && Bounded(s) && AllApproached(s) && Enabled(s, step)
    ensures AllApproached(Next(s, step))
  {
    hide Formed, Counted, OneEach, Bounded, AllApproached;
    match step
    case Switch(to) => SameApproach(s, Next(s, step));
    case Begin(m) => DoApproached(s, Wants(m, false, false));
    case Top(wait) => TopApproached(s, wait);
    case Section(timedOut) => SectionApproached(s, timedOut);
    case Check => CheckApproached(s);
    case Lower => LowerApproached(s);
    case Give(m) => GiveApproached(s, m);
    case Leave => LeaveApproached(s);
    case Wake(t) => WakeApproached(s, t);
    case Expire(t) => ExpireApproached(s, t);
  }

  // ---------------------------------------------------------------------
  // The right task runs
  // ---------------------------------------------------------------------

  lemma {:induction false} GiveRight(s: State, m: nat)
    requires RightTask(s) && Enabled(s, Give(m)) && !Next(s, Give(m)).ignored
    ensures RightTask(Next(s, Give(m)))
  {
  }

  /** Lowering a holder leaves the running task the most urgent one. */
  lemma {:induction false} LowerRight(s: State)
    requires Formed(s) && Bounded(s) && RightTask(s) && Enabled(s, Lower)
    ensures RightTask(Next(s, Lower))
  {
    var m := DoingOf(s).m;
    var mutex := s.mutexes[m];
    NotItsHolder(s, s.running, m);
    if mutex.holder != Nobody {
      var h, highest := mutex.holder.task, if mutex.waiters == [] then 0 else s.tasks[mutex.waiters[0]].priority;
      assert MutexBounded(mutex, s.tasks) && TaskFormed(s.tasks[h]);
      hide Formed, Bounded, LoweredTo;
      LoweredEnough(s.tasks[h], highest);
    }
    hide Formed, Bounded, LoweredTo;
  }

  lemma {:induction false} StepRight(s: State, step: Step)
    requires Formed(s) && Bounded(s) && RightTask(s) && Enabled(s, step) && !Next(s, step).ignored
    ensures RightTask(Next(s, step))
  {
    match step
    case Give(m) => GiveRight(s, m);
    case Lower => LowerRight(s);
    case _ => hide Formed, Bounded, Joined, Left, Inherited, Given;
  }

  lemma {:induction false} StaysIgnored(s: State, step: Step)
    requires Enabled(s, step) && s.ignored
    ensures Next(s, step).ignored
  {
  }

  // ---------------------------------------------------------------------
  // Runs
  // ---------------------------------------------------------------------

  lemma {:induction false} RunStaysIgnored(s: State, run: seq<Step>)
    requires Possible(s, run) && s.ignored
    ensures After(s, run).ignored
    decreases |run|
  {
    hide Enabled, Next;
    if run == [] {
    } else {
      StaysIgnored(s, run[0]);
      RunStaysIgnored(Next(s, run[0]), run[1..]);
    }
  }

  lemma {:induction false} InitPromised(s: State)
    requires Init(s)
    ensures Promised(s)
  {
  }

  lemma {:induction false} RunIsOrderly(s: State, run: seq<Step>)
    requires Formed(s) && Counted(s) && OneEach(s) && Bounded(s) && Promised(s)
    requires Possible(s, run) && Modest(s, run) && !After(s, run).ignored
    ensures Orderly(s, run)
    decreases |run|
  {
    hide Formed, Counted, OneEach, Bounded, RightTask, AllApproached, Enabled, Next, OneAtATime, InvertingTake;
    if run == [] {
    } else {
      var s' := Next(s, run[0]);
      PromisedIsOrderly(s, run[0]);
      if s'.ignored {
        RunStaysIgnored(s', run[1..]);
      } else {
        StepExact(s, run[0]);
        StepKeepsForm(s, run[0]);
        StepKeepsCount(s, run[0]);
        StepKeepsOneEach(s, run[0]);
        StepApproached(s, run[0]);
        StepRight(s, run[0]);
        RunIsOrderly(s', run[1..]);
      }
    }
  }

  /** A run in which no call for a context switch is dropped inverts nothing. */
  lemma {:induction false} HeededRunsAreBounded(s: State, run: seq<Step>)
    requires Init(s) && Possible(s, run) && Modest(s, run) && !After(s, run).ignored
    ensures NeverInverted(s, run)
  {
    InitFormed(s);
    InitBounded(s);
    InitPromised(s);
    hide Init, Formed, Counted, OneEach, Bounded, Promised, Possible, Modest, NeverInverted, Orderly;
    RunIsOrderly(s, run);
    RunExact(s, run);
  }

  // ---------------------------------------------------------------------
  // Without time-outs the call is never ignored
  // ---------------------------------------------------------------------

  /** A raised priority is that of the first task waiting. */
  predicate Earned(mutex: Mutex, tasks: seq<Task>)
  {
    mutex.holder.By? && mutex.holder.task < |tasks|
    && tasks[mutex.holder.task].priority > tasks[mutex.holder.task].base ==>
      && mutex.waiters != [] && mutex.waiters[0] < |tasks|
      && tasks[mutex.waiters[0]].priority == tasks[mutex.holder.task].priority
  }

  ghost predicate AllEarned(s: State)
  {
    forall m :: 0 <= m < |s.mutexes| ==> Earned(s.mutexes[m], s.tasks)
  }

  /** Priorities stay, and so do holders and lists. */
  lemma {:induction false} EarnedSame(s: State, s': State)
    requires AllEarned(s) && s'.mutexes == s.mutexes && |s'.tasks| == |s.tasks|
    requires forall t :: 0 <= t < |s.tasks| ==>
               s'.tasks[t].priority == s.tasks[t].priority && s'.tasks[t].base == s.tasks[t].base
    ensures AllEarned(s')
  {
  }

  lemma {:induction false} EarnedTop(s: State, wait: bool)
    requires Formed(s) && OneEach(s) && Bounded(s) && AllEarned(s) && Enabled(s, Top(wait))
    ensures AllEarned(Next(s, Top(wait)))
  {
    var s' := Next(s, Top(wait));
    assert TaskFormed(s.tasks[s.running]) && !IsFree(s.tasks[s.running]);
    assert s.tasks[s.running].priority == s.tasks[s.running].base;
    hide Formed, OneEach, Bounded;
    forall m | 0 <= m < |s'.mutexes| ensures Earned(s'.mutexes[m], s'.tasks) {
      assert Earned(s.mutexes[m], s.tasks);
    }
  }

  lemma {:induction false} JoinAtFront(tasks: seq<Task>, waiters: seq<nat>, t: nat)
    requires t < |tasks| && NamesTasks(waiters, tasks)
    ensures waiters == [] || tasks[waiters[0]].priority < tasks[t].priority ==> Joined(tasks, waiters, t)[0] == t
    ensures waiters != [] && tasks[waiters[0]].priority >= tasks[t].priority ==>
              Joined(tasks, waiters, t)[0] == waiters[0]
  {
  }

  /** A task that is neither the holder nor listed may change its priority. */
  lemma {:induction false} EarnedStill(mutex: Mutex, tasks: seq<Task>, t: nat, task: Task)
    requires Earned(mutex, tasks) && t < |tasks|
    requires (task.priority == tasks[t].priority && task.base == tasks[t].base)
             || (mutex.holder != By(t) && t !in mutex.waiters)
    ensures Earned(mutex, tasks[t := task])
  {
    assert mutex.waiters != [] ==> mutex.waiters[0] in mutex.waiters;
  }

  /** A task that joins has either raised the holder and goes first, or not. */
  lemma {:induction false} EarnedJoin(mutex: Mutex, tasks: seq<Task>, h: nat, t: nat, task: Task)
    requires Earned(mutex, tasks) && mutex.holder == By(h) && h < |tasks| && t < |tasks| && h != t
    requires NamesTasks(mutex.waiters, tasks) && Outranks(tasks[h].priority, mutex.waiters, tasks)
    requires h !in mutex.waiters && task.priority == tasks[t].priority && tasks[h].base <= tasks[h].priority
    ensures var raised := tasks[h := tasks[h].(priority := Inherited(tasks[h], tasks[t].priority).0)];
            NamesTasks(mutex.waiters, raised)
            && Earned(mutex.(waiters := Joined(raised, mutex.waiters, t)), raised[t := task])
  {
    var raised := tasks[h := tasks[h].(priority := Inherited(tasks[h], tasks[t].priority).0)];
    assert mutex.waiters != [] ==> mutex.waiters[0] in mutex.waiters;
    JoinAtFront(raised, mutex.waiters, t);
    hide Joined;
  }

  lemma {:induction false} EarnedElsewhere(s: State, m: nat, k: nat)
    requires Counted(s) && OneEach(s) && Enabled(s, Section(false)) && AllEarned(s)
    requires DoingOf(s).m == m && s.mutexes[m].holder != Nobody && s.mutexes[m].holder != By(s.running)
    requires k < |s.mutexes| && k != m && s.mutexes[m].holder.task !in s.mutexes[k].waiters
    ensures Earned(Placed(s, m).mutexes[k], Placed(s, m).tasks)
  {
    var t, h, s' := s.running, s.mutexes[m].holder.task, Placed(s, m);
    if s.mutexes[k].holder == By(h) {
      OnlyOne(s, h, m, k);
    }
    assert Earned(s.mutexes[k], s.tasks);
    hide Earned, AllEarned, Counted, OneEach, Joined;
    EarnedStill(s.mutexes[k], s.tasks, h, s'.tasks[h]);
    EarnedStill(s.mutexes[k], s.tasks[h := s'.tasks[h]], t, s'.tasks[t]);
  }

  lemma {:induction false} EarnedPlace(s: State, m: nat)
    requires Formed(s) && Counted(s) && OneEach(s) && Bounded(s) && AllEarned(s) && Enabled(s, Section(false))
    requires DoingOf(s).m == m && s.mutexes[m].holder != Nobody
    ensures AllEarned(Placed(s, m))
  {
    var t, h := s.running, s.mutexes[m].holder.task;
    HolderHolds(s, m);
    HolderIsUnlisted(s, h);
    assert Wanted(s.tasks[t], m) && TaskFormed(s.tasks[h]);
    NotItsHolder(s, t, m);
    assert MutexBounded(s.mutexes[m], s.tasks) && Earned(s.mutexes[m], s.tasks);
    var s' := Placed(s, m);
    assert Earned(s'.mutexes[m], s'.tasks) by {
      hide Formed, Counted, OneEach, Bounded, AllEarned, Earned, Joined, WaitsFor;
      EarnedJoin(s.mutexes[m], s.tasks, h, t, s'.tasks[t]);
    }
    hide Formed, Counted, OneEach, Bounded, Earned, Joined, Inherited;
    forall k | 0 <= k < |s'.mutexes| && k != m ensures Earned(s'.mutexes[k], s'.tasks) {
      EarnedElsewhere(s, m, k);
    }
  }

  lemma {:induction false} NothingToLower(mutex: Mutex, tasks: seq<Task>, h: nat, highest: nat)
    requires Earned(mutex, tasks) && mutex.holder == By(h) && h < |tasks| && tasks[h].base <= tasks[h].priority
    requires NamesTasks(mutex.waiters, tasks) && Outranks(tasks[h].priority, mutex.waiters, tasks)
    requires highest == if mutex.waiters == [] then 0 else tasks[mutex.waiters[0]].priority
    ensures LoweredTo(tasks[h], highest) == tasks[h].priority
  {
  }

  /** Then there is never an inheritance to undo. */
  lemma {:induction false} LowerIsIdle(s: State)
    requires Formed(s) && Counted(s) && OneEach(s) && Bounded(s) && AllEarned(s) && Enabled(s, Lower)
    ensures AllEarned(Next(s, Lower))
  {
    var m := DoingOf(s).m;
    var mutex := s.mutexes[m];
    if mutex.holder != Nobody {
      var h := mutex.holder.task;
      NotItsHolder(s, s.running, m);
      assert TaskFormed(s.tasks[h]) && MutexBounded(mutex, s.tasks) && Earned(mutex, s.tasks);
      hide Formed, Counted, OneEach, Bounded, LoweredTo, Earned, AllEarned;
      NothingToLower(mutex, s.tasks, h, if mutex.waiters == [] then 0 else s.tasks[mutex.waiters[0]].priority);
    }
    hide Formed, Counted, OneEach, Bounded, LoweredTo, AllEarned;
    EarnedSame(s, Next(s, Lower));
  }

  lemma {:induction false} GiveHeeded(s: State, m: nat)
    requires Formed(s) && OneEach(s) && Bounded(s) && AllEarned(s) && Enabled(s, Give(m)) && !s.ignored
    ensures !Next(s, Give(m)).ignored
  {
    assert TaskFormed(s.tasks[s.running]) && Earned(s.mutexes[m], s.tasks);
    hide Formed, OneEach, Bounded;
  }

  lemma {:induction false} EarnedGive(s: State, m: nat)
    requires Formed(s) && Counted(s) && OneEach(s) && Bounded(s) && AllEarned(s) && Enabled(s, Give(m))
    ensures AllEarned(Next(s, Give(m)))
  {
    var t, s' := s.running, Next(s, Give(m));
    ReadyIsUnlisted(s, t);
    forall k | 0 <= k < |s'.mutexes| ensures Earned(s'.mutexes[k], s'.tasks) {
      if k != m {
        assert Earned(s.mutexes[k], s.tasks);
        if s.mutexes[k].holder == By(t) {
          OnlyOne(s, t, m, k);
        }
        hide Earned, AllEarned, Formed, Counted, OneEach, Bounded;
        EarnedStill(s.mutexes[k], s.tasks, t, s'.tasks[t]);
        if s.mutexes[m].waiters != [] {
          var w := s.mutexes[m].waiters[0];
          EarnedStill(s.mutexes[k], s.tasks[t := s'.tasks[t]], w, s'.tasks[w]);
        }
      }
    }
  }

  lemma {:induction false} StepKeepsEarned(s: State, step: Step)
    requires Formed(s) && Counted(s) && OneEach(s) && Bounded(s) && AllEarned(s) && !s.ignored
    requires Enabled(s, step) && !step.Expire?
    ensures AllEarned(Next(s, step)) && !Next(s, step).ignored
  {
    hide Formed, Counted, OneEach, Bounded, AllEarned;
    match step
    case Top(wait) => EarnedTop(s, wait);
    case Section(timedOut) =>
      if !timedOut && s.mutexes[DoingOf(s).m].holder != Nobody {
        EarnedPlace(s, DoingOf(s).m);
      } else {
        EarnedSame(s, Next(s, step));
      }
    case Lower => LowerIsIdle(s);
    case Give(m) =>
      GiveHeeded(s, m);
      EarnedGive(s, m);
    case Switch(_) => EarnedSame(s, Next(s, step));
    case Begin(_) => EarnedSame(s, Next(s, step));
    case Check => EarnedSame(s, Next(s, step));
    case Leave => EarnedSame(s, Next(s, step));
    case Wake(_) => EarnedSame(s, Next(s, step));
    case Expire(_) =>
  }

  lemma {:induction false} RunKeepsEarned(s: State, run: seq<Step>)
    requires Formed(s) && Counted(s) && OneEach(s) && Bounded(s) && Promised(s) && AllEarned(s) && !s.ignored
    requires Possible(s, run) && Modest(s, run) && forall i :: 0 <= i < |run| ==> !run[i].Expire?
    ensures !After(s, run).ignored
    decreases |run|
  {
    hide Formed, Counted, OneEach, Bounded, RightTask, AllApproached, AllEarned;
    hide Enabled, Next, OneAtATime, InvertingTake;
    if run == [] {
    } else {
      assert !run[0].Expire?;
      PromisedIsOrderly(s, run[0]);
      StepExact(s, run[0]);
      StepKeepsEarned(s, run[0]);
      StepKeepsForm(s, run[0]);
      StepKeepsCount(s, run[0]);
      StepKeepsOneEach(s, run[0]);
      StepApproached(s, run[0]);
      StepRight(s, run[0]);
      RunKeepsEarned(Next(s, run[0]), run[1..]);
    }
  }

  /** Where no block time ends, the bound holds without further conditions. */
  lemma {:induction false} BoundedWithoutTimeOuts(s: State, run: seq<Step>)
    requires Init(s) && Possible(s, run) && Modest(s, run) && forall i :: 0 <= i < |run| ==> !run[i].Expire?
    ensures NeverInverted(s, run)
  {
    InitFormed(s);
    InitBounded(s);
    InitPromised(s);
    InitEarned(s);
    hide Possible, After, Modest, NeverInverted, Formed, Counted, OneEach, Bounded, Promised, AllEarned;
    RunKeepsEarned(s, run);
    hide Init;
    HeededRunsAreBounded(s, run);
  }

  lemma {:induction false} InitEarned(s: State)
    requires Init(s)
    ensures AllEarned(s) && !s.ignored
  {
  }
}
