/** How far a holder is raised: to the priority of a task that waits, or of one
    that has stopped waiting and is about to undo the inheritance. */
module Raises {

  import opened Mutexes
  import opened Inversion
  import opened Yields

  // ---------------------------------------------------------------------
  // Undoing an inheritance
  // ---------------------------------------------------------------------

  /** The least priority that is no lower than the base and than that of any
      of the tasks waiting. */
  ghost predicate IsLeast(priority: nat, base: nat, waiters: seq<nat>, tasks: seq<Task>)
  {
    && NamesTasks(waiters, tasks)
    && base <= priority && Outranks(priority, waiters, tasks)
    && (priority == base || exists i :: 0 <= i < |waiters| && tasks[waiters[i]].priority == priority)
  }

  lemma {:induction false} LeastOfHead(holder: Task, waiters: seq<nat>, tasks: seq<Task>)
    requires Descending(waiters, tasks) && holder.held == 1
    ensures IsLeast(LoweredTo(holder, if waiters == [] then 0 else tasks[waiters[0]].priority),
                    holder.base, waiters, tasks)
  {
    var priority := LoweredTo(holder, if waiters == [] then 0 else tasks[waiters[0]].priority);
    HeadOutranks(waiters, tasks, priority);
  }

  lemma {:induction false} LowerChanges(s: State)
    requires Enabled(s, Lower) && s.mutexes[DoingOf(s).m].holder != By(s.running)
    ensures var m, s' := DoingOf(s).m, Next(s, Lower);
            && s'.mutexes == s.mutexes && |s'.tasks| == |s.tasks|
            && (forall t :: 0 <= t < |s.tasks| ==>
                  s'.tasks[t].base == s.tasks[t].base
                  && (s.mutexes[m].holder != By(t) ==> s'.tasks[t].priority == s.tasks[t].priority))
            && (s.mutexes[m].holder.By? ==>
                  var h, waiters := s.mutexes[m].holder.task, s.mutexes[m].waiters;
                  s'.tasks[h].priority
                  == LoweredTo(s.tasks[h], if waiters == [] then 0 else s.tasks[waiters[0]].priority))
  {
    hide IsTop;
  }

  lemma {:induction false} OneIsLowered(holder: Task, highest: nat)
    requires holder.held != 1
    ensures LoweredTo(holder, highest) == holder.priority
  {
  }

  lemma {:induction false} HolderIsNoWaiter(s: State, m: nat)
    requires Formed(s) && m < |s.mutexes| && s.mutexes[m].holder.By?
    ensures s.mutexes[m].holder.task !in s.mutexes[m].waiters
  {
    var h, mutex := s.mutexes[m].holder.task, s.mutexes[m];
    assert MutexFormed(m, mutex, s.tasks);
    if h in mutex.waiters {
      NotItsHolder(s, h, m);
    }
  }

  /** The last critical section of a take that made the holder inherit and timed
      out leaves a holder of this mutex only with exactly the priority that its
      base and the tasks still waiting call for, and one of several mutexes with
      the priority it has. No other priority changes. */
  lemma {:induction false} LowerExact(s: State)
    requires Formed(s) && Counted(s) && Bounded(s) && Enabled(s, Lower)
    ensures var m, s' := DoingOf(s).m, Next(s, Lower);
            && s'.mutexes == s.mutexes && |s'.tasks| == |s.tasks|
            && (s.mutexes[m].holder.By? ==>
                  var h := s.mutexes[m].holder.task;
                  && s'.tasks[h].base == s.tasks[h].base
                  && if s.tasks[h].held == 1
                     then IsLeast(s'.tasks[h].priority, s.tasks[h].base, s.mutexes[m].waiters, s'.tasks)
                     else s'.tasks[h].priority == s.tasks[h].priority)
            && forall t :: 0 <= t < |s.tasks| && s.mutexes[m].holder != By(t) ==>
                 s'.tasks[t].priority == s.tasks[t].priority
  {
    var m, s' := DoingOf(s).m, Next(s, Lower);
    var mutex := s.mutexes[m];
    NotItsHolder(s, s.running, m);
    LowerChanges(s);
    if mutex.holder.By? {
      HolderIsNoWaiter(s, m);
    }
    assert MutexBounded(mutex, s.tasks);
    hide Formed, Counted, Bounded, IsLeast, Next, LoweredTo, Outranks;
    if mutex.holder != Nobody {
      var h := mutex.holder.task;
      if s.tasks[h].held == 1 {
        LeastOfHead(s.tasks[h], mutex.waiters, s.tasks);
        LeastStays(s, s', mutex.waiters, s'.tasks[h].priority, s.tasks[h].base, h);
      } else {
        OneIsLowered(s.tasks[h], if mutex.waiters == [] then 0 else s.tasks[mutex.waiters[0]].priority);
      }
    }
  }

  /** It is none of those that wait, so they are as they were. */
  lemma {:induction false} LeastStays(s: State, s': State, waiters: seq<nat>, priority: nat, base: nat, h: nat)
    requires IsLeast(priority, base, waiters, s.tasks) && |s'.tasks| == |s.tasks| && h !in waiters
    requires forall t :: 0 <= t < |s.tasks| && t != h ==> s'.tasks[t].priority == s.tasks[t].priority
    ensures IsLeast(priority, base, waiters, s'.tasks)
  {
    forall i | 0 <= i < |waiters| ensures s'.tasks[waiters[i]].priority == s.tasks[waiters[i]].priority {
      assert waiters[i] in waiters;
    }
  }

  // ---------------------------------------------------------------------
  // What accounts for a raised priority
  // ---------------------------------------------------------------------

  /** A task that has made the holder of a mutex inherit and stopped waiting, and
      has not found the mutex free since. */
  predicate Owing(task: Task, m: nat)
  {
    match task.status
    case Ready(Wants(w, inherited, late)) => w == m && inherited && !late
    case Ready(Placing(w, inherited)) => w == m && inherited
    case Ready(GivingUp(w, inherited)) => w == m && inherited
    case Ready(Lowering(w)) => w == m
    case _ => false
  }

  /** The first that waits has it, or somebody who owes it. */
  ghost predicate Accounted(m: nat, mutex: Mutex, tasks: seq<Task>)
  {
    mutex.holder.By? && mutex.holder.task < |tasks|
    && tasks[mutex.holder.task].priority > tasks[mutex.holder.task].base ==>
      || (mutex.waiters != [] && mutex.waiters[0] < |tasks|
          && tasks[mutex.waiters[0]].priority == tasks[mutex.holder.task].priority)
      || exists t :: 0 <= t < |tasks| && Owing(tasks[t], m) && tasks[t].priority == tasks[mutex.holder.task].priority
  }

  /** A task above the base of the holder knows that it made it inherit. */
  predicate Flagged(mutex: Mutex, tasks: seq<Task>)
  {
    mutex.holder.By? && mutex.holder.task < |tasks| ==>
      forall i :: 0 <= i < |mutex.waiters| && mutex.waiters[i] < |tasks|
                  && tasks[mutex.waiters[i]].priority > tasks[mutex.holder.task].base ==>
        tasks[mutex.waiters[i]].status.Waiting? && tasks[mutex.waiters[i]].status.inherited
  }

  ghost predicate AllAccounted(s: State)
  {
    forall m :: 0 <= m < |s.mutexes| ==> Accounted(m, s.mutexes[m], s.tasks)
  }

  ghost predicate AllFlagged(s: State)
  {
    forall m :: 0 <= m < |s.mutexes| ==> Flagged(s.mutexes[m], s.tasks)
  }

  lemma {:induction false} AccountedStill(m: nat, mutex: Mutex, tasks: seq<Task>, t: nat, task: Task)
    requires Accounted(m, mutex, tasks) && t < |tasks|
    requires (task.priority == tasks[t].priority && task.base == tasks[t].base)
             || (mutex.holder != By(t) && t !in mutex.waiters && !Owing(tasks[t], m))
    requires Owing(tasks[t], m) && mutex.holder != Nobody ==> Owing(task, m)
    ensures Accounted(m, mutex, tasks[t := task])
  {
    hide Owing;
    var tasks' := tasks[t := task];
    assert mutex.waiters != [] ==> mutex.waiters[0] in mutex.waiters;
    if mutex.holder.By? && mutex.holder.task < |tasks|
       && tasks[mutex.holder.task].priority > tasks[mutex.holder.task].base
       && !(mutex.waiters != [] && mutex.waiters[0] < |tasks|
            && tasks[mutex.waiters[0]].priority == tasks[mutex.holder.task].priority) {
      var u :| 0 <= u < |tasks| && Owing(tasks[u], m) && tasks[u].priority == tasks[mutex.holder.task].priority;
      assert Owing(tasks'[u], m);
    }
  }

  lemma {:induction false} FlaggedStill(mutex: Mutex, tasks: seq<Task>, t: nat, task: Task)
    requires Flagged(mutex, tasks) && t < |tasks| && task.base == tasks[t].base && t !in mutex.waiters
    ensures Flagged(mutex, tasks[t := task])
  {
    forall i | 0 <= i < |mutex.waiters| && mutex.waiters[i] < |tasks|
      ensures tasks[t := task][mutex.waiters[i]] == tasks[mutex.waiters[i]]
    {
      assert mutex.waiters[i] in mutex.waiters;
    }
  }

  ghost predicate Explained(s: State)
  {
    AllAccounted(s) && AllFlagged(s)
  }

  lemma {:induction false} SameExplained(s: State, s': State)
    requires Explained(s) && s'.tasks == s.tasks && s'.mutexes == s.mutexes
    ensures Explained(s')
  {
    hide Accounted, Flagged;
  }

  /** A task that is on no list changes what it does. */
  lemma {:induction false} OneExplained(s: State, t: nat, task: Task)
    requires Explained(s) && t < |s.tasks| && task.base == s.tasks[t].base
    requires forall m :: 0 <= m < |s.mutexes| ==> t !in s.mutexes[m].waiters
    requires task.priority == s.tasks[t].priority
             || forall m :: 0 <= m < |s.mutexes| ==> s.mutexes[m].holder != By(t) && !Owing(s.tasks[t], m)
    requires forall m :: 0 <= m < |s.mutexes| && Owing(s.tasks[t], m) && s.mutexes[m].holder != Nobody ==>
               Owing(task, m)
    ensures Explained(SetTask(s, t, task))
  {
    hide Accounted, Flagged, Owing;
    forall m | 0 <= m < |s.mutexes|
      ensures Accounted(m, s.mutexes[m], s.tasks[t := task]) && Flagged(s.mutexes[m], s.tasks[t := task])
    {
      AccountedStill(m, s.mutexes[m], s.tasks, t, task);
      FlaggedStill(s.mutexes[m], s.tasks, t, task);
    }
  }

  lemma {:induction false} MutexExplained(s: State, m: nat, mutex: Mutex)
    requires Explained(s) && m < |s.mutexes| && Accounted(m, mutex, s.tasks) && Flagged(mutex, s.tasks)
    ensures Explained(SetMutex(s, m, mutex))
  {
    hide Accounted, Flagged;
  }

  lemma {:induction false} DoExplained(s: State, doing: Doing)
    requires Formed(s) && Explained(s) && IsReady(s, s.running)
    requires forall m :: 0 <= m < |s.mutexes| && Owing(s.tasks[s.running], m) && s.mutexes[m].holder != Nobody ==>
               Owing(s.tasks[s.running].(status := Ready(doing)), m)
    ensures Explained(Do(s, doing))
  {
    ReadyIsUnlisted(s, s.running);
    hide Formed, Explained, Owing;
    OneExplained(s, s.running, s.tasks[s.running].(status := Ready(doing)));
  }

  /** A holder that has nothing but its base priority needs no account. */
  lemma {:induction false} TakenExplained(m: nat, mutex: Mutex, tasks: seq<Task>, t: nat)
    requires t < |tasks| && mutex.holder == By(t) && tasks[t].priority == tasks[t].base
    requires MutexBounded(mutex, tasks)
    ensures Accounted(m, mutex, tasks) && Flagged(mutex, tasks)
  {
  }

  lemma {:induction false} TopExplained(s: State, wait: bool)
    requires Formed(s) && OneEach(s) && Bounded(s) && Explained(s) && Enabled(s, Top(wait))
    requires !InvertingTake(s, Top(wait))
    ensures Explained(Next(s, Top(wait)))
  {
    var d, t := DoingOf(s), s.running;
    if s.mutexes[d.m].holder == Nobody {
      assert TaskFormed(s.tasks[t]) && !IsFree(s.tasks[t]);
      ReadyIsUnlisted(s, t);
      var task := s.tasks[t].(held := s.tasks[t].held + 1, status := Ready(Free));
      var mutex := s.mutexes[d.m].(holder := By(t));
      TakeBounded(s, d.m);
      assert MutexBounded(mutex, Taken(s, d.m).tasks) by {
        assert Taken(s, d.m).mutexes[d.m] == mutex;
        hide MutexBounded;
      }
      hide Formed, OneEach, Bounded, Explained, MutexBounded;
      OneExplained(s, t, task);
      TakenExplained(d.m, mutex, s.tasks[t := task], t);
      MutexExplained(SetTask(s, t, task), d.m, mutex);
      SameExplained(SetMutex(SetTask(s, t, task), d.m, mutex), Taken(s, d.m));
    } else {
      hide Formed, OneEach, Bounded, Explained;
      DoExplained(s, if wait then Placing(d.m, d.inherited) else Free);
    }
  }

  lemma {:induction false} CheckExplained(s: State)
    requires Formed(s) && Explained(s) && Enabled(s, Check)
    ensures Explained(Next(s, Check))
  {
    hide Formed, Explained;
    DoExplained(s, Next(s, Check).tasks[s.running].status.doing);
  }

  // ---------------------------------------------------------------------
  // Waiting
  // ---------------------------------------------------------------------

  /** A task joins, raising the holder if it is above it. */
  lemma {:induction false} JoinAccounted(m: nat, mutex: Mutex, tasks: seq<Task>, h: nat, t: nat, task: Task)
    requires Accounted(m, mutex, tasks) && mutex.holder == By(h) && h < |tasks| && t < |tasks| && h != t
    requires MutexBounded(mutex, tasks) && h !in mutex.waiters && t !in mutex.waiters && !Owing(tasks[h], m)
    requires task.priority == tasks[t].priority && tasks[h].base <= tasks[h].priority
    ensures var raised := tasks[h := tasks[h].(priority := Inherited(tasks[h], tasks[t].priority).0)];
            NamesTasks(mutex.waiters, raised)
            && Accounted(m, mutex.(waiters := Joined(raised, mutex.waiters, t)), raised[t := task])
  {
    var raised := tasks[h := tasks[h].(priority := Inherited(tasks[h], tasks[t].priority).0)];
    var tasks', waiters' := raised[t := task], Joined(raised, mutex.waiters, t);
    assert mutex.waiters != [] ==> mutex.waiters[0] in mutex.waiters;
    JoinAtFront(raised, mutex.waiters, t);
    hide Joined, Owing, Descending;
    if tasks'[h].priority > tasks'[h].base && tasks'[waiters'[0]].priority != tasks'[h].priority {
      var u :| 0 <= u < |tasks| && Owing(tasks[u], m) && tasks[u].priority == tasks[h].priority;
      assert u != t && u != h;
      assert Owing(tasks'[u], m);
    }
  }

  lemma {:induction false} JoinFlagged(mutex: Mutex, tasks: seq<Task>, h: nat, t: nat, task: Task)
    requires Flagged(mutex, tasks) && mutex.holder == By(h) && h < |tasks| && t < |tasks| && h != t
    requires NamesTasks(mutex.waiters, tasks) && h !in mutex.waiters && t !in mutex.waiters
    requires tasks[h].base <= tasks[h].priority
    requires task.status.Waiting?
    requires task == tasks[t].(status := Waiting(task.status.m, Inherited(tasks[h], tasks[t].priority).1))
    ensures var raised := tasks[h := tasks[h].(priority := Inherited(tasks[h], tasks[t].priority).0)];
            NamesTasks(mutex.waiters, raised)
            && Flagged(mutex.(waiters := Joined(raised, mutex.waiters, t)), raised[t := task])
  {
    var raised := tasks[h := tasks[h].(priority := Inherited(tasks[h], tasks[t].priority).0)];
    var tasks', waiters' := raised[t := task], Joined(raised, mutex.waiters, t);
    JoinedElements(raised, mutex.waiters, t);
    var p := JoinAt(raised, mutex.waiters, raised[t].priority);
    hide Joined, JoinAt;
    forall i | 0 <= i < |waiters'| && tasks'[waiters'[i]].priority > tasks'[h].base
      ensures tasks'[waiters'[i]].status.Waiting? && tasks'[waiters'[i]].status.inherited
    {
      if i != p {
        var j := if i < p then i else i - 1;
        assert waiters'[i] == mutex.waiters[j] && mutex.waiters[j] in mutex.waiters;
      }
    }
  }

  lemma {:induction false} PlaceElsewhere(s: State, m: nat, k: nat)
    requires Formed(s) && Counted(s) && OneEach(s) && Explained(s) && Enabled(s, Section(false))
    requires DoingOf(s).m == m && s.mutexes[m].holder != Nobody && k < |s.mutexes| && k != m
    ensures Accounted(k, s.mutexes[k], Placed(s, m).tasks) && Flagged(s.mutexes[k], Placed(s, m).tasks)
  {
    var t, h, s' := s.running, s.mutexes[m].holder.task, Placed(s, m);
    HolderHolds(s, m);
    HolderIsUnlisted(s, h);
    ReadyIsUnlisted(s, t);
    assert Wanted(s.tasks[t], m);
    NotItsHolder(s, t, m);
    assert s.mutexes[k].holder != By(h) by {
      if s.mutexes[k].holder == By(h) {
        OnlyOne(s, h, m, k);
      }
    }
    assert Accounted(k, s.mutexes[k], s.tasks) && Flagged(s.mutexes[k], s.tasks);
    assert !Owing(s.tasks[h], k) && !Owing(s.tasks[t], k);
    hide Formed, Counted, OneEach, Explained, Accounted, Flagged, Owing, Joined, Inherited;
    AccountedStill(k, s.mutexes[k], s.tasks, h, s'.tasks[h]);
    FlaggedStill(s.mutexes[k], s.tasks, h, s'.tasks[h]);
    AccountedStill(k, s.mutexes[k], s.tasks[h := s'.tasks[h]], t, s'.tasks[t]);
    FlaggedStill(s.mutexes[k], s.tasks[h := s'.tasks[h]], t, s'.tasks[t]);
  }

  lemma {:induction false} PlacedIs(s: State, m: nat)
    requires Enabled(s, Section(false)) && DoingOf(s).m == m && s.mutexes[m].holder.By?
    requires s.mutexes[m].holder != By(s.running)
    ensures var t, h, s' := s.running, s.mutexes[m].holder.task, Placed(s, m);
            var raised := s.tasks[h := s.tasks[h].(priority := Inherited(s.tasks[h], s.tasks[t].priority).0)];
            && s'.tasks == raised[t := s'.tasks[t]] && |s'.mutexes| == |s.mutexes|
            && s'.mutexes[m] == s.mutexes[m].(waiters := Joined(raised, s.mutexes[m].waiters, t))
            && s'.tasks[t] == s.tasks[t].(status := Waiting(m, Inherited(s.tasks[h], s.tasks[t].priority).1))
            && forall k :: 0 <= k < |s.mutexes| && k != m ==> s'.mutexes[k] == s.mutexes[k]
  {
    hide Joined, Inherited, IsTop;
  }

  lemma {:induction false} PlaceHere(s: State, m: nat)
    requires Formed(s) && Counted(s) && OneEach(s) && Bounded(s) && Explained(s) && Enabled(s, Section(false))
    requires DoingOf(s).m == m && s.mutexes[m].holder != Nobody
    ensures Accounted(m, Placed(s, m).mutexes[m], Placed(s, m).tasks)
    ensures Flagged(Placed(s, m).mutexes[m], Placed(s, m).tasks)
  {
    var t, h, mutex := s.running, s.mutexes[m].holder.task, s.mutexes[m];
    HolderHolds(s, m);
    HolderIsUnlisted(s, h);
    ReadyIsUnlisted(s, t);
    assert Wanted(s.tasks[t], m) && TaskFormed(s.tasks[h]) && IsFree(s.tasks[h]);
    NotItsHolder(s, t, m);
    assert MutexBounded(mutex, s.tasks) && Accounted(m, mutex, s.tasks) && Flagged(mutex, s.tasks);
    hide Formed, Counted, OneEach, Bounded, Explained, Accounted, Flagged, Joined, Inherited, Placed, WaitsFor;
    PlacedIs(s, m);
    JoinAccounted(m, mutex, s.tasks, h, t, Placed(s, m).tasks[t]);
    JoinFlagged(mutex, s.tasks, h, t, Placed(s, m).tasks[t]);
  }

  lemma {:induction false} PlaceExplained(s: State, m: nat)
    requires Formed(s) && Counted(s) && OneEach(s) && Bounded(s) && Explained(s) && Enabled(s, Section(false))
    requires DoingOf(s).m == m && s.mutexes[m].holder != Nobody
    ensures Explained(Placed(s, m))
  {
    assert Wanted(s.tasks[s.running], m);
    NotItsHolder(s, s.running, m);
    HolderHolds(s, m);
    var s' := Placed(s, m);
    PlaceHere(s, m);
    PlacedIs(s, m);
    assert Explained(s') by {
      hide Formed, Counted, OneEach, Bounded, Accounted, Flagged, Joined, Inherited, Placed;
      forall k | 0 <= k < |s'.mutexes|
        ensures Accounted(k, s'.mutexes[k], s'.tasks) && Flagged(s'.mutexes[k], s'.tasks)
      {
        if k != m {
          PlaceElsewhere(s, m, k);
        }
      }
    }
  }

  lemma {:induction false} SectionExplained(s: State, timedOut: bool)
    requires Formed(s) && Counted(s) && OneEach(s) && Bounded(s) && Explained(s) && Enabled(s, Section(timedOut))
    ensures Explained(Next(s, Section(timedOut)))
  {
    hide Formed, Counted, OneEach, Bounded, Explained, Placed;
    var d := DoingOf(s);
    if !timedOut && s.mutexes[d.m].holder != Nobody {
      PlaceExplained(s, d.m);
    } else {
      DoExplained(s, Next(s, Section(timedOut)).tasks[s.running].status.doing);
    }
  }

  // ---------------------------------------------------------------------
  // Lowering, giving, coming and going
  // ---------------------------------------------------------------------

  lemma {:induction false} LeastIsAccounted(m: nat, mutex: Mutex, tasks: seq<Task>)
    requires mutex.holder.By? && mutex.holder.task < |tasks| && Descending(mutex.waiters, tasks)
    requires IsLeast(tasks[mutex.holder.task].priority, tasks[mutex.holder.task].base, mutex.waiters, tasks)
    ensures Accounted(m, mutex, tasks)
  {
  }

  lemma {:induction false} LowerExplained(s: State)
    requires Formed(s) && Counted(s) && OneEach(s) && Bounded(s) && Explained(s) && Enabled(s, Lower)
    ensures Explained(Next(s, Lower))
  {
    var m, t, s' := DoingOf(s).m, s.running, Next(s, Lower);
    if s.mutexes[m].holder == Nobody {
      hide Formed, Counted, OneEach, Bounded, Explained;
      DoExplained(s, Free);
    } else {
      var h := s.mutexes[m].holder.task;
      HolderHolds(s, m);
      HolderIsUnlisted(s, h);
      ReadyIsUnlisted(s, t);
      NotItsHolder(s, t, m);
      LowerExact(s);
      StepExact(s, Lower);
      assert MutexBounded(s'.mutexes[m], s'.tasks) by { hide MutexBounded; }
      assert s'.tasks[h].base == s.tasks[h].base;
      LeastIsAccounted(m, s.mutexes[m], s'.tasks);
      forall k | 0 <= k < |s.mutexes|
        ensures Accounted(k, s.mutexes[k], s'.tasks) && Flagged(s.mutexes[k], s'.tasks)
      {
        LowerElsewhere(s, k);
      }
      hide Formed, Counted, OneEach, Bounded, Accounted, Flagged;
    }
  }

  lemma {:induction false} LowerElsewhere(s: State, k: nat)
    requires Formed(s) && Counted(s) && OneEach(s) && Explained(s) && Enabled(s, Lower) && k < |s.mutexes|
    requires s.mutexes[DoingOf(s).m].holder.By?
    ensures Flagged(s.mutexes[k], Next(s, Lower).tasks)
    ensures k != DoingOf(s).m ==> Accounted(k, s.mutexes[k], Next(s, Lower).tasks)
  {
    var m, t, s' := DoingOf(s).m, s.running, Next(s, Lower);
    var h := s.mutexes[m].holder.task;
    HolderHolds(s, m);
    HolderIsUnlisted(s, h);
    ReadyIsUnlisted(s, t);
    NotItsHolder(s, t, m);
    if s.mutexes[k].holder == By(h) {
      OnlyOne(s, h, m, k);
    }
    assert Accounted(k, s.mutexes[k], s.tasks) && Flagged(s.mutexes[k], s.tasks);
    hide Formed, Counted, OneEach, Explained, Accounted, Flagged, LoweredTo;
    var free := s.tasks[t].(status := Ready(Free));
    FlaggedStill(s.mutexes[k], s.tasks, t, free);
    FlaggedStill(s.mutexes[k], s.tasks[t := free], h, s'.tasks[h]);
    if k != m {
      AccountedStill(k, s.mutexes[k], s.tasks, t, free);
      AccountedStill(k, s.mutexes[k], s.tasks[t := free], h, s'.tasks[h]);
    }
  }

  lemma {:induction false} FreeIsExplained(m: nat, mutex: Mutex, tasks: seq<Task>)
    requires mutex.holder == Nobody
    ensures Accounted(m, mutex, tasks) && Flagged(mutex, tasks)
  {
  }

  lemma {:induction false} GiveExplained(s: State, m: nat)
    requires Formed(s) && Counted(s) && OneEach(s) && Explained(s) && Enabled(s, Give(m))
    ensures Explained(Next(s, Give(m)))
  {
    var t, s' := s.running, Next(s, Give(m));
    ReadyIsUnlisted(s, t);
    forall k | 0 <= k < |s'.mutexes|
      ensures Accounted(k, s'.mutexes[k], s'.tasks) && Flagged(s'.mutexes[k], s'.tasks)
    {
      if k == m {
        FreeIsExplained(k, s'.mutexes[k], s'.tasks);
      } else {
        if s.mutexes[k].holder == By(t) {
          OnlyOne(s, t, m, k);
        }
        assert Accounted(k, s.mutexes[k], s.tasks) && Flagged(s.mutexes[k], s.tasks);
        var giver := Disinherited(s.tasks[t]).0;
        assert !Owing(s.tasks[t], k);
        AccountedStill(k, s.mutexes[k], s.tasks, t, giver);
        FlaggedStill(s.mutexes[k], s.tasks, t, giver);
        if s.mutexes[m].waiters != [] {
          var w := s.mutexes[m].waiters[0];
          assert w !in s.mutexes[k].waiters by { ListedOnce(s, w, m, k); }
          hide Formed, Counted, OneEach, Explained, Accounted, Flagged;
          AccountedStill(k, s.mutexes[k], s.tasks[t := giver], w, s'.tasks[w]);
          FlaggedStill(s.mutexes[k], s.tasks[t := giver], w, s'.tasks[w]);
        }
      }
    }
    hide Formed, Counted, OneEach, Accounted, Flagged;
  }

  lemma {:induction false} ListedOnce(s: State, w: nat, m: nat, k: nat)
    requires Formed(s) && m < |s.mutexes| && k < |s.mutexes| && k != m
    requires s.mutexes[m].waiters != [] && s.mutexes[m].waiters[0] == w
    ensures w !in s.mutexes[k].waiters
  {
    assert MutexFormed(m, s.mutexes[m], s.tasks) && MutexFormed(k, s.mutexes[k], s.tasks);
    hide Formed;
  }

  lemma {:induction false} MovesExplained(s: State, t: nat, status: Status)
    requires Formed(s) && Explained(s) && t < |s.tasks| && IsFree(s.tasks[t])
    ensures Explained(SetTask(s, t, s.tasks[t].(status := status)))
  {
    ReadyIsUnlisted(s, t);
    hide Formed, Explained;
    OneExplained(s, t, s.tasks[t].(status := status));
  }

  /** The first to leave owes what it was raised for. */
  lemma {:induction false} LeftAccounted(m: nat, mutex: Mutex, tasks: seq<Task>, t: nat, task: Task)
    requires Accounted(m, mutex, tasks) && Flagged(mutex, tasks) && t < |tasks| && WaitsFor(tasks[t], m)
    requires mutex.holder != By(t)
    requires task == tasks[t].(status := Ready(Wants(m, tasks[t].status.inherited, false)))
    ensures Accounted(m, mutex.(waiters := Left(mutex.waiters, t)), tasks[t := task])
  {
    var tasks' := tasks[t := task];
    if mutex.holder.By? && mutex.holder.task < |tasks|
       && tasks[mutex.holder.task].priority > tasks[mutex.holder.task].base {
      var h := mutex.holder.task;
      if mutex.waiters != [] && mutex.waiters[0] < |tasks| && tasks[mutex.waiters[0]].priority == tasks[h].priority {
        if mutex.waiters[0] == t {
          assert Owing(tasks'[t], m) && tasks'[t].priority == tasks'[h].priority;
        }
      } else {
        var u :| 0 <= u < |tasks| && Owing(tasks[u], m) && tasks[u].priority == tasks[h].priority;
        assert Owing(tasks'[u], m);
      }
    }
  }

  lemma {:induction false} LeftFlagged(mutex: Mutex, tasks: seq<Task>, t: nat, task: Task)
    requires Flagged(mutex, tasks) && t < |tasks| && task.base == tasks[t].base
    ensures Flagged(mutex.(waiters := Left(mutex.waiters, t)), tasks[t := task])
  {
    LeftMembers(mutex.waiters, t);
    var w := Left(mutex.waiters, t);
    hide Left;
    forall i | 0 <= i < |w| ensures w[i] in mutex.waiters && w[i] != t {
      assert w[i] in w;
    }
  }

  lemma {:induction false} ExpireExplained(s: State, t: nat)
    requires Formed(s) && Explained(s) && Enabled(s, Expire(t))
    ensures Explained(Next(s, Expire(t)))
  {
    var m, s' := s.tasks[t].status.m, Next(s, Expire(t));
    NotItsHolder(s, t, m);
    forall k | 0 <= k < |s.mutexes|
      ensures Accounted(k, s'.mutexes[k], s'.tasks) && Flagged(s'.mutexes[k], s'.tasks)
    {
      assert Accounted(k, s.mutexes[k], s.tasks) && Flagged(s.mutexes[k], s.tasks);
      assert MutexFormed(k, s.mutexes[k], s.tasks);
      hide Formed, Explained, Left, Accounted, Flagged;
      if k == m {
        LeftAccounted(m, s.mutexes[m], s.tasks, t, s'.tasks[t]);
        LeftFlagged(s.mutexes[m], s.tasks, t, s'.tasks[t]);
      } else {
        assert t !in s.mutexes[k].waiters;
        AccountedStill(k, s.mutexes[k], s.tasks, t, s'.tasks[t]);
        FlaggedStill(s.mutexes[k], s.tasks, t, s'.tasks[t]);
      }
    }
    hide Formed, Left, Accounted, Flagged;
  }

  // ---------------------------------------------------------------------
  // Runs
  // ---------------------------------------------------------------------

  lemma {:induction false} StepExplained(s: State, step: Step)
    requires Formed(s) && Counted(s) && OneEach(s) && Bounded(s) && Explained(s) && Enabled(s, step)
    requires !InvertingTake(s, step)
    ensures Explained(Next(s, step))
  {
    hide Formed, Counted, OneEach, Bounded, Explained;
    match step
    case Switch(to) => SameExplained(s, Next(s, step));
    case Begin(m) => DoExplained(s, Wants(m, false, false));
    case Top(wait) => TopExplained(s, wait);
    case Section(timedOut) => SectionExplained(s, timedOut);
    case Check => CheckExplained(s);
    case Lower => LowerExplained(s);
    case Give(m) => GiveExplained(s, m);
    case Leave =>
      MovesExplained(s, s.running, Away);
      SameExplained(SetTask(s, s.running, s.tasks[s.running].(status := Away)), Next(s, step));
    case Wake(t) =>
      MovesExplained(s, t, Ready(Free));
      SameExplained(SetTask(s, t, s.tasks[t].(status := Ready(Free))), Next(s, step));
    case Expire(t) => ExpireExplained(s, t);
  }

  lemma {:induction false} InitExplained(s: State)
    requires Init(s)
    ensures Explained(s)
  {
  }

  lemma {:induction false} RunExplained(s: State, run: seq<Step>)
    requires Formed(s) && Counted(s) && OneEach(s) && Bounded(s) && Explained(s)
    requires Possible(s, run) && Modest(s, run) && Orderly(s, run)
    ensures Formed(After(s, run)) && Counted(After(s, run)) && OneEach(After(s, run))
    ensures Bounded(After(s, run)) && Explained(After(s, run))
    decreases |run|
  {
    hide Formed, Counted, OneEach, Bounded, Explained, Enabled, Next, OneAtATime, InvertingTake;
    if run == [] {
    } else {
      StepExact(s, run[0]);
      StepKeepsForm(s, run[0]);
      StepKeepsCount(s, run[0]);
      StepKeepsOneEach(s, run[0]);
      StepExplained(s, run[0]);
      RunExplained(Next(s, run[0]), run[1..]);
    }
  }

  /** A holder is not raised for longer than it must be. In a run that inverts
      nothing its priority is at least its base and that of every task waiting,
      and it is its base, or that of a task waiting, or that of a task that has
      stopped waiting, raised the holder, and is about to undo it. */
  lemma {:induction false} RaiseIsAccounted(s: State, run: seq<Step>, m: nat)
    requires Init(s) && Possible(s, run) && Modest(s, run) && Orderly(s, run)
    requires m < |After(s, run).mutexes| && After(s, run).mutexes[m].holder.By?
    ensures var e := After(s, run);
            var h, waiters := e.mutexes[m].holder.task, e.mutexes[m].waiters;
            && h < |e.tasks|
            && (IsLeast(e.tasks[h].priority, e.tasks[h].base, waiters, e.tasks)
                || (NamesTasks(waiters, e.tasks) && Outranks(e.tasks[h].priority, waiters, e.tasks)
                    && exists t :: 0 <= t < |e.tasks| && Owing(e.tasks[t], m)
                                   && e.tasks[t].priority == e.tasks[h].priority > e.tasks[h].base))
  {
    InitFormed(s);
    InitBounded(s);
    InitExplained(s);
    RunExplained(s, run);
    var e := After(s, run);
    hide Init, Possible, Modest, Orderly, After;
    var mutex := e.mutexes[m];
    assert MutexBounded(mutex, e.tasks) && Accounted(m, mutex, e.tasks) && MutexFormed(m, mutex, e.tasks);
    assert TaskFormed(e.tasks[mutex.holder.task]);
    hide Formed, Counted, OneEach, Bounded, Explained, Owing;
  }

  lemma {:induction false} LowerNow(e: State)
    requires Formed(e) && Counted(e) && OneEach(e) && Bounded(e) && Enabled(e, Lower)
    ensures var mutex, e' := e.mutexes[DoingOf(e).m], Next(e, Lower);
            mutex.holder.By? ==>
              && mutex.holder.task < |e'.tasks|
              && IsLeast(e'.tasks[mutex.holder.task].priority, e.tasks[mutex.holder.task].base, mutex.waiters, e'.tasks)
  {
    if e.mutexes[DoingOf(e).m].holder.By? {
      var h := e.mutexes[DoingOf(e).m].holder.task;
      HolderHolds(e, DoingOf(e).m);
      HolderIsUnlisted(e, h);
      assert e.tasks[h].held == 1;
      hide Formed, Counted, OneEach, Bounded, IsLeast, Next;
      LowerExact(e);
    }
  }

  /** Undoing an inheritance, in every such run. */
  lemma {:induction false} LowerIsExact(s: State, run: seq<Step>)
    requires Init(s) && Possible(s, run) && Modest(s, run) && Orderly(s, run) && Enabled(After(s, run), Lower)
    ensures var e := After(s, run);
            var mutex, e' := e.mutexes[DoingOf(e).m], Next(e, Lower);
            mutex.holder.By? ==>
              && mutex.holder.task < |e'.tasks|
              && IsLeast(e'.tasks[mutex.holder.task].priority, e.tasks[mutex.holder.task].base, mutex.waiters, e'.tasks)
  {
    InitFormed(s);
    InitBounded(s);
    InitExplained(s);
    RunExplained(s, run);
    var e := After(s, run);
    hide Init, Possible, Modest, Orderly, After, Formed, Counted, OneEach, Bounded, Explained, IsLeast, Next;
    LowerNow(e);
  }
}
