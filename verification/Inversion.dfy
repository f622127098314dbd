/** Bounded priority inversion: a task that holds a mutex never runs at a lower
    priority than a task that waits for it, as long as tasks use one mutex at a
    time and nobody takes a free mutex over the head of a more urgent waiter. */
module Inversion {

  import opened Mutexes

  /** Nobody takes a mutex while holding another one. */
  predicate OneAtATime(s: State, step: Step)
  {
    step.Begin? ==> s.running < |s.tasks| && s.tasks[s.running].held == 0
  }

  /** Only tasks that hold nothing wait for a mutex. */
  ghost predicate OneEach(s: State)
  {
    forall t :: 0 <= t < |s.tasks| ==> s.tasks[t].held <= 1 && (!IsFree(s.tasks[t]) ==> s.tasks[t].held == 0)
  }

  ghost predicate NamesTasks(waiters: seq<nat>, tasks: seq<Task>)
  {
    forall i :: 0 <= i < |waiters| ==> waiters[i] < |tasks|
  }

  /** Highest priority first. */
  ghost predicate Descending(waiters: seq<nat>, tasks: seq<Task>)
  {
    && NamesTasks(waiters, tasks)
    && forall i, j :: 0 <= i < j < |waiters| ==> tasks[waiters[i]].priority >= tasks[waiters[j]].priority
  }

  ghost predicate Outranks(priority: nat, waiters: seq<nat>, tasks: seq<Task>)
    requires NamesTasks(waiters, tasks)
  {
    forall i :: 0 <= i < |waiters| ==> priority >= tasks[waiters[i]].priority
  }

  /** Highest priority first, and none above that of the holder. */
  ghost predicate MutexBounded(mutex: Mutex, tasks: seq<Task>)
  {
    && Descending(mutex.waiters, tasks)
    && (mutex.holder.By? ==>
          mutex.holder.task < |tasks| && Outranks(tasks[mutex.holder.task].priority, mutex.waiters, tasks))
  }

  ghost predicate Bounded(s: State)
  {
    forall m :: 0 <= m < |s.mutexes| ==> MutexBounded(s.mutexes[m], s.tasks)
  }

  /** The running task takes a free mutex that a more urgent task waits for. */
  predicate InvertingTake(s: State, step: Step)
  {
    && step.Top? && IsReady(s, s.running) && DoingOf(s).Wants? && DoingOf(s).m < |s.mutexes|
    && var mutex := s.mutexes[DoingOf(s).m];
       mutex.holder == Nobody && mutex.waiters != []
       && mutex.waiters[0] < |s.tasks| && s.tasks[s.running].priority < s.tasks[mutex.waiters[0]].priority
  }

  // ---------------------------------------------------------------------
  // Changes that leave a mutex bounded
  // ---------------------------------------------------------------------

  /** A task changes that is not in the list, and does not fall as its holder. */
  lemma {:induction false} StillBounded(mutex: Mutex, tasks: seq<Task>, t: nat, task: Task)
    requires MutexBounded(mutex, tasks) && t < |tasks|
    requires task.priority == tasks[t].priority || t !in mutex.waiters
    requires mutex.holder == By(t) ==> task.priority >= tasks[t].priority
    ensures MutexBounded(mutex, tasks[t := task])
  {
    forall i | 0 <= i < |mutex.waiters|
      ensures tasks[t := task][mutex.waiters[i]].priority == tasks[mutex.waiters[i]].priority
    {
      assert mutex.waiters[i] in mutex.waiters;
    }
  }

  lemma {:induction false} HeadOutranks(waiters: seq<nat>, tasks: seq<Task>, priority: nat)
    requires Descending(waiters, tasks) && (waiters != [] ==> priority >= tasks[waiters[0]].priority)
    ensures Outranks(priority, waiters, tasks)
  {
    forall i | 0 <= i < |waiters| ensures priority >= tasks[waiters[i]].priority {
      if i > 0 {
        assert tasks[waiters[0]].priority >= tasks[waiters[i]].priority;
      }
    }
  }

  /** Taking a free mutex keeps the bound exactly if the taker is as urgent as
      the first of those still waiting. */
  lemma {:induction false} TakeExact(s: State, m: nat)
    requires IsReady(s, s.running) && m < |s.mutexes| && Descending(s.mutexes[m].waiters, s.tasks)
    requires s.running !in s.mutexes[m].waiters
    ensures var s' := Taken(s, m);
            MutexBounded(s'.mutexes[m], s'.tasks)
            <==> (s.mutexes[m].waiters == []
                  || s.tasks[s.running].priority >= s.tasks[s.mutexes[m].waiters[0]].priority)
  {
    var s' := Taken(s, m);
    var w := s.mutexes[m].waiters;
    forall i | 0 <= i < |w| ensures s'.tasks[w[i]].priority == s.tasks[w[i]].priority {
      assert w[i] in w;
    }
    if w != [] && s.tasks[s.running].priority >= s.tasks[w[0]].priority {
      HeadOutranks(w, s'.tasks, s.tasks[s.running].priority);
    }
  }

  lemma {:induction false} OneTask(s: State, t: nat, task: Task)
    requires Bounded(s) && t < |s.tasks|
    requires task.priority == s.tasks[t].priority || forall m :: 0 <= m < |s.mutexes| ==> t !in s.mutexes[m].waiters
    requires forall m :: 0 <= m < |s.mutexes| && s.mutexes[m].holder == By(t) ==> task.priority >= s.tasks[t].priority
    ensures Bounded(SetTask(s, t, task))
  {
    hide MutexBounded;
    forall m | 0 <= m < |s.mutexes| ensures MutexBounded(s.mutexes[m], s.tasks[t := task]) {
      StillBounded(s.mutexes[m], s.tasks, t, task);
    }
  }

  lemma {:induction false} ReadyIsUnlisted(s: State, t: nat)
    requires Formed(s) && t < |s.tasks| && !s.tasks[t].status.Waiting?
    ensures forall m :: 0 <= m < |s.mutexes| ==> t !in s.mutexes[m].waiters
  {
    forall m | 0 <= m < |s.mutexes| ensures t !in s.mutexes[m].waiters {
      assert MutexFormed(m, s.mutexes[m], s.tasks);
      hide Formed;
    }
  }

  lemma {:induction false} HolderIsUnlisted(s: State, h: nat)
    requires Formed(s) && OneEach(s) && h < |s.tasks| && s.tasks[h].held > 0
    ensures IsFree(s.tasks[h])
    ensures forall m :: 0 <= m < |s.mutexes| ==> h !in s.mutexes[m].waiters
  {
    ReadyIsUnlisted(s, h);
  }

  /** The running task changes what it does, and not its priority. */
  lemma {:induction false} DoBounded(s: State, doing: Doing)
    requires Bounded(s) && IsReady(s, s.running)
    ensures Bounded(Do(s, doing))
  {
    hide Bounded;
    OneTask(s, s.running, s.tasks[s.running].(status := Ready(doing)));
  }

  lemma {:induction false} SameBounds(s: State, s': State)
    requires Bounded(s) && s'.tasks == s.tasks && s'.mutexes == s.mutexes
    ensures Bounded(s')
  {
    hide MutexBounded;
  }

  /** Taking a free mutex. */
  lemma {:induction false} TakeBounded(s: State, m: nat)
    requires Formed(s) && Bounded(s) && IsReady(s, s.running) && m < |s.mutexes|
    ensures s.mutexes[m].waiters != [] ==> s.mutexes[m].waiters[0] < |s.tasks|
    ensures Bounded(Taken(s, m))
            <==> (s.mutexes[m].waiters == []
                  || s.tasks[s.running].priority >= s.tasks[s.mutexes[m].waiters[0]].priority)
  {
    ReadyIsUnlisted(s, s.running);
    assert MutexBounded(s.mutexes[m], s.tasks);
    TakeExact(s, m);
    var s' := Taken(s, m);
    forall k | 0 <= k < |s.mutexes| && k != m ensures MutexBounded(s'.mutexes[k], s'.tasks) {
      assert MutexBounded(s.mutexes[k], s.tasks);
      hide MutexBounded, Bounded, Formed;
      StillBounded(s.mutexes[k], s.tasks, s.running, s'.tasks[s.running]);
    }
    assert Bounded(s') ==> MutexBounded(s'.mutexes[m], s'.tasks);
    hide MutexBounded, Formed;
  }

  lemma {:induction false} TopExact(s: State, wait: bool)
    requires Formed(s) && Bounded(s) && Enabled(s, Top(wait))
    ensures Bounded(Next(s, Top(wait))) <==> !InvertingTake(s, Top(wait))
  {
    var d := DoingOf(s);
    hide Bounded, Formed, Taken;
    if s.mutexes[d.m].holder == Nobody {
      TakeBounded(s, d.m);
    } else {
      DoBounded(s, if wait then Placing(d.m, d.inherited) else Free);
    }
  }

  // ---------------------------------------------------------------------
  // Waiting and giving up
  // ---------------------------------------------------------------------

  lemma {:induction false} JoinedDescends(waiters: seq<nat>, tasks: seq<Task>, t: nat, priority: nat)
    requires Descending(waiters, tasks) && t < |tasks|
    requires Outranks(priority, waiters, tasks) && priority >= tasks[t].priority
    ensures Descending(Joined(tasks, waiters, t), tasks)
    ensures Outranks(priority, Joined(tasks, waiters, t), tasks)
  {
    JoinedElements(tasks, waiters, t);
    var p, r := JoinAt(tasks, waiters, tasks[t].priority), Joined(tasks, waiters, t);
    forall i | p <= i < |waiters| ensures tasks[waiters[i]].priority < tasks[t].priority {
      assert i > p ==> tasks[waiters[p]].priority >= tasks[waiters[i]].priority;
    }
    hide JoinAt, Joined;
    forall i, j | 0 <= i < j < |r| ensures tasks[r[i]].priority >= tasks[r[j]].priority {
      var i', j' := if i < p then i else i - 1, if j < p then j else j - 1;
      if i != p && j != p {
        assert tasks[waiters[i']].priority >= tasks[waiters[j']].priority;
      }
    }
  }

  lemma {:induction false} OnlyOne(s: State, h: nat, m: nat, k: nat)
    requires Counted(s) && OneEach(s) && h < |s.tasks| && m < |s.mutexes| && k < |s.mutexes|
    requires s.mutexes[m].holder == By(h) && s.mutexes[k].holder == By(h)
    ensures m == k
  {
    var held := HeldBy(s.mutexes, h);
    assert m in held && k in held;
    if m != k {
      TwoMembers(held, m, k);
    }
  }

  lemma {:induction false} TwoMembers(s: set<nat>, a: nat, b: nat)
    requires a in s && b in s && a != b
    ensures |s| >= 2
  {
    assert |s - {a}| == |s| - 1;
    assert b in s - {a};
  }

  /** The holder changes its priority, but not below anyone who waits for it. */
  lemma {:induction false} HolderChangesBounded(s: State, m: nat, priority: nat)
    requires Formed(s) && Counted(s) && OneEach(s) && Bounded(s)
    requires m < |s.mutexes| && s.mutexes[m].holder.By? && s.mutexes[m].holder.task < |s.tasks|
    requires NamesTasks(s.mutexes[m].waiters, s.tasks) && Outranks(priority, s.mutexes[m].waiters, s.tasks)
    ensures var h := s.mutexes[m].holder.task; Bounded(SetTask(s, h, s.tasks[h].(priority := priority)))
  {
    var h := s.mutexes[m].holder.task;
    HolderHolds(s, m);
    HolderIsUnlisted(s, h);
    var task := s.tasks[h].(priority := priority);
    var tasks' := s.tasks[h := task];
    forall k | 0 <= k < |s.mutexes| ensures MutexBounded(s.mutexes[k], tasks') {
      assert MutexBounded(s.mutexes[k], s.tasks);
      if k == m {
        OutranksStill(s.mutexes[m].waiters, s.tasks, h, task, priority);
      } else {
        if s.mutexes[k].holder == By(h) {
          OnlyOne(s, h, m, k);
        }
        hide MutexBounded, Formed, Bounded, OneEach, Counted;
        StillBounded(s.mutexes[k], s.tasks, h, task);
      }
    }
  }

  lemma {:induction false} OutranksStill(waiters: seq<nat>, tasks: seq<Task>, t: nat, task: Task, priority: nat)
    requires Descending(waiters, tasks) && Outranks(priority, waiters, tasks)
    requires t < |tasks| && (task.priority == tasks[t].priority || t !in waiters)
    ensures Descending(waiters, tasks[t := task]) && Outranks(priority, waiters, tasks[t := task])
  {
    forall i | 0 <= i < |waiters| ensures tasks[t := task][waiters[i]].priority == tasks[waiters[i]].priority {
      assert waiters[i] in waiters;
    }
  }

  /** A task joins the list of a mutex whose holder outranks it. */
  lemma {:induction false} JoinBounded(s: State, m: nat, t: nat, task: Task)
    requires Bounded(s) && m < |s.mutexes| && t < |s.tasks| && s.mutexes[m].holder.By?
    requires s.mutexes[m].holder.task < |s.tasks| && s.tasks[s.mutexes[m].holder.task].priority >= s.tasks[t].priority
    requires task.priority == s.tasks[t].priority && NamesTasks(s.mutexes[m].waiters, s.tasks)
    ensures Bounded(SetMutex(SetTask(s, t, task), m,
                                    s.mutexes[m].(waiters := Joined(s.tasks, s.mutexes[m].waiters, t))))
  {
    assert MutexBounded(s.mutexes[m], s.tasks);
    var w := s.mutexes[m].waiters;
    JoinedDescends(w, s.tasks, t, s.tasks[s.mutexes[m].holder.task].priority);
    var joined := s.mutexes[m].(waiters := Joined(s.tasks, w, t));
    assert MutexBounded(joined, s.tasks);
    hide MutexBounded, Joined;
    var mutexes' := s.mutexes[m := joined];
    forall k | 0 <= k < |mutexes'| ensures MutexBounded(mutexes'[k], s.tasks[t := task]) {
      StillBounded(mutexes'[k], s.tasks, t, task);
    }
  }

  lemma {:induction false} PlaceBounded(s: State, m: nat)
    requires Formed(s) && Counted(s) && OneEach(s) && Bounded(s) && Enabled(s, Section(false))
    requires DoingOf(s).m == m && s.mutexes[m].holder != Nobody && s.mutexes[m].holder != By(s.running)
    ensures Bounded(Placed(s, m))
  {
    hide Formed, Counted, OneEach, Joined, Bounded, MutexBounded;
    var t, h := s.running, s.mutexes[m].holder.task;
    var (priority, inherited) := Inherited(s.tasks[h], s.tasks[t].priority);
    OutrankedStill(s, m, priority);
    HolderChangesBounded(s, m, priority);
    var s1 := SetTask(s, h, s.tasks[h].(priority := priority));
    var task := s1.tasks[t].(status := Waiting(m, inherited));
    JoinBounded(s1, m, t, task);
    SameBounds(SetMutex(SetTask(s1, t, task), m, s.mutexes[m].(waiters := Joined(s1.tasks, s.mutexes[m].waiters, t))),
               Placed(s, m));
  }

  lemma {:induction false} OutrankedStill(s: State, m: nat, priority: nat)
    requires Bounded(s) && m < |s.mutexes| && s.mutexes[m].holder.By? && s.mutexes[m].holder.task < |s.tasks|
    requires s.tasks[s.mutexes[m].holder.task].priority <= priority
    ensures NamesTasks(s.mutexes[m].waiters, s.tasks) && Outranks(priority, s.mutexes[m].waiters, s.tasks)
  {
    assert MutexBounded(s.mutexes[m], s.tasks);
  }

  lemma {:induction false} SectionBounded(s: State, timedOut: bool)
    requires Formed(s) && Counted(s) && OneEach(s) && Bounded(s) && Enabled(s, Section(timedOut))
    ensures Bounded(Next(s, Section(timedOut)))
  {
    var d := DoingOf(s);
    if !timedOut && s.mutexes[d.m].holder != Nobody {
      assert Wanted(s.tasks[s.running], d.m);
      NotItsHolder(s, s.running, d.m);
      hide Bounded, Formed, Counted, Placed;
      PlaceBounded(s, d.m);
    } else {
      hide Bounded, Formed, Counted;
      DoBounded(s, Next(s, Section(timedOut)).tasks[s.running].status.doing);
    }
  }

  lemma {:induction false} CheckBounded(s: State)
    requires Bounded(s) && Enabled(s, Check)
    ensures Bounded(Next(s, Check))
  {
    hide Bounded;
    DoBounded(s, Next(s, Check).tasks[s.running].status.doing);
  }

  /** Undoing an inheritance never goes below a task that still waits. */
  lemma {:induction false} LoweredEnough(holder: Task, highest: nat)
    requires highest <= holder.priority && holder.base <= holder.priority
    ensures highest <= LoweredTo(holder, highest) <= holder.priority
  {
  }

  lemma {:induction false} LowerHolder(s: State, m: nat, highest: nat)
    requires Formed(s) && Counted(s) && OneEach(s) && Bounded(s)
    requires m < |s.mutexes| && s.mutexes[m].holder.By? && s.mutexes[m].holder.task < |s.tasks|
    requires NamesTasks(s.mutexes[m].waiters, s.tasks)
    requires highest == if s.mutexes[m].waiters == [] then 0 else s.tasks[s.mutexes[m].waiters[0]].priority
    ensures var h := s.mutexes[m].holder.task;
            var priority := LoweredTo(s.tasks[h], highest);
            priority <= s.tasks[h].priority
            && Bounded(SetTask(s, h, s.tasks[h].(priority := priority)))
  {
    var h, w := s.mutexes[m].holder.task, s.mutexes[m].waiters;
    assert MutexBounded(s.mutexes[m], s.tasks) && TaskFormed(s.tasks[h]);
    LoweredEnough(s.tasks[h], highest);
    HeadOutranks(w, s.tasks, LoweredTo(s.tasks[h], highest));
    hide Formed, Counted, OneEach, Bounded, MutexBounded;
    HolderChangesBounded(s, m, LoweredTo(s.tasks[h], highest));
  }

  lemma {:induction false} NotItsHolder(s: State, t: nat, m: nat)
    requires Formed(s) && t < |s.tasks| && m < |s.mutexes| && Wanted(s.tasks[t], m)
    ensures s.mutexes[m].holder != By(t)
  {
    assert Wanting(t, s.tasks[t], s.mutexes);
  }

  lemma {:induction false} LowerBounded(s: State)
    requires Formed(s) && Counted(s) && OneEach(s) && Bounded(s) && Enabled(s, Lower)
    ensures Bounded(Next(s, Lower))
  {
    var m := DoingOf(s).m;
    var mutex, s' := s.mutexes[m], Do(s, Free);
    assert !IsFree(s.tasks[s.running]) && s.tasks[s.running].held == 0;
    NotItsHolder(s, s.running, m);
    ReadyIsUnlisted(s, s.running);
    DoHeld(s, Free);
    hide Formed, Counted, OneEach, Bounded, LoweredTo;
    DoBounded(s, Free);
    if mutex.holder != Nobody {
      GoesOn(s, Free);
      CountedSame(s, s');
      assert mutex.waiters != [] ==> mutex.waiters[0] in mutex.waiters;
      LowerHolder(s', m, if mutex.waiters == [] then 0 else s.tasks[mutex.waiters[0]].priority);
    }
  }

  lemma {:induction false} DoHeld(s: State, doing: Doing)
    requires OneEach(s) && IsReady(s, s.running) && (doing == Free || s.tasks[s.running].held == 0)
    ensures OneEach(Do(s, doing))
  {
  }

  // ---------------------------------------------------------------------
  // Giving
  // ---------------------------------------------------------------------

  lemma {:induction false} TailDescends(waiters: seq<nat>, tasks: seq<Task>)
    requires Descending(waiters, tasks) && waiters != []
    ensures Descending(waiters[1..], tasks)
  {
  }

  lemma {:induction false} GiverBounded(s: State, m: nat)
    requires Formed(s) && Counted(s) && OneEach(s) && Bounded(s) && Enabled(s, Give(m))
    ensures var giver := Disinherited(s.tasks[s.running]).0;
            forall k :: 0 <= k < |s.mutexes| && k != m ==> MutexBounded(s.mutexes[k], s.tasks[s.running := giver])
    ensures var giver := Disinherited(s.tasks[s.running]).0;
            Descending(s.mutexes[m].waiters, s.tasks[s.running := giver])
  {
    var t := s.running;
    var giver := Disinherited(s.tasks[t]).0;
    ReadyIsUnlisted(s, t);
    forall k | 0 <= k < |s.mutexes| && k != m ensures MutexBounded(s.mutexes[k], s.tasks[t := giver]) {
      if s.mutexes[k].holder == By(t) {
        OnlyOne(s, t, m, k);
      }
      assert MutexBounded(s.mutexes[k], s.tasks);
      hide MutexBounded, Bounded, Formed, Counted;
      StillBounded(s.mutexes[k], s.tasks, t, giver);
    }
    assert MutexBounded(s.mutexes[m], s.tasks);
    OutranksStill(s.mutexes[m].waiters, s.tasks, t, giver, s.tasks[t].priority);
  }

  lemma {:induction false} GiveBounded(s: State, m: nat)
    requires Formed(s) && Counted(s) && OneEach(s) && Bounded(s) && Enabled(s, Give(m))
    ensures Bounded(Next(s, Give(m)))
  {
    var t, mutex := s.running, s.mutexes[m];
    var giver := Disinherited(s.tasks[t]).0;
    GiverBounded(s, m);
    ReadyIsUnlisted(s, t);
    var s1 := SetMutex(SetTask(s, t, giver), m, Mutex(Nobody, if mutex.waiters == [] then [] else mutex.waiters[1..]));
    if mutex.waiters != [] {
      TailDescends(mutex.waiters, s1.tasks);
    }
    assert Bounded(s1) by {
      hide Formed, Counted, OneEach, Descending;
    }
    if mutex.waiters == [] {
      SameBounds(s1, Next(s, Give(m)));
    } else {
      assert mutex.waiters[0] in mutex.waiters;
      hide Formed, Counted, OneEach, Bounded, Descending;
      OneTask(s1, mutex.waiters[0], Next(s, Give(m)).tasks[mutex.waiters[0]]);
      SameBounds(SetTask(s1, mutex.waiters[0], Next(s, Give(m)).tasks[mutex.waiters[0]]), Next(s, Give(m)));
    }
  }

  // ---------------------------------------------------------------------
  // Coming and going
  // ---------------------------------------------------------------------

  lemma {:induction false} StatusBounded(s: State, t: nat, status: Status)
    requires Bounded(s) && t < |s.tasks|
    ensures Bounded(SetTask(s, t, s.tasks[t].(status := status)))
  {
    hide Bounded;
    OneTask(s, t, s.tasks[t].(status := status));
  }

  lemma {:induction false} LeaveBounded(s: State)
    requires Bounded(s) && Enabled(s, Leave)
    ensures Bounded(Next(s, Leave))
  {
    hide Bounded;
    StatusBounded(s, s.running, Away);
    SameBounds(SetTask(s, s.running, s.tasks[s.running].(status := Away)), Next(s, Leave));
  }

  lemma {:induction false} WakeBounded(s: State, t: nat)
    requires Bounded(s) && Enabled(s, Wake(t))
    ensures Bounded(Next(s, Wake(t)))
  {
    hide Bounded;
    StatusBounded(s, t, Ready(Free));
    SameBounds(SetTask(s, t, s.tasks[t].(status := Ready(Free))), Next(s, Wake(t)));
  }

  lemma {:induction false} HeadIsHighest(waiters: seq<nat>, tasks: seq<Task>, u: nat)
    requires Descending(waiters, tasks) && u in waiters
    ensures u < |tasks| && tasks[waiters[0]].priority >= tasks[u].priority
  {
    var k :| 0 <= k < |waiters| && waiters[k] == u;
    if k > 0 {
      assert tasks[waiters[0]].priority >= tasks[waiters[k]].priority;
    }
  }

  lemma {:induction false} DescendsBelow(first: nat, rest: seq<nat>, tasks: seq<Task>)
    requires Descending(rest, tasks) && first < |tasks|
    requires forall i :: 0 <= i < |rest| ==> tasks[first].priority >= tasks[rest[i]].priority
    ensures Descending([first] + rest, tasks)
  {
  }

  lemma {:induction false} LeftDescends(waiters: seq<nat>, tasks: seq<Task>, t: nat)
    requires Descending(waiters, tasks)
    ensures Descending(Left(waiters, t), tasks)
    decreases |waiters|
  {
    if waiters == [] {
    } else {
      LeftDescends(waiters[1..], tasks, t);
      LeftMembers(waiters[1..], t);
      var rest := Left(waiters[1..], t);
      assert Left(waiters, t) == (if waiters[0] == t then [] else [waiters[0]]) + rest;
      hide Left;
      assert waiters[0] < |tasks|;
      forall i | 0 <= i < |rest| ensures tasks[waiters[0]].priority >= tasks[rest[i]].priority {
        assert rest[i] in rest;
        HeadIsHighest(waiters, tasks, rest[i]);
      }
      hide Descending;
      DescendsBelow(waiters[0], rest, tasks);
      assert [] + rest == rest;
    }
  }

  lemma {:induction false} OutranksFewer(priority: nat, w: seq<nat>, w': seq<nat>, tasks: seq<Task>)
    requires NamesTasks(w, tasks) && NamesTasks(w', tasks) && Outranks(priority, w, tasks)
    requires forall i :: 0 <= i < |w'| ==> w'[i] in w
    ensures Outranks(priority, w', tasks)
  {
  }

  lemma {:induction false} LeftBounded(mutex: Mutex, tasks: seq<Task>, t: nat)
    requires MutexBounded(mutex, tasks)
    ensures MutexBounded(mutex.(waiters := Left(mutex.waiters, t)), tasks)
  {
    var w, w' := mutex.waiters, Left(mutex.waiters, t);
    LeftDescends(w, tasks, t);
    LeftMembers(w, t);
    assert forall i :: 0 <= i < |w'| ==> w'[i] in w';
    hide Left;
    if mutex.holder.By? {
      OutranksFewer(tasks[mutex.holder.task].priority, w, w', tasks);
    }
  }

  lemma {:induction false} OneMutex(s: State, m: nat, mutex: Mutex)
    requires Bounded(s) && m < |s.mutexes| && MutexBounded(mutex, s.tasks)
    ensures Bounded(SetMutex(s, m, mutex))
  {
    hide MutexBounded;
  }

  lemma {:induction false} ExpireBounded(s: State, t: nat)
    requires Bounded(s) && Enabled(s, Expire(t))
    ensures Bounded(Next(s, Expire(t)))
  {
    var m := s.tasks[t].status.m;
    var status := Ready(Wants(m, s.tasks[t].status.inherited, false));
    var mutex := s.mutexes[m].(waiters := Left(s.mutexes[m].waiters, t));
    hide MutexBounded, Left;
    assert MutexBounded(s.mutexes[m], s.tasks);
    hide Bounded;
    LeftBounded(s.mutexes[m], s.tasks, t);
    OneMutex(s, m, mutex);
    StatusBounded(SetMutex(s, m, mutex), t, status);
    SameBounds(SetTask(SetMutex(s, m, mutex), t, s.tasks[t].(status := status)), Next(s, Expire(t)));
  }

  // ---------------------------------------------------------------------
  // Every step
  // ---------------------------------------------------------------------

  /** The one kind of step that does not keep the bound. */
  lemma {:induction false} StepExact(s: State, step: Step)
    requires Formed(s) && Counted(s) && OneEach(s) && Bounded(s) && Enabled(s, step)
    ensures Bounded(Next(s, step)) <==> !InvertingTake(s, step)
  {
    hide Formed, Counted, OneEach, Bounded;
    match step
    case Switch(to) => SameBounds(s, Next(s, step));
    case Begin(m) => DoBounded(s, Wants(m, false, false));
    case Top(wait) => TopExact(s, wait);
    case Section(timedOut) => SectionBounded(s, timedOut);
    case Check => CheckBounded(s);
    case Lower => LowerBounded(s);
    case Give(m) => GiveBounded(s, m);
    case Leave => LeaveBounded(s);
    case Wake(t) => WakeBounded(s, t);
    case Expire(t) => ExpireBounded(s, t);
  }

  lemma {:induction false} GiveHeld(s: State, m: nat)
    requires OneEach(s) && Enabled(s, Give(m))
    requires s.mutexes[m].waiters != [] ==> !IsFree(s.tasks[s.mutexes[m].waiters[0]])
    ensures OneEach(Next(s, Give(m)))
  {
  }

  lemma {:induction false} SectionHeld(s: State, timedOut: bool)
    requires OneEach(s) && Enabled(s, Section(timedOut))
    ensures OneEach(Next(s, Section(timedOut)))
  {
    hide Joined, Inherited;
    assert !IsFree(s.tasks[s.running]);
  }

  lemma {:induction false} StepKeepsOneEach(s: State, step: Step)
    requires Formed(s) && OneEach(s) && Enabled(s, step) && OneAtATime(s, step)
    ensures OneEach(Next(s, step))
  {
    match step
    case Give(m) =>
      assert s.mutexes[m].waiters != [] ==> s.mutexes[m].waiters[0] in s.mutexes[m].waiters;
      hide Formed;
      GiveHeld(s, m);
    case Section(timedOut) =>
      hide Formed, Placed;
      SectionHeld(s, timedOut);
    case _ => hide Formed, Left, Placed, Given, LoweredTo;
  }

  // ---------------------------------------------------------------------
  // Runs
  // ---------------------------------------------------------------------

  ghost predicate Init(s: State)
  {
    && IsTop(s, s.running) && !s.yieldPending && !s.ignored
    && (forall t :: 0 <= t < |s.tasks| ==>
          IsFree(s.tasks[t]) && s.tasks[t].held == 0 && s.tasks[t].priority == s.tasks[t].base)
    && (forall m :: 0 <= m < |s.mutexes| ==> s.mutexes[m] == Mutex(Nobody, []))
  }

  ghost predicate Possible(s: State, run: seq<Step>)
    decreases |run|
  {
    run == [] || (Enabled(s, run[0]) && Possible(Next(s, run[0]), run[1..]))
  }

  function After(s: State, run: seq<Step>): State
    requires Possible(s, run)
    decreases |run|
  {
    if run == [] then s else After(Next(s, run[0]), run[1..])
  }

  /** A run in which nobody takes a mutex while holding another. */
  ghost predicate Modest(s: State, run: seq<Step>)
    requires Possible(s, run)
    decreases |run|
  {
    run == [] || (OneAtATime(s, run[0]) && Modest(Next(s, run[0]), run[1..]))
  }

  lemma {:induction false} InitFormed(s: State)
    requires Init(s)
    ensures Formed(s) && Counted(s)
  {
    forall t | 0 <= t < |s.tasks| ensures s.tasks[t].held == |HeldBy(s.mutexes, t)| {
      assert HeldBy(s.mutexes, t) == {};
    }
  }

  lemma {:induction false} InitBounded(s: State)
    requires Init(s)
    ensures OneEach(s) && Bounded(s)
  {
  }

  lemma {:induction false} RunKeepsForm(s: State, run: seq<Step>)
    requires Formed(s) && Counted(s) && Possible(s, run)
    ensures Formed(After(s, run)) && Counted(After(s, run))
    decreases |run|
  {
    hide Formed, Counted, Enabled, Next;
    if run == [] {
    } else {
      StepKeepsForm(s, run[0]);
      StepKeepsCount(s, run[0]);
      RunKeepsForm(Next(s, run[0]), run[1..]);
    }
  }

  /** In every run, mutexes nested or not and block times over or not, a task's
      count of mutexes is how many name it as their holder, its priority is
      never below its base, and without a mutex it has its base priority. */
  lemma {:induction false} Bookkeeping(s: State, run: seq<Step>, t: nat)
    requires Init(s) && Possible(s, run) && t < |After(s, run).tasks|
    ensures var e := After(s, run);
            && e.tasks[t].held == |HeldBy(e.mutexes, t)|
            && e.tasks[t].base <= e.tasks[t].priority
            && (HeldBy(e.mutexes, t) == {} ==> e.tasks[t].priority == e.tasks[t].base)
  {
    InitFormed(s);
    RunKeepsForm(s, run);
    assert TaskFormed(After(s, run).tasks[t]);
    hide MutexFormed, Wanting;
  }

  /** A run in which nobody takes a mutex over the head of a more urgent task. */
  predicate Orderly(s: State, run: seq<Step>)
    requires Possible(s, run)
    decreases |run|
  {
    run == [] || (!InvertingTake(s, run[0]) && Orderly(Next(s, run[0]), run[1..]))
  }

  /** A task waits for a mutex whose holder has a lower priority. */
  predicate Inverted(s: State, t: nat, m: nat)
  {
    && t < |s.tasks| && m < |s.mutexes| && WaitsFor(s.tasks[t], m)
    && match s.mutexes[m].holder
       case By(h) => h < |s.tasks| && s.tasks[h].priority < s.tasks[t].priority
       case Nobody => false
  }

  ghost predicate NoInversion(s: State)
  {
    forall t: nat, m: nat :: !Inverted(s, t, m)
  }

  /** In no state of a run, its last included. */
  ghost predicate NeverInverted(s: State, run: seq<Step>)
    requires Possible(s, run)
    decreases |run|
  {
    NoInversion(s) && (run == [] || NeverInverted(Next(s, run[0]), run[1..]))
  }

  lemma {:induction false} BoundIsMeant(s: State)
    requires Formed(s) && Bounded(s)
    ensures NoInversion(s)
  {
    forall t: nat, m: nat ensures !Inverted(s, t, m) {
      if t < |s.tasks| && m < |s.mutexes| && WaitsFor(s.tasks[t], m) {
        assert MutexFormed(m, s.mutexes[m], s.tasks) && MutexBounded(s.mutexes[m], s.tasks);
        hide Formed, Bounded;
        var i :| 0 <= i < |s.mutexes[m].waiters| && s.mutexes[m].waiters[i] == t;
      }
    }
  }

  /** The one kind of step that does not keep the bound inverts priorities. */
  lemma {:induction false} InvertingTakeInverts(s: State, step: Step)
    requires Formed(s) && Enabled(s, step) && InvertingTake(s, step)
    ensures !NoInversion(Next(s, step))
  {
    var m := DoingOf(s).m;
    var w, s' := s.mutexes[m].waiters[0], Next(s, step);
    assert MutexFormed(m, s.mutexes[m], s.tasks);
    hide Formed;
    assert WaitsFor(s.tasks[w], m) && w != s.running;
    assert Inverted(s', w, m);
  }

  /** Bounded priority inversion holds throughout a run exactly if no step of
      it is a take over the head of a more urgent task. */
  lemma {:induction false} RunExact(s: State, run: seq<Step>)
    requires Formed(s) && Counted(s) && OneEach(s) && Bounded(s) && Possible(s, run) && Modest(s, run)
    ensures NeverInverted(s, run) <==> Orderly(s, run)
    ensures Orderly(s, run) ==> Bounded(After(s, run))
    decreases |run|
  {
    hide Formed, Counted, OneEach, Bounded, Enabled, Next, OneAtATime, InvertingTake, NoInversion;
    BoundIsMeant(s);
    if run == [] {
    } else {
      var s' := Next(s, run[0]);
      StepExact(s, run[0]);
      if InvertingTake(s, run[0]) {
        InvertingTakeInverts(s, run[0]);
      } else {
        StepKeepsForm(s, run[0]);
        StepKeepsCount(s, run[0]);
        StepKeepsOneEach(s, run[0]);
        RunExact(s', run[1..]);
      }
    }
  }

  lemma {:induction false} HolderOutranksWaiters(s: State, run: seq<Step>)
    requires Init(s) && Possible(s, run) && Modest(s, run)
    ensures NeverInverted(s, run) <==> Orderly(s, run)
  {
    InitFormed(s);
    InitBounded(s);
    hide Init, Possible, Modest, NeverInverted, Orderly;
    RunExact(s, run);
  }
}
