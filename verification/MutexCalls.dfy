/** What each step of taking, waiting for, giving up on and giving back a mutex
    does to the tasks and the mutexes. */
module MutexCalls {

  import opened Mutexes

  /** All tasks but two are as they were, and so are all mutexes but one. */
  ghost predicate Else(s: State, s': State, t: nat, u: nat, m: nat)
  {
    && |s'.tasks| == |s.tasks| && |s'.mutexes| == |s.mutexes|
    && (forall v :: 0 <= v < |s.tasks| && v != t && v != u ==> s'.tasks[v] == s.tasks[v])
    && (forall k :: 0 <= k < |s.mutexes| && k != m ==> s'.mutexes[k] == s.mutexes[k])
  }

  /** Priorities and counts of a task are as they were. */
  predicate SameRank(a: Task, b: Task)
  {
    a.priority == b.priority && a.base == b.base && a.held == b.held
  }

  /** A task that finds a mutex free holds it, whoever waits; one that does not
      goes on to wait, or returns if it may not. */
  lemma {:induction false} TopMeans(s: State, wait: bool)
    requires Enabled(s, Top(wait))
    ensures var t, d, s' := s.running, DoingOf(s), Next(s, Top(wait));
            && Else(s, s', t, t, d.m) && s'.running == t && s'.yieldPending == s.yieldPending
            && s'.tasks[t].priority == s.tasks[t].priority && s'.tasks[t].base == s.tasks[t].base
            && s'.mutexes[d.m].waiters == s.mutexes[d.m].waiters
            && if s.mutexes[d.m].holder == Nobody then
                 && s'.mutexes[d.m].holder == By(t) && s'.tasks[t].held == s.tasks[t].held + 1
                 && s'.tasks[t].status == Ready(Free)
               else
                 && s'.mutexes[d.m].holder == s.mutexes[d.m].holder && s'.tasks[t].held == s.tasks[t].held
                 && s'.tasks[t].status == Ready(if wait then Placing(d.m, d.inherited) else Free)
  {
    hide IsTop;
  }

  /** In its section with the scheduler suspended a task gives up if its time is
      over, and tries again if the mutex has become free. */
  lemma {:induction false} SectionMeans(s: State, timedOut: bool)
    requires Enabled(s, Section(timedOut)) && (timedOut || s.mutexes[DoingOf(s).m].holder == Nobody)
    ensures var t, d, s' := s.running, DoingOf(s), Next(s, Section(timedOut));
            && Else(s, s', t, t, |s.mutexes|) && s'.running == t && s'.yieldPending == s.yieldPending
            && SameRank(s'.tasks[t], s.tasks[t])
            && s'.tasks[t].status == Ready(if timedOut then GivingUp(d.m, d.inherited)
                                           else Wants(d.m, d.inherited, false))
  {
    hide IsTop;
  }

  /** A place in a list: behind all of at least a priority, in front of the next. */
  ghost predicate InPlace(tasks: seq<Task>, waiters: seq<nat>, p: nat, priority: nat)
  {
    && p <= |waiters|
    && (forall i :: 0 <= i < p && waiters[i] < |tasks| ==> tasks[waiters[i]].priority >= priority)
    && (p < |waiters| && waiters[p] < |tasks| ==> tasks[waiters[p]].priority < priority)
  }

  lemma {:induction false} JoinedInPlace(tasks: seq<Task>, waiters: seq<nat>, t: nat)
    requires t < |tasks| && forall i :: 0 <= i < |waiters| ==> waiters[i] < |tasks|
    ensures exists p: nat :: InPlace(tasks, waiters, p, tasks[t].priority)
                        && Joined(tasks, waiters, t) == waiters[..p] + [t] + waiters[p..]
  {
    var p := JoinAt(tasks, waiters, tasks[t].priority);
    hide JoinAt;
    assert InPlace(tasks, waiters, p, tasks[t].priority);
  }

  /** Otherwise it waits, in its place among those that wait; the holder has its
      priority if that is higher, and it knows whether that is above the base of
      the holder. */
  lemma {:induction false} PlaceMeans(s: State)
    requires Enabled(s, Section(false)) && s.mutexes[DoingOf(s).m].holder.By?
    requires s.mutexes[DoingOf(s).m].holder != By(s.running)
    ensures var t, d, s' := s.running, DoingOf(s), Next(s, Section(false));
            var mutex, h := s.mutexes[d.m], s.mutexes[d.m].holder.task;
            && Else(s, s', t, h, d.m) && s'.running == t && s'.yieldPending
            && SameRank(s'.tasks[t], s.tasks[t]) && s'.mutexes[d.m].holder == mutex.holder
            && s'.tasks[h] == s.tasks[h].(priority := if s.tasks[h].priority < s.tasks[t].priority
                                                      then s.tasks[t].priority else s.tasks[h].priority)
            && s'.tasks[t].status == Waiting(d.m, s.tasks[h].base < s.tasks[t].priority
                                                  || s.tasks[h].priority < s.tasks[t].priority)
            && exists p: nat :: InPlace(s'.tasks, mutex.waiters, p, s.tasks[t].priority)
                           && s'.mutexes[d.m].waiters == mutex.waiters[..p] + [t] + mutex.waiters[p..]
  {
    hide IsTop, Joined;
    var t, d, s' := s.running, DoingOf(s), Next(s, Section(false));
    var h, waiters := s.mutexes[d.m].holder.task, s.mutexes[d.m].waiters;
    var raised := s.tasks[h := s.tasks[h].(priority := Inherited(s.tasks[h], s.tasks[t].priority).0)];
    JoinedInPlace(raised, waiters, t);
    var p: nat :| InPlace(raised, waiters, p, raised[t].priority)
             && Joined(raised, waiters, t) == waiters[..p] + [t] + waiters[p..];
    assert InPlace(s'.tasks, waiters, p, s.tasks[t].priority);
  }

  /** Its time over, a task that finds the mutex free tries once more; otherwise
      it returns, by way of undoing the inheritance if it has caused one. */
  lemma {:induction false} CheckMeans(s: State)
    requires Enabled(s, Check)
    ensures var t, d, s' := s.running, DoingOf(s), Next(s, Check);
            && Else(s, s', t, t, |s.mutexes|) && s'.running == t && s'.yieldPending == s.yieldPending
            && SameRank(s'.tasks[t], s.tasks[t])
            && s'.tasks[t].status == Ready(if s.mutexes[d.m].holder == Nobody then Wants(d.m, d.inherited, true)
                                           else if d.inherited then Lowering(d.m) else Free)
  {
    hide IsTop;
  }

  /** Giving a mutex back frees it. The giver has one less, and if that was the
      last its base priority. The first that waited is ready and on its way to
      take it, and the others wait in the order they did. A switch is called for
      if that one is above the giver; if nobody waited, it is if the giver has
      lost priority. */
  lemma {:induction false} GiveMeans(s: State, m: nat)
    requires Enabled(s, Give(m)) && (s.mutexes[m].waiters != [] ==> s.mutexes[m].waiters[0] != s.running)
    ensures var t, s', waiters := s.running, Next(s, Give(m)), s.mutexes[m].waiters;
            var w := if waiters == [] then t else waiters[0];
            && Else(s, s', t, w, m) && s'.running == t && s'.mutexes[m].holder == Nobody
            && s'.tasks[t].status == s.tasks[t].status && s'.tasks[t].base == s.tasks[t].base
            && s'.tasks[t].held == s.tasks[t].held - 1
            && s'.tasks[t].priority == (if s.tasks[t].held == 1 then s.tasks[t].base else s.tasks[t].priority)
            && if waiters == [] then
                 && s'.mutexes[m].waiters == []
                 && (s'.yieldPending <==> s'.tasks[t].priority != s.tasks[t].priority) && s'.ignored == s.ignored
               else
                 && s'.mutexes[m].waiters == waiters[1..] && SameRank(s'.tasks[w], s.tasks[w])
                 && s'.tasks[w].status == Ready(Wants(m, s.tasks[w].status.inherited, false))
                 && (s'.yieldPending <==> s'.tasks[w].priority > s'.tasks[t].priority)
                 && (s'.ignored <==>
                       s.ignored || (s'.tasks[t].priority != s.tasks[t].priority && !s'.yieldPending))
  {
    hide IsTop;
  }

  /** A task whose block time ends leaves the list and is ready to go on. */
  lemma {:induction false} ExpireMeans(s: State, t: nat)
    requires Enabled(s, Expire(t))
    ensures var m, s' := s.tasks[t].status.m, Next(s, Expire(t));
            && Else(s, s', t, t, m) && s'.running == s.running && SameRank(s'.tasks[t], s.tasks[t])
            && s'.mutexes[m].holder == s.mutexes[m].holder
            && s'.tasks[t].status == Ready(Wants(m, s.tasks[t].status.inherited, false))
            && (forall u :: u in s'.mutexes[m].waiters <==> u in s.mutexes[m].waiters && u != t)
            && (s'.yieldPending <==> s.yieldPending || s.tasks[t].priority >= s.tasks[s.running].priority)
  {
    LeftMembers(s.mutexes[s.tasks[t].status.m].waiters, t);
    hide Left;
  }

  /** A context switch lets another task run, and that is all. */
  lemma {:induction false} SwitchMeans(s: State, to: nat)
    requires Enabled(s, Switch(to))
    ensures var s' := Next(s, Switch(to));
            s'.running == to && !s'.yieldPending && s'.tasks == s.tasks && s'.mutexes == s.mutexes
  {
    hide IsTop;
  }

  /** The start of a call; blocking on something else, which has another task
      run; and being readied from there, which does if this one is above it. */
  lemma {:induction false} OthersMean(s: State, step: Step)
    requires Enabled(s, step) && (step.Begin? || step.Leave? || step.Wake?)
    ensures var t, s' := if step.Wake? then step.task else s.running, Next(s, step);
            && Else(s, s', t, t, |s.mutexes|) && s'.running == s.running && SameRank(s'.tasks[t], s.tasks[t])
            && s'.tasks[t].status == (if step.Begin? then Ready(Wants(step.m, false, false))
                                      else if step.Leave? then Away else Ready(Free))
            && (s'.yieldPending
                <==> s.yieldPending || step.Leave?
                     || (step.Wake? && s.tasks[t].priority > s.tasks[s.running].priority))
  {
    hide IsTop;
  }
}
