/** Putting runs together from small ones, for runs that exhibit something. */
module Reachable {

  import opened Mutexes
  import opened Inversion

  // ---------------------------------------------------------------------
  // Tasks in typical situations
  // ---------------------------------------------------------------------

  function Idle(priority: nat): Task
  {
    Task(priority, priority, 0, Ready(Free))
  }

  function Waits(priority: nat, m: nat, inherited: bool): Task
  {
    Task(priority, priority, 0, Waiting(m, inherited))
  }

  function Holding(priority: nat, base: nat, status: Status): Task
  {
    Task(priority, base, 1, status)
  }

  // ---------------------------------------------------------------------
  // Runs
  // ---------------------------------------------------------------------

  lemma {:induction false} RunsOn(s: State, first: seq<Step>, second: seq<Step>)
    requires Possible(s, first) && Modest(s, first)
    requires Possible(After(s, first), second) && Modest(After(s, first), second)
    ensures Possible(s, first + second) && Modest(s, first + second)
    ensures After(s, first + second) == After(After(s, first), second)
    decreases |first|
  {
    hide Enabled, Next, OneAtATime;
    if first == [] {
      assert first + second == second;
    } else {
      RunsOn(Next(s, first[0]), first[1..], second);
      assert (first + second)[1..] == first[1..] + second;
    }
  }

  /** One state can follow another in a run with one mutex per task. */
  ghost predicate Reaches(s: State, s': State)
  {
    exists run :: Possible(s, run) && Modest(s, run) && After(s, run) == s'
  }

  lemma {:induction false} StepReaches(s: State, step: Step)
    requires Enabled(s, step) && OneAtATime(s, step)
    ensures Reaches(s, Next(s, step))
  {
    hide Enabled, Next, OneAtATime;
    assert [step][1..] == [];
    assert Possible(s, [step]) && Modest(s, [step]) && After(s, [step]) == Next(s, step);
  }

  lemma {:induction false} ReachesOn(s: State, s': State, s'': State)
    requires Reaches(s, s') && Reaches(s', s'')
    ensures Reaches(s, s'')
  {
    var first :| Possible(s, first) && Modest(s, first) && After(s, first) == s';
    var second :| Possible(s', second) && Modest(s', second) && After(s', second) == s'';
    hide Possible, Modest, After;
    RunsOn(s, first, second);
  }

  lemma {:induction false} Follows(s0: State, s: State, step: Step)
    requires Reaches(s0, s) && Enabled(s, step) && OneAtATime(s, step)
    ensures Reaches(s0, Next(s, step))
  {
    hide Reaches, Enabled, Next, OneAtATime;
    StepReaches(s, step);
    ReachesOn(s0, s, Next(s, step));
  }

  /** The running task wants a mutex that is taken, and waits for it. */
  lemma {:induction false} ComesToWait(s0: State, s: State, m: nat)
    requires Reaches(s0, s) && Enabled(s, Begin(m)) && OneAtATime(s, Begin(m))
    requires s.mutexes[m].holder.By? && s.mutexes[m].holder.task < |s.tasks|
    requires forall i :: 0 <= i < |s.mutexes[m].waiters| ==> s.mutexes[m].waiters[i] < |s.tasks|
    ensures Reaches(s0, Placed(Do(s, Placing(m, false)), m))
  {
    hide Reaches, Placed;
    Follows(s0, s, Begin(m));
    var s1 := Next(s, Begin(m));
    Follows(s0, s1, Top(true));
    var s2 := Next(s1, Top(true));
    assert s2 == Do(s, Placing(m, false));
    Follows(s0, s2, Section(false));
  }

  /** The running task wants a mutex that is free, and takes it. */
  lemma {:induction false} ComesToTake(s0: State, s: State, m: nat)
    requires Reaches(s0, s) && Enabled(s, Begin(m)) && OneAtATime(s, Begin(m))
    requires s.mutexes[m].holder == Nobody
    ensures Reaches(s0, Taken(Do(s, Wants(m, false, false)), m))
  {
    hide Reaches, Taken;
    Follows(s0, s, Begin(m));
    Follows(s0, Next(s, Begin(m)), Top(true));
  }

  lemma {:induction false} JoinsBehind(tasks: seq<Task>, waiters: seq<nat>, t: nat)
    requires t < |tasks| && NamesTasks(waiters, tasks) && |waiters| <= 1
    requires waiters != [] ==> tasks[waiters[0]].priority >= tasks[t].priority
    ensures Joined(tasks, waiters, t) == waiters + [t]
  {
  }

  lemma {:induction false} JoinsInFront(tasks: seq<Task>, waiters: seq<nat>, t: nat)
    requires t < |tasks| && NamesTasks(waiters, tasks)
    requires waiters != [] && tasks[waiters[0]].priority < tasks[t].priority
    ensures Joined(tasks, waiters, t) == [t] + waiters
  {
  }

  /** Waiting behind everybody for a mutex whose holder needs no raise. */
  lemma {:induction false} PlacedBehind(s: State, m: nat)
    requires IsReady(s, s.running) && m < |s.mutexes|
    requires s.mutexes[m].holder.By? && s.mutexes[m].holder.task < |s.tasks|
    requires NamesTasks(s.mutexes[m].waiters, s.tasks) && |s.mutexes[m].waiters| <= 1
    requires s.mutexes[m].waiters != [] ==>
               s.tasks[s.mutexes[m].waiters[0]].priority >= s.tasks[s.running].priority
    requires s.tasks[s.mutexes[m].holder.task].base >= s.tasks[s.running].priority
    requires s.tasks[s.mutexes[m].holder.task].priority >= s.tasks[s.running].priority
    ensures var t := s.running;
            Placed(s, m) == s.(tasks := s.tasks[t := s.tasks[t].(status := Waiting(m, false))],
                               mutexes := s.mutexes[m := s.mutexes[m].(waiters := s.mutexes[m].waiters + [t])],
                               yieldPending := true)
  {
    var t, h := s.running, s.mutexes[m].holder.task;
    assert s.tasks[h := s.tasks[h]] == s.tasks;
    JoinsBehind(s.tasks, s.mutexes[m].waiters, t);
  }

  lemma {:induction false} ReachesItself(s: State)
    ensures Reaches(s, s)
  {
    assert Possible(s, []) && Modest(s, []) && After(s, []) == s;
  }
}
