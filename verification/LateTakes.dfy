/** The assertion on the way out of a take whose block time is over: a task that
    made the holder inherit is not supposed to come by there. */
module LateTakes {

  import opened Mutexes
  import opened Inversion
  import opened Reachable

  /** configASSERT( xInheritanceOccurred == pdFALSE ) in xQueueSemaphoreTake. */
  predicate AssertionFails(s: State, step: Step)
  {
    && step == Top(false) && IsReady(s, s.running) && DoingOf(s).Wants? && DoingOf(s).m < |s.mutexes|
    && s.mutexes[DoingOf(s).m].holder != Nobody && DoingOf(s).inherited
  }

  /** A task finds the mutex free after its block time is over. */
  predicate FreeLook(s: State, step: Step, t: nat, m: nat)
  {
    && step == Check && s.running == t && IsReady(s, t) && m < |s.mutexes|
    && DoingOf(s) == GivingUp(m, true) && s.mutexes[m].holder == Nobody
  }

  /** A task does nothing in a run. */
  predicate Rests(s: State, run: seq<Step>, t: nat)
    requires Possible(s, run)
    decreases |run|
  {
    run == [] ||
    (&& (s.running != t || run[0].Switch? || run[0].Wake? || run[0].Expire?)
     && Rests(Next(s, run[0]), run[1..], t))
  }

  predicate Takes(s: State, step: Step, m: nat)
  {
    && step.Top? && IsReady(s, s.running) && DoingOf(s).Wants? && DoingOf(s).m == m < |s.mutexes|
    && s.mutexes[m].holder == Nobody
  }

  /** How often a mutex is taken in a run, less how often it is given back. */
  function NetTakes(s: State, run: seq<Step>, m: nat): int
    requires Possible(s, run)
    decreases |run|
  {
    if run == [] then 0
    else (if Takes(s, run[0], m) then 1 else if run[0] == Give(m) then -1 else 0)
         + NetTakes(Next(s, run[0]), run[1..], m)
  }

  /** The task looked, found the mutex free, and has done nothing since; others
      have taken the mutex since and not given it back. */
  predicate Overtaken(s: State, run: seq<Step>, t: nat, m: nat)
    requires Possible(s, run)
    decreases |run|
  {
    run != [] &&
    var s', rest := Next(s, run[0]), run[1..];
    || (FreeLook(s, run[0], t, m) && Rests(s', rest, t) && NetTakes(s', rest, m) > 0)
    || Overtaken(s', rest, t, m)
  }

  /** 1 for a mutex that is held, 0 for one that is free. */
  function Taken01(s: State, m: nat): int
    requires m < |s.mutexes|
  {
    if s.mutexes[m].holder == Nobody then 0 else 1
  }

  lemma {:induction false} StepTakes(s: State, step: Step, m: nat)
    requires Enabled(s, step) && m < |s.mutexes|
    ensures |Next(s, step).mutexes| == |s.mutexes| && |Next(s, step).tasks| == |s.tasks|
    ensures Taken01(Next(s, step), m)
            == Taken01(s, m) + if Takes(s, step, m) then 1 else if step == Give(m) then -1 else 0
  {
    hide Joined, Left, Inherited, LoweredTo, Disinherited;
  }

  predicate IsLate(s: State, t: nat, m: nat)
  {
    t < |s.tasks| && s.tasks[t].status == Ready(Wants(m, true, true))
  }

  /** A task is late after looking, and stays so while it does nothing. */
  lemma {:induction false} StepLate(s: State, step: Step, t: nat, m: nat)
    requires Enabled(s, step) && t < |s.tasks| && m < |s.mutexes|
    ensures IsLate(Next(s, step), t, m)
            <==> FreeLook(s, step, t, m)
                 || (IsLate(s, t, m) && (s.running != t || step.Switch? || step.Wake? || step.Expire?))
  {
    match step
    case Give(_) =>
    case Section(_) => hide Joined, Inherited;
    case Top(_) =>
    case Check =>
    case _ => hide Joined, Left, LoweredTo, IsTop, Placed, Given, Taken;
  }

  lemma {:induction false} LateExact(s: State, run: seq<Step>, t: nat, m: nat)
    requires Possible(s, run) && t < |s.tasks| && m < |s.mutexes|
    ensures |After(s, run).mutexes| == |s.mutexes|
    ensures Taken01(After(s, run), m) == Taken01(s, m) + NetTakes(s, run, m)
    ensures IsLate(After(s, run), t, m) && Taken01(After(s, run), m) == 1
            <==> || Overtaken(s, run, t, m)
                 || (IsLate(s, t, m) && Rests(s, run, t) && Taken01(s, m) + NetTakes(s, run, m) == 1)
    decreases |run|
  {
    hide Enabled, Next, Takes, FreeLook, IsLate;
    if run == [] {
    } else {
      StepTakes(s, run[0], m);
      StepLate(s, run[0], t, m);
      LateExact(Next(s, run[0]), run[1..], t, m);
      LookIsFree(s, run[0], t, m);
    }
  }

  lemma {:induction false} LookIsFree(s: State, step: Step, t: nat, m: nat)
    requires m < |s.mutexes|
    ensures FreeLook(s, step, t, m) ==> Taken01(s, m) == 0 && !Takes(s, step, m) && step != Give(m)
  {
  }

  /** The assertion fails exactly if another task has taken the mutex, and not
      given it back, between the free look and the loop top. */
  lemma {:induction false} AssertionFailsExactly(s: State, run: seq<Step>)
    requires Init(s) && Possible(s, run) && Enabled(After(s, run), Top(false))
    ensures var e := After(s, run);
            AssertionFails(e, Top(false)) <==> Overtaken(s, run, e.running, DoingOf(e).m)
  {
    var e := After(s, run);
    var t, m := e.running, DoingOf(e).m;
    SameNumbers(s, run);
    assert !IsLate(s, t, m);
    hide Init, Possible, After, Overtaken, Rests, NetTakes;
    LateExact(s, run, t, m);
  }

  lemma {:induction false} SameNumbers(s: State, run: seq<Step>)
    requires Possible(s, run)
    ensures |After(s, run).mutexes| == |s.mutexes| && |After(s, run).tasks| == |s.tasks|
    decreases |run|
  {
    if run == [] {
    } else {
      SameNumber(s, run[0]);
      hide Enabled, Next;
      SameNumbers(Next(s, run[0]), run[1..]);
    }
  }

  lemma {:induction false} SameNumber(s: State, step: Step)
    requires Enabled(s, step)
    ensures |Next(s, step).mutexes| == |s.mutexes| && |Next(s, step).tasks| == |s.tasks|
  {
    hide Joined, Left, Inherited, LoweredTo, Disinherited, IsTop;
  }

  // ---------------------------------------------------------------------
  // A run in which it fails
  // ---------------------------------------------------------------------

  /** Three tasks of priorities 1, 5 and 6 and one mutex. */
  function AtStart(): State
  {
    State([Idle(1), Idle(5), Idle(6)], [Mutex(Nobody, [])], 2, false, false)
  }

  /** Task 0 holds the mutex, the others are away. */
  function TakenBy0(): State
  {
    State([Holding(1, 1, Ready(Free)), Gone(5), Gone(6)], [Mutex(By(0), [])], 0, false, false)
  }

  /** Task 1 waits for it and has made task 0 inherit. */
  function Waiting1(): State
  {
    State([Holding(5, 1, Ready(Free)), Waits(5, 0, true), Gone(6)], [Mutex(By(0), [1])], 1, true, false)
  }

  /** Its block time is over. */
  function TimedOut1(): State
  {
    State([Holding(5, 1, Ready(Free)), Task(5, 5, 0, Ready(GivingUp(0, true))), Gone(6)],
          [Mutex(By(0), [])], 1, false, false)
  }

  /** Task 0 has given it back, and task 1 has found it free. */
  function Found1(): State
  {
    State([Idle(1), Task(5, 5, 0, Ready(Wants(0, true, true))), Gone(6)], [Mutex(Nobody, [])], 1, false, false)
  }

  /** Task 2 has come and taken it, and gone. */
  function TakenBy2(): State
  {
    State([Idle(1), Task(5, 5, 0, Ready(Wants(0, true, true))), Holding(6, 6, Away)],
          [Mutex(By(2), [])], 1, false, false)
  }

  function Gone(priority: nat): Task
  {
    Task(priority, priority, 0, Away)
  }

  lemma {:induction false} ToTakenBy0(s0: State)
    requires Reaches(s0, AtStart())
    ensures Reaches(s0, TakenBy0())
  {
    hide Reaches;
    var s1 := State([Idle(1), Idle(5), Gone(6)], [Mutex(Nobody, [])], 2, true, false);
    Follows(s0, AtStart(), Leave);
    assert Next(AtStart(), Leave) == s1;
    Follows(s0, s1, Switch(1));
    var s2 := Next(s1, Switch(1));
    Follows(s0, s2, Leave);
    var s3 := State([Idle(1), Gone(5), Gone(6)], [Mutex(Nobody, [])], 1, true, false);
    assert Next(s2, Leave) == s3;
    Follows(s0, s3, Switch(0));
    var s4 := Next(s3, Switch(0));
    ComesToTake(s0, s4, 0);
    assert Taken(Do(s4, Wants(0, false, false)), 0) == TakenBy0();
  }

  lemma {:induction false} ToWaiting1(s0: State)
    requires Reaches(s0, TakenBy0())
    ensures Reaches(s0, Waiting1())
  {
    hide Reaches, Joined;
    var s1 := State([Holding(1, 1, Ready(Free)), Idle(5), Gone(6)], [Mutex(By(0), [])], 0, true, false);
    Follows(s0, TakenBy0(), Wake(1));
    assert Next(TakenBy0(), Wake(1)) == s1;
    Follows(s0, s1, Switch(1));
    var s2 := Next(s1, Switch(1));
    ComesToWait(s0, s2, 0);
    var s3 := Do(s2, Placing(0, false));
    JoinsBehind(s3.tasks[0 := s3.tasks[0].(priority := 5)], [], 1);
    assert [] + [1] == [1 as nat];
    assert Placed(s3, 0).tasks == Waiting1().tasks;
    assert Placed(s3, 0).mutexes == Waiting1().mutexes;
    assert Placed(s3, 0) == Waiting1();
  }

  lemma {:induction false} ToTimedOut1(s0: State)
    requires Reaches(s0, Waiting1())
    ensures Reaches(s0, TimedOut1())
  {
    hide Reaches;
    Follows(s0, Waiting1(), Switch(0));
    var s4 := Next(Waiting1(), Switch(0));
    Follows(s0, s4, Expire(1));
    var s5 := State([Holding(5, 1, Ready(Free)), Task(5, 5, 0, Ready(Wants(0, true, false))), Gone(6)],
                    [Mutex(By(0), [])], 0, true, false);
    assert Left([1], 1) == [] by { assert [1 as nat][1..] == []; }
    assert Next(s4, Expire(1)) == s5;
    Follows(s0, s5, Switch(1));
    var s6 := Next(s5, Switch(1));
    Follows(s0, s6, Top(true));
    var s7 := Next(s6, Top(true));
    Follows(s0, s7, Section(true));
    assert Next(s7, Section(true)) == TimedOut1();
  }

  lemma {:induction false} ToFound1(s0: State)
    requires Reaches(s0, TimedOut1())
    ensures Reaches(s0, Found1())
  {
    hide Reaches;
    Follows(s0, TimedOut1(), Switch(0));
    var s1 := Next(TimedOut1(), Switch(0));
    Follows(s0, s1, Give(0));
    var s2 := State([Idle(1), Task(5, 5, 0, Ready(GivingUp(0, true))), Gone(6)], [Mutex(Nobody, [])], 0, true, false);
    assert Next(s1, Give(0)) == s2;
    Follows(s0, s2, Switch(1));
    var s3 := Next(s2, Switch(1));
    Follows(s0, s3, Check);
    assert Next(s3, Check) == Found1();
  }

  lemma {:induction false} ToTakenBy2(s0: State)
    requires Reaches(s0, Found1())
    ensures Reaches(s0, TakenBy2())
  {
    hide Reaches;
    var late := Task(5, 5, 0, Ready(Wants(0, true, true)));
    var s1 := State([Idle(1), late, Idle(6)], [Mutex(Nobody, [])], 1, true, false);
    Follows(s0, Found1(), Wake(2));
    assert Next(Found1(), Wake(2)) == s1;
    Follows(s0, s1, Switch(2));
    var s2 := Next(s1, Switch(2));
    ComesToTake(s0, s2, 0);
    var s3 := State([Idle(1), late, Holding(6, 6, Ready(Free))], [Mutex(By(2), [])], 2, false, false);
    assert Taken(Do(s2, Wants(0, false, false)), 0) == s3;
    Follows(s0, s3, Leave);
    var s4 := State([Idle(1), late, Holding(6, 6, Away)], [Mutex(By(2), [])], 2, true, false);
    assert Next(s3, Leave) == s4;
    Follows(s0, s4, Switch(1));
    assert Next(s4, Switch(1)) == TakenBy2();
  }

  /** The comment beside the assertion says that this cannot happen: task 1
      times out, finds the mutex free, and task 2 takes it first. */
  lemma {:induction false} AssertionCanFail()
    ensures Init(AtStart())
    ensures exists run :: Possible(AtStart(), run) && Modest(AtStart(), run) && After(AtStart(), run) == TakenBy2()
    ensures Enabled(TakenBy2(), Top(false)) && AssertionFails(TakenBy2(), Top(false))
  {
    var s0 := AtStart();
    assert Reaches(s0, TakenBy2()) by {
      hide Reaches;
      ReachesItself(s0);
      ToTakenBy0(s0);
      ToWaiting1(s0);
      ToTimedOut1(s0);
      ToFound1(s0);
      ToTakenBy2(s0);
    }
    hide Possible, Modest, After;
  }
}
