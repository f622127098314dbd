/** A run in which a dropped call for a context switch lets a task take a mutex
    over the head of a more urgent one. */
module InvertingRun {

  import opened Mutexes
  import opened Inversion
  import opened Reachable

  /** Five tasks: 0 and 2 of priority 1, 1 of priority 5, 3 of priority 3 and 4
      of priority 2. */
  function AtStart(): State
  {
    State([Idle(1), Idle(5), Idle(1), Idle(3), Idle(2)], [Mutex(Nobody, []), Mutex(Nobody, [])], 1, false, false)
  }

  /** Task 1 holds mutex 1 and is away. */
  function Taken1(): State
  {
    State([Idle(1), Holding(5, 5, Away), Idle(1), Idle(3), Idle(2)],
          [Mutex(Nobody, []), Mutex(By(1), [])], 1, true, false)
  }

  /** Tasks 3 and 4 wait for it, first one, then the other. */
  function Waiting3(): State
  {
    State([Idle(1), Holding(5, 5, Away), Idle(1), Waits(3, 1, false), Idle(2)],
          [Mutex(Nobody, []), Mutex(By(1), [3])], 3, true, false)
  }

  function Waiting4(): State
  {
    State([Idle(1), Holding(5, 5, Away), Idle(1), Waits(3, 1, false), Waits(2, 1, false)],
          [Mutex(Nobody, []), Mutex(By(1), [3, 4])], 4, true, false)
  }

  /** Task 0 holds mutex 0. */
  function Taken0(): State
  {
    State([Holding(1, 1, Ready(Free)), Holding(5, 5, Away), Idle(1), Waits(3, 1, false), Waits(2, 1, false)],
          [Mutex(By(0), []), Mutex(By(1), [3, 4])], 0, false, false)
  }

  /** Task 2 waits for that, and task 1 is back. */
  function Back1(): State
  {
    State([Holding(1, 1, Ready(Free)), Holding(5, 5, Ready(Free)), Waits(1, 0, false), Waits(3, 1, false),
           Waits(2, 1, false)],
          [Mutex(By(0), [2]), Mutex(By(1), [3, 4])], 1, false, false)
  }

  /** Task 1 has given mutex 1 back, which readied task 3. */
  function Given1(): State
  {
    State([Holding(1, 1, Ready(Free)), Idle(5), Waits(1, 0, false), Task(3, 3, 0, Ready(Wants(1, false, false))),
           Waits(2, 1, false)],
          [Mutex(By(0), [2]), Mutex(Nobody, [4])], 1, false, false)
  }

  /** It has made task 0 inherit its priority, timed out, and not run since. */
  function Expired1(): State
  {
    State([Holding(5, 1, Ready(Free)), Task(5, 5, 0, Ready(Wants(0, true, false))), Waits(1, 0, false),
           Task(3, 3, 0, Ready(Wants(1, false, false))), Waits(2, 1, false)],
          [Mutex(By(0), [2]), Mutex(Nobody, [4])], 0, false, false)
  }

  /** Task 0 has given mutex 0 back and gone on to take mutex 1. */
  function Overtaken(): State
  {
    State([Holding(1, 1, Ready(Free)), Task(5, 5, 0, Ready(Wants(0, true, false))),
           Task(1, 1, 0, Ready(Wants(0, false, false))),
           Task(3, 3, 0, Ready(Wants(1, false, false))), Waits(2, 1, false)],
          [Mutex(Nobody, []), Mutex(By(0), [4])], 0, false, true)
  }

  lemma {:induction false} ToTaken1(s0: State)
    requires Reaches(s0, AtStart())
    ensures Reaches(s0, Taken1())
  {
    hide Reaches;
    var s := AtStart();
    ComesToTake(s0, s, 1);
    Follows(s0, Taken(Do(s, Wants(1, false, false)), 1), Leave);
    assert Next(Taken(Do(s, Wants(1, false, false)), 1), Leave) == Taken1();
  }

  lemma {:induction false} ToWaiting3(s0: State)
    requires Reaches(s0, Taken1())
    ensures Reaches(s0, Waiting3())
  {
    hide Reaches, Joined;
    Follows(s0, Taken1(), Switch(3));
    var s := Next(Taken1(), Switch(3));
    ComesToWait(s0, s, 1);
    PlacedBehind(Do(s, Placing(1, false)), 1);
    assert [] + [3] == [3 as nat];
    assert Placed(Do(s, Placing(1, false)), 1) == Waiting3();
  }

  lemma {:induction false} ToWaiting4(s0: State)
    requires Reaches(s0, Waiting3())
    ensures Reaches(s0, Waiting4())
  {
    hide Reaches, Joined;
    Follows(s0, Waiting3(), Switch(4));
    var s := Next(Waiting3(), Switch(4));
    ComesToWait(s0, s, 1);
    PlacedBehind(Do(s, Placing(1, false)), 1);
    assert [3] + [4] == [3 as nat, 4];
    assert Placed(Do(s, Placing(1, false)), 1) == Waiting4();
  }

  lemma {:induction false} ToTaken0(s0: State)
    requires Reaches(s0, Waiting4())
    ensures Reaches(s0, Taken0())
  {
    hide Reaches;
    Follows(s0, Waiting4(), Switch(0));
    var s := Next(Waiting4(), Switch(0));
    ComesToTake(s0, s, 0);
    assert Taken(Do(s, Wants(0, false, false)), 0) == Taken0();
  }

  lemma {:induction false} ToBack1(s0: State)
    requires Reaches(s0, Taken0())
    ensures Reaches(s0, Back1())
  {
    hide Reaches, Joined;
    Follows(s0, Taken0(), Switch(2));
    var s := Next(Taken0(), Switch(2));
    ComesToWait(s0, s, 0);
    PlacedBehind(Do(s, Placing(0, false)), 0);
    assert [] + [2] == [2 as nat];
    var s1 := Placed(Do(s, Placing(0, false)), 0);
    Follows(s0, s1, Wake(1));
    var s2 := Next(s1, Wake(1));
    Follows(s0, s2, Switch(1));
    assert Next(s2, Switch(1)) == Back1();
  }

  lemma {:induction false} ToGiven1(s0: State)
    requires Reaches(s0, Back1())
    ensures Reaches(s0, Given1())
  {
    hide Reaches;
    Follows(s0, Back1(), Give(1));
    assert Next(Back1(), Give(1)) == Given1();
  }

  lemma {:induction false} ToExpired1(s0: State)
    requires Reaches(s0, Given1())
    ensures Reaches(s0, Expired1())
  {
    hide Reaches, Joined;
    var s := Given1();
    ComesToWait(s0, s, 0);
    var before := Do(s, Placing(0, false)).tasks;
    JoinsInFront(before[0 := before[0].(priority := 5)], [2], 1);
    var s1 := Placed(Do(s, Placing(0, false)), 0);
    assert s1.tasks == [Holding(5, 1, Ready(Free)), Waits(5, 0, true), Waits(1, 0, false),
                        Task(3, 3, 0, Ready(Wants(1, false, false))), Waits(2, 1, false)];
    assert [1] + [2] == [1 as nat, 2];
    assert s1.mutexes == [Mutex(By(0), [1, 2]), Mutex(Nobody, [4])];
    Follows(s0, s1, Expire(1));
    var s2 := Next(s1, Expire(1));
    assert Left([1, 2], 1) == [2] by {
      assert [1, 2][1..] == [2];
      assert [2][1..] == [];
      assert Left([2], 1) == [2] + Left([], 1);
    }
    Follows(s0, s2, Switch(0));
    assert Next(s2, Switch(0)) == Expired1();
  }

  lemma {:induction false} ToOvertaken(s0: State)
    requires Reaches(s0, Expired1())
    ensures Reaches(s0, Overtaken())
  {
    hide Reaches;
    Follows(s0, Expired1(), Give(0));
    var s := Next(Expired1(), Give(0));
    assert s.tasks == [Idle(1), Task(5, 5, 0, Ready(Wants(0, true, false))),
                       Task(1, 1, 0, Ready(Wants(0, false, false))),
                       Task(3, 3, 0, Ready(Wants(1, false, false))), Waits(2, 1, false)];
    assert [2 as nat][1..] == [];
    assert s.mutexes == [Mutex(Nobody, []), Mutex(Nobody, [4])];
    ComesToTake(s0, s, 1);
    assert Taken(Do(s, Wants(1, false, false)), 1) == Overtaken();
  }

  /** With time-outs the bound can fail: task 0 gives one mutex back, is not
      made to yield to task 1 because it has a waiter to wake, takes the other
      mutex, and keeps it at priority 1 with a task of priority 2 waiting. */
  lemma {:induction false} IgnoredCallInverts()
    ensures Init(AtStart())
    ensures exists run :: Possible(AtStart(), run) && Modest(AtStart(), run) && After(AtStart(), run) == Overtaken()
    ensures Inverted(Overtaken(), 4, 1)
  {
    var s0 := AtStart();
    assert Reaches(s0, Overtaken()) by {
      hide Reaches;
      ReachesItself(s0);
      ToTaken1(s0);
      ToWaiting3(s0);
      ToWaiting4(s0);
      ToTaken0(s0);
      ToBack1(s0);
      ToGiven1(s0);
      ToExpired1(s0);
      ToOvertaken(s0);
    }
    hide Possible, Modest, After;
  }
}
