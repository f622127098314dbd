/** A run in which a timer goes on after it has been stopped. */
module StopRun {

  import opened Ticks
  import opened SortedLists
  import opened Timers
  import opened TimerDaemon
  import opened TimerCommands

  ghost predicate Gets(x: nat, s: State, s': State)
  {
    exists run :: Goes(s, x, run) && Reached(s, x, run) == s'
  }

  lemma {:induction false} GoesOn(s: State, x: nat, run: seq<Step>, step: Step)
    requires Goes(s, x, run) && Enabled(Reached(s, x, run), step) && OnlyStops(x, step)
    ensures Goes(s, x, run + [step]) && Reached(s, x, run + [step]) == Next(Reached(s, x, run), step)
    decreases |run|
  {
    hide Enabled, OnlyStops, Next;
    if run == [] {
      assert [step][1..] == [];
      assert run + [step] == [step];
    } else {
      GoesOn(Next(s, run[0]), x, run[1..], step);
      assert (run + [step])[1..] == run[1..] + [step];
    }
  }

  lemma {:induction false} Follows(x: nat, s0: State, s: State, step: Step)
    requires Gets(x, s0, s) && Enabled(s, step) && OnlyStops(x, step)
    ensures Gets(x, s0, Next(s, step))
  {
    hide Enabled, OnlyStops, Next, Goes, Reached;
    var run :| Goes(s0, x, run) && Reached(s0, x, run) == s;
    GoesOn(s0, x, run, step);
  }

  function Begin(): Message
  {
    Message(START, 0, 0)
  }

  function End(): Message
  {
    Message(STOP, 0, 0)
  }

  /** The command by which the daemon reloads the timer. */
  function Again(value: Tick): Message
  {
    Message(START_DONT_TRACE, value, 0)
  }

  function At(current: seq<Entry>, lastTime: Tick, queue: seq<Message>, active: bool, calls: multiset<nat>,
              now: int, place: Place): State
  {
    State(Service(current, [], lastTime, queue, map[0 := Timer(1, true, active)], calls, {}), now, lastTime, place)
  }

  /** A timer with a period of one tick is started at instant 0. */
  function Starting(): State
  {
    At([], 0, [Begin()], false, multiset{}, 0, Top)
  }

  function Running(): State
  {
    At([Entry(0, 1)], 0, [], true, multiset{}, 0, Draining)
  }

  /** It has been sent a stop, but first expires, late. */
  function Expired(): State
  {
    At([], 2, [End(), Again(1)], true, multiset{0}, 2, Draining)
  }

  /** The stop has been received and applied. */
  function Stopped(): State
  {
    At([], 2, [Again(1)], false, multiset{0}, 2, Draining)
  }

  /** And the timer is running again. */
  function Revived(): State
  {
    At([], 2, [Again(2)], true, multiset{0, 0}, 2, Draining)
  }

  lemma {:induction false} ToRunning(s0: State)
    requires Gets(0, s0, Starting())
    ensures Gets(0, s0, Running())
  {
    hide Gets;
    var s1 := At([], 0, [Begin()], false, multiset{}, 0, Blocking(0));
    Follows(0, s0, Starting(), Work);
    assert Next(Starting(), Work) == s1;
    Follows(0, s0, s1, Work);
    var s2 := Next(s1, Work);
    Follows(0, s0, s2, Work);
    var s3 := At([], 0, [], false, multiset{}, 0, InHand(Begin()));
    assert Next(s2, Work) == s3;
    Follows(0, s0, s3, Work);
    var s4 := At([], 0, [], false, multiset{}, 0, Applying(Begin(), 0));
    assert Next(s3, Work) == s4;
    Follows(0, s0, s4, Work);
    assert map[0 := Timer(1, true, false)][0 := Timer(1, true, true)] == map[0 := Timer(1, true, true)];
    assert Insert([], Entry(0, 1)) == [Entry(0, 1)];
    assert Next(s4, Work) == Running();
  }

  lemma {:induction false} ToExpired(s0: State)
    requires Gets(0, s0, Running())
    ensures Gets(0, s0, Expired())
  {
    hide Gets;
    Follows(0, s0, Running(), Work);
    var s1 := Next(Running(), Work);
    Follows(0, s0, s1, Post(End()));
    assert [] + [End()] == [End()];
    var s2 := Next(s1, Post(End()));
    Follows(0, s0, s2, Advance(2));
    var s3 := At([Entry(0, 1)], 0, [End()], true, multiset{}, 2, Top);
    assert Next(s2, Advance(2)) == s3;
    Follows(0, s0, s3, Work);
    var s4 := At([Entry(0, 1)], 2, [End()], true, multiset{}, 2, Expiring(2));
    assert Next(s3, Work) == s4;
    Follows(0, s0, s4, Work);
    assert [Entry(0, 1)][1..] == [];
    assert [End()] + [Again(1)] == [End(), Again(1)];
    assert Next(s4, Work) == Expired();
  }

  lemma {:induction false} ToStopped(s0: State)
    requires Gets(0, s0, Expired())
    ensures Gets(0, s0, Stopped())
  {
    hide Gets;
    Follows(0, s0, Expired(), Work);
    var s1 := At([], 2, [Again(1)], true, multiset{0}, 2, InHand(End()));
    assert [End(), Again(1)][1..] == [Again(1)];
    assert Next(Expired(), Work) == s1;
    Follows(0, s0, s1, Work);
    var s2 := At([], 2, [Again(1)], true, multiset{0}, 2, Applying(End(), 2));
    assert Next(s1, Work) == s2;
    Follows(0, s0, s2, Work);
    assert map[0 := Timer(1, true, true)][0 := Timer(1, true, false)] == map[0 := Timer(1, true, false)];
    assert Next(s2, Work) == Stopped();
  }

  lemma {:induction false} ToRevived(s0: State)
    requires Gets(0, s0, Stopped())
    ensures Gets(0, s0, Revived())
  {
    hide Gets;
    Follows(0, s0, Stopped(), Work);
    var s1 := At([], 2, [], false, multiset{0}, 2, InHand(Again(1)));
    assert [Again(1)][1..] == [];
    assert Next(Stopped(), Work) == s1;
    Follows(0, s0, s1, Work);
    var s2 := At([], 2, [], false, multiset{0}, 2, Applying(Again(1), 2));
    assert Next(s1, Work) == s2;
    Follows(0, s0, s2, Work);
    assert map[0 := Timer(1, true, false)][0 := Timer(1, true, true)] == map[0 := Timer(1, true, true)];
    assert [] + [Again(2)] == [Again(2)];
    assert multiset{0} + multiset{0} == multiset{0, 0};
    assert Next(s2, Work) == Revived();
  }

  /** Nobody has sent the timer anything after its start but a command to stop
      it, and that has been applied; still it is called once more, active, and
      about to be called again. */
  lemma {:induction false} StopCanBeUndone()
    ensures Started(Starting(), Subject(0, 0, 1, true))
    ensures exists run :: Goes(Starting(), 0, run) && Reached(Starting(), 0, run) == Stopped()
    ensures exists run :: Goes(Stopped(), 0, run) && Reached(Stopped(), 0, run) == Revived()
    ensures Revived().service.calls[0] > Stopped().service.calls[0]
    ensures !TimerOf(Stopped().service, 0).active && TimerOf(Revived().service, 0).active
  {
    assert Gets(0, Starting(), Starting()) by {
      assert Goes(Starting(), 0, []) && Reached(Starting(), 0, []) == Starting();
    }
    assert Gets(0, Stopped(), Stopped()) by {
      assert Goes(Stopped(), 0, []) && Reached(Stopped(), 0, []) == Stopped();
    }
    assert Gets(0, Starting(), Stopped()) && Gets(0, Stopped(), Revived()) by {
      hide Gets;
      ToRunning(Starting());
      ToExpired(Starting());
      ToStopped(Starting());
      ToRevived(Stopped());
    }
    assert Started(Starting(), Subject(0, 0, 1, true)) by {
      hide Goes, Reached;
      assert [Begin()][1..] == [];
      assert Ours([Begin()], 0) == [Begin()];
    }
    hide Goes, Reached;
  }
}
