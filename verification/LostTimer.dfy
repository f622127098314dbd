/** How a timer is lost: late in processing it, the daemon finds no room in its
    own queue for the command that would restart it. */
module LostTimer {

  import opened Ticks
  import opened SortedLists
  import opened Timers
  import opened TimerDaemon

  // ---------------------------------------------------------------------
  // When a reload command is refused
  // ---------------------------------------------------------------------

  predicate Refused(d: Service, x: nat)
  {
    TraceOf(d, x).refused
  }

  lemma {:induction false} ExpiringRefused(s: State, x: Subject)
    requires Inv(s, x) && s.place.Expiring? && !Refused(s.service, x.timer)
    ensures Refused(Next(s, Work).service, x.timer) <==> |s.service.queue| >= QUEUE_LENGTH && SendsReload(s, x)
  {
    hide TraceOf, Nth, Wrap, Epoch, Ordered, ProcessExpired, TickOf, Placed, TimerOf, Filed;
    var d, t := s.service, s.place.t;
    TraceLists(d, x.timer);
    if d.current[0].item == x.timer {
      HeadIsDue(d, [], x, t);
      NextFiling(x, d.calls[x.timer] + 1, t);
      if x.autoReload {
        ExpireOurs(d, Wrap(t), x.timer);
      } else {
        ExpireOnce(d, Wrap(t), x.timer);
      }
    } else {
      ExpireOther(d, Wrap(t), x.timer);
    }
  }

  lemma {:induction false} SwitchingRefused(s: State, x: Subject)
    requires Inv(s, x) && s.place.Switching? && s.service.current != [] && !Refused(s.service, x.timer)
    ensures Refused(Next(s, Work).service, x.timer) <==> |s.service.queue| >= QUEUE_LENGTH && SendsReload(s, x)
  {
    hide TraceOf, Nth, Wrap, Epoch, Ordered, SwitchOne, TickOf, Placed, Held, EntriesOf, TimerOf, Ours;
    var d := s.service;
    TraceLists(d, x.timer);
    if d.current[0].item == x.timer {
      HeadIsDue(d, Held(s.place, x.timer), x, s.sampled);
      ReloadEpoch(x, d.calls[x.timer] + 1);
      if x.autoReload {
        SwitchOurs(d, x.timer);
      } else {
        SwitchOnce(d, x.timer);
      }
    } else {
      SwitchOther(d, x.timer);
    }
  }

  lemma {:induction false} ApplyingRefused(s: State, x: Subject)
    requires Inv(s, x) && Prompt(s, x) && s.place.Applying? && !Refused(s.service, x.timer)
    ensures Refused(Next(s, Work).service, x.timer) <==> |s.service.queue| >= QUEUE_LENGTH && SendsReload(s, x)
  {
    hide TraceOf, Nth, Wrap, Epoch, Ordered, Apply, TickOf, TimerOf, EntriesOf, Filed;
    var d, m, t := s.service, s.place.m, s.place.t;
    TraceLists(d, x.timer);
    TraceCalls(d, x.timer);
    OursOne(m, x.timer);
    if m.timer == x.timer {
      var tr := TraceOf(d, x.timer);
      assert tr.queue + [m] != [];
      assert (tr.queue + [m])[|tr.queue|] == m;
      assert tr.queue == [];
      CommandFiling(x, d.calls[x.timer], t);
      if x.autoReload {
        ApplyOurs(d, m, Wrap(t), x.timer);
      } else {
        ApplyOnce(d, m, Wrap(t), x.timer);
      }
    } else {
      ApplyOther(d, m, Wrap(t), x.timer);
    }
  }

  lemma {:induction false} OthersRefuseNothing(s: State, x: nat)
    requires !s.place.Expiring? && !s.place.Applying? && !(s.place.Switching? && s.service.current != [])
    ensures Refused(Next(s, Work).service, x) == Refused(s.service, x)
  {
  }

  /** The assertion that a reload command finds room fails exactly if one is
      sent while the queue is full. */
  lemma {:induction false} RefusedExactly(s: State, x: Subject)
    requires Inv(s, x) && Prompt(s, x) && !Refused(s.service, x.timer)
    ensures Refused(Next(s, Work).service, x.timer) <==> |s.service.queue| >= QUEUE_LENGTH && SendsReload(s, x)
  {
    if s.place.Expiring? {
      ExpiringRefused(s, x);
    } else if s.place.Applying? {
      ApplyingRefused(s, x);
    } else if s.place.Switching? && s.service.current != [] {
      SwitchingRefused(s, x);
    } else {
      hide Inv, Prompt, Nth, Epoch, Refused;
      OthersRefuseNothing(s, x.timer);
    }
  }

  // ---------------------------------------------------------------------
  // A run
  // ---------------------------------------------------------------------

  ghost predicate Reaches(x: Subject, s: State, s': State)
  {
    exists run :: Possible(s, x, run) && After(s, x, run) == s'
  }

  lemma {:induction false} RunsOn(s: State, x: Subject, run: seq<Step>, step: Step)
    requires Possible(s, x, run) && Enabled(After(s, x, run), step) && Undisturbed(After(s, x, run), x.timer, step)
    requires Prompt(Next(After(s, x, run), step), x)
    ensures Possible(s, x, run + [step]) && After(s, x, run + [step]) == Next(After(s, x, run), step)
    decreases |run|
  {
    hide Enabled, Undisturbed, Prompt, Next;
    if run == [] {
      assert [step][1..] == [];
      assert run + [step] == [step];
    } else {
      RunsOn(Next(s, run[0]), x, run[1..], step);
      assert (run + [step])[1..] == run[1..] + [step];
    }
  }

  lemma {:induction false} Follows(x: Subject, s0: State, s: State, step: Step)
    requires Reaches(x, s0, s) && Enabled(s, step) && Undisturbed(s, x.timer, step) && Prompt(Next(s, step), x)
    ensures Reaches(x, s0, Next(s, step))
  {
    hide Enabled, Undisturbed, Prompt, Next, Possible, After;
    var run :| Possible(s0, x, run) && After(s0, x, run) == s;
    RunsOn(s0, x, run, step);
  }

  /** A timer with a period of one tick, started at instant 0. */
  function Short(): Subject
  {
    Subject(0, 0, 1, true)
  }

  function Start(): Message
  {
    Message(START, 0, 0)
  }

  /** A function call that another task has the daemon make. */
  function Pended(): Message
  {
    Message(-1, 0, 0)
  }

  function AtStart(): State
  {
    State(Service([], [], 0, [Start()], map[0 := Timer(1, true, false)], multiset{}, {}), 0, 0, Top)
  }

  function WithQueue(s: State, queue: seq<Message>): State
  {
    s.(service := s.service.(queue := queue))
  }

  /** The daemon has the start command in hand. */
  function Received(): State
  {
    WithQueue(AtStart(), []).(place := InHand(Start()))
  }

  /** Other tasks have filled the queue, and a tick has passed. */
  function Late(): State
  {
    WithQueue(Received(), [Pended(), Pended(), Pended(), Pended()]).(now := 1)
  }

  /** The callback has been made, and the timer is nowhere. */
  function Lost(): State
  {
    State(Service([], [], 1, [Pended(), Pended(), Pended(), Pended()],
                  map[0 := Timer(1, true, true)], multiset{0}, {0}),
          1, 1, Draining)
  }

  /** So early the daemon is prompt enough whatever happens. */
  lemma {:induction false} EarlyIsPrompt(s: State)
    requires 0 <= s.sampled <= s.now <= 1
    ensures Prompt(s, Short())
  {
    hide TraceOf, Held;
  }

  lemma {:induction false} ToReceived(s0: State)
    requires Reaches(Short(), s0, AtStart())
    ensures Reaches(Short(), s0, Received())
  {
    hide Reaches, Prompt;
    var s1 := Next(AtStart(), Work);
    assert s1 == AtStart().(place := Blocking(0));
    EarlyIsPrompt(s1);
    Follows(Short(), s0, AtStart(), Work);
    var s2 := Next(s1, Work);
    EarlyIsPrompt(s2);
    Follows(Short(), s0, s1, Work);
    var s3 := Next(s2, Work);
    EarlyIsPrompt(s3);
    Follows(Short(), s0, s2, Work);
    assert s3 == Received();
  }

  lemma {:induction false} Fills(s0: State, queue: seq<Message>)
    requires Reaches(Short(), s0, WithQueue(Received(), queue)) && |queue| < 4
    ensures Reaches(Short(), s0, WithQueue(Received(), queue + [Pended()]))
  {
    hide Reaches, Prompt;
    var s := WithQueue(Received(), queue);
    EarlyIsPrompt(Next(s, Post(Pended())));
    Follows(Short(), s0, s, Post(Pended()));
    assert Next(s, Post(Pended())) == WithQueue(Received(), queue + [Pended()]);
  }

  lemma {:induction false} ToLate(s0: State)
    requires Reaches(Short(), s0, Received())
    ensures Reaches(Short(), s0, Late())
  {
    hide Reaches, Prompt;
    var m := Pended();
    assert Received() == WithQueue(Received(), []);
    Fills(s0, []);
    assert [] + [m] == [m];
    Fills(s0, [m]);
    assert [m] + [m] == [m, m];
    Fills(s0, [m, m]);
    assert [m, m] + [m] == [m, m, m];
    Fills(s0, [m, m, m]);
    assert [m, m, m] + [m] == [m, m, m, m];
    var s := WithQueue(Received(), [m, m, m, m]);
    EarlyIsPrompt(Next(s, Advance(1)));
    Follows(Short(), s0, s, Advance(1));
    assert Next(s, Advance(1)) == Late();
  }

  lemma {:induction false} ToLost(s0: State)
    requires Reaches(Short(), s0, Late())
    ensures Reaches(Short(), s0, Lost())
  {
    hide Reaches, Prompt;
    var s1 := Next(Late(), Work);
    assert s1 == Late().(service := Late().service.(lastTime := 1), sampled := 1, place := Applying(Start(), 1));
    EarlyIsPrompt(s1);
    Follows(Short(), s0, Late(), Work);
    var s2 := Next(s1, Work);
    assert Filed(1, 1, 0, 1) == ProcessNow;
    assert map[0 := Timer(1, true, false)][0 := Timer(1, true, true)] == map[0 := Timer(1, true, true)];
    assert s2 == Lost();
    EarlyIsPrompt(s2);
    Follows(Short(), s0, s1, Work);
  }

  /** The source asserts that the reload command finds room. It need not. */
  lemma {:induction false} TimerCanBeLost()
    ensures Started(AtStart(), Short())
    ensures exists run :: Possible(AtStart(), Short(), run) && After(AtStart(), Short(), run) == Lost()
    ensures 0 in Lost().service.refused && Lost().service.calls[0] == 1
  {
    EarlyIsPrompt(AtStart());
    assert Reaches(Short(), AtStart(), AtStart()) by {
      assert Possible(AtStart(), Short(), []) && After(AtStart(), Short(), []) == AtStart();
    }
    assert Reaches(Short(), AtStart(), Lost()) by {
      hide Reaches;
      ToReceived(AtStart());
      ToLate(AtStart());
      ToLost(AtStart());
    }
    assert Started(AtStart(), Short()) by {
      hide Possible, After, Prompt;
      assert [Start()][1..] == [];
      assert Ours([Start()], 0) == [Start()];
    }
    hide Possible, After, Prompt;
  }
}
