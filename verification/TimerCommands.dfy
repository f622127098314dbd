/** What the commands do that do not start a timer: one that stops it silences it
    for good if and only if nothing to restart it stands behind, and a change of
    its period files it under an expiry counted from now. */
module TimerCommands {

  import opened Ticks
  import opened SortedLists
  import opened Timers
  import opened TimerDaemon

  // ---------------------------------------------------------------------
  // Silence
  // ---------------------------------------------------------------------

  /** In neither list. */
  predicate Away(s: State, x: nat)
  {
    EntriesOf(s.service.current, x) == [] && EntriesOf(s.service.overflow, x) == []
  }

  /** Nor is the daemon going to start it. */
  predicate Silent(s: State, x: nat)
  {
    Away(s, x) && Ours(s.service.queue, x) == [] && Held(s.place, x) == []
  }

  lemma {:induction false} SilentTrace(s: State, x: nat)
    ensures Silent(s, x) <==>
              TraceOf(s.service, x).current == [] && TraceOf(s.service, x).overflow == []
              && TraceOf(s.service, x).queue == [] && Held(s.place, x) == []
    ensures TraceOf(s.service, x).calls == s.service.calls[x]
  {
  }

  lemma {:induction false} HeadIsAnother(list: seq<Entry>, x: nat)
    requires list != [] && EntriesOf(list, x) == []
    ensures list[0].item != x
  {
  }

  lemma {:induction false} ApplyStop(d: Service, m: Message, now: Tick)
    requires IsStop(m.id) || m.id < 0
    ensures TraceOf(Apply(d, m, now), m.timer) == TraceOf(d, m.timer)
  {
  }

  /** A command that does not restart the timer. */
  lemma {:induction false} ApplyIdle(d: Service, m: Message, now: Tick, x: nat)
    requires !IsOurs(m, x)
    ensures TraceOf(Apply(d, m, now), x) == TraceOf(d, x)
  {
    hide TraceOf, Apply, IsStop;
    if m.timer != x {
      ApplyOther(d, m, now, x);
    } else {
      ApplyStop(d, m, now);
    }
  }

  /** What the work on the lists and the commands does to a timer that is away,
      and not in the hand of the daemon to be restarted. */
  lemma {:induction false} AwayTrace(s: State, x: nat)
    requires Away(s, x) && (s.place.Applying? ==> !IsOurs(s.place.m, x))
    requires s.place.Expiring? || s.place.Applying? || s.place.Switching?
    ensures TraceOf(Next(s, Work).service, x) == TraceOf(s.service, x)
  {
    hide Ours, SwitchOne, ProcessExpired, Apply, EntriesOf, IsOurs, Wrap, TraceOf;
    var d := s.service;
    match s.place
    case Switching(t, _) =>
      if d.current != [] {
        HeadIsAnother(d.current, x);
        SwitchOther(d, x);
      } else {
        SwappedTrace(d, x);
        TraceTime(Swapped(d), Wrap(t), x);
        TraceLists(d, x);
      }
    case Expiring(t) =>
      if d.current != [] {
        HeadIsAnother(d.current, x);
        ExpireOther(d, Wrap(t), x);
      }
    case Applying(m, t) => ApplyIdle(d, m, Wrap(t), x);
  }

  lemma {:induction false} SilentDrain(s: State, x: nat)
    requires Silent(s, x) && s.place.Draining?
    ensures var s' := Next(s, Work); Silent(s', x) && s'.service.calls[x] == s.service.calls[x]
  {
    hide Ours, IsOurs, Unlisted, TraceOf, Silent;
    var d := s.service;
    SilentTrace(s, x);
    SilentTrace(Next(s, Work), x);
    if d.queue != [] {
      var m, d' := d.queue[0], d.(queue := d.queue[1..]);
      TraceQueue(d, x);
      DrainTrace(d, x);
      UnlistedTrace(d', m.timer, x);
    }
  }

  lemma {:induction false} SilentWork(s: State, x: nat)
    requires Silent(s, x)
    ensures var s' := Next(s, Work); Silent(s', x) && s'.service.calls[x] == s.service.calls[x]
  {
    if s.place.Draining? {
      SilentDrain(s, x);
    } else if s.place.Expiring? || s.place.Applying? || s.place.Switching? {
      if s.place.Applying? {
        OursOne(s.place.m, x);
      }
      AwayTrace(s, x);
      SilentTrace(s, x);
      SilentTrace(Next(s, Work), x);
      hide TraceOf, Ours, EntriesOf, Apply, SwitchOne, ProcessExpired, Silent;
    } else {
      hide Ours, EntriesOf;
    }
  }

  lemma {:induction false} SilentPost(s: State, x: nat, m: Message)
    requires Silent(s, x) && OnlyStops(x, Post(m))
    ensures var s' := Next(s, Post(m)); Silent(s', x) && s'.service.calls[x] == s.service.calls[x]
  {
    OursConcat(s.service.queue, [m], x);
    OursOne(m, x);
    hide Ours, EntriesOf;
  }

  lemma {:induction false} SilentStep(s: State, x: nat, step: Step)
    requires Silent(s, x) && OnlyStops(x, step)
    ensures var s' := Next(s, step); Silent(s', x) && s'.service.calls[x] == s.service.calls[x]
  {
    hide Silent, Worked;
    match step
    case Advance(_) => hide TraceOf; AdvanceSilent(s, x, step.ticks);
    case Post(m) => SilentPost(s, x, m);
    case Work => SilentWork(s, x);
  }

  lemma {:induction false} AdvanceSilent(s: State, x: nat, ticks: nat)
    requires Silent(s, x)
    ensures Silent(s.(now := s.now + ticks), x)
  {
  }

  /** A run in which the timer is sent no commands but such as stop it. However
      long the daemon is kept from running, time may pass. */
  ghost predicate Goes(s: State, x: nat, run: seq<Step>)
    decreases |run|
  {
    run == [] || (Enabled(s, run[0]) && OnlyStops(x, run[0]) && Goes(Next(s, run[0]), x, run[1..]))
  }

  function Reached(s: State, x: nat, run: seq<Step>): State
    requires Goes(s, x, run)
    decreases |run|
  {
    if run == [] then s else Reached(Next(s, run[0]), x, run[1..])
  }

  lemma {:induction false} SilentRun(s: State, x: nat, run: seq<Step>)
    requires Silent(s, x) && Goes(s, x, run)
    ensures Silent(Reached(s, x, run), x) && Reached(s, x, run).service.calls[x] == s.service.calls[x]
    decreases |run|
  {
    hide Silent, Enabled, OnlyStops, Next;
    if run == [] {
    } else {
      SilentStep(s, x, run[0]);
      SilentRun(Next(s, run[0]), x, run[1..]);
    }
  }

  // ---------------------------------------------------------------------
  // A restart comes through
  // ---------------------------------------------------------------------

  function InHandOf(place: Place): seq<Message>
  {
    match place
    case InHand(m) => [m]
    case Applying(m, _) => [m]
    case Switching(_, ToApply(m)) => [m]
    case _ => []
  }

  /** What the daemon has in hand, and what is queued. */
  function Commands(s: State): seq<Message>
  {
    InHandOf(s.place) + s.service.queue
  }

  /** The daemon is working on the commands. */
  predicate Serving(place: Place)
  {
    place.Draining? || place.InHand? || place.Applying? || (place.Switching? && place.next.ToApply?)
  }

  function Phase(place: Place): nat
  {
    match place
    case Draining => 3
    case InHand(_) => 2
    case Switching(_, _) => 1
    case _ => 0
  }

  /** The first command that restarts the timer is this one. */
  predicate FirstOurs(commands: seq<Message>, k: nat, x: nat)
  {
    k < |commands| && IsOurs(commands[k], x) && forall j :: 0 <= j < k ==> !IsOurs(commands[j], x)
  }

  /** How many commands have been dealt with by a step of the daemon. */
  function Done(s: State): nat
  {
    if s.place.Applying? then 1
    else if s.place.Draining? && s.service.queue != [] && s.service.queue[0].id < 0 then 1
    else 0
  }

  lemma {:induction false} QueueGrows(d: Service, m: Message, now: Tick)
    ensures d.queue <= Apply(d, m, now).queue
    ensures d.current != [] ==> d.queue <= SwitchOne(d).queue
  {
    hide Insert, Filed, Wrap;
  }

  lemma {:induction false} DrainServes(s: State)
    requires s.place.Draining? && Commands(s) != []
    ensures var s', n := Next(s, Work), Done(s);
            && Serving(s'.place) && Commands(s)[n..] == Commands(s')
            && (n == 0 ==> Phase(s'.place) < Phase(s.place))
  {
    hide Unlisted;
    var d := s.service;
    assert Commands(s) == d.queue;
    assert [d.queue[0]] + d.queue[1..] == d.queue;
    UnlistedKeepsQueue(d.(queue := d.queue[1..]), d.queue[0].timer);
  }

  /** A step of the daemon deals with the first command or comes closer to it. */
  lemma {:induction false} ServesOn(s: State)
    requires Serving(s.place) && Commands(s) != []
    ensures var s', n := Next(s, Work), Done(s);
            && Serving(s'.place) && Commands(s)[n..] <= Commands(s')
            && (n == 0 ==> Phase(s'.place) < Phase(s.place)
                           || (Phase(s'.place) == Phase(s.place) == 1
                               && TimeLeft(s'.service.current) < TimeLeft(s.service.current)))
  {
    hide TimeLeft, SwitchOne, Apply, Unlisted, Without;
    var d := s.service;
    QueueGrows(d, Message(0, 0, 0), 0);
    match s.place
    case Draining => DrainServes(s);
    case InHand(m) =>
    case Switching(t, _) =>
      if d.current != [] {
        SwitchOneShrinks(d);
      }
    case Applying(m, t) =>
      QueueGrows(d, m, Wrap(t));
      assert Commands(s)[1..] == d.queue;
  }

  lemma {:induction false} UnlistedKeepsQueue(d: Service, y: nat)
    ensures Unlisted(d, y).queue == d.queue && Unlisted(d, y).calls == d.calls
  {
  }

  lemma {:induction false} FirstStays(commands: seq<Message>, n: nat, commands': seq<Message>, k: nat, x: nat)
    requires FirstOurs(commands, k, x) && n <= k && commands[n..] <= commands'
    ensures FirstOurs(commands', k - n, x)
  {
    hide IsOurs;
    forall j | 0 <= j <= k - n ensures commands'[j] == commands[n + j] {
      assert commands[n..][j] == commands[n + j];
    }
  }

  /** Meanwhile the timer stays away. */
  lemma {:induction false} StaysAway(s: State, x: nat)
    requires Away(s, x) && Serving(s.place) && (s.place.Applying? ==> !IsOurs(s.place.m, x))
    ensures var s' := Next(s, Work); Away(s', x) && s'.service.calls[x] == s.service.calls[x]
  {
    var s' := Next(s, Work);
    TraceLists(s.service, x);
    TraceLists(s'.service, x);
    TraceCalls(s.service, x);
    TraceCalls(s'.service, x);
    if s.place.Applying? || s.place.Switching? {
      AwayTrace(s, x);
    } else if s.place.Draining? && s.service.queue != [] {
      var d' := s.service.(queue := s.service.queue[1..]);
      DrainTrace(s.service, x);
      UnlistedTrace(d', s.service.queue[0].timer, x);
      hide TraceOf, EntriesOf, Ours, Unlisted;
    }
  }

  /** The timer has been called or is listed. */
  predicate Roused(s: State, x: nat, calls: nat)
  {
    s.service.calls[x] != calls || !Away(s, x)
  }

  /** A command that restarts the timer does. */
  lemma {:induction false} RestartActs(s: State, x: nat)
    requires Away(s, x) && s.place.Applying? && IsOurs(s.place.m, x)
    requires IsChange(s.place.m.id) ==> s.place.m.value > 0
    ensures Roused(Next(s, Work), x, s.service.calls[x])
  {
    hide EntriesOf, Ours, Filed, Insert, Wrap;
    var d, m, t := s.service, s.place.m, s.place.t;
    var timer := TimerOf(d, x);
    if IsStart(m.id) {
      var next := Wrap(m.value + timer.period);
      var started := d.(timers := d.timers[x := timer.(active := true)]);
      TraceFile(started, x, next, Filed(next, Wrap(t), m.value, timer.period), x);
    } else {
      var next := Wrap(Wrap(t) + m.value);
      ChangedPeriodIsFiled(m.value, t);
      TraceFile(d.(timers := d.timers[x := timer.(active := true, period := m.value)]), x, next,
                Filed(next, Wrap(t), Wrap(t), m.value), x);
    }
  }

  /** The source asserts that new periods are not zero. */
  predicate Asserted(commands: seq<Message>, x: nat)
  {
    forall i :: 0 <= i < |commands| && IsOurs(commands[i], x) && IsChange(commands[i].id) ==> commands[i].value > 0
  }

  /** If a command that restarts the timer waits, it will be applied. */
  lemma {:induction false} RestartComes(s: State, x: nat, k: nat) returns (run: seq<Step>)
    requires Serving(s.place) && Away(s, x) && FirstOurs(Commands(s), k, x)
    requires IsChange(Commands(s)[k].id) ==> Commands(s)[k].value > 0
    ensures Goes(s, x, run) && Roused(Reached(s, x, run), x, s.service.calls[x])
    decreases k, Phase(s.place), TimeLeft(s.service.current)
  {
    hide Away, IsOurs, Phase, TimeLeft, Next, Roused;
    if s.place.Applying? && k == 0 {
      RestartActs(s, x);
      run := [Work];
      assert run[1..] == [];
    } else {
      var s', n := Next(s, Work), Done(s);
      ServesOn(s);
      assert s.place.Applying? ==> !IsOurs(Commands(s)[0], x);
      NotDone(s, x, k);
      StaysAway(s, x);
      FirstStays(Commands(s), n, Commands(s'), k, x);
      assert Commands(s)[n..][k - n] == Commands(s)[k];
      var rest := RestartComes(s', x, k - n);
      run := [Work] + rest;
      assert run[0] == Work && run[1..] == rest;
    }
  }

  /** Only what does not restart the timer is dealt with before. */
  lemma {:induction false} NotDone(s: State, x: nat, k: nat)
    requires FirstOurs(Commands(s), k, x) && !(s.place.Applying? && k == 0)
    ensures Done(s) <= k
  {
    if k == 0 && s.place.Draining? {
      assert Commands(s) == s.service.queue;
    }
  }

  lemma {:induction false} FindOurs(commands: seq<Message>, x: nat) returns (k: nat)
    requires Ours(commands, x) != []
    ensures FirstOurs(commands, k, x)
  {
    hide IsOurs;
    k := 0;
    while !IsOurs(commands[k], x)
      invariant k < |commands| && Ours(commands[k..], x) != []
      invariant forall j :: 0 <= j < k ==> !IsOurs(commands[j], x)
      decreases |commands| - k
    {
      assert commands[k..][0] == commands[k] && commands[k..][1..] == commands[k + 1..];
      assert Ours([], x) == [];
      k := k + 1;
    }
  }

  // ---------------------------------------------------------------------
  // Stopping
  // ---------------------------------------------------------------------

  /** In every run to come the timer is not called and not listed. */
  ghost predicate SilentFrom(s: State, x: nat)
  {
    forall run :: Goes(s, x, run) ==> !Roused(Reached(s, x, run), x, s.service.calls[x])
  }

  lemma {:induction false} StopReceived(s: State, x: nat)
    requires ReceivesStop(s, x, Work)
    ensures var s' := Next(s, Work);
            && Away(s', x) && s'.service.calls == s.service.calls && s'.place.InHand? && !IsOurs(s'.place.m, x)
            && s'.service.queue == s.service.queue[1..]
  {
    var d', m := s.service.(queue := s.service.queue[1..]), s.service.queue[0];
    UnlistedKeepsQueue(d', x);
    UnlistedTrace(d', x, x);
    hide EntriesOf, Ours, Unlisted;
  }

  /** Once the daemon has received a command that stops the timer, nobody sending
      it others than such, it is never called again and in no list, whatever
      happens to other timers and however the counter wraps, exactly if no
      command that restarts it stands behind the one that stops it. */
  lemma {:induction false} StoppedIsSilent(s: State, x: nat)
    requires ReceivesStop(s, x, Work) && Asserted(s.service.queue, x)
    ensures SilentFrom(Next(s, Work), x) <==> Ours(s.service.queue[1..], x) == []
  {
    var s' := Next(s, Work);
    StopReceived(s, x);
    if Ours(s.service.queue[1..], x) == [] {
      assert Silent(s', x) by {
        OursOne(s'.place.m, x);
        hide Ours, EntriesOf, Next;
      }
      hide Next, Silent, Goes, Reached;
      forall run | Goes(s', x, run) ensures !Roused(Reached(s', x, run), x, s'.service.calls[x]) {
        SilentRun(s', x, run);
        SilentIsAway(Reached(s', x, run), x);
      }
    } else {
      var k := FindOurs(s.service.queue[1..], x);
      var m := s'.place.m;
      assert Commands(s') == [m] + s.service.queue[1..];
      assert Commands(s')[k + 1] == s.service.queue[k + 1];
      assert FirstOurs(Commands(s'), k + 1, x) by {
        hide Next, IsOurs;
        forall j | 0 <= j < k + 1 ensures !IsOurs(Commands(s')[j], x) {
          assert j > 0 ==> Commands(s')[j] == s.service.queue[1..][j - 1];
        }
      }
      hide Next, Goes, Reached, Roused, Away;
      var run := RestartComes(s', x, k + 1);
    }
  }

  lemma {:induction false} SilentIsAway(s: State, x: nat)
    requires Silent(s, x)
    ensures Away(s, x)
  {
  }

  // ---------------------------------------------------------------------
  // The daemon gets on
  // ---------------------------------------------------------------------

  function Stage(place: Place): nat
  {
    match place
    case Top => 4
    case InHand(_) => 4
    case Expiring(_) => 3
    case Blocking(_) => 3
    case Switching(_, _) => 2
    case Applying(_, _) => 1
    case Draining => 0
  }

  lemma {:induction false} GetsOn(s: State)
    requires s.place != Draining && (s.place.Expiring? ==> s.service.current != [])
    ensures var s' := Next(s, Work);
            && (s'.place.Expiring? ==> s'.service.current != [])
            && (Stage(s'.place) < Stage(s.place)
                || (Stage(s'.place) == Stage(s.place) == 2
                    && TimeLeft(s'.service.current) < TimeLeft(s.service.current)))
  {
    hide TimeLeft, SwitchOne, Apply, ProcessExpired;
    if s.place.Switching? && s.service.current != [] {
      SwitchOneShrinks(s.service);
    }
  }

  /** Wherever the daemon is, if it is let run it comes to receive commands. */
  lemma {:induction false} ComesToReceive(s: State, x: nat) returns (run: seq<Step>)
    requires s.place.Expiring? ==> s.service.current != []
    ensures Goes(s, x, run) && Reached(s, x, run).place == Draining
    decreases Stage(s.place), TimeLeft(s.service.current)
  {
    hide Next, Stage, TimeLeft;
    if s.place == Draining {
      run := [];
    } else {
      GetsOn(s);
      var rest := ComesToReceive(Next(s, Work), x);
      run := [Work] + rest;
      assert run[0] == Work && run[1..] == rest;
    }
  }

  // ---------------------------------------------------------------------
  // Callbacks and marks
  // ---------------------------------------------------------------------

  /** An expired timer is called once, whether or not it reloads, and no other is;
      one that does not is marked as not active in the ordinary way, and left
      marked as it was if it expires while the lists are switched. */
  lemma {:induction false} CallsTheHead(d: Service, now: Tick)
    requires d.current != []
    ensures ProcessExpired(d, now).calls == d.calls + multiset{d.current[0].item}
    ensures SwitchOne(d).calls == d.calls + multiset{d.current[0].item}
    ensures TimerOf(ProcessExpired(d, now), d.current[0].item).active
            == (TimerOf(d, d.current[0].item).autoReload && TimerOf(d, d.current[0].item).active)
    ensures forall y :: TimerOf(SwitchOne(d), y) == TimerOf(d, y)
    ensures forall y :: y != d.current[0].item ==> TimerOf(ProcessExpired(d, now), y) == TimerOf(d, y)
  {
    hide Insert, Filed, Wrap;
  }

  /** A command marks its timer as active if it restarts it and as not active if
      it stops or deletes it; it changes nothing else about it but, if told to,
      its period, and nothing about the others. A stop makes no callback. */
  lemma {:induction false} CommandMarks(d: Service, m: Message, now: Tick)
    requires m.id >= 0
    ensures var t, t' := TimerOf(d, m.timer), TimerOf(Apply(d, m, now), m.timer);
            && t'.autoReload == t.autoReload
            && t'.period == (if IsChange(m.id) then m.value else t.period)
            && t'.active == (IsStart(m.id) || IsChange(m.id)
                             || (t.active && m.id != STOP && m.id != STOP_FROM_ISR && m.id != DELETE))
    ensures forall y :: y != m.timer ==> TimerOf(Apply(d, m, now), y) == TimerOf(d, y)
    ensures IsStop(m.id) || IsChange(m.id) ==> Apply(d, m, now).calls == d.calls && Apply(d, m, now).queue == d.queue
  {
    hide Insert, Filed, Wrap;
  }

  // ---------------------------------------------------------------------
  // Changing the period
  // ---------------------------------------------------------------------

  /** A change of period at an instant files the timer, which has been taken
      out of the lists, under that instant plus the new period, in the list of
      the right epoch; it makes no callback and sends no command. */
  lemma {:induction false} ChangedPeriodIsExact(d: Service, m: Message, now: int)
    requires (m.id == CHANGE_PERIOD || m.id == CHANGE_PERIOD_FROM_ISR) && 0 < m.value
    requires EntriesOf(d.current, m.timer) == [] && EntriesOf(d.overflow, m.timer) == []
    ensures var d' := Apply(d, m, Wrap(now));
            && Listed(TraceOf(d', m.timer), m.timer, now + m.value, now)
            && TimerOf(d', m.timer) == Timer(m.value, TimerOf(d, m.timer).autoReload, true)
            && d'.calls == d.calls && d'.queue == d.queue
  {
    hide EntriesOf, Insert, Ours, Epoch, Filed;
    var t := TimerOf(d, m.timer);
    var changed := d.(timers := d.timers[m.timer := t.(active := true, period := m.value)]);
    var next := Wrap(Wrap(now) + m.value);
    WrapSum(now, m.value);
    FilingExact(now, m.value, now);
    hide Wrap;
    TraceFile(changed, m.timer, next, Filed(next, Wrap(now), Wrap(now), m.value), m.timer);
  }
}
