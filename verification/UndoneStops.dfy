/** When the daemon undoes a stop: a reload command of its own gets behind the
    command that stops the timer. */
module UndoneStops {

  import opened Ticks
  import opened SortedLists
  import opened Timers
  import opened TimerDaemon
  import opened LostTimer
  import opened TimerCommands

  // ---------------------------------------------------------------------
  // When a reload command is queued
  // ---------------------------------------------------------------------

  /** A step that queues a reload command for the timer. */
  predicate QueuesReload(s: State, x: Subject, step: Step)
  {
    step == Work && SendsReload(s, x) && |s.service.queue| < QUEUE_LENGTH
  }

  function ReloadOf(s: State, x: Subject): Message
  {
    Message(START_DONT_TRACE, Wrap(Nth(x, s.service.calls[x.timer] + 1)), x.timer)
  }

  lemma {:induction false} ExpiringQueues(s: State, x: Subject)
    requires Inv(s, x) && s.place.Expiring?
    ensures TraceOf(Next(s, Work).service, x.timer).queue
            == TraceOf(s.service, x.timer).queue + if QueuesReload(s, x, Work) then [ReloadOf(s, x)] else []
  {
    hide TraceOf, Nth, Wrap, Epoch, Ordered, ProcessExpired, TickOf, Placed, TimerOf, Filed;
    var d, t := s.service, s.place.t;
    TraceLists(d, x.timer);
    if d.current[0].item == x.timer {
      HeadIsDue(d, [], x, t);
      NextFiling(x, d.calls[x.timer] + 1, t);
      if x.autoReload {
        ExpireOurs(d, Wrap(t), x.timer);
      } else {
        ExpireOnce(d, Wrap(t), x.timer);
      }
    } else {
      ExpireOther(d, Wrap(t), x.timer);
    }
  }

  lemma {:induction false} SwitchingQueues(s: State, x: Subject)
    requires Inv(s, x) && s.place.Switching? && s.service.current != []
    ensures TraceOf(Next(s, Work).service, x.timer).queue
            == TraceOf(s.service, x.timer).queue + if QueuesReload(s, x, Work) then [ReloadOf(s, x)] else []
  {
    hide TraceOf, Nth, Wrap, Epoch, Ordered, SwitchOne, TickOf, Placed, Held, EntriesOf, TimerOf, Ours;
    var d := s.service;
    TraceLists(d, x.timer);
    if d.current[0].item == x.timer {
      HeadIsDue(d, Held(s.place, x.timer), x, s.sampled);
      ReloadEpoch(x, d.calls[x.timer] + 1);
      if x.autoReload {
        SwitchOurs(d, x.timer);
      } else {
        SwitchOnce(d, x.timer);
      }
    } else {
      SwitchOther(d, x.timer);
    }
  }

  lemma {:induction false} ApplyingQueues(s: State, x: Subject)
    requires Inv(s, x) && Prompt(s, x) && s.place.Applying?
    ensures TraceOf(Next(s, Work).service, x.timer).queue
            == TraceOf(s.service, x.timer).queue + if QueuesReload(s, x, Work) then [ReloadOf(s, x)] else []
  {
    hide TraceOf, Nth, Wrap, Epoch, Ordered, Apply, TickOf, TimerOf, EntriesOf, Filed;
    var d, m, t := s.service, s.place.m, s.place.t;
    TraceLists(d, x.timer);
    TraceCalls(d, x.timer);
    OursOne(m, x.timer);
    if m.timer == x.timer {
      var tr := TraceOf(d, x.timer);
      assert tr.queue + [m] != [];
      assert (tr.queue + [m])[|tr.queue|] == m;
      assert tr.queue == [];
      CommandFiling(x, d.calls[x.timer], t);
      if x.autoReload {
        ApplyOurs(d, m, Wrap(t), x.timer);
      } else {
        ApplyOnce(d, m, Wrap(t), x.timer);
      }
    } else {
      ApplyOther(d, m, Wrap(t), x.timer);
    }
  }

  // ---------------------------------------------------------------------
  // What stands behind a stop
  // ---------------------------------------------------------------------

  predicate Stops(m: Message, x: nat)
  {
    m.timer == x && IsStop(m.id)
  }

  predicate HasStop(queue: seq<Message>, x: nat)
  {
    exists i :: 0 <= i < |queue| && Stops(queue[i], x)
  }

  /** The commands that restart the timer behind the first that stops it. */
  function Behind(queue: seq<Message>, x: nat): seq<Message>
  {
    if queue == [] then []
    else if Stops(queue[0], x) then Ours(queue[1..], x)
    else Behind(queue[1..], x)
  }

  lemma {:induction false} BehindAppended(queue: seq<Message>, m: Message, x: nat)
    ensures Behind(queue + [m], x) == Behind(queue, x) + if HasStop(queue, x) && IsOurs(m, x) then [m] else []
    ensures HasStop(queue + [m], x) <==> HasStop(queue, x) || Stops(m, x)
  {
    hide Stops, IsOurs;
    if queue == [] {
      assert [m][1..] == [];
      assert Ours([], x) == [];
    } else {
      assert (queue + [m])[1..] == queue[1..] + [m];
      BehindAppended(queue[1..], m, x);
      HasStopTail(queue, x);
      HasStopTail(queue + [m], x);
      if Stops(queue[0], x) {
        OursConcat(queue[1..], [m], x);
        OursOne(m, x);
      }
    }
  }

  lemma {:induction false} HasStopTail(queue: seq<Message>, x: nat)
    requires queue != []
    ensures HasStop(queue, x) <==> Stops(queue[0], x) || HasStop(queue[1..], x)
  {
    hide Stops;
    assert forall i :: 0 < i < |queue| ==> queue[i] == queue[1..][i - 1];
    assert forall i :: 0 <= i < |queue[1..]| ==> queue[1..][i] == queue[i + 1];
  }

  // ---------------------------------------------------------------------
  // What a step does to the queue
  // ---------------------------------------------------------------------

  /** It stays, or a reload command joins it. */
  predicate MayReload(was: seq<Message>, now: seq<Message>)
  {
    now == was || (|now| == |was| + 1 && now[..|was|] == was && IsStart(now[|was|].id))
  }

  lemma {:induction false} ServiceReloads(d: Service, m: Message, now: Tick)
    ensures MayReload(d.queue, Apply(d, m, now).queue)
    ensures d.current != [] ==>
              MayReload(d.queue, SwitchOne(d).queue) && MayReload(d.queue, ProcessExpired(d, now).queue)
  {
    hide Insert, Filed, Wrap, TickOf;
  }

  lemma {:induction false} BehindReloaded(was: seq<Message>, now: seq<Message>, x: nat)
    requires MayReload(was, now) && HasStop(was, x)
    ensures HasStop(now, x)
    ensures Behind(was, x) != [] ==> Behind(now, x) != []
    ensures Behind(was, x) == [] ==> (Behind(now, x) != [] <==> Ours(now, x) != Ours(was, x))
  {
    if now != was {
      var m := now[|was|];
      assert now == was + [m];
      BehindAppended(was, m, x);
      OursConcat(was, [m], x);
      OursOne(m, x);
      hide Behind, Ours, HasStop;
    }
  }

  lemma {:induction false} BehindDrained(queue: seq<Message>, x: nat)
    requires queue != [] && HasStop(queue, x) && !Stops(queue[0], x)
    ensures HasStop(queue[1..], x) && Behind(queue[1..], x) == Behind(queue, x)
  {
    HasStopTail(queue, x);
  }

  /** While a stop waits, a command that restarts the timer gets behind it
      exactly by a step that queues a reload. */
  lemma {:induction false} WorkBehind(s: State, x: Subject)
    requires Inv(s, x) && Prompt(s, x) && HasStop(s.service.queue, x.timer) && !ReceivesStop(s, x.timer, Work)
    ensures var s', q := Next(s, Work), s.service.queue;
            && HasStop(s'.service.queue, x.timer)
            && (Behind(s'.service.queue, x.timer) != []
                <==> Behind(q, x.timer) != [] || QueuesReload(s, x, Work))
  {
    hide Behind, HasStop, Ours, Inv, Prompt, SendsReload, SwitchOne, ProcessExpired, Apply, Unlisted, IsStop;
    var d, s' := s.service, Next(s, Work);
    TraceQueue(d, x.timer);
    TraceQueue(s'.service, x.timer);
    match s.place
    case Expiring(t) =>
      assert d.current != [] by { PlaceOf(s, x); }
      ServiceReloads(d, ReloadOf(s, x), Wrap(t));
      ExpiringQueues(s, x);
      BehindReloaded(d.queue, s'.service.queue, x.timer);
      hide TraceOf;
    case Switching(t, _) =>
      if d.current != [] {
        ServiceReloads(d, ReloadOf(s, x), Wrap(t));
        SwitchingQueues(s, x);
        BehindReloaded(d.queue, s'.service.queue, x.timer);
        hide TraceOf;
      } else {
        NoReload(s, x);
      }
    case Applying(m, t) =>
      ServiceReloads(d, m, Wrap(t));
      ApplyingQueues(s, x);
      BehindReloaded(d.queue, s'.service.queue, x.timer);
      hide TraceOf;
    case Draining =>
      NoReload(s, x);
      if d.queue != [] {
        BehindDrained(d.queue, x.timer);
        UnlistedKeepsQueue(d.(queue := d.queue[1..]), d.queue[0].timer);
      }
    case Top => NoReload(s, x);
    case Blocking(_) => NoReload(s, x);
    case InHand(_) => NoReload(s, x);
  }

  lemma {:induction false} PlaceOf(s: State, x: Subject)
    requires Inv(s, x) && s.place.Expiring?
    ensures s.service.current != []
  {
  }

  lemma {:induction false} NoReload(s: State, x: Subject)
    requires !s.place.Expiring? && !s.place.Applying? && !(s.place.Switching? && s.service.current != [])
    ensures !SendsReload(s, x)
  {
  }

  // ---------------------------------------------------------------------
  // Runs
  // ---------------------------------------------------------------------

  /** In some step of a run a reload command for the timer is queued. */
  predicate Reloads(s: State, x: Subject, run: seq<Step>)
    decreases |run|
  {
    run != [] && (QueuesReload(s, x, run[0]) || Reloads(Next(s, run[0]), x, run[1..]))
  }

  lemma {:induction false} StepBehind(s: State, x: Subject, step: Step)
    requires Inv(s, x) && Prompt(s, x) && HasStop(s.service.queue, x.timer) && Undisturbed(s, x.timer, step)
    ensures var s', q := Next(s, step), s.service.queue;
            && HasStop(s'.service.queue, x.timer)
            && (Behind(s'.service.queue, x.timer) != []
                <==> Behind(q, x.timer) != [] || QueuesReload(s, x, step))
  {
    hide Behind, HasStop, Ours, Inv, Prompt, SendsReload, ReceivesStop, Worked;
    match step
    case Advance(_) =>
    case Post(m) =>
      BehindAppended(s.service.queue, m, x.timer);
    case Work => WorkBehind(s, x);
  }

  lemma {:induction false} RunBehind(s: State, x: Subject, run: seq<Step>)
    requires Inv(s, x) && HasStop(s.service.queue, x.timer) && Possible(s, x, run)
    ensures Behind(After(s, x, run).service.queue, x.timer) != []
            <==> Behind(s.service.queue, x.timer) != [] || Reloads(s, x, run)
    decreases |run|
  {
    hide Inv, Prompt, HasStop, Behind, Undisturbed, Enabled, Next, QueuesReload;
    if run == [] {
    } else {
      StepKeeps(s, x, run[0]);
      StepBehind(s, x, run[0]);
      RunBehind(Next(s, run[0]), x, run[1..]);
    }
  }

  lemma {:induction false} NothingBehindTheLast(queue: seq<Message>, m: Message, x: nat)
    requires !HasStop(queue, x) && Stops(m, x)
    ensures Behind(queue + [m], x) == [] && HasStop(queue + [m], x)
  {
    BehindAppended(queue, m, x);
    NothingBehind(queue, x);
  }

  lemma {:induction false} NothingBehind(queue: seq<Message>, x: nat)
    requires !HasStop(queue, x)
    ensures Behind(queue, x) == []
  {
    if queue != [] {
      HasStopTail(queue, x);
      NothingBehind(queue[1..], x);
    }
  }

  /** The reload commands, and the start command before them, are the only
      commands of its own that a timer has. */
  lemma {:induction false} OwnAreStarts(s: State, x: Subject)
    requires Inv(s, x) && s.place == Draining
    ensures Asserted(s.service.queue, x.timer)
  {
    var q := s.service.queue;
    TraceQueue(s.service, x.timer);
    hide Nth, Wrap, Epoch, Ordered, IsOurs, IsStart;
    assert TraceOf(s.service, x.timer).queue + [] == Ours(q, x.timer);
    forall i | 0 <= i < |q| && IsOurs(q[i], x.timer) ensures !IsChange(q[i].id) {
      OursHas(q, i, x.timer);
      StartsOnly(q[i].id);
    }
  }

  lemma {:induction false} StartsOnly(id: int)
    requires IsStart(id)
    ensures !IsChange(id)
  {
  }

  lemma {:induction false} OursHas(queue: seq<Message>, i: nat, x: nat)
    requires i < |queue| && IsOurs(queue[i], x)
    ensures queue[i] in Ours(queue, x)
  {
    hide IsOurs;
    if i > 0 {
      OursHas(queue[1..], i - 1, x);
    }
  }

  /** A stop that is sent to a running timer holds exactly if the daemon queues
      no reload command for the timer before it receives the stop. */
  lemma {:induction false} StopHoldsExactly(s: State, x: Subject, m: Message, run: seq<Step>)
    requires Inv(s, x) && !HasStop(s.service.queue, x.timer) && Stops(m, x.timer)
    requires Possible(Next(s, Post(m)), x, run)
    requires ReceivesStop(After(Next(s, Post(m)), x, run), x.timer, Work)
    ensures SilentFrom(Next(After(Next(s, Post(m)), x, run), Work), x.timer)
            <==> !Reloads(Next(s, Post(m)), x, run)
  {
    hide Inv, HasStop, Possible, After, SilentFrom, Reloads, Ours, Asserted, Worked;
    var s1 := Next(s, Post(m));
    PostKeeps(s, x, m);
    NothingBehindTheLast(s.service.queue, m, x.timer);
    RunBehind(s1, x, run);
    var e := After(s1, x, run);
    RunKeeps(s1, x, run);
    OwnAreStarts(e, x);
    StoppedIsSilent(e, x.timer);
    assert Behind(e.service.queue, x.timer) == Ours(e.service.queue[1..], x.timer);
  }
}
