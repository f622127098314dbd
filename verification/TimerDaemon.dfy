/** The daemon task of the timer service, step by step, with time passing and
    other tasks and callbacks posting commands between any two steps. One
    auto-reload timer is followed from the command that started it. */
module TimerDaemon {

  import opened Ticks
  import opened SortedLists
  import opened Timers

  datatype AfterSwitch = ToDrain | ToApply(m: Message)

  datatype Place =
    | Top                                       // about to sample the time
    | Switching(t: int, next: AfterSwitch)      // the counter wrapped; emptying the current list
    | Expiring(t: int)                          // the head of the current list is due
    | Blocking(t: int)                          // nothing is due
    | Draining                                  // about to receive a command
    | InHand(m: Message)                        // received one, its timer is out of the lists
    | Applying(m: Message, t: int)              // sampled the time for it

  /** `sampled` is the instant at which xLastTime was set. */
  datatype State = State(service: Service, now: int, sampled: int, place: Place)

  datatype Step = Advance(ticks: nat) | Post(m: Message) | Work

  /** What prvSampleTimeNow leaves behind when the lists are not switched. */
  function Sampled(s: State): State
  {
    s.(service := s.service.(lastTime := Wrap(s.now)), sampled := s.now)
  }

  /** The next step of the daemon. */
  function Worked(s: State): State
  {
    var d := s.service;
    match s.place
    case Top =>
      if Wrap(s.now) < d.lastTime then
        s.(place := Switching(s.now, ToDrain))
      else if d.current != [] && TickOf(d.current[0]) <= Wrap(s.now) then
        Sampled(s).(place := Expiring(s.now))
      else
        Sampled(s).(place := Blocking(s.now))
    case Switching(t, next) =>
      if d.current != [] then
        s.(service := SwitchOne(d))
      else
        State(Swapped(d).(lastTime := Wrap(t)), s.now, t,
              match next case ToDrain => Draining case ToApply(m) => Applying(m, t))
    case Expiring(t) =>
      if d.current != [] then s.(service := ProcessExpired(d, Wrap(t)), place := Draining) else s
    case Blocking(t) => s.(place := Draining)
    case Draining =>
      if d.queue == [] then
        s.(place := Top)
      else
        var m := d.queue[0];
        var d' := d.(queue := d.queue[1..]);
        if m.id < 0 then s.(service := d') else s.(service := Unlisted(d', m.timer), place := InHand(m))
    case InHand(m) =>
      if Wrap(s.now) < d.lastTime then
        s.(place := Switching(s.now, ToApply(m)))
      else
        Sampled(s).(place := Applying(m, s.now))
    case Applying(m, t) => s.(service := Apply(d, m, Wrap(t)), place := Draining)
  }

  /** A post finds room in the queue. */
  predicate Enabled(s: State, step: Step)
  {
    step.Post? ==> |s.service.queue| < QUEUE_LENGTH
  }

  /** A step sends a timer no command but one that stops it. */
  predicate OnlyStops(x: nat, step: Step)
  {
    step.Post? ==> step.m.id < 0 || step.m.timer != x || IsStop(step.m.id)
  }

  /** The daemon receives a command that stops the timer. */
  predicate ReceivesStop(s: State, x: nat, step: Step)
  {
    step == Work && s.place == Draining && s.service.queue != []
    && s.service.queue[0].timer == x && IsStop(s.service.queue[0].id)
  }

  /** Nobody else commands the timer; if somebody stops it, the daemon does not
      get to hear of it yet. */
  predicate Undisturbed(s: State, x: nat, step: Step)
  {
    OnlyStops(x, step) && !ReceivesStop(s, x, step)
  }

  function Next(s: State, step: Step): State
  {
    match step
    case Advance(ticks) => s.(now := s.now + ticks)
    case Post(m) => s.(service := s.service.(queue := s.service.queue + [m]))
    case Work => Worked(s)
  }

  // ---------------------------------------------------------------------
  // What concerns one timer
  // ---------------------------------------------------------------------

  predicate IsOurs(m: Message, x: nat)
  {
    m.id >= 0 && m.timer == x && !IsStop(m.id)
  }

  /** The commands for one timer, other than such as stop it. */
  function Ours(queue: seq<Message>, x: nat): seq<Message>
  {
    if queue == [] then
      []
    else
      (if IsOurs(queue[0], x) then [queue[0]] else []) + Ours(queue[1..], x)
  }

  datatype Trace = Trace(
    current: seq<Entry>,
    overflow: seq<Entry>,
    queue: seq<Message>,
    calls: nat,
    period: Tick,
    autoReload: bool,
    refused: bool)

  function TraceOf(d: Service, x: nat): Trace
  {
    Trace(EntriesOf(d.current, x), EntriesOf(d.overflow, x), Ours(d.queue, x), d.calls[x],
          TimerOf(d, x).period, TimerOf(d, x).autoReload, x in d.refused)
  }

  lemma {:induction false} OursConcat(a: seq<Message>, b: seq<Message>, x: nat)
    ensures Ours(a + b, x) == Ours(a, x) + Ours(b, x)
  {
    hide IsOurs;
    if a == [] {
      assert a + b == b;
    } else {
      assert (a + b)[1..] == a[1..] + b;
      OursConcat(a[1..], b, x);
    }
  }

  // ---------------------------------------------------------------------
  // What the parts of the service do to one timer
  // ---------------------------------------------------------------------

  lemma {:induction false} TraceReload(d: Service, y: nat, value: Tick, x: nat)
    ensures TraceOf(Reload(d, y, value), x)
            == var tr := TraceOf(d, x);
               if y != x then tr
               else if |d.queue| < QUEUE_LENGTH then tr.(queue := tr.queue + [Message(START_DONT_TRACE, value, x)])
               else tr.(refused := true)
  {
    var m := Message(START_DONT_TRACE, value, y);
    OursConcat(d.queue, [m], x);
    assert [m][1..] == [];
  }

  lemma {:induction false} TraceFile(d: Service, y: nat, next: Tick, filed: Filing, x: nat)
    requires y == x ==> EntriesOf(d.current, x) == [] && EntriesOf(d.overflow, x) == []
    ensures TraceOf(FileTimer(d, y, next, filed), x)
            == var tr := TraceOf(d, x);
               if y != x || filed == ProcessNow then tr
               else if filed == InCurrent then tr.(current := [Entry(x, next)])
               else tr.(overflow := [Entry(x, next)])
  {
    hide Insert, EntriesOf;
    EntriesOfInsert(d.current, Entry(y, next), x);
    EntriesOfInsert(d.overflow, Entry(y, next), x);
  }

  lemma {:induction false} TraceCalled(d: Service, y: nat, x: nat)
    ensures TraceOf(Called(d, y), x) == if y == x then TraceOf(d, x).(calls := d.calls[x] + 1) else TraceOf(d, x)
  {
  }

  lemma {:induction false} TracePop(d: Service, x: nat)
    requires d.current != []
    ensures TraceOf(d, x).current == (if d.current[0].item == x then [d.current[0]] else [])
                                     + TraceOf(d.(current := d.current[1..]), x).current
    ensures TraceOf(d.(current := d.current[1..]), x)
            == TraceOf(d, x).(current := EntriesOf(d.current[1..], x))
  {
  }

  /** A head that belongs to another timer leaves no trace in ours. */
  lemma {:induction false} SwitchOther(d: Service, x: nat)
    requires d.current != [] && d.current[0].item != x
    ensures TraceOf(SwitchOne(d), x) == TraceOf(d, x)
  {
    hide TraceOf, Insert, Reload, Called, TickOf, Wrap;
    var e := d.current[0];
    var expired, t := TickOf(e), TimerOf(d, e.item);
    var popped := d.(current := d.current[1..]);
    TracePop(d, x);
    assert TraceOf(popped, x) == TraceOf(d, x) by { PopOther(d, x); }
    var d' := Called(popped, e.item);
    TraceCalled(popped, e.item, x);
    TraceReload(d', e.item, expired, x);
    TraceFile(d', e.item, Wrap(expired + t.period), InCurrent, x);
  }

  lemma {:induction false} PopOther(d: Service, x: nat)
    requires d.current != [] && d.current[0].item != x
    ensures TraceOf(d.(current := d.current[1..]), x) == TraceOf(d, x)
  {
  }

  lemma {:induction false} PopOurs(d: Service, x: nat)
    requires d.current != [] && d.current[0].item == x && |EntriesOf(d.current, x)| == 1
    ensures EntriesOf(d.current, x) == [d.current[0]]
    ensures TraceOf(d.(current := d.current[1..]), x) == TraceOf(d, x).(current := [])
  {
  }

  lemma {:induction false} SwitchShape(d: Service)
    requires d.current != [] && TimerOf(d, d.current[0].item).autoReload
    ensures var x := d.current[0].item;
            var d' := Called(d.(current := d.current[1..]), x);
            var expired := TickOf(d.current[0]);
            var reload := Wrap(expired + TimerOf(d, x).period);
            SwitchOne(d)
            == if reload > expired then FileTimer(d', x, reload, InCurrent) else Reload(d', x, expired)
  {
    hide Insert;
  }

  /** Our own head: called, and listed again or sent to be. */
  lemma {:induction false} SwitchOurs(d: Service, x: nat)
    requires d.current != [] && d.current[0].item == x
    requires |EntriesOf(d.current, x)| == 1 && EntriesOf(d.overflow, x) == []
    requires TimerOf(d, x).autoReload
    ensures var tr := TraceOf(d, x).(current := [], calls := d.calls[x] + 1);
            var expired := TickOf(d.current[0]);
            var reload := Wrap(expired + TimerOf(d, x).period);
            TraceOf(SwitchOne(d), x)
            == if reload > expired then tr.(current := [Entry(x, reload)])
               else if |d.queue| < QUEUE_LENGTH then
                 tr.(queue := tr.queue + [Message(START_DONT_TRACE, expired, x)])
               else tr.(refused := true)
  {
    hide TraceOf, Reload, Called, TickOf, Wrap, EntriesOf, FileTimer, SwitchOne;
    SwitchShape(d);
    PopOurs(d, x);
    var popped := d.(current := d.current[1..]);
    var d' := Called(popped, x);
    CalledKeepsQueue(popped, x);
    TraceCalled(popped, x, x);
    TraceLists(d', x);
    TraceLists(d, x);
    TraceReload(d', x, TickOf(d.current[0]), x);
    TraceFile(d', x, Wrap(TickOf(d.current[0]) + TimerOf(d, x).period), InCurrent, x);
  }

  lemma {:induction false} ExpireOther(d: Service, now: Tick, x: nat)
    requires d.current != [] && d.current[0].item != x
    ensures TraceOf(ProcessExpired(d, now), x) == TraceOf(d, x)
  {
    hide Insert, Reload, Called, TickOf, Wrap, Filed, FileTimer, EntriesOf, Ours;
    var e := d.current[0];
    var expired, t := TickOf(e), TimerOf(d, e.item);
    var d' := d.(current := d.current[1..]);
    PopOther(d, x);
    var next := Wrap(expired + t.period);
    var filed := Filed(next, now, expired, t.period);
    TraceReload(d', e.item, expired, x);
    TraceFile(d', e.item, next, filed, x);
    TraceCalled(if filed == ProcessNow then Reload(d', e.item, expired) else FileTimer(d', e.item, next, filed),
                e.item, x);
    TraceCalled(d'.(timers := d.timers[e.item := t.(active := false)]), e.item, x);
  }

  /** The same for a timer that does not reload: called, and nowhere. */
  lemma {:induction false} ExpireOnce(d: Service, now: Tick, x: nat)
    requires d.current != [] && d.current[0].item == x && |EntriesOf(d.current, x)| == 1 && !TimerOf(d, x).autoReload
    ensures TraceOf(ProcessExpired(d, now), x) == TraceOf(d, x).(current := [], calls := d.calls[x] + 1)
    ensures !TimerOf(ProcessExpired(d, now), x).active
  {
    hide EntriesOf, Ours, TickOf;
    PopOurs(d, x);
  }

  lemma {:induction false} SwitchOnce(d: Service, x: nat)
    requires d.current != [] && d.current[0].item == x && |EntriesOf(d.current, x)| == 1 && !TimerOf(d, x).autoReload
    ensures TraceOf(SwitchOne(d), x) == TraceOf(d, x).(current := [], calls := d.calls[x] + 1)
  {
    hide EntriesOf, Ours, TickOf;
    PopOurs(d, x);
  }

  /** A trace with the timer filed, or sent to be, if the queue has room. */
  function Refiled(tr: Trace, x: nat, filed: Filing, next: Tick, value: Tick, room: bool): Trace
  {
    match filed
    case InCurrent => tr.(current := [Entry(x, next)])
    case InOverflow => tr.(overflow := [Entry(x, next)])
    case ProcessNow =>
      if room then tr.(queue := tr.queue + [Message(START_DONT_TRACE, value, x)]) else tr.(refused := true)
  }

  lemma {:induction false} TraceRefiled(d: Service, x: nat, filed: Filing, next: Tick, value: Tick)
    requires EntriesOf(d.current, x) == [] && EntriesOf(d.overflow, x) == []
    ensures TraceOf(if filed == ProcessNow then Reload(d, x, value) else FileTimer(d, x, next, filed), x)
            == Refiled(TraceOf(d, x), x, filed, next, value, |d.queue| < QUEUE_LENGTH)
  {
    hide TraceOf, Reload, FileTimer, EntriesOf;
    if filed == ProcessNow {
      TraceReload(d, x, value, x);
    } else {
      TraceFile(d, x, next, filed, x);
    }
  }

  lemma {:induction false} ExpireShape(d: Service, now: Tick)
    requires d.current != [] && TimerOf(d, d.current[0].item).autoReload
    ensures var x := d.current[0].item;
            var d' := d.(current := d.current[1..]);
            var expired := TickOf(d.current[0]);
            var period := TimerOf(d, x).period;
            var next := Wrap(expired + period);
            var filed := Filed(next, now, expired, period);
            ProcessExpired(d, now)
            == Called(if filed == ProcessNow then Reload(d', x, expired) else FileTimer(d', x, next, filed), x)
  {
  }

  /** Our own head when it has expired: filed again or sent to be, and called. */
  lemma {:induction false} ExpireOurs(d: Service, now: Tick, x: nat)
    requires d.current != [] && d.current[0].item == x
    requires |EntriesOf(d.current, x)| == 1 && EntriesOf(d.overflow, x) == []
    requires TimerOf(d, x).autoReload
    ensures var expired := TickOf(d.current[0]);
            var period := TimerOf(d, x).period;
            var next := Wrap(expired + period);
            var tr := Refiled(TraceOf(d, x).(current := []), x, Filed(next, now, expired, period), next, expired,
                              |d.queue| < QUEUE_LENGTH);
            TraceOf(ProcessExpired(d, now), x) == tr.(calls := tr.calls + 1)
  {
    hide TraceOf, Insert, Reload, Called, TickOf, Wrap, EntriesOf, Ours, Filed, FileTimer, ProcessExpired, Refiled;
    ExpireShape(d, now);
    PopOurs(d, x);
    var expired, t := TickOf(d.current[0]), TimerOf(d, x);
    var d' := d.(current := d.current[1..]);
    var next := Wrap(expired + t.period);
    var filed := Filed(next, now, expired, t.period);
    TraceLists(d', x);
    TraceLists(d, x);
    TraceRefiled(d', x, filed, next, expired);
    var filled := if filed == ProcessNow then Reload(d', x, expired) else FileTimer(d', x, next, filed);
    TraceCalls(filled, x);
    TraceCalled(filled, x, x);
  }

  lemma {:induction false} TraceCalls(d: Service, x: nat)
    ensures TraceOf(d, x).calls == d.calls[x]
  {
  }

  /** A command for another timer. */
  lemma {:induction false} ApplyOther(d: Service, m: Message, now: Tick, x: nat)
    requires m.timer != x
    ensures TraceOf(Apply(d, m, now), x) == TraceOf(d, x)
  {
    hide Insert, Reload, Called, Wrap, Filed, FileTimer, EntriesOf, Ours;
    var t := TimerOf(d, m.timer);
    var next := Wrap(m.value + t.period);
    var started := d.(timers := d.timers[m.timer := t.(active := true)]);
    var called := Called(started, m.timer);
    TraceCalled(started, m.timer, x);
    TraceReload(called, m.timer, next, x);
    TraceFile(started, m.timer, next, Filed(next, now, m.value, t.period), x);
    var changed := d.(timers := d.timers[m.timer := t.(active := true, period := m.value)]);
    var next' := Wrap(now + m.value);
    TraceFile(changed, m.timer, next', Filed(next', now, now, m.value), x);
  }

  lemma {:induction false} StartShape(d: Service, m: Message, now: Tick)
    requires IsStart(m.id) && TimerOf(d, m.timer).autoReload
    ensures var t := TimerOf(d, m.timer);
            var next := Wrap(m.value + t.period);
            var filed := Filed(next, now, m.value, t.period);
            var started := d.(timers := d.timers[m.timer := t.(active := true)]);
            Apply(d, m, now)
            == if filed == ProcessNow then Reload(Called(started, m.timer), m.timer, next)
               else FileTimer(started, m.timer, next, filed)
  {
  }

  lemma {:induction false} MarkedTrace(d: Service, x: nat, active: bool)
    ensures TraceOf(d.(timers := d.timers[x := TimerOf(d, x).(active := active)]), x) == TraceOf(d, x)
  {
  }

  /** The command that (re)starts our timer. */
  lemma {:induction false} ApplyOurs(d: Service, m: Message, now: Tick, x: nat)
    requires m.timer == x && IsStart(m.id) && TimerOf(d, x).autoReload
    requires EntriesOf(d.current, x) == [] && EntriesOf(d.overflow, x) == []
    ensures var tr := TraceOf(d, x);
            var period := TimerOf(d, x).period;
            var next := Wrap(m.value + period);
            var filed := Filed(next, now, m.value, period);
            TraceOf(Apply(d, m, now), x)
            == Refiled(if filed == ProcessNow then tr.(calls := tr.calls + 1) else tr, x, filed, next, next,
                       |d.queue| < QUEUE_LENGTH)
  {
    hide TraceOf, Insert, Reload, Called, Wrap, Filed, FileTimer, EntriesOf, Ours, TimerOf, IsStart, Apply, Refiled;
    StartShape(d, m, now);
    var t := TimerOf(d, x);
    var next := Wrap(m.value + t.period);
    var started := d.(timers := d.timers[x := t.(active := true)]);
    MarkedTrace(d, x, true);
    var filed := Filed(next, now, m.value, t.period);
    CalledKeepsQueue(started, x);
    TraceCalls(started, x);
    TraceCalled(started, x, x);
    TraceRefiled(if filed == ProcessNow then Called(started, x) else started, x, filed, next, next);
  }

  lemma {:induction false} ApplyOnce(d: Service, m: Message, now: Tick, x: nat)
    requires m.timer == x && IsStart(m.id) && !TimerOf(d, x).autoReload
    requires EntriesOf(d.current, x) == [] && EntriesOf(d.overflow, x) == []
    ensures var tr := TraceOf(d, x);
            var period := TimerOf(d, x).period;
            var next := Wrap(m.value + period);
            var filed := Filed(next, now, m.value, period);
            TraceOf(Apply(d, m, now), x)
            == match filed
               case ProcessNow => tr.(calls := tr.calls + 1)
               case InCurrent => tr.(current := [Entry(x, next)])
               case InOverflow => tr.(overflow := [Entry(x, next)])
  {
    hide EntriesOf, Ours, Insert, Filed, Wrap;
    var t := TimerOf(d, x);
    var next := Wrap(m.value + t.period);
    var started := d.(timers := d.timers[x := t.(active := true)]);
    MarkedTrace(d, x, true);
    TraceFile(started, x, next, Filed(next, now, m.value, t.period), x);
    TraceCalled(started, x, x);
  }

  lemma {:induction false} CalledKeepsQueue(d: Service, x: nat)
    ensures Called(d, x).queue == d.queue && Called(d, x).current == d.current && Called(d, x).overflow == d.overflow
  {
  }

  // ---------------------------------------------------------------------
  // Order in the lists
  // ---------------------------------------------------------------------

  ghost predicate Ordered(d: Service)
  {
    Sorted(d.current) && Sorted(d.overflow) && KeysAreTicks(d.current) && KeysAreTicks(d.overflow)
  }

  lemma {:induction false} InsertOrdered(list: seq<Entry>, item: nat, t: Tick)
    requires Sorted(list) && KeysAreTicks(list)
    ensures Sorted(Insert(list, Entry(item, t))) && KeysAreTicks(Insert(list, Entry(item, t)))
  {
    InsertBounds(list, Entry(item, t), 0, TICK_MODULUS);
    hide Insert;
  }

  lemma {:induction false} WithoutOrdered(list: seq<Entry>, y: nat)
    requires Sorted(list) && KeysAreTicks(list)
    ensures Sorted(Without(list, y)) && KeysAreTicks(Without(list, y))
  {
    WithoutKeeps(list, y);
    hide Sorted, Without;
    var r := Without(list, y);
    forall i | 0 <= i < |r| ensures 0 <= r[i].key < TICK_MODULUS {
      assert r[i] in list;
    }
  }

  lemma {:induction false} TailOrdered(list: seq<Entry>)
    requires list != [] && Sorted(list) && KeysAreTicks(list)
    ensures Sorted(list[1..]) && KeysAreTicks(list[1..])
  {
  }

  lemma {:induction false} FileOrdered(d: Service, y: nat, next: Tick, filed: Filing)
    requires Ordered(d)
    ensures Ordered(FileTimer(d, y, next, filed))
  {
    hide Insert, Sorted, KeysAreTicks;
    InsertOrdered(d.current, y, next);
    InsertOrdered(d.overflow, y, next);
  }

  lemma {:induction false} SwitchOrdered(d: Service)
    requires d.current != [] && Ordered(d)
    ensures Ordered(SwitchOne(d))
  {
    hide Insert, Sorted, KeysAreTicks, Wrap, TickOf;
    TailOrdered(d.current);
    InsertOrdered(d.current[1..], d.current[0].item, Wrap(TickOf(d.current[0]) + TimerOf(d, d.current[0].item).period));
  }

  lemma {:induction false} ExpireOrdered(d: Service, now: Tick)
    requires d.current != [] && Ordered(d)
    ensures Ordered(ProcessExpired(d, now))
  {
    hide Insert, Sorted, KeysAreTicks, Wrap, TickOf, FileTimer, Filed;
    TailOrdered(d.current);
    var e := d.current[0];
    var expired, t := TickOf(e), TimerOf(d, e.item);
    var next := Wrap(expired + t.period);
    FileOrdered(d.(current := d.current[1..]), e.item, next, Filed(next, now, expired, t.period));
  }

  lemma {:induction false} ApplyOrdered(d: Service, m: Message, now: Tick)
    requires Ordered(d)
    ensures Ordered(Apply(d, m, now))
  {
    hide Insert, Sorted, KeysAreTicks, Wrap, FileTimer, Filed;
    var t := TimerOf(d, m.timer);
    var next := Wrap(m.value + t.period);
    FileOrdered(d.(timers := d.timers[m.timer := t.(active := true)]), m.timer, next,
                Filed(next, now, m.value, t.period));
    var next' := Wrap(now + m.value);
    FileOrdered(d.(timers := d.timers[m.timer := t.(active := true, period := m.value)]), m.timer, next',
                Filed(next', now, now, m.value));
  }

  lemma {:induction false} UnlistOrdered(d: Service, y: nat)
    requires Ordered(d)
    ensures Ordered(Unlisted(d, y))
  {
    hide Without, Sorted, KeysAreTicks;
    WithoutOrdered(d.current, y);
    WithoutOrdered(d.overflow, y);
  }

  // ---------------------------------------------------------------------
  // The invariant
  // ---------------------------------------------------------------------

  /** The timer that is followed, the instant it was started at, its period, and
      whether it reloads or expires once only. */
  datatype Subject = Subject(timer: nat, start: int, period: Tick, autoReload: bool)

  /** The instant of the k-th expiry; the start for k = 0. */
  function Nth(x: Subject, k: nat): int
  {
    x.start + k * x.period
  }

  lemma {:induction false} NthStep(x: Subject, k: nat)
    ensures Nth(x, k + 1) == Nth(x, k) + x.period
  {
  }

  /** A command for the timer that the daemon has received and not yet applied. */
  function Held(place: Place, x: nat): seq<Message>
  {
    match place
    case InHand(m) => Ours([m], x)
    case Applying(m, _) => Ours([m], x)
    case Switching(_, ToApply(m)) => Ours([m], x)
    case _ => []
  }

  /** The time as the daemon last knew it. */
  function Clock(s: State): int
  {
    match s.place
    case Switching(t, _) => t
    case Expiring(t) => t
    case Blocking(t) => t
    case Applying(_, t) => t
    case _ => s.now
  }

  /** Filed under its next expiry, in the list of the right epoch. */
  predicate Listed(tr: Trace, x: nat, due: int, sampled: int)
  {
    || (tr.current == [Entry(x, Wrap(due))] && tr.overflow == [] && Epoch(due) == Epoch(sampled))
    || (tr.overflow == [Entry(x, Wrap(due))] && tr.current == [] && Epoch(due) == Epoch(sampled) + 1)
  }

  /** A timer that expires once only and has. */
  predicate Spent(x: Subject, calls: nat)
  {
    !x.autoReload && calls > 0
  }

  predicate Pending(commands: seq<Message>, x: nat, last: int)
  {
    |commands| == 1 && IsStart(commands[0].id) && commands[0].timer == x && commands[0].value == Wrap(last)
  }

  /** Where the timer is once so many of its callbacks have been made: in one
      list under its next expiry, or in one command that carries the last one.
      Nowhere, if it expires once only and has, or if a full queue kept it from
      being reloaded. */
  predicate Placed(tr: Trace, held: seq<Message>, x: Subject, sampled: int)
  {
    var last := Nth(x, tr.calls);
    if tr.refused || Spent(x, tr.calls) then
      tr.current == [] && tr.overflow == [] && tr.queue + held == []
    else if tr.queue + held == [] then
      Listed(tr, x.timer, Nth(x, tr.calls + 1), sampled)
    else
      tr.current == [] && tr.overflow == [] && Pending(tr.queue + held, x.timer, last)
  }

  predicate PlaceFormed(s: State)
  {
    match s.place
    case Expiring(t) => s.sampled == t && s.service.current != [] && TickOf(s.service.current[0]) <= Wrap(t)
    case Blocking(t) =>
      s.sampled == t && (s.service.current == [] || s.service.current[0].key > Wrap(t))
    case Applying(m, t) => s.sampled == t && m.id >= 0
    case InHand(m) => m.id >= 0
    case Switching(_, ToApply(m)) => m.id >= 0
    case _ => true
  }

  /** The daemon has received a command that stops the timer. */
  predicate StopInHand(place: Place, x: nat)
  {
    match place
    case InHand(m) => m.timer == x && IsStop(m.id)
    case Applying(m, _) => m.timer == x && IsStop(m.id)
    case Switching(_, ToApply(m)) => m.timer == x && IsStop(m.id)
    case _ => false
  }

  ghost predicate Inv(s: State, x: Subject)
  {
    var tr := TraceOf(s.service, x.timer);
    && 0 < x.period == tr.period && tr.autoReload == x.autoReload
    && (!x.autoReload ==> tr.calls <= 1 && !tr.refused)
    && Ordered(s.service)
    && s.service.lastTime == Wrap(s.sampled) && s.sampled <= Clock(s) <= s.now
    && PlaceFormed(s) && !StopInHand(s.place, x.timer)
    && (s.place.Switching? && (tr.current != [] || tr.overflow != []) ==>
          Epoch(Clock(s)) == Epoch(s.sampled) + 1)
    && Nth(x, tr.calls) <= Clock(s)
    && Placed(tr, Held(s.place, x.timer), x, s.sampled)
  }

  /** The daemon gets to run in time: it samples the tick count at least once
      per wrap while the timer is listed, and gets at a command for it less
      than a wrap after the instant the command carries. */
  predicate Prompt(s: State, x: Subject)
  {
    var tr := TraceOf(s.service, x.timer);
    && (tr.current != [] || tr.overflow != [] ==> s.now - s.sampled < TICK_MODULUS)
    && (tr.queue + Held(s.place, x.timer) != [] ==> s.now - Nth(x, tr.calls) < TICK_MODULUS)
  }

  /** The daemon is about to send itself a reload command for the timer: it has
      come so late that the expiry after this one is past as well, or the timer
      expires for the last time before the counter wrapped. */
  predicate SendsReload(s: State, x: Subject)
  {
    var d, f := s.service, s.service.calls[x.timer];
    match s.place
    case Expiring(t) =>
      x.autoReload && d.current != [] && d.current[0].item == x.timer && Nth(x, f + 2) <= t
    case Switching(_, _) =>
      x.autoReload && d.current != [] && d.current[0].item == x.timer && Epoch(Nth(x, f + 2)) != Epoch(Nth(x, f + 1))
    case Applying(m, t) => x.autoReload && m.timer == x.timer && Nth(x, f + 1) <= t
    case _ => false
  }

  // ---------------------------------------------------------------------
  // Steps
  // ---------------------------------------------------------------------

  lemma {:induction false} AdvanceKeeps(s: State, x: Subject, ticks: nat)
    requires Inv(s, x)
    ensures Inv(Next(s, Advance(ticks)), x)
  {
    hide TraceOf, Ordered, Placed, Nth, Wrap, Epoch, TickOf;
  }

  lemma {:induction false} PostTrace(d: Service, m: Message, x: nat)
    requires !IsOurs(m, x)
    ensures TraceOf(d.(queue := d.queue + [m]), x) == TraceOf(d, x)
  {
    OursConcat(d.queue, [m], x);
    assert [m][1..] == [];
  }

  lemma {:induction false} PostKeeps(s: State, x: Subject, m: Message)
    requires Inv(s, x) && OnlyStops(x.timer, Post(m))
    ensures Inv(Next(s, Post(m)), x)
  {
    hide TraceOf, Placed, Nth, Wrap, Epoch, TickOf, Sorted, KeysAreTicks;
    PostTrace(s.service, m, x.timer);
  }

  /** Sampling the time without switching lists stays in the epoch. */
  lemma {:induction false} SameEpoch(sampled: int, now: int)
    requires 0 <= now - sampled < TICK_MODULUS
    ensures Wrap(now) < Wrap(sampled) <==> Epoch(now) == Epoch(sampled) + 1
    ensures Wrap(now) >= Wrap(sampled) <==> Epoch(now) == Epoch(sampled)
  {
    WrapOrder(sampled, now);
  }

  lemma {:induction false} PlacedResampled(tr: Trace, held: seq<Message>, x: Subject, sampled: int, now: int)
    requires Placed(tr, held, x, sampled)
    requires tr.current != [] || tr.overflow != [] ==> Epoch(now) == Epoch(sampled)
    ensures Placed(tr, held, x, now)
  {
    hide Nth, Wrap, Epoch;
  }

  lemma {:induction false} HeadIsTick(d: Service)
    requires Ordered(d) && d.current != []
    ensures TickOf(d.current[0]) == d.current[0].key
  {
  }

  lemma {:induction false} TraceTime(d: Service, t: Tick, x: nat)
    ensures TraceOf(d.(lastTime := t), x) == TraceOf(d, x)
  {
  }

  /** What sampling the time tells about the epoch. */
  lemma {:induction false} SampleKnows(s: State, x: Subject)
    requires Inv(s, x) && Prompt(s, x) && (s.place.Top? || s.place.InHand?)
    ensures var tr := TraceOf(s.service, x.timer);
            tr.current != [] || tr.overflow != [] ==>
              if Wrap(s.now) < s.service.lastTime then Epoch(s.now) == Epoch(s.sampled) + 1
              else Epoch(s.now) == Epoch(s.sampled)
  {
    hide TraceOf, Placed, Nth, Wrap, Epoch, TickOf, Ordered;
    if s.now - s.sampled < TICK_MODULUS {
      SameEpoch(s.sampled, s.now);
    }
  }

  lemma {:induction false} TopKeeps(s: State, x: Subject)
    requires Inv(s, x) && Prompt(s, x) && s.place.Top?
    ensures Inv(Next(s, Work), x)
  {
    hide TraceOf, Nth, Wrap, Epoch, TickOf, Sorted, KeysAreTicks, Placed;
    var d := s.service;
    if d.current != [] {
      HeadIsTick(d);
    }
    SampleKnows(s, x);
    TraceTime(d, Wrap(s.now), x.timer);
    if !(Wrap(s.now) < d.lastTime) {
      PlacedResampled(TraceOf(d, x.timer), [], x, s.sampled, s.now);
    }
  }

  lemma {:induction false} InHandKeeps(s: State, x: Subject)
    requires Inv(s, x) && Prompt(s, x) && s.place.InHand?
    ensures Inv(Next(s, Work), x)
  {
    hide TraceOf, Nth, Wrap, Epoch, TickOf, Sorted, KeysAreTicks, Placed, Ours;
    var d := s.service;
    SampleKnows(s, x);
    TraceTime(d, Wrap(s.now), x.timer);
    if !(Wrap(s.now) < d.lastTime) {
      PlacedResampled(TraceOf(d, x.timer), Held(s.place, x.timer), x, s.sampled, s.now);
    }
  }

  lemma {:induction false} BlockingKeeps(s: State, x: Subject)
    requires Inv(s, x) && s.place.Blocking?
    ensures Inv(Next(s, Work), x)
  {
    hide TraceOf, Nth, Wrap, Epoch, TickOf, Ordered, Placed;
  }

  lemma {:induction false} UnlistedTrace(d: Service, y: nat, x: nat)
    ensures TraceOf(Unlisted(d, y), x)
            == if y == x then TraceOf(d, x).(current := [], overflow := []) else TraceOf(d, x)
  {
    EntriesOfWithout(d.current, y, x);
    EntriesOfWithout(d.overflow, y, x);
    hide Without;
  }

  /** Receiving our command moves it from the queue into the daemon's hand. */
  lemma {:induction false} ReceivedPlaced(tr: Trace, first: seq<Message>, rest: seq<Message>, x: Subject, sampled: int)
    requires Placed(tr, [], x, sampled) && tr.queue == first + rest
    ensures first == [] ==> Placed(tr.(queue := rest), [], x, sampled)
    ensures first != [] ==> Placed(tr.(queue := rest, current := [], overflow := []), first, x, sampled)
  {
    hide Nth, Wrap, Epoch;
    assert tr.queue + [] == tr.queue;
    assert rest + [] == rest;
    if first != [] {
      assert rest == [] && rest + first == first + rest;
    }
  }

  lemma {:induction false} DrainTrace(d: Service, x: nat)
    requires d.queue != []
    ensures Ours(d.queue, x) == Ours([d.queue[0]], x) + Ours(d.queue[1..], x)
    ensures TraceOf(d.(queue := d.queue[1..]), x) == TraceOf(d, x).(queue := Ours(d.queue[1..], x))
    ensures Ours([d.queue[0]], x) == if IsOurs(d.queue[0], x) then [d.queue[0]] else []
  {
    assert d.queue == [d.queue[0]] + d.queue[1..];
    OursConcat([d.queue[0]], d.queue[1..], x);
  }

  lemma {:induction false} DrainingKeeps(s: State, x: Subject)
    requires Inv(s, x) && s.place.Draining? && !ReceivesStop(s, x.timer, Work)
    ensures Inv(Next(s, Work), x)
  {
    hide TraceOf, Nth, Wrap, Epoch, TickOf, Placed, Ours, EntriesOf, Unlisted, Sorted, KeysAreTicks;
    var d := s.service;
    if d.queue != [] {
      var m, d' := d.queue[0], d.(queue := d.queue[1..]);
      DrainTrace(d, x.timer);
      TraceQueue(d, x.timer);
      UnlistedTrace(d', m.timer, x.timer);
      UnlistOrdered(d', m.timer);
      UnlistedRest(d', m.timer);
      ReceivedPlaced(TraceOf(d, x.timer), Ours([m], x.timer), Ours(d.queue[1..], x.timer), x, s.sampled);
    }
  }

  lemma {:induction false} TraceQueue(d: Service, x: nat)
    ensures TraceOf(d, x).queue == Ours(d.queue, x)
  {
  }

  lemma {:induction false} UnlistedRest(d: Service, y: nat)
    ensures Unlisted(d, y).lastTime == d.lastTime
  {
  }

  // ---------------------------------------------------------------------
  // Expiry
  // ---------------------------------------------------------------------

  lemma {:induction false} WrapTwice(instant: int)
    ensures Wrap(Wrap(instant)) == Wrap(instant)
  {
  }

  /** A timer at the head of the current list is filed under its next expiry. */
  lemma {:induction false} HeadIsDue(d: Service, held: seq<Message>, x: Subject, sampled: int)
    requires d.current != [] && d.current[0].item == x.timer && Placed(TraceOf(d, x.timer), held, x, sampled)
    ensures var due := Nth(x, d.calls[x.timer] + 1);
            && |EntriesOf(d.current, x.timer)| == 1 && EntriesOf(d.overflow, x.timer) == []
            && !TraceOf(d, x.timer).refused && !Spent(x, d.calls[x.timer]) && Ours(d.queue, x.timer) + held == []
            && TickOf(d.current[0]) == Wrap(due) && Epoch(due) == Epoch(sampled)
  {
    hide Nth, Wrap, Epoch;
    assert EntriesOf(d.current, x.timer) != [];
    var due := Nth(x, d.calls[x.timer] + 1);
    assert EntriesOf(d.current, x.timer)[0] == d.current[0];
    WrapTwice(due);
  }

  /** Called once more and sent to be restarted. */
  lemma {:induction false} PlacedAgain(tr: Trace, held: seq<Message>, x: Subject, sampled: int, room: bool)
    requires x.autoReload
    requires tr.queue + held == [] && tr.current == [] && tr.overflow == [] && !tr.refused
    ensures var m := Message(START_DONT_TRACE, Wrap(Nth(x, tr.calls)), x.timer);
            room ==> Placed(tr.(queue := tr.queue + [m]), held, x, sampled)
    ensures !room ==> Placed(tr.(refused := true), held, x, sampled)
  {
    hide Nth, Wrap, Epoch;
  }

  /** Called once and for all. */
  lemma {:induction false} PlacedNowhere(tr: Trace, held: seq<Message>, x: Subject, sampled: int)
    requires Spent(x, tr.calls) && tr.queue + held == [] && tr.current == [] && tr.overflow == []
    ensures Placed(tr, held, x, sampled)
  {
  }

  lemma {:induction false} DueWithin(due: int, t: int)
    requires Epoch(due) == Epoch(t) && Wrap(due) <= Wrap(t)
    ensures 0 <= t - due < TICK_MODULUS
  {
    SplitInstant(due);
    SplitInstant(t);
  }

  /** Where the next expiry of a timer that is due now is filed. */
  lemma {:induction false} NextFiling(x: Subject, k: nat, t: int)
    requires 0 < x.period && Epoch(Nth(x, k)) == Epoch(t) && Wrap(Nth(x, k)) <= Wrap(t)
    ensures Nth(x, k) <= t
    ensures var next := Wrap(Wrap(Nth(x, k)) + x.period);
            && next == Wrap(Nth(x, k + 1))
            && (Filed(next, Wrap(t), Wrap(Nth(x, k)), x.period) == ProcessNow <==> Nth(x, k + 1) <= t)
            && (Filed(next, Wrap(t), Wrap(Nth(x, k)), x.period) == InCurrent ==> Epoch(Nth(x, k + 1)) == Epoch(t))
            && (Filed(next, Wrap(t), Wrap(Nth(x, k)), x.period) == InOverflow ==> Epoch(Nth(x, k + 1)) == Epoch(t) + 1)
  {
    var due := Nth(x, k);
    DueWithin(due, t);
    WrapSum(due, x.period);
    NthStep(x, k);
    FilingExact(due, x.period, t);
    hide Wrap, Epoch, Nth, Filed;
  }

  /** A trace with the timer nowhere, and the same with the timer filed. */
  lemma {:induction false} PlacedInList(tr: Trace, held: seq<Message>, x: Subject, sampled: int)
    requires !Spent(x, tr.calls)
    requires tr.queue + held == [] && tr.current == [] && tr.overflow == [] && !tr.refused
    ensures var next := Nth(x, tr.calls + 1);
            && (Epoch(next) == Epoch(sampled) ==>
                  Placed(tr.(current := [Entry(x.timer, Wrap(next))]), held, x, sampled))
            && (Epoch(next) == Epoch(sampled) + 1 ==>
                  Placed(tr.(overflow := [Entry(x.timer, Wrap(next))]), held, x, sampled))
  {
    hide Wrap, Epoch, Nth;
  }

  /** A timer that expires once only does so once, and is not lost before. */
  predicate StillOnce(x: Subject, tr: Trace, tr': Trace)
  {
    !x.autoReload ==> (tr.calls <= 1 ==> tr'.calls <= 1) && (tr.refused == tr'.refused)
  }

  lemma {:induction false} ExpiringOurs(d: Service, x: Subject, t: int)
    requires 0 < x.period == TimerOf(d, x.timer).period && TimerOf(d, x.timer).autoReload == x.autoReload
    requires d.current != [] && d.current[0].item == x.timer && TickOf(d.current[0]) <= Wrap(t)
    requires Placed(TraceOf(d, x.timer), [], x, t)
    ensures var tr' := TraceOf(ProcessExpired(d, Wrap(t)), x.timer);
            && Placed(tr', [], x, t) && Nth(x, tr'.calls) <= t
            && tr'.period == x.period && tr'.autoReload == x.autoReload && StillOnce(x, TraceOf(d, x.timer), tr')
  {
    hide Nth, Wrap, Epoch, ProcessExpired, TickOf, EntriesOf, Ours, Filed, Placed, TimerOf;
    var f := d.calls[x.timer];
    HeadIsDue(d, [], x, t);
    NextFiling(x, f + 1, t);
    var fired := TraceOf(d, x.timer).(current := [], calls := f + 1);
    assert fired.queue == [] by { assert fired.queue + [] == []; }
    if x.autoReload {
      ExpireOurs(d, Wrap(t), x.timer);
      PlacedAgain(fired, [], x, t, |d.queue| < QUEUE_LENGTH);
      PlacedInList(fired, [], x, t);
    } else {
      ExpireOnce(d, Wrap(t), x.timer);
      PlacedNowhere(fired, [], x, t);
    }
  }

  lemma {:induction false} ExpiringKeeps(s: State, x: Subject)
    requires Inv(s, x) && s.place.Expiring?
    ensures Inv(Next(s, Work), x)
  {
    hide TraceOf, Nth, Wrap, Epoch, Ordered, ProcessExpired, TickOf, Placed, TimerOf;
    var d, t := s.service, s.place.t;
    ExpireOrdered(d, Wrap(t));
    ExpireTime(d, Wrap(t));
    TraceLists(d, x.timer);
    if d.current[0].item == x.timer {
      ExpiringOurs(d, x, t);
    } else {
      ExpireOther(d, Wrap(t), x.timer);
    }
  }

  lemma {:induction false} ExpireTime(d: Service, now: Tick)
    requires d.current != []
    ensures ProcessExpired(d, now).lastTime == d.lastTime
  {
    hide Insert;
  }

  /** A timer reloaded while the lists are switched stays in the epoch exactly
      if its counter value grows. */
  lemma {:induction false} ReloadEpoch(x: Subject, k: nat)
    requires 0 < x.period
    ensures var reload := Wrap(Wrap(Nth(x, k)) + x.period);
            reload == Wrap(Nth(x, k + 1))
            && (reload > Wrap(Nth(x, k)) <==> Epoch(Nth(x, k + 1)) == Epoch(Nth(x, k)))
  {
    var due := Nth(x, k);
    WrapSum(due, x.period);
    NthStep(x, k);
    WrapOrder(due, due + x.period);
  }

  lemma {:induction false} EarlierEpoch(a: int, b: int)
    requires Epoch(a) < Epoch(b)
    ensures a < b
  {
    SplitInstant(a);
    SplitInstant(b);
  }

  lemma {:induction false} SwitchingOurs(d: Service, held: seq<Message>, x: Subject, sampled: int, t: int)
    requires 0 < x.period == TimerOf(d, x.timer).period && TimerOf(d, x.timer).autoReload == x.autoReload
    requires d.current != [] && d.current[0].item == x.timer && Epoch(t) == Epoch(sampled) + 1
    requires Placed(TraceOf(d, x.timer), held, x, sampled)
    ensures var tr' := TraceOf(SwitchOne(d), x.timer);
            && Placed(tr', held, x, sampled) && Nth(x, tr'.calls) <= t
            && tr'.period == x.period && tr'.autoReload == x.autoReload && StillOnce(x, TraceOf(d, x.timer), tr')
  {
    hide Nth, Wrap, Epoch, SwitchOne, TickOf, EntriesOf, Ours, Placed, TimerOf;
    var f := d.calls[x.timer];
    HeadIsDue(d, held, x, sampled);
    ReloadEpoch(x, f + 1);
    EarlierEpoch(Nth(x, f + 1), t);
    var fired := TraceOf(d, x.timer).(current := [], calls := f + 1);
    if x.autoReload {
      SwitchOurs(d, x.timer);
      PlacedAgain(fired, held, x, sampled, |d.queue| < QUEUE_LENGTH);
      PlacedInList(fired, held, x, sampled);
    } else {
      SwitchOnce(d, x.timer);
      PlacedNowhere(fired, held, x, sampled);
    }
  }

  lemma {:induction false} SwitchTime(d: Service)
    requires d.current != []
    ensures SwitchOne(d).lastTime == d.lastTime
  {
    hide Insert;
  }

  lemma {:induction false} SwitchingKeeps(s: State, x: Subject)
    requires Inv(s, x) && s.place.Switching? && s.service.current != []
    ensures Inv(Next(s, Work), x)
  {
    hide TraceOf, Nth, Wrap, Epoch, Ordered, SwitchOne, TickOf, Placed, Held, EntriesOf, TimerOf, Ours;
    var d := s.service;
    SwitchOrdered(d);
    SwitchTime(d);
    TraceLists(d, x.timer);
    if d.current[0].item == x.timer {
      HeadIsDue(d, Held(s.place, x.timer), x, s.sampled);
      SwitchingOurs(d, Held(s.place, x.timer), x, s.sampled, s.place.t);
    } else {
      SwitchOther(d, x.timer);
    }
  }

  lemma {:induction false} TraceLists(d: Service, x: nat)
    ensures TraceOf(d, x).current == EntriesOf(d.current, x) && TraceOf(d, x).overflow == EntriesOf(d.overflow, x)
    ensures TraceOf(d, x).period == TimerOf(d, x).period && TraceOf(d, x).autoReload == TimerOf(d, x).autoReload
  {
  }

  lemma {:induction false} SwappedTrace(d: Service, x: nat)
    ensures TraceOf(Swapped(d), x)
            == TraceOf(d, x).(current := TraceOf(d, x).overflow, overflow := TraceOf(d, x).current)
    ensures d.current == [] ==> TraceOf(d, x).current == []
  {
  }

  lemma {:induction false} SwappedPlaced(tr: Trace, held: seq<Message>, x: Subject, sampled: int, t: int)
    requires Placed(tr, held, x, sampled) && tr.current == [] && (tr.overflow != [] ==> Epoch(t) == Epoch(sampled) + 1)
    ensures Placed(tr.(current := tr.overflow, overflow := tr.current), held, x, t)
  {
    hide Nth, Wrap, Epoch;
  }

  lemma {:induction false} SwitchedKeeps(s: State, x: Subject)
    requires Inv(s, x) && s.place.Switching? && s.service.current == []
    ensures Inv(Next(s, Work), x)
  {
    hide TraceOf, Nth, Wrap, Epoch, TickOf, Ours, Sorted, KeysAreTicks, Placed;
    var d, t := s.service, s.place.t;
    SwappedTrace(d, x.timer);
    TraceTime(Swapped(d), Wrap(t), x.timer);
    SwappedPlaced(TraceOf(d, x.timer), Held(s.place, x.timer), x, s.sampled, t);
  }

  // ---------------------------------------------------------------------
  // Commands
  // ---------------------------------------------------------------------

  lemma {:induction false} ApplyTime(d: Service, m: Message, now: Tick)
    ensures Apply(d, m, now).lastTime == d.lastTime
  {
    hide Insert, Filed;
  }

  /** Where a timer goes when the command that carries its last expiry is
      applied. */
  lemma {:induction false} CommandFiling(x: Subject, k: nat, t: int)
    requires 0 < x.period && 0 <= t - Nth(x, k) < TICK_MODULUS
    ensures var next := Wrap(Wrap(Nth(x, k)) + x.period);
            var filed := Filed(next, Wrap(t), Wrap(Nth(x, k)), x.period);
            && next == Wrap(Nth(x, k + 1))
            && (filed == ProcessNow <==> Nth(x, k + 1) <= t)
            && (filed == InCurrent ==> Epoch(Nth(x, k + 1)) == Epoch(t))
            && (filed == InOverflow ==> Epoch(Nth(x, k + 1)) == Epoch(t) + 1)
  {
    WrapSum(Nth(x, k), x.period);
    NthStep(x, k);
    FilingExact(Nth(x, k), x.period, t);
    hide Wrap, Epoch, Nth, Filed;
  }

  lemma {:induction false} ApplyingOurs(d: Service, m: Message, x: Subject, t: int)
    requires 0 < x.period == TimerOf(d, x.timer).period && TimerOf(d, x.timer).autoReload == x.autoReload
    requires m.timer == x.timer && Placed(TraceOf(d, x.timer), [m], x, t)
    requires 0 <= t - Nth(x, d.calls[x.timer]) < TICK_MODULUS
    ensures var tr' := TraceOf(Apply(d, m, Wrap(t)), x.timer);
            && Placed(tr', [], x, t) && Nth(x, tr'.calls) <= t
            && tr'.period == x.period && tr'.autoReload == x.autoReload && StillOnce(x, TraceOf(d, x.timer), tr')
  {
    hide Nth, Wrap, Epoch, Apply, EntriesOf, Ours, Filed, TimerOf;
    var tr, f := TraceOf(d, x.timer), d.calls[x.timer];
    assert tr.queue + [m] != [];
    assert (tr.queue + [m])[|tr.queue|] == m;
    assert tr.queue == [] && IsStart(m.id) && m.value == Wrap(Nth(x, f));
    CommandFiling(x, f, t);
    assert !Spent(x, f);
    hide Placed;
    assert tr.queue + [] == [];
    if x.autoReload {
      ApplyOurs(d, m, Wrap(t), x.timer);
      PlacedAgain(tr.(calls := f + 1), [], x, t, |d.queue| < QUEUE_LENGTH);
    } else {
      ApplyOnce(d, m, Wrap(t), x.timer);
      PlacedNowhere(tr.(calls := f + 1), [], x, t);
    }
    PlacedInList(tr, [], x, t);
  }

  lemma {:induction false} ApplyingKeeps(s: State, x: Subject)
    requires Inv(s, x) && Prompt(s, x) && s.place.Applying?
    ensures Inv(Next(s, Work), x)
  {
    hide TraceOf, Nth, Wrap, Epoch, Ordered, Apply, TickOf, Placed, TimerOf;
    var d, m, t := s.service, s.place.m, s.place.t;
    ApplyOrdered(d, m, Wrap(t));
    ApplyTime(d, m, Wrap(t));
    TraceLists(d, x.timer);
    TraceCalls(d, x.timer);
    OursOne(m, x.timer);
    if m.timer == x.timer {
      assert TraceOf(d, x.timer).queue + [m] != [];
      ApplyingOurs(d, m, x, t);
    } else {
      ApplyOther(d, m, Wrap(t), x.timer);
    }
  }

  lemma {:induction false} OursOne(m: Message, x: nat)
    ensures Ours([m], x) == if IsOurs(m, x) then [m] else []
  {
    assert [m][1..] == [];
  }

  lemma {:induction false} StepKeeps(s: State, x: Subject, step: Step)
    requires Inv(s, x) && Prompt(s, x) && Undisturbed(s, x.timer, step)
    ensures Inv(Next(s, step), x)
  {
    hide Inv, Prompt, Next, Enabled, OnlyStops, ReceivesStop;
    match step
    case Advance(ticks) => AdvanceKeeps(s, x, ticks);
    case Post(m) => PostKeeps(s, x, m);
    case Work =>
      match s.place {
        case Top => TopKeeps(s, x);
        case Switching(_, _) =>
          if s.service.current == [] {
            SwitchedKeeps(s, x);
          } else {
            SwitchingKeeps(s, x);
          }
        case Expiring(_) => ExpiringKeeps(s, x);
        case Blocking(_) => BlockingKeeps(s, x);
        case Draining => DrainingKeeps(s, x);
        case InHand(_) => InHandKeeps(s, x);
        case Applying(_, _) => ApplyingKeeps(s, x);
      }
  }

  // ---------------------------------------------------------------------
  // Runs
  // ---------------------------------------------------------------------

  /** A run in which the daemon is prompt and nobody else commands the timer. */
  ghost predicate Possible(s: State, x: Subject, run: seq<Step>)
    decreases |run|
  {
    Prompt(s, x)
    && (run == [] || (Enabled(s, run[0]) && Undisturbed(s, x.timer, run[0]) && Possible(Next(s, run[0]), x, run[1..])))
  }

  function After(s: State, x: Subject, run: seq<Step>): State
    requires Possible(s, x, run)
    decreases |run|
  {
    if run == [] then s else After(Next(s, run[0]), x, run[1..])
  }

  lemma {:induction false} RunKeeps(s: State, x: Subject, run: seq<Step>)
    requires Inv(s, x) && Possible(s, x, run)
    ensures Inv(After(s, x, run), x)
    decreases |run|
  {
    hide Inv, Prompt, Next, Enabled, Undisturbed;
    if run == [] {
    } else {
      StepKeeps(s, x, run[0]);
      RunKeeps(Next(s, run[0]), x, run[1..]);
    }
  }

  /** The daemon is about to go round its loop, the timer has just been sent a
      start command, and is in neither list. */
  ghost predicate Started(s: State, x: Subject)
  {
    var tr := TraceOf(s.service, x.timer);
    && s.place == Top && s.sampled <= s.now && s.service.lastTime == Wrap(s.sampled)
    && Ordered(s.service)
    && tr == Trace([], [], [Message(START, Wrap(x.start), x.timer)], 0, x.period, x.autoReload, false)
    && 0 < x.period && x.start <= s.now
  }

  lemma {:induction false} StartedInv(s: State, x: Subject)
    requires Started(s, x)
    ensures Inv(s, x)
  {
    hide TraceOf, Ordered, Wrap, Epoch;
    NthZero(x);
    var q := TraceOf(s.service, x.timer).queue;
    assert q + [] == q;
  }

  lemma {:induction false} NthZero(x: Subject)
    ensures Nth(x, 0) == x.start
  {
  }

  /** So many whole periods fit between the start and an instant. */
  function Elapsed(x: Subject, t: int): int
    requires x.period > 0
  {
    (t - x.start) / x.period
  }

  lemma {:induction false} ElapsedIs(x: Subject, k: nat, t: int)
    requires 0 < x.period && Nth(x, k) <= t < Nth(x, k + 1)
    ensures Elapsed(x, t) == k
  {
    var gap := t - x.start - k * x.period;
    NthStep(x, k);
    assert t - x.start == k * x.period + gap && 0 <= gap < x.period;
    QuotientIs(t - x.start, x.period, k, gap);
  }

  lemma {:induction false} Multiples(d: int, b: int)
    requires 0 < b
    ensures d > 0 ==> d * b >= b
    ensures d < 0 ==> d * b <= -b
  {
  }

  lemma {:induction false} QuotientIs(a: int, b: int, q: int, r: int)
    requires 0 < b && a == q * b + r && 0 <= r < b
    ensures a / b == q
  {
    var d, m := a / b, a % b;
    assert a == d * b + m;
    assert (d - q) * b == d * b - q * b;
    Multiples(d - q, b);
  }

  /** A timer that is listed is due only after the instant at which the daemon
      found nothing to do. */
  lemma {:induction false} NotDueYet(d: Service, x: Subject, due: int, t: int)
    requires Ordered(d) && (d.current == [] || d.current[0].key > Wrap(t))
    requires Listed(TraceOf(d, x.timer), x.timer, due, t)
    ensures due > t
  {
    hide Wrap, Epoch;
    if EntriesOf(d.current, x.timer) != [] {
      EntriesOfIsThere(d.current, x.timer, 0);
      assert Wrap(due) > Wrap(t);
      SameEpochLater(due, t);
    } else {
      EarlierEpoch(t, due);
    }
  }

  lemma {:induction false} SameEpochLater(due: int, t: int)
    requires Epoch(due) == Epoch(t) && Wrap(due) > Wrap(t)
    ensures due > t
  {
    SplitInstant(due);
    SplitInstant(t);
  }

  lemma {:induction false} ExactNow(e: State, x: Subject)
    requires Inv(e, x) && e.place.Blocking? && e.service.queue == [] && x.timer !in e.service.refused && x.autoReload
    ensures var t := e.place.t;
            && e.service.calls[x.timer] == Elapsed(x, t)
            && Listed(TraceOf(e.service, x.timer), x.timer, Nth(x, Elapsed(x, t) + 1), t)
  {
    hide Nth, Wrap, Epoch, Ordered, Listed, Elapsed;
    var t, f := e.place.t, e.service.calls[x.timer];
    assert TraceOf(e.service, x.timer).queue == [];
    NotDueYet(e.service, x, Nth(x, f + 1), t);
    ElapsedIs(x, f, t);
  }

  /** The timer is exact and does not drift: whenever the daemon is about to
      block on an empty queue, the callback has been made once for every whole
      period since the start, and the timer is in exactly one list, under the
      next multiple of its period, unless a full queue kept it from being
      reloaded. */
  lemma {:induction false} ExactWhenBlocking(s: State, x: Subject, run: seq<Step>)
    requires Started(s, x) && Possible(s, x, run) && x.autoReload
    requires After(s, x, run).place.Blocking? && After(s, x, run).service.queue == []
    requires x.timer !in After(s, x, run).service.refused
    ensures var e := After(s, x, run);
            var t := e.place.t;
            && 0 < x.period
            && e.service.calls[x.timer] == Elapsed(x, t)
            && Listed(TraceOf(e.service, x.timer), x.timer, Nth(x, Elapsed(x, t) + 1), t)
  {
    hide Inv, Possible, After, Nth, Elapsed, Listed, TraceOf, Ordered;
    StartedInv(s, x);
    RunKeeps(s, x, run);
    ExactNow(After(s, x, run), x);
  }

  lemma {:induction false} OnceNow(e: State, x: Subject)
    requires Inv(e, x) && e.place.Blocking? && e.service.queue == [] && !x.autoReload
    ensures var t, tr := e.place.t, TraceOf(e.service, x.timer);
            if t < x.start + x.period
            then tr.calls == 0 && Listed(tr, x.timer, x.start + x.period, t)
            else tr.calls == 1 && tr.current == [] && tr.overflow == []
  {
    var t, tr := e.place.t, TraceOf(e.service, x.timer);
    assert tr.queue == [];
    assert tr.queue + [] == [];
    assert Nth(x, 1) == x.start + x.period;
    hide Nth, Wrap, Epoch, Ordered, Listed, TraceOf;
    TraceCalls(e.service, x.timer);
    if tr.calls == 0 {
      NotDueYet(e.service, x, Nth(x, 1), t);
    }
  }

  /** A timer that expires once only is exact: whenever the daemon is about to
      block on an empty queue, the callback has been made once if the period is
      over and not at all if it is not; until then the timer is in exactly one
      list, under its expiry, and from then on in none. */
  lemma {:induction false} OnceWhenBlocking(s: State, x: Subject, run: seq<Step>)
    requires Started(s, x) && Possible(s, x, run) && !x.autoReload
    requires After(s, x, run).place.Blocking? && After(s, x, run).service.queue == []
    ensures var e := After(s, x, run);
            var t, tr := e.place.t, TraceOf(e.service, x.timer);
            if t < x.start + x.period
            then e.service.calls[x.timer] == 0 && Listed(tr, x.timer, x.start + x.period, t)
            else e.service.calls[x.timer] == 1 && tr.current == [] && tr.overflow == []
  {
    hide Inv, Possible, After, Listed, TraceOf, Ordered;
    StartedInv(s, x);
    RunKeeps(s, x, run);
    TraceCalls(After(s, x, run).service, x.timer);
    OnceNow(After(s, x, run), x);
  }

  /** In no state has it been called twice, or too early; once called it is in
      no list and no command. */
  lemma {:induction false} OnceAtMost(s: State, x: Subject, run: seq<Step>)
    requires Started(s, x) && Possible(s, x, run) && !x.autoReload
    ensures var e := After(s, x, run);
            var tr := TraceOf(e.service, x.timer);
            && e.service.calls[x.timer] <= 1
            && (e.service.calls[x.timer] == 1 ==>
                  x.start + x.period <= e.now
                  && tr.current == [] && tr.overflow == [] && tr.queue == [] && Held(e.place, x.timer) == [])
  {
    StartedInv(s, x);
    RunKeeps(s, x, run);
    assert Nth(x, 1) == x.start + x.period;
    hide Possible, After, Nth, Wrap, Epoch, Ordered, Ours, EntriesOf;
  }

  /** A timer refused by a full queue is gone for good. */
  lemma {:induction false} RefusedIsGone(s: State, x: Subject, run: seq<Step>)
    requires Started(s, x) && Possible(s, x, run) && x.timer in After(s, x, run).service.refused
    ensures var tr := TraceOf(After(s, x, run).service, x.timer);
            tr.current == [] && tr.overflow == [] && tr.queue == [] && Held(After(s, x, run).place, x.timer) == []
  {
    StartedInv(s, x);
    RunKeeps(s, x, run);
    hide Possible, After, Nth, Wrap, Epoch, Ordered, Ours, EntriesOf;
  }
}
