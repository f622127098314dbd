/** The software timer service of timers.c: two lists of active timers ordered
    by expiry time, one for the current epoch of the tick counter and one for
    the next, and the command queue that feeds them. */
module Timers {

  import opened Ticks
  import opened SortedLists

  const QUEUE_LENGTH := 4

  // Message identifiers. Negative ones are pended function calls.
  const START_DONT_TRACE := 0
  const START := 1
  const RESET := 2
  const STOP := 3
  const CHANGE_PERIOD := 4
  const DELETE := 5
  const START_FROM_ISR := 6
  const RESET_FROM_ISR := 7
  const STOP_FROM_ISR := 8
  const CHANGE_PERIOD_FROM_ISR := 9

  datatype Timer = Timer(period: Tick, autoReload: bool, active: bool)

  datatype Message = Message(id: int, value: Tick, timer: nat)

  /** The service, with a count of the callbacks made and the timers that a
      full queue kept from being reloaded. */
  datatype Service = Service(
    current: seq<Entry>,
    overflow: seq<Entry>,
    lastTime: Tick,
    queue: seq<Message>,
    timers: map<nat, Timer>,
    calls: multiset<nat>,
    refused: set<nat>)

  function TimerOf(s: Service, timer: nat): Timer
  {
    if timer in s.timers then s.timers[timer] else Timer(1, false, false)
  }

  // ---------------------------------------------------------------------
  // Where a timer goes
  // ---------------------------------------------------------------------

  datatype Filing = ProcessNow | InCurrent | InOverflow

  /** The four branches of prvInsertTimerInActiveList. */
  function Filed(next: Tick, now: Tick, commandTime: Tick, period: Tick): Filing
  {
    if next <= now then
      if Wrap(now - commandTime) >= period then ProcessNow else InOverflow
    else if now < commandTime && next >= commandTime then
      ProcessNow
    else
      InCurrent
  }

  /** The branches are exact: a timer commanded at one instant and looked at
      less than a wrap later is due already exactly if it is processed now, and
      otherwise is filed by the epoch in which it is due. */
  lemma {:induction false} FilingExact(command: int, period: Tick, now: int)
    requires 0 < period && 0 <= now - command < TICK_MODULUS
    ensures var due := command + period;
            var filed := Filed(Wrap(due), Wrap(now), Wrap(command), period);
            && (filed == ProcessNow <==> due <= now)
            && (filed == InCurrent <==> due > now && Epoch(due) == Epoch(now))
            && (filed == InOverflow <==> due > now && Epoch(due) == Epoch(now) + 1)
  {
    var due := command + period;
    WrapDifference(now, command);
    WrapOrder(command, now);
    WrapOrder(command, due);
    if due <= now {
      WrapOrder(due, now);
    } else {
      WrapOrder(now, due);
    }
    SplitInstant(due);
    SplitInstant(now);
  }

  /** xTimerGenericCommand with a block time of zero, to reload a timer. */
  function Reload(s: Service, timer: nat, value: Tick): Service
  {
    if |s.queue| < QUEUE_LENGTH then
      s.(queue := s.queue + [Message(START_DONT_TRACE, value, timer)])
    else
      s.(refused := s.refused + {timer})
  }

  function Called(s: Service, timer: nat): Service
  {
    s.(calls := s.calls + multiset{timer})
  }

  /** prvInsertTimerInActiveList, for a timer that has to be filed. */
  function FileTimer(s: Service, timer: nat, next: Tick, filed: Filing): Service
  {
    match filed
    case ProcessNow => s
    case InCurrent => s.(current := Insert(s.current, Entry(timer, next)))
    case InOverflow => s.(overflow := Insert(s.overflow, Entry(timer, next)))
  }

  // ---------------------------------------------------------------------
  // Expired timers
  // ---------------------------------------------------------------------

  ghost predicate KeysAreTicks(list: seq<Entry>)
  {
    forall i :: 0 <= i < |list| ==> 0 <= list[i].key < TICK_MODULUS
  }

  function TickOf(e: Entry): Tick
  {
    Wrap(e.key)
  }

  /** prvProcessExpiredTimer. */
  function ProcessExpired(s: Service, now: Tick): Service
    requires s.current != []
  {
    var e := s.current[0];
    var expired := TickOf(e);
    var t := TimerOf(s, e.item);
    var s' := s.(current := s.current[1..]);
    if t.autoReload then
      var next := Wrap(expired + t.period);
      var filed := Filed(next, now, expired, t.period);
      Called(if filed == ProcessNow then Reload(s', e.item, expired) else FileTimer(s', e.item, next, filed), e.item)
    else
      Called(s'.(timers := s.timers[e.item := t.(active := false)]), e.item)
  }

  /** One round of the loop in prvSwitchTimerLists. */
  function SwitchOne(s: Service): Service
    requires s.current != []
  {
    var e := s.current[0];
    var expired := TickOf(e);
    var t := TimerOf(s, e.item);
    var s' := Called(s.(current := s.current[1..]), e.item);
    if t.autoReload then
      var reload := Wrap(expired + t.period);
      if reload > expired then
        s'.(current := Insert(s'.current, Entry(e.item, reload)))
      else
        Reload(s', e.item, expired)
    else
      s'
  }

  function Swapped(s: Service): Service
  {
    s.(current := s.overflow, overflow := s.current)
  }

  /** How much time the listed timers have left in the epoch, taken together. */
  function TimeLeft(list: seq<Entry>): nat
  {
    if list == [] then 0 else TICK_MODULUS - TickOf(list[0]) + TimeLeft(list[1..])
  }

  lemma {:induction false} TimeLeftConcat(a: seq<Entry>, b: seq<Entry>)
    ensures TimeLeft(a + b) == TimeLeft(a) + TimeLeft(b)
  {
    if a == [] {
      assert a + b == b;
    } else {
      assert (a + b)[1..] == a[1..] + b;
      TimeLeftConcat(a[1..], b);
    }
  }

  lemma {:induction false} TimeLeftInsert(list: seq<Entry>, e: Entry)
    ensures TimeLeft(Insert(list, e)) == TimeLeft(list) + TICK_MODULUS - TickOf(e)
  {
    hide Sorted;
    var p := Position(list, e.key);
    assert list == list[..p] + list[p..];
    TimeLeftConcat(list[..p], list[p..]);
    TimeLeftConcat(list[..p] + [e], list[p..]);
    TimeLeftConcat(list[..p], [e]);
    assert [e][1..] == [];
  }

  lemma {:induction false} TickOfTick(item: nat, t: Tick)
    ensures TickOf(Entry(item, t)) == t
  {
  }

  /** The loop in prvSwitchTimerLists comes to an end: each round uses up some
      of that time, even where it puts the timer back. */
  lemma {:induction false} SwitchOneShrinks(s: Service)
    requires s.current != []
    ensures TimeLeft(SwitchOne(s).current) < TimeLeft(s.current)
  {
    hide Insert, TickOf, Wrap, Called, Reload;
    var e := s.current[0];
    var reload := Wrap(TickOf(e) + TimerOf(s, e.item).period);
    TimeLeftInsert(s.current[1..], Entry(e.item, reload));
    TickOfTick(e.item, reload);
    CalledLists(s.(current := s.current[1..]), e.item);
    ReloadLists(Called(s.(current := s.current[1..]), e.item), e.item, TickOf(e));
  }

  lemma {:induction false} CalledLists(s: Service, timer: nat)
    ensures Called(s, timer) == s.(calls := Called(s, timer).calls)
  {
  }

  lemma {:induction false} ReloadLists(s: Service, timer: nat, value: Tick)
    ensures Reload(s, timer, value)
            == s.(queue := Reload(s, timer, value).queue, refused := Reload(s, timer, value).refused)
  {
  }

  /** prvSwitchTimerLists. */
  function SwitchLists(s: Service): (r: Service)
    ensures r.overflow == [] && r.current == s.overflow
    decreases TimeLeft(s.current)
  {
    if s.current == [] then
      Swapped(s)
    else
      SwitchOneShrinks(s);
      SwitchLists(SwitchOne(s))
  }

  // ---------------------------------------------------------------------
  // Commands
  // ---------------------------------------------------------------------

  predicate IsStart(id: int)
  {
    id == START || id == START_FROM_ISR || id == RESET || id == RESET_FROM_ISR || id == START_DONT_TRACE
  }

  predicate IsChange(id: int)
  {
    id == CHANGE_PERIOD || id == CHANGE_PERIOD_FROM_ISR
  }

  /** A command for a timer that takes it out of its list and leaves it there:
      stop, delete, and whatever the switch does not know. */
  predicate IsStop(id: int)
  {
    id >= 0 && !IsStart(id) && !IsChange(id)
  }

  /** Taking the commanded timer out of whichever list it is in. */
  function Unlisted(s: Service, timer: nat): Service
  {
    s.(current := Without(s.current, timer), overflow := Without(s.overflow, timer))
  }

  /** The switch over commands in prvProcessReceivedCommands. */
  function Apply(s: Service, m: Message, now: Tick): Service
  {
    var t := TimerOf(s, m.timer);
    if IsStart(m.id) then
      var next := Wrap(m.value + t.period);
      var filed := Filed(next, now, m.value, t.period);
      var s' := s.(timers := s.timers[m.timer := t.(active := true)]);
      if filed == ProcessNow then
        var called := Called(s', m.timer);
        if t.autoReload then Reload(called, m.timer, next) else called
      else
        FileTimer(s', m.timer, next, filed)
    else if m.id == STOP || m.id == STOP_FROM_ISR then
      s.(timers := s.timers[m.timer := t.(active := false)])
    else if m.id == CHANGE_PERIOD || m.id == CHANGE_PERIOD_FROM_ISR then
      var next := Wrap(now + m.value);
      FileTimer(s.(timers := s.timers[m.timer := t.(active := true, period := m.value)]),
                m.timer, next, Filed(next, now, now, m.value))
    else if m.id == DELETE then
      s.(timers := s.timers[m.timer := t.(active := false)])
    else
      s
  }

  /** A new period counts from now, so it is never over already. */
  lemma {:induction false} ChangedPeriodIsFiled(period: Tick, now: int)
    requires 0 < period
    ensures Filed(Wrap(Wrap(now) + period), Wrap(now), Wrap(now), period) != ProcessNow
  {
    WrapSum(now, period);
    FilingExact(now, period, now);
  }

  // ---------------------------------------------------------------------
  // The service as the daemon changes it
  // ---------------------------------------------------------------------

  class TimerService {
    var current: seq<Entry>
    var overflow: seq<Entry>
    var lastTime: Tick
    var queue: seq<Message>
    var timers: map<nat, Timer>
    ghost var calls: multiset<nat>
    ghost var refused: set<nat>

    ghost function View(): Service
      reads this
    {
      Service(current, overflow, lastTime, queue, timers, calls, refused)
    }

    method Lookup(timer: nat) returns (t: Timer)
      ensures t == TimerOf(View(), timer)
    {
      t := if timer in timers then timers[timer] else Timer(1, false, false);
    }

    /** xTimerGenericCommand as the daemon uses it on its own queue. */
    method SendReload(timer: nat, value: Tick)
      modifies this`queue, this`refused
      ensures View() == Reload(old(View()), timer, value)
    {
      if |queue| < QUEUE_LENGTH {
        queue := queue + [Message(START_DONT_TRACE, value, timer)];
      } else {
        refused := refused + {timer};
      }
    }

    /** prvInsertTimerInActiveList. */
    method InsertInActiveList(timer: nat, next: Tick, now: Tick, commandTime: Tick) returns (processNow: bool)
      modifies this`current, this`overflow
      ensures var filed := Filed(next, now, commandTime, TimerOf(old(View()), timer).period);
              processNow == (filed == ProcessNow) && View() == FileTimer(old(View()), timer, next, filed)
    {
      hide Insert;
      var t := Lookup(timer);
      processNow := false;
      if next <= now {
        if Wrap(now - commandTime) >= t.period {
          processNow := true;
        } else {
          overflow := Insert(overflow, Entry(timer, next));
        }
      } else if now < commandTime && next >= commandTime {
        processNow := true;
      } else {
        current := Insert(current, Entry(timer, next));
      }
    }

    /** The body of the loop in prvSwitchTimerLists. */
    method SwitchHead()
      requires current != []
      modifies this
      ensures View() == SwitchOne(old(View()))
      ensures calls == old(calls + multiset{current[0].item}) && timers == old(timers)
      ensures TimeLeft(current) < old(TimeLeft(current))
    {
      hide Insert, Reload, Wrap, TimeLeft;
      SwitchOneShrinks(View());
      var expired := TickOf(current[0]);
      var timer := current[0].item;
      current := current[1..];
      var t := Lookup(timer);
      calls := calls + multiset{timer};
      if t.autoReload {
        var reload := Wrap(expired + t.period);
        if reload > expired {
          current := Insert(current, Entry(timer, reload));
        } else {
          SendReload(timer, expired);
        }
      }
    }

    /** prvSwitchTimerLists. */
    method SwitchTimerLists()
      modifies this
      ensures View() == SwitchLists(old(View()))
    {
      hide SwitchOne, TimeLeft;
      while current != []
        invariant SwitchLists(View()) == SwitchLists(old(View()))
        decreases TimeLeft(current)
      {
        SwitchOneShrinks(View());
        SwitchHead();
      }
      current, overflow := overflow, current;
    }

    /** prvSampleTimeNow, with the tick count it reads. */
    method SampleTimeNow(now: Tick) returns (switched: bool)
      modifies this
      ensures switched == (now < old(lastTime))
      ensures View() == (if switched then SwitchLists(old(View())) else old(View())).(lastTime := now)
    {
      hide SwitchLists;
      switched := now < lastTime;
      if switched {
        SwitchTimerLists();
      }
      lastTime := now;
    }

    /** prvProcessExpiredTimer. */
    method ProcessExpiredTimer(now: Tick)
      requires current != []
      modifies this
      ensures View() == ProcessExpired(old(View()), now)
      ensures calls == old(calls + multiset{current[0].item})
    {
      hide Filed, FileTimer, Reload;
      var expired := TickOf(current[0]);
      var timer := current[0].item;
      current := current[1..];
      var t := Lookup(timer);
      if t.autoReload {
        var processNow := InsertInActiveList(timer, Wrap(expired + t.period), now, expired);
        if processNow {
          FiledNowhere(old(View()).(current := old(current[1..])), timer, Wrap(expired + t.period));
          SendReload(timer, expired);
        }
      } else {
        timers := timers[timer := t.(active := false)];
      }
      calls := calls + multiset{timer};
    }

    lemma {:induction false} FiledNowhere(s: Service, timer: nat, next: Tick)
      ensures FileTimer(s, timer, next, ProcessNow) == s
    {
    }

    /** One command in prvProcessReceivedCommands, after it has been received
        and the time has been sampled. */
    method ProcessCommand(m: Message, now: Tick)
      modifies this
      ensures View() == Apply(old(View()), m, now)
    {
      hide Filed, FileTimer, Reload;
      var t := Lookup(m.timer);
      if IsStart(m.id) {
        ghost var marked := View().(timers := timers[m.timer := t.(active := true)]);
        timers := timers[m.timer := t.(active := true)];
        var next := Wrap(m.value + t.period);
        FiledNowhere(marked, m.timer, next);
        var processNow := InsertInActiveList(m.timer, next, now, m.value);
        if processNow {
          calls := calls + multiset{m.timer};
          if t.autoReload {
            SendReload(m.timer, next);
          }
        }
      } else if m.id == STOP || m.id == STOP_FROM_ISR || m.id == DELETE {
        timers := timers[m.timer := t.(active := false)];
      } else if m.id == CHANGE_PERIOD || m.id == CHANGE_PERIOD_FROM_ISR {
        timers := timers[m.timer := t.(active := true, period := m.value)];
        var _ := InsertInActiveList(m.timer, Wrap(now + m.value), now, now);
      }
    }
  }
}
