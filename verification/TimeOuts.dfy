/** The two places where the kernel compares wrapped counter values to decide
    whether an instant has passed: vTaskDelayUntil and xTaskCheckForTimeOut. */
module TimeOuts {

  import opened Ticks

  // ---------------------------------------------------------------------
  // vTaskDelayUntil
  // ---------------------------------------------------------------------

  /** The overflow-aware comparison that decides whether to block. */
  predicate ShouldDelay(previousWake: Tick, increment: Tick, now: Tick)
  {
    var timeToWake := Wrap(previousWake + increment);
    if now < previousWake then
      timeToWake < previousWake && timeToWake > now
    else
      timeToWake < previousWake || timeToWake > now
  }

  /** On counter values less than a wrap apart the comparison is the one on
      unbounded time, and the wrapped difference is the exact block time. */
  lemma DelayUntilExact(last: int, increment: Tick, now: int)
    requires 0 < increment
    requires 0 <= now - last < TICK_MODULUS
    ensures ShouldDelay(Wrap(last), increment, Wrap(now)) <==> last + increment > now
    ensures last + increment > now ==>
              Wrap(Wrap(last + increment) - Wrap(now)) == last + increment - now
  {
    WrapSum(last, increment);
    WrapOrder(last, now);
    WrapOrder(last, last + increment);
    SplitInstant(last);
    SplitInstant(now);
    SplitInstant(last + increment);
    if last + increment > now {
      WrapDifference(last + increment, now);
    }
  }

  /** A task that runs at a fixed rate; the field is the variable its calls
      to vTaskDelayUntil share. */
  class PeriodicTask {
    var previousWakeTime: Tick

    constructor (start: Tick)
      ensures previousWakeTime == start
    {
      previousWakeTime := start;
    }

    /** One call made at instant `now`; `blockTime` is what is handed to the
        delayed list when the call delays. The reference moves by exactly the
        increment whether or not the call delays, so lateness never adds up. */
    method DelayUntil(increment: Tick, tickCount: Tick, ghost last: int, ghost now: int)
      returns (delayed: bool, blockTime: Tick)
      requires 0 < increment
      requires previousWakeTime == Wrap(last) && tickCount == Wrap(now)
      requires 0 <= now - last < TICK_MODULUS
      modifies this
      ensures previousWakeTime == Wrap(last + increment)
      ensures delayed <==> last + increment > now
      ensures delayed ==> now + blockTime == last + increment
    {
      var timeToWake := Wrap(previousWakeTime + increment);
      delayed := false;
      if tickCount < previousWakeTime {
        if timeToWake < previousWakeTime && timeToWake > tickCount {
          delayed := true;
        }
      } else {
        if timeToWake < previousWakeTime || timeToWake > tickCount {
          delayed := true;
        }
      }
      DelayUntilExact(last, increment, now);
      WrapSum(last, increment);
      previousWakeTime := timeToWake;
      blockTime := Wrap(timeToWake - tickCount);
    }
  }

  /** The reference after a number of calls with the same increment. */
  function ReferenceAfter(start: Tick, increment: Tick, calls: nat): Tick
  {
    if calls == 0 then start else Wrap(ReferenceAfter(start, increment, calls - 1) + increment)
  }

  /** No drift: the k-th call aims at start + k * increment, on unbounded time. */
  lemma {:induction false} NoDrift(start: int, increment: Tick, calls: nat)
    ensures ReferenceAfter(Wrap(start), increment, calls) == Wrap(start + calls * increment)
  {
    if calls == 0 {
    } else {
      NoDrift(start, increment, calls - 1);
      WrapSum(start + (calls - 1) * increment, increment);
      assert start + (calls - 1) * increment + increment == start + calls * increment;
    }
  }

  // ---------------------------------------------------------------------
  // xTaskCheckForTimeOut
  // ---------------------------------------------------------------------

  /** What the kernel's counters read at an instant: xTickCount and the wrap
      counter xNumOfOverflows, itself a 32-bit variable. */
  datatype Reading = Reading(tickCount: Tick, overflows: Tick)

  function At(instant: int): Reading
  {
    Reading(Wrap(instant), Wrap(Epoch(instant)))
  }

  /** A TimeOut_t together with the caller's remaining block time. */
  datatype Waiting = Waiting(overflowCount: Tick, timeOnEntering: Tick, ticksToWait: Tick)

  function Entered(r: Reading, ticksToWait: Tick): Waiting
  {
    Waiting(r.overflows, r.tickCount, ticksToWait)
  }

  datatype Verdict = Verdict(expired: bool, rest: Waiting)

  function CheckForTimeOut(w: Waiting, r: Reading): Verdict
  {
    var elapsed := Wrap(r.tickCount - w.timeOnEntering);
    if w.ticksToWait == MAX_DELAY then
      Verdict(false, w)
    else if r.overflows != w.overflowCount && r.tickCount >= w.timeOnEntering then
      Verdict(true, w)
    else if elapsed < w.ticksToWait then
      Verdict(false, Entered(r, w.ticksToWait - elapsed))
    else
      Verdict(true, w.(ticksToWait := 0))
  }

  /** With at most one wrap since the last check, a check is exact, and what it
      leaves behind is a fresh wait for exactly the time that is left. */
  lemma CheckExact(entry: int, now: int, ticksToWait: Tick)
    requires ticksToWait < MAX_DELAY
    requires entry <= now && Epoch(now) - Epoch(entry) <= 1
    ensures CheckForTimeOut(Entered(At(entry), ticksToWait), At(now)).expired
            <==> now - entry >= ticksToWait
    ensures now - entry < ticksToWait ==>
              CheckForTimeOut(Entered(At(entry), ticksToWait), At(now)).rest
              == Entered(At(now), ticksToWait - (now - entry))
  {
    CheckAnyGap(entry, now, ticksToWait);
    SplitInstant(entry);
    SplitInstant(now);
    if now - entry < ticksToWait {
      WrapDifference(now, entry);
    }
  }

  /** Without that bound: the check tells the truth exactly when fewer than two
      wraps have passed, or the counter reads no less than at entry and the
      number of wraps has not itself wrapped to nothing, or the counter
      difference alone already exhausts the wait. */
  lemma CheckAnyGap(entry: int, now: int, ticksToWait: Tick)
    requires ticksToWait < MAX_DELAY && entry <= now
    ensures (CheckForTimeOut(Entered(At(entry), ticksToWait), At(now)).expired
             <==> now - entry >= ticksToWait)
            <==> (|| Epoch(now) - Epoch(entry) <= 1
                  || (Wrap(now) >= Wrap(entry) && Wrap(Epoch(now) - Epoch(entry)) != 0)
                  || Wrap(Wrap(now) - Wrap(entry)) >= ticksToWait)
  {
    SplitInstant(entry);
    SplitInstant(now);
    var gap := Epoch(now) - Epoch(entry);
    assert gap >= 0;
    EpochsShow(Epoch(entry), Epoch(now));
    if now - entry < TICK_MODULUS {
      WrapDifference(now, entry);
    } else {
      assert gap >= 1;
      assert gap == 1 ==> Wrap(now) >= Wrap(entry);
    }
  }

  lemma {:induction false} EpochsShow(a: int, b: int)
    ensures Wrap(a) == Wrap(b) <==> Wrap(b - a) == 0
  {
    SplitInstant(a);
    SplitInstant(b);
    SplitInstant(b - a);
    var k := Epoch(b) - Epoch(a) - Epoch(b - a);
    assert k * TICK_MODULUS + Wrap(b) - Wrap(a) == Wrap(b - a);
  }

  /** The exclusion is needed: a wait of 0xFFFFFFFE ticks entered at instant 10
      and next looked at five ticks into epoch 2 has long run out, yet the check
      reports time remaining. */
  lemma TwoWrapsCanHideATimeOut()
    ensures var entry, now := 10, 2 * TICK_MODULUS + 5;
            && now - entry >= 0xFFFF_FFFE
            && !CheckForTimeOut(Entered(At(entry), 0xFFFF_FFFE), At(now)).expired
  {
    JoinInstant(2, 5);
    JoinInstant(0, 10);
  }

  /** Each check follows the previous one with at most one wrap in between. */
  ghost predicate Spaced(entry: int, checks: seq<int>)
    decreases |checks|
  {
    checks != [] ==>
      && entry <= checks[0] && Epoch(checks[0]) - Epoch(entry) <= 1
      && Spaced(checks[0], checks[1..])
  }

  /** Whether any of a series of checks reports a time-out, each one working on
      what the previous one left. */
  predicate SomeCheckExpires(w: Waiting, checks: seq<int>)
    decreases |checks|
  {
    if checks == [] then
      false
    else
      var v := CheckForTimeOut(w, At(checks[0]));
      v.expired || SomeCheckExpires(v.rest, checks[1..])
  }

  /** However often a wait is interrupted and resumed, it times out exactly when
      the original block time has elapsed since the original entry. */
  lemma {:induction false} IteratedChecksExact(entry: int, ticksToWait: Tick, checks: seq<int>)
    requires ticksToWait < MAX_DELAY
    requires Spaced(entry, checks)
    ensures SomeCheckExpires(Entered(At(entry), ticksToWait), checks)
            <==> exists i :: 0 <= i < |checks| && checks[i] - entry >= ticksToWait
    decreases |checks|
  {
    if checks == [] {
    } else {
      var now := checks[0];
      CheckExact(entry, now, ticksToWait);
      if now - entry < ticksToWait {
        var left := ticksToWait - (now - entry);
        IteratedChecksExact(now, left, checks[1..]);
        forall i | 0 <= i < |checks|
          ensures checks[i] - entry >= ticksToWait
                  <==> i > 0 && checks[1..][i - 1] - now >= left
        {
          if i > 0 {
            assert checks[1..][i - 1] == checks[i];
          }
        }
        if j :| 0 <= j < |checks[1..]| && checks[1..][j] - now >= left {
          assert checks[j + 1] - entry >= ticksToWait;
        }
      } else {
        assert checks[0] - entry >= ticksToWait;
      }
    }
  }

  /** The TimeOut_t a blocking call keeps on its stack. */
  class TimeOut {
    var overflowCount: Tick
    var timeOnEntering: Tick

    function View(ticksToWait: Tick): Waiting
      reads this
    {
      Waiting(overflowCount, timeOnEntering, ticksToWait)
    }

    constructor (r: Reading)
      ensures forall n: Tick :: View(n) == Entered(r, n)
    {
      overflowCount := r.overflows;
      timeOnEntering := r.tickCount;
    }

    /** xTaskCheckForTimeOut, made at instant `now` for a wait that was entered,
        or last found not over, at instant `entry`. */
    method Check(r: Reading, ticksToWait: Tick, ghost entry: int, ghost now: int) returns (expired: bool, left: Tick)
      requires View(ticksToWait) == Entered(At(entry), ticksToWait) && r == At(now) && entry <= now
      modifies this
      ensures Verdict(expired, View(left)) == CheckForTimeOut(old(View(ticksToWait)), r)
      ensures ticksToWait == MAX_DELAY ==> !expired && left == MAX_DELAY
      ensures ticksToWait < MAX_DELAY && Epoch(now) - Epoch(entry) <= 1 ==>
                && (expired <==> now - entry >= ticksToWait)
                && (!expired ==> now + left == entry + ticksToWait && View(left) == Entered(At(now), left))
    {
      if ticksToWait < MAX_DELAY && Epoch(now) - Epoch(entry) <= 1 {
        CheckExact(entry, now, ticksToWait);
      }
      var elapsed := Wrap(r.tickCount - timeOnEntering);
      left := ticksToWait;
      if ticksToWait == MAX_DELAY {
        expired := false;
      } else if r.overflows != overflowCount && r.tickCount >= timeOnEntering {
        expired := true;
      } else if elapsed < ticksToWait {
        left := ticksToWait - elapsed;
        overflowCount := r.overflows;
        timeOnEntering := r.tickCount;
        expired := false;
      } else {
        left := 0;
        expired := true;
      }
    }
  }
}
