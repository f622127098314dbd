/** A task that blocks for some ticks, followed through everything that other
    tasks, events and the tick do to the delayed lists meanwhile. */
module DelayedRuns {

  import opened Ticks
  import opened SortedLists
  import opened DelayedLists

  datatype Op =
    | Delay(task: nat, ticks: Tick)    // another task blocks
    | Ready(task: nat)                 // an event readies another task early
    | OneTick                          // an accepted tick

  predicate Concerns(op: Op, task: nat)
  {
    match op
    case Delay(t, _) => t == task
    case Ready(t) => t == task
    case OneTick => false
  }

  /** Block times are positive. */
  predicate Positive(op: Op)
  {
    op.Delay? ==> 0 < op.ticks
  }

  function Next(c: Clock, op: Op): Ticked
    requires Valid(c)
  {
    match op
    case Delay(t, ticks) => Ticked(Block(c, t, ticks), [])
    case Ready(t) => Ticked(Cancel(c, t), [])
    case OneTick => IncrementTick(c)
  }

  lemma {:induction false} NextIsValid(c: Clock, op: Op)
    requires Valid(c) && Positive(op)
    ensures Valid(Next(c, op).clock)
    ensures Now(Next(c, op).clock) == Now(c) + if op.OneTick? then 1 else 0
  {
    hide Valid, Now, IncrementTick, Block, Cancel;
    match op
    case Delay(t, ticks) => BlockRefines(c, t, ticks);
    case Ready(t) => CancelRefines(c, t);
    case OneTick => TickRefines(c);
  }

  ghost predicate AllPositive(run: seq<Op>)
  {
    forall i :: 0 <= i < |run| ==> Positive(run[i])
  }

  lemma {:induction false} RestIsPositive(run: seq<Op>)
    requires AllPositive(run) && run != []
    ensures Positive(run[0]) && AllPositive(run[1..])
  {
  }

  ghost function After(c: Clock, run: seq<Op>): (r: Clock)
    requires Valid(c) && AllPositive(run)
    ensures Valid(r) && Now(r) >= Now(c)
    decreases |run|
  {
    if run == [] then
      c
    else
      RestIsPositive(run);
      NextIsValid(c, run[0]);
      After(Next(c, run[0]).clock, run[1..])
  }

  /** The instants at which a run readies a task because its time has come. */
  ghost function Wakes(c: Clock, run: seq<Op>, task: nat): seq<int>
    requires Valid(c) && AllPositive(run)
    decreases |run|
  {
    if run == [] then
      []
    else
      RestIsPositive(run);
      NextIsValid(c, run[0]);
      var t := Next(c, run[0]);
      (if task in t.readied then [Now(t.clock)] else []) + Wakes(t.clock, run[1..], task)
  }

  /** What one step does to the one deadline of a task it does not concern. */
  lemma {:induction false} ServedOf(tasks: seq<nat>, due: int, x: nat)
    ensures x !in tasks ==> EntriesOf(Served(tasks, due), x) == []
    ensures x in tasks ==> |EntriesOf(Served(tasks, due), x)| >= 1
                           && EntriesOf(Served(tasks, due), x)[0] == Entry(x, due)
  {
    if tasks == [] {
    } else {
      ServedOf(tasks[1..], due, x);
      assert Served(tasks, due)[1..] == Served(tasks[1..], due);
    }
  }

  lemma {:induction false} StepFollows(c: Clock, op: Op, e: Entry)
    requires Valid(c) && Positive(op) && !Concerns(op, e.item) && EntriesOf(Timeline(c), e.item) == [e]
    ensures var t := Next(c, op);
            if e.item in t.readied
            then op.OneTick? && e.key == Now(c) + 1 && EntriesOf(Timeline(t.clock), e.item) == []
            else EntriesOf(Timeline(t.clock), e.item) == [e]
  {
    hide Formed, Now, IncrementTick, Block, Cancel, Timeline, EntriesOf, Insert, Without, Served;
    match op
    case Delay(t, ticks) =>
      BlockRefines(c, t, ticks);
      EntriesOfInsert(Timeline(c), Entry(t, Now(c) + ticks), e.item);
    case Ready(t) =>
      CancelRefines(c, t);
      EntriesOfWithout(Timeline(c), t, e.item);
    case OneTick =>
      TickRefines(c);
      var r := IncrementTick(c);
      var served, rest := Served(r.readied, Now(c) + 1), Timeline(r.clock);
      ServedOf(r.readied, Now(c) + 1, e.item);
      EntriesOfConcat(served, rest, e.item);
      OneOfTwo(EntriesOf(served, e.item), EntriesOf(rest, e.item), e);
  }

  lemma {:induction false} OneOfTwo(a: seq<Entry>, b: seq<Entry>, e: Entry)
    requires a + b == [e]
    ensures if a == [] then b == [e] else a == [e] && b == []
  {
    if a == [] {
      assert a + b == b;
    } else {
      assert a[0] == (a + b)[0];
      assert |a| + |b| == 1;
    }
  }

  /** Nobody waiting, nobody woken. */
  lemma {:induction false} StepForgets(c: Clock, op: Op, x: nat)
    requires Valid(c) && Positive(op) && !Concerns(op, x) && EntriesOf(Timeline(c), x) == []
    ensures x !in Next(c, op).readied && EntriesOf(Timeline(Next(c, op).clock), x) == []
  {
    hide Formed, Now, IncrementTick, Block, Cancel, Timeline, EntriesOf, Insert, Without, Served;
    match op
    case Delay(t, ticks) =>
      BlockRefines(c, t, ticks);
      EntriesOfInsert(Timeline(c), Entry(t, Now(c) + ticks), x);
    case Ready(t) =>
      CancelRefines(c, t);
      EntriesOfWithout(Timeline(c), t, x);
    case OneTick =>
      TickRefines(c);
      var r := IncrementTick(c);
      ServedOf(r.readied, Now(c) + 1, x);
      EntriesOfConcat(Served(r.readied, Now(c) + 1), Timeline(r.clock), x);
  }

  ghost predicate LeavesAlone(run: seq<Op>, x: nat)
  {
    forall i :: 0 <= i < |run| ==> !Concerns(run[i], x)
  }

  lemma {:induction false} NeverWoken(c: Clock, run: seq<Op>, x: nat)
    requires Valid(c) && AllPositive(run) && LeavesAlone(run, x) && EntriesOf(Timeline(c), x) == []
    ensures Wakes(c, run, x) == []
    decreases |run|
  {
    hide Valid, Timeline, EntriesOf, Now, Next;
    if run == [] {
    } else {
      RestIsPositive(run);
      NextIsValid(c, run[0]);
      StepForgets(c, run[0], x);
      NeverWoken(Next(c, run[0]).clock, run[1..], x);
    }
  }

  /** Whoever waits is due in the future. */
  lemma {:induction false} DueLater(c: Clock, e: Entry)
    requires Valid(c) && EntriesOf(Timeline(c), e.item) == [e]
    ensures e.key > Now(c)
  {
    EntriesOfIsThere(Timeline(c), e.item, 0);
    TimelineOf(c);
    hide Timeline, Now;
  }

  lemma {:induction false} WokenOnceDue(c: Clock, run: seq<Op>, e: Entry)
    requires Valid(c) && AllPositive(run) && LeavesAlone(run, e.item) && EntriesOf(Timeline(c), e.item) == [e]
    ensures Wakes(c, run, e.item) == if Now(After(c, run)) >= e.key then [e.key] else []
    decreases |run|
  {
    hide Valid, Timeline, EntriesOf, Now, Next;
    DueLater(c, e);
    if run == [] {
    } else {
      RestIsPositive(run);
      NextIsValid(c, run[0]);
      StepFollows(c, run[0], e);
      var t := Next(c, run[0]);
      if e.item in t.readied {
        NeverWoken(t.clock, run[1..], e.item);
        assert Now(After(t.clock, run[1..])) >= Now(t.clock);
      } else {
        WokenOnceDue(t.clock, run[1..], e);
      }
    }
  }

  /** A task that blocks for some ticks, and that no event readies, is readied
      by the tick that many ticks later, by no other, and not before, whatever
      else goes on and however often the counter wraps. */
  lemma {:induction false} DelayIsExact(c: Clock, task: nat, ticks: Tick, run: seq<Op>)
    requires Valid(c) && 0 < ticks && EntriesOf(Timeline(c), task) == []
    requires AllPositive(run) && LeavesAlone(run, task)
    ensures Valid(Block(c, task, ticks))
    ensures var due := Now(c) + ticks;
            Wakes(Block(c, task, ticks), run, task)
            == if Now(After(Block(c, task, ticks), run)) >= due then [due] else []
  {
    hide Valid, Timeline, EntriesOf, Now, Block, Wakes, After;
    BlockRefines(c, task, ticks);
    EntriesOfInsert(Timeline(c), Entry(task, Now(c) + ticks), task);
    WokenOnceDue(Block(c, task, ticks), run, Entry(task, Now(c) + ticks));
  }
}
