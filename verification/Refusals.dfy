/** What putting the tail back does when the reader then stands still: the
    writer ends its call with a buffer whose fill is right, or not, as the
    condition says. */
module Refusals {

  import opened StreamBuffers
  import opened StreamProtocol

  predicate OnlyWriter(run: seq<Step>)
  {
    forall i :: 0 <= i < |run| ==> IsWriterStep(run[i])
  }

  /** The fill query tells how many bytes have been written and not released. */
  predicate FillIsRight(c: Config, s: State)
    requires s.head < c.length && s.tail < c.length
  {
    BytesInBuffer(c.length, s.head, s.tail) == |s.history.written| - s.history.read
  }

  /** The writer never gives up what it has found room for. */
  lemma {:induction false} ClaimGrows(c: Config, s: State, step: Step)
    requires c.framed && Short(c, s.writer) && Enabled(c, s, step) && IsWriterStep(step)
    ensures var s' := Next(c, s, step);
            && InRange(c, s') && Short(c, s'.writer)
            && s'.reader == s.reader && s'.history.read == s.history.read
            && Claim(c, s'.writer, s'.history) >= Claim(c, s.writer, s.history)
  {
    hide LengthBytes, SpacesAvailable, BytesInBuffer;
  }

  lemma {:induction false} ClaimOnlyGrows(c: Config, s: State, run: seq<Step>)
    requires c.framed && Short(c, s.writer) && InRange(c, s) && Possible(c, s, run) && OnlyWriter(run)
    ensures var e := After(c, s, run);
            && InRange(c, e) && e.history.read == s.history.read
            && Claim(c, e.writer, e.history) >= Claim(c, s.writer, s.history)
    decreases |run|
  {
    hide Enabled, Next, Short, Claim, IsWriterStep, InRange;
    if run == [] {
    } else {
      assert IsWriterStep(run[0]);
      ClaimGrows(c, s, run[0]);
      ClaimOnlyGrows(c, Next(c, s, run[0]), run[1..]);
    }
  }

  lemma {:induction false} DataStays(c: Config, s: State, run: seq<Step>)
    requires DataInv(c, s) && Possible(c, s, run) && OnlyWriter(run)
    ensures DataInv(c, After(c, s, run))
    decreases |run|
  {
    hide DataInv, Enabled, Next;
    if run == [] {
    } else {
      assert IsWriterStep(run[0]);
      StepKeepsData(c, s, run[0]);
      DataStays(c, Next(c, s, run[0]), run[1..]);
    }
  }

  lemma {:induction false} AfterPutBack(c: Config, s: State)
    requires DataInv(c, s) && Enabled(c, s, PutTailBack)
    ensures var s' := Next(c, s, PutTailBack);
            && c.framed && InRange(c, s') && Short(c, s'.writer) && s'.writer == s.writer
            && s'.history == s.history.(read := s.history.read - LENGTH_BYTES)
  {
    hide RingFormed, Encode, CopiedIn, Sendable, OldKept;
  }

  lemma {:induction false} SameClaim(c: Config, w: Writer, h: History, h': History)
    requires h'.written == h.written
    ensures Claim(c, w, h') == Claim(c, w, h)
  {
  }

  /** After the tail has been put back and the writer has ended its call, with
      the reader doing nothing meanwhile, the fill query is right exactly if
      putting the tail back was harmless. Otherwise more has been written and
      not released than the buffer holds. */
  lemma {:induction false} HarmShows(c: Config, s: State, run: seq<Step>)
    requires DataInv(c, s) && Enabled(c, s, PutTailBack)
    requires Possible(c, Next(c, s, PutTailBack), run) && OnlyWriter(run)
    requires After(c, Next(c, s, PutTailBack), run).writer == Resting
    ensures var e := After(c, Next(c, s, PutTailBack), run);
            && e.head < c.length && e.tail < c.length
            && (FillIsRight(c, e) <==> Harmless(c, s, PutTailBack))
            && (FillIsRight(c, e) <==> |e.history.written| - e.history.read < c.length)
  {
    hide DataInv, Next, Enabled, Possible, After, OnlyWriter;
    var s' := Next(c, s, PutTailBack);
    var e := After(c, s', run);
    AfterPutBack(c, s);
    SameClaim(c, s.writer, s.history, s'.history);
    ClaimOnlyGrows(c, s', run);
    assert Claim(c, e.writer, e.history) == |e.history.written|;
    StepKeepsData(c, s, PutTailBack);
    if Harmless(c, s, PutTailBack) {
      DataStays(c, s', run);
      assert RingFormed(c.length, e.bytes, e.head, e.tail, e.history.written, e.history.read) by { RingOf(c, e); }
      SpaceIs(c, e);
    }
  }

  lemma {:induction false} RingOf(c: Config, s: State)
    requires DataInv(c, s)
    ensures RingFormed(c.length, s.bytes, s.head, s.tail, s.history.written, s.history.read)
  {
  }

  // ---------------------------------------------------------------------
  // The writer can end its call
  // ---------------------------------------------------------------------

  /** What keeps the writer from getting stuck. */
  predicate Able(c: Config, w: Writer)
  {
    match w
    case Asking(data) => Sendable(data)
    case Blocked(data, space) => Sendable(data) && Writes(c, data, space) < c.length
    case Awake(data, space, _) => Sendable(data) && Writes(c, data, space) < c.length
    case Measured(data, space) => Sendable(data) && Writes(c, data, space) < c.length
    case Copying(chunk, done, next) => done <= |chunk| && |chunk| + |next| < c.length
    case _ => true
  }

  /** How far it is from the end. */
  function ToGo(c: Config, w: Writer): nat
  {
    match w
    case Resting => 0
    case Notifying => 1
    case Checking => 2
    case Copying(chunk, done, next) => (if done <= |chunk| then |chunk| - done else 0) + 3 + 2 * |next|
    case Measured(data, space) => 4 + LENGTH_BYTES + 2 * |data|
    case Awake(data, _, timedOut) => (if timedOut then 5 else 8) + LENGTH_BYTES + 2 * |data|
    case Blocked(data, _) => 6 + LENGTH_BYTES + 2 * |data|
    case Asking(data) => 7 + LENGTH_BYTES + 2 * |data|
  }

  /** Its next step, if it does not wait any longer. */
  function NextOfItsOwn(w: Writer): Step
    requires w != Resting
  {
    match w
    case Asking(_) => AskSpace
    case Blocked(_, _) => WakeWriter(true)
    case Awake(_, _, _) => UnregisterWriter
    case Measured(_, _) => Decide
    case Copying(chunk, done, _) => if done < |chunk| then CopyIn else PublishHead
    case Checking => CheckFill
    case Notifying => SendCompleted
  }

  lemma {:induction false} GetsNearer(c: Config, s: State)
    requires InRange(c, s) && Able(c, s.writer) && s.writer != Resting
    ensures var step := NextOfItsOwn(s.writer);
            && IsWriterStep(step) && Enabled(c, s, step)
            && var s' := Next(c, s, step);
               && InRange(c, s') && Able(c, s'.writer) && ToGo(c, s'.writer) < ToGo(c, s.writer)
  {
    SpaceIsLess(c, s);
    hide LengthBytes, SpacesAvailable, BytesInBuffer;
  }

  lemma {:induction false} SpaceIsLess(c: Config, s: State)
    requires InRange(c, s)
    ensures SpacesAvailable(c.length, s.head, s.tail) < c.length
  {
  }

  lemma {:induction false} WriterCanFinish(c: Config, s: State) returns (run: seq<Step>)
    requires InRange(c, s) && Able(c, s.writer)
    ensures Possible(c, s, run) && OnlyWriter(run) && After(c, s, run).writer == Resting
    decreases ToGo(c, s.writer)
  {
    hide Able, Enabled, Next, InRange, ToGo, IsWriterStep;
    if s.writer == Resting {
      run := [];
    } else {
      GetsNearer(c, s);
      var step := NextOfItsOwn(s.writer);
      var rest := WriterCanFinish(c, Next(c, s, step));
      run := [step] + rest;
      assert run[0] == step && run[1..] == rest;
    }
  }

  lemma {:induction false} FormedIsAble(c: Config, s: State)
    requires DataInv(c, s)
    ensures Able(c, s.writer)
  {
    hide Encode, Index;
  }

  /** There always is such an end of the call after the tail has been put back,
      harmlessly or not. */
  lemma {:induction false} CallEnds(c: Config, s: State) returns (run: seq<Step>)
    requires DataInv(c, s) && Enabled(c, s, PutTailBack)
    ensures var s' := Next(c, s, PutTailBack);
            Possible(c, s', run) && OnlyWriter(run) && After(c, s', run).writer == Resting
  {
    hide DataInv, Able, Enabled, Next, InRange;
    FormedIsAble(c, s);
    AfterPutBack(c, s);
    run := WriterCanFinish(c, Next(c, s, PutTailBack));
  }
}
