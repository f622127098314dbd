/** One call of one side while the other stands still: what it writes or takes,
    and whom it notifies. */
module StreamCalls {

  import opened StreamBuffers
  import opened StreamProtocol
  import opened Refusals

  // ---------------------------------------------------------------------
  // Sending
  // ---------------------------------------------------------------------

  /** The steps of one call of the writer. */
  predicate OneSend(run: seq<Step>, data: seq<Byte>, wait: bool)
  {
    run != [] && run[0] == SendCall(data, wait) && GoesOnSending(run[1..])
  }

  predicate GoesOnSending(run: seq<Step>)
  {
    forall i :: 0 <= i < |run| ==> IsWriterStep(run[i]) && !run[i].SendCall?
  }

  /** What a call puts into the buffer if there is so much space. */
  function Put(c: Config, data: seq<Byte>, space: nat): seq<Byte>
  {
    if !c.framed then data[..Min(|data|, space)]
    else if space >= |data| + LENGTH_BYTES then LengthBytes(|data|) + data
    else []
  }

  /** The messages it sends by that. */
  function Messages(c: Config, data: seq<Byte>, space: nat): seq<seq<Byte>>
  {
    if !c.framed then (if space > 0 then [data[..Min(|data|, space)]] else [])
    else if space >= |data| + LENGTH_BYTES then [data]
    else []
  }

  /** Where a call stands that began with a history and so much space. */
  predicate Sending(c: Config, h0: History, data: seq<Byte>, space: nat, s: State)
  {
    var h := s.history;
    && h.read == h0.read && h.delivered == h0.delivered
    && match s.writer
       case Asking(d) => d == data && h == h0
       case Blocked(d, found) => d == data && found == space && h == h0
       case Awake(d, found, _) => d == data && found == space && h == h0
       case Measured(d, found) => d == data && found == space && h == h0
       case Copying(chunk, _, next) =>
         if c.framed && next != [] then
           h == h0 && chunk == LengthBytes(|data|) && next == data && space >= |data| + LENGTH_BYTES
         else if c.framed then
           && h.written == h0.written + LengthBytes(|data|) && h.sent == h0.sent && chunk == data && next == []
           && space >= |data| + LENGTH_BYTES
         else
           h == h0 && chunk == Put(c, data, space) && next == [] && space > 0
       case _ => h.written == h0.written + Put(c, data, space) && h.sent == h0.sent + Messages(c, data, space)
  }

  lemma {:induction false} SendingPublish(c: Config, h0: History, data: seq<Byte>, space: nat, s: State)
    requires Sending(c, h0, data, space, s) && data != [] && Enabled(c, s, PublishHead)
    ensures Sending(c, h0, data, space, Next(c, s, PublishHead))
  {
    assert h0.sent + [] == h0.sent;
    assert h0.written + (LengthBytes(|data|) + data) == h0.written + LengthBytes(|data|) + data;
    hide LengthBytes, SpacesAvailable, BytesInBuffer, Wrapped;
  }

  lemma {:induction false} SendingDecide(c: Config, h0: History, data: seq<Byte>, space: nat, s: State)
    requires Sending(c, h0, data, space, s) && data != [] && Enabled(c, s, Decide)
    ensures Sending(c, h0, data, space, Next(c, s, Decide))
  {
    assert h0.written + [] == h0.written && h0.sent + [] == h0.sent;
    assert data[..|data|] == data;
    hide LengthBytes, SpacesAvailable, BytesInBuffer, Wrapped;
  }

  lemma {:induction false} SendingStep(c: Config, h0: History, data: seq<Byte>, space: nat, s: State, step: Step)
    requires DataInv(c, s) && Sending(c, h0, data, space, s) && Sendable(data) && s.writer != Resting
    requires space == c.length - 1 - (|h0.written| - h0.read)
    requires Enabled(c, s, step) && IsWriterStep(step) && !step.SendCall?
    ensures Sending(c, h0, data, space, Next(c, s, step))
    ensures Next(c, s, step).reader == s.reader
  {
    SpaceIs(c, s);
    assert data != [];
    hide DataInv, LengthBytes, SpacesAvailable, BytesInBuffer, Wrapped, Put, Messages, StartWriting;
    if step.PublishHead? {
      hide Sending;
      SendingPublish(c, h0, data, space, s);
    } else if step.Decide? {
      hide Sending;
      SendingDecide(c, h0, data, space, s);
    }
  }

  lemma {:induction false} SendingRun(c: Config, h0: History, data: seq<Byte>, space: nat, s: State, run: seq<Step>)
    requires DataInv(c, s) && Sending(c, h0, data, space, s) && Sendable(data)
    requires space == c.length - 1 - (|h0.written| - h0.read)
    requires Possible(c, s, run) && GoesOnSending(run)
    ensures Sending(c, h0, data, space, After(c, s, run)) && After(c, s, run).reader == s.reader
    ensures DataInv(c, After(c, s, run))
    decreases |run|
  {
    hide DataInv, Sending, Next, Sendable, IsWriterStep;
    if run == [] {
    } else {
      assert IsWriterStep(run[0]) && !run[0].SendCall?;
      RestingWaits(c, s, run[0]);
      StepKeepsData(c, s, run[0]);
      HarmlessWriter(c, s, run[0]);
      SendingStep(c, h0, data, space, s, run[0]);
      SendingRun(c, h0, data, space, Next(c, s, run[0]), run[1..]);
    }
  }

  lemma {:induction false} HarmlessWriter(c: Config, s: State, step: Step)
    requires IsWriterStep(step)
    ensures Harmless(c, s, step)
  {
  }

  /** A writer at rest does nothing but call. */
  lemma {:induction false} RestingWaits(c: Config, s: State, step: Step)
    requires Enabled(c, s, step) && IsWriterStep(step) && !step.SendCall?
    ensures s.writer != Resting
  {
  }

  /** A call to send, waiting or not, that goes through while the reader stands
      still writes what fits into the space there is: of a stream as many bytes
      as fit, a message with its length whole or not at all. */
  lemma {:induction false} SendAlone(c: Config, s: State, data: seq<Byte>, wait: bool, run: seq<Step>)
    requires DataInv(c, s) && s.writer == Resting && s.head < c.length && s.tail < c.length
    requires OneSend(run, data, wait) && Possible(c, s, run) && After(c, s, run).writer == Resting
    ensures var e, space := After(c, s, run), SpacesAvailable(c.length, s.head, s.tail);
            && e.history.written == s.history.written + Put(c, data, space)
            && e.history.sent == s.history.sent + Messages(c, data, space)
            && e.history.read == s.history.read && e.history.delivered == s.history.delivered && e.reader == s.reader
  {
    var s1, space := Next(c, s, run[0]), SpacesAvailable(c.length, s.head, s.tail);
    SpaceIs(c, s);
    StepKeepsData(c, s, run[0]);
    assert Sending(c, s.history, data, space, s1) && s1.reader == s.reader;
    hide DataInv, Put, Messages, GoesOnSending, Possible, After, SpacesAvailable;
    SendingRun(c, s.history, data, space, s1, run[1..]);
  }

  /** Such a call can always end. */
  lemma {:induction false} SendEnds(c: Config, s: State, data: seq<Byte>, wait: bool) returns (run: seq<Step>)
    requires DataInv(c, s) && s.writer == Resting && Sendable(data)
    ensures OneSend(run, data, wait) && Possible(c, s, run) && After(c, s, run).writer == Resting
  {
    SpaceIs(c, s);
    var s1 := Next(c, s, SendCall(data, wait));
    assert DataInv(c, s1) by {
      StepKeepsData(c, s, SendCall(data, wait));
    }
    FormedIsAble(c, s1);
    assert InRange(c, s1);
    hide DataInv, Able, Next;
    var rest := SendsOn(c, s1);
    run := [SendCall(data, wait)] + rest;
    assert run[1..] == rest;
  }

  lemma {:induction false} SendsOn(c: Config, s: State) returns (run: seq<Step>)
    requires InRange(c, s) && Able(c, s.writer)
    ensures Possible(c, s, run) && GoesOnSending(run) && After(c, s, run).writer == Resting
    decreases ToGo(c, s.writer)
  {
    hide Able, Enabled, Next, InRange, ToGo, IsWriterStep;
    if s.writer == Resting {
      run := [];
    } else {
      GetsNearer(c, s);
      var step := NextOfItsOwn(s.writer);
      var rest := SendsOn(c, Next(c, s, step));
      run := [step] + rest;
      assert run[0] == step && run[1..] == rest;
    }
  }

  // ---------------------------------------------------------------------
  // Notifying the reader
  // ---------------------------------------------------------------------

  /** Where a call stands that found a reader registered. */
  predicate Noticing(c: Config, length0: nat, s: State)
  {
    var n, more := s.notes, |s.history.written| - length0;
    var waits := n.readerRegistered && !n.readerNotified;
    match s.writer
    case Checking => waits && more > 0
    case Notifying => waits && more > 0 && Fill(s.history) >= c.trigger
    case Resting =>
      if more == 0 then waits
      else more > 0 && n.readerNotified == (Fill(s.history) >= c.trigger) && n.readerRegistered == !n.readerNotified
    case Copying(_, _, _) => waits && more >= 0
    case _ => waits && more == 0
  }

  lemma {:induction false} NoticingStep(c: Config, length0: nat, s: State, step: Step)
    requires DataInv(c, s) && Noticing(c, length0, s) && s.writer != Resting
    requires Enabled(c, s, step) && IsWriterStep(step) && !step.SendCall?
    ensures Noticing(c, length0, Next(c, s, step))
  {
    SpaceIs(c, s);
    if s.writer.Copying? && s.writer.next == [] {
      ChunkIsSomething(c, s);
    }
    hide DataInv, LengthBytes, SpacesAvailable, BytesInBuffer, Wrapped;
  }

  lemma {:induction false} ChunkIsSomething(c: Config, s: State)
    requires DataInv(c, s) && s.writer.Copying? && s.writer.next == []
    ensures s.writer.chunk != []
  {
    hide Encode;
  }

  lemma {:induction false} NoticingRun(c: Config, length0: nat, s: State, run: seq<Step>)
    requires DataInv(c, s) && Noticing(c, length0, s) && Possible(c, s, run) && GoesOnSending(run)
    ensures Noticing(c, length0, After(c, s, run)) && DataInv(c, After(c, s, run))
    decreases |run|
  {
    hide DataInv, Noticing, Next, IsWriterStep;
    if run == [] {
    } else {
      assert IsWriterStep(run[0]) && !run[0].SendCall?;
      RestingWaits(c, s, run[0]);
      StepKeepsData(c, s, run[0]);
      HarmlessWriter(c, s, run[0]);
      NoticingStep(c, length0, s, run[0]);
      NoticingRun(c, length0, Next(c, s, run[0]), run[1..]);
    }
  }

  /** A registered reader that stands still during a call that writes something
      is notified by it, and taken off the register, exactly if there are then
      as many bytes as the trigger level asks for. */
  lemma {:induction false} NotifiedExactly(c: Config, s: State, data: seq<Byte>, wait: bool, run: seq<Step>)
    requires DataInv(c, s) && s.writer == Resting && s.notes.readerRegistered && !s.notes.readerNotified
    requires OneSend(run, data, wait) && Possible(c, s, run) && After(c, s, run).writer == Resting
    requires |After(c, s, run).history.written| > |s.history.written|
    ensures var e := After(c, s, run);
            && e.head < c.length && e.tail < c.length
            && (e.notes.readerNotified <==> BytesInBuffer(c.length, e.head, e.tail) >= c.trigger)
            && (e.notes.readerRegistered <==> !e.notes.readerNotified)
  {
    var s1 := Next(c, s, run[0]);
    StepKeepsData(c, s, run[0]);
    assert Noticing(c, |s.history.written|, s1);
    hide DataInv, GoesOnSending, Possible, After, BytesInBuffer;
    NoticingRun(c, |s.history.written|, s1, run[1..]);
    var e := After(c, s1, run[1..]);
    assert After(c, s, run) == e by { AfterFirst(c, s, run); }
    RingOf(c, e);
    SpaceIs(c, e);
  }

  lemma {:induction false} AfterFirst(c: Config, s: State, run: seq<Step>)
    requires run != [] && Possible(c, s, run)
    ensures Possible(c, Next(c, s, run[0]), run[1..]) && After(c, s, run) == After(c, Next(c, s, run[0]), run[1..])
  {
  }

  // ---------------------------------------------------------------------
  // Receiving
  // ---------------------------------------------------------------------

  predicate OneReceive(run: seq<Step>, max: nat, wait: bool)
  {
    run != [] && run[0] == ReceiveCall(max, wait) && GoesOnReceiving(run[1..])
  }

  predicate GoesOnReceiving(run: seq<Step>)
  {
    forall i :: 0 <= i < |run| ==> !IsWriterStep(run[i]) && !run[i].ReceiveCall?
  }

  /** What a call to receive has done to a history in which so many bytes were
      there. */
  predicate Received(c: Config, h0: History, max: nat, h: History)
  {
    var available := Fill(h0);
    if available <= Header(c) then
      h == h0
    else if c.framed then
      && |h0.delivered| < |h0.sent|
      && var m := h0.sent[|h0.delivered|];
         if |m| <= max then h == h0.(read := h0.read + LENGTH_BYTES + |m|, delivered := h0.delivered + [m])
         else h == h0
    else
      var n := if available < max then available else max;
      && 0 <= n && h0.read + n <= |h0.written|
      && if n == 0 then h == h0
         else h == h0.(read := h0.read + n, delivered := h0.delivered + [h0.written[h0.read..h0.read + n]])
  }

  /** Where such a call stands. */
  predicate Receiving(c: Config, h0: History, max: nat, s: State)
  {
    var h := s.history;
    match s.reader
    case Wanting(m) => m == max && h == h0
    case Waiting(m) => m == max && h == h0
    case Woken(m) => m == max && h == h0
    case Looking(m) => m == max && h == h0
    case Sizing(m, available, _) =>
      m == max && h == h0 && c.framed && Fill(h0) > LENGTH_BYTES && available == Fill(h0)
    case Refusing =>
      && c.framed && Fill(h0) > LENGTH_BYTES && h == h0.(read := h0.read + LENGTH_BYTES)
      && |h0.delivered| < |h0.sent| && |h0.sent[|h0.delivered|]| > max
    case Taking(count, _) =>
      && Fill(h0) > Header(c) && h == h0.(read := h0.read + Header(c))
      && if c.framed then |h0.delivered| < |h0.sent| && count == |h0.sent[|h0.delivered|]| <= max
         else count == Min(Fill(h0), max)
    case _ => Received(c, h0, max, h)
  }

  /** What is taken is the next message, or the next bytes. */
  lemma {:induction false} TakenIs(c: Config, s: State)
    requires DataInv(c, s) && s.reader.Taking? && |s.reader.got| == s.reader.count
    ensures s.history.read + s.reader.count <= |s.history.written|
    ensures s.reader.got == s.history.written[s.history.read..s.history.read + s.reader.count]
    ensures c.framed ==>
              s.reader.count > 0 && |s.history.delivered| < |s.history.sent|
              && s.reader.got == s.history.sent[|s.history.delivered|]
  {
    var h, r := s.history, s.reader;
    assert 0 < c.length == |s.bytes|;
    hide Encode, RingFormed;
    if c.framed {
      FramedIsDelivered(c, s.bytes, s.writer, h, r.got);
      PrefixNext(h.delivered, h.sent, r.got);
    }
  }

  lemma {:induction false} PrefixNext(a: seq<seq<Byte>>, b: seq<seq<Byte>>, m: seq<Byte>)
    requires a + [m] <= b
    ensures |a| < |b| && b[|a|] == m
  {
    assert (a + [m])[|a|] == m;
  }

  lemma {:induction false} ReceivingSize(c: Config, h0: History, max: nat, s: State)
    requires DataInv(c, s) && Receiving(c, h0, max, s) && Enabled(c, s, PublishTail) && s.reader.Sizing?
    ensures Receiving(c, h0, max, Next(c, s, PublishTail)) && Next(c, s, PublishTail).writer == s.writer
  {
    hide DataInv, BytesLength, SpacesAvailable, BytesInBuffer, Wrapped, Received;
    SizeOf(c, s);
  }

  lemma {:induction false} SizeOf(c: Config, s: State)
    requires DataInv(c, s) && s.reader.Sizing? && |s.reader.got| == LENGTH_BYTES
    ensures |s.history.delivered| < |s.history.sent|
    ensures var size := BytesLength(s.reader.got);
            size == |s.history.sent[|s.history.delivered|]| && Min(s.reader.available - LENGTH_BYTES, size) == size
  {
    SizeIs(c, s.bytes, s.writer, s.history, s.reader);
  }

  lemma {:induction false} ReceivingTaken(c: Config, h0: History, max: nat, s: State)
    requires DataInv(c, s) && Receiving(c, h0, max, s) && Enabled(c, s, PublishTail) && s.reader.Taking?
    ensures Receiving(c, h0, max, Next(c, s, PublishTail)) && Next(c, s, PublishTail).writer == s.writer
  {
    hide DataInv, SpacesAvailable, BytesInBuffer, Wrapped;
    TakenIs(c, s);
  }

  lemma {:induction false} ReceivingStep(c: Config, h0: History, max: nat, s: State, step: Step)
    requires DataInv(c, s) && Receiving(c, h0, max, s) && s.reader != Idle
    requires Enabled(c, s, step) && !IsWriterStep(step) && !step.ReceiveCall?
    ensures Receiving(c, h0, max, Next(c, s, step)) && Next(c, s, step).writer == s.writer
  {
    SpaceIs(c, s);
    hide DataInv, LengthBytes, BytesLength, SpacesAvailable, BytesInBuffer, Wrapped;
    if step.PublishTail? {
      hide Receiving;
      if s.reader.Sizing? {
        ReceivingSize(c, h0, max, s);
      } else {
        ReceivingTaken(c, h0, max, s);
      }
    }
  }

  lemma {:induction false} ReceivingRun(c: Config, h0: History, max: nat, s: State, run: seq<Step>)
    requires s.reader != Idle ==> DataInv(c, s)
    requires Receiving(c, h0, max, s) && Possible(c, s, run) && GoesOnReceiving(run)
    ensures Receiving(c, h0, max, After(c, s, run)) && After(c, s, run).writer == s.writer
    decreases |run|
  {
    hide DataInv, Receiving, Next, IsWriterStep;
    if run == [] {
    } else {
      assert !IsWriterStep(run[0]) && !run[0].ReceiveCall?;
      IdleWaits(c, s, run[0]);
      StepKeepsData(c, s, run[0]);
      PutBackEnds(c, s, run[0]);
      ReceivingStep(c, h0, max, s, run[0]);
      ReceivingRun(c, h0, max, Next(c, s, run[0]), run[1..]);
    }
  }

  /** A reader that is idle does nothing but call. */
  lemma {:induction false} IdleWaits(c: Config, s: State, step: Step)
    requires Enabled(c, s, step) && !IsWriterStep(step) && !step.ReceiveCall?
    ensures s.reader != Idle
  {
  }

  lemma {:induction false} PutBackEnds(c: Config, s: State, step: Step)
    requires Enabled(c, s, step)
    ensures Harmless(c, s, step) || Next(c, s, step).reader == Idle
  {
    hide Wrapped;
  }

  /** A call to receive, waiting or not, that goes through while the writer stands
      still takes what is there: nothing if there is no more than a length; the
      next message whole if the receive buffer has room for it, and otherwise
      nothing; of a stream as many bytes as are there and fit. */
  lemma {:induction false} ReceiveAlone(c: Config, s: State, max: nat, wait: bool, run: seq<Step>)
    requires DataInv(c, s) && s.reader == Idle
    requires OneReceive(run, max, wait) && Possible(c, s, run) && After(c, s, run).reader == Idle
    ensures Received(c, s.history, max, After(c, s, run).history) && After(c, s, run).writer == s.writer
  {
    var s1 := Next(c, s, run[0]);
    StepKeepsData(c, s, run[0]);
    assert Receiving(c, s.history, max, s1) && s1.writer == s.writer;
    hide DataInv, Received, GoesOnReceiving, Possible, After;
    ReceivingRun(c, s.history, max, s1, run[1..]);
  }

  // ---------------------------------------------------------------------
  // Notifying the writer
  // ---------------------------------------------------------------------

  /** Where a call stands that found the writer registered. */
  predicate Releasing(delivered0: nat, s: State)
  {
    var n := s.notes;
    var waits := n.writerRegistered && !n.writerNotified;
    match s.reader
    case Completing => waits && |s.history.delivered| > delivered0
    case Idle =>
      if |s.history.delivered| == delivered0 then waits
      else |s.history.delivered| > delivered0 && n.writerNotified && !n.writerRegistered
    case _ => waits && |s.history.delivered| == delivered0
  }

  lemma {:induction false} ReleasingRun(c: Config, delivered0: nat, s: State, run: seq<Step>)
    requires Releasing(delivered0, s) && Possible(c, s, run) && GoesOnReceiving(run)
    ensures Releasing(delivered0, After(c, s, run))
    decreases |run|
  {
    if run == [] {
    } else {
      assert !IsWriterStep(run[0]) && !run[0].ReceiveCall?;
      IdleWaits(c, s, run[0]);
      assert Releasing(delivered0, Next(c, s, run[0])) by {
        hide GoesOnReceiving, Possible, After, BytesInBuffer, BytesLength, Wrapped;
      }
      hide Next, Enabled, Releasing;
      ReleasingRun(c, delivered0, Next(c, s, run[0]), run[1..]);
    }
  }

  /** A registered writer that stands still during a call that delivers something
      is notified by it, and taken off the register. */
  lemma {:induction false} WriterIsNotified(c: Config, s: State, max: nat, wait: bool, run: seq<Step>)
    requires s.reader == Idle && s.notes.writerRegistered && !s.notes.writerNotified
    requires OneReceive(run, max, wait) && Possible(c, s, run) && After(c, s, run).reader == Idle
    ensures var e := After(c, s, run);
            if |e.history.delivered| == |s.history.delivered|
            then e.notes.writerRegistered && !e.notes.writerNotified
            else e.notes.writerNotified && !e.notes.writerRegistered
  {
    assert Releasing(|s.history.delivered|, Next(c, s, run[0]));
    hide GoesOnReceiving, Possible, After;
    ReleasingRun(c, |s.history.delivered|, Next(c, s, run[0]), run[1..]);
    AfterFirst(c, s, run);
  }

  // ---------------------------------------------------------------------
  // Waiting
  // ---------------------------------------------------------------------

  predicate IsWakeWriter(step: Step)
  {
    step.WakeWriter?
  }

  /** A writer that will not wait any more in this call. */
  predicate WriterIsThrough(w: Writer)
  {
    w.Resting? || w.Measured? || w.Copying? || w.Checking? || w.Notifying?
  }

  lemma {:induction false} ThroughNeverWakes(c: Config, s: State, run: seq<Step>)
    requires WriterIsThrough(s.writer) && Possible(c, s, run) && GoesOnSending(run)
    ensures forall i :: 0 <= i < |run| ==> !IsWakeWriter(run[i])
    decreases |run|
  {
    if run == [] {
    } else {
      assert IsWriterStep(run[0]) && !run[0].SendCall?;
      assert WriterIsThrough(Next(c, s, run[0]).writer) && !IsWakeWriter(run[0]) by {
        hide GoesOnSending, Possible, SpacesAvailable, BytesInBuffer, Wrapped, LengthBytes;
      }
      hide WriterIsThrough, Next, Enabled, IsWakeWriter;
      ThroughNeverWakes(c, Next(c, s, run[0]), run[1..]);
    }
  }

  lemma {:induction false} BlockedWakes(c: Config, s: State, run: seq<Step>)
    requires s.writer.Blocked? && Possible(c, s, run) && GoesOnSending(run) && After(c, s, run).writer == Resting
    ensures run != [] && IsWakeWriter(run[0])
  {
    assert run != [];
    assert IsWriterStep(run[0]);
  }

  /** A call to send waits if and only if it may and there is not space for all
      of its data. */
  lemma {:induction false} SendWaits(c: Config, s: State, data: seq<Byte>, wait: bool, run: seq<Step>)
    requires s.writer == Resting && s.head < c.length && s.tail < c.length
    requires OneSend(run, data, wait) && Possible(c, s, run) && After(c, s, run).writer == Resting
    ensures (exists i :: 0 <= i < |run| && IsWakeWriter(run[i]))
            <==> wait && SpacesAvailable(c.length, s.head, s.tail) < |data| + Header(c)
  {
    var s1, space := Next(c, s, run[0]), SpacesAvailable(c.length, s.head, s.tail);
    hide SpacesAvailable, BytesInBuffer, LengthBytes, Wrapped;
    if !wait {
      ThroughNeverWakes(c, s1, run[1..]);
    } else {
      assert s1.writer == Asking(data) && run[1..] != [];
      assert run[1..][0] == run[1] && run[1] == AskSpace;
      var s2 := Next(c, s1, run[1]);
      if space < |data| + Header(c) {
        AfterFirst(c, s, run);
        AfterFirst(c, s1, run[1..]);
        BlockedWakes(c, s2, run[1..][1..]);
        assert run[1..][1..][0] == run[2] && IsWakeWriter(run[2]);
      } else {
        ThroughNeverWakes(c, s2, run[1..][1..]);
        assert forall i :: 2 <= i < |run| ==> run[i] == run[1..][1..][i - 2];
      }
    }
  }

  /** Whose block time ends with too little space recorded measures again only if
      that record is nought. It writes no message unless the record is nought and
      there is now space for it; of a stream it writes as many bytes as were
      recorded, or, if that is nought, as now fit. */
  lemma {:induction false} TimedOutWrites(c: Config, s: State, data: seq<Byte>, found: nat)
    requires DataInv(c, s) && s.writer == Awake(data, found, true)
    ensures Possible(c, s, [UnregisterWriter, Decide])
    ensures s.head < c.length && s.tail < c.length
    ensures var w, space := After(c, s, [UnregisterWriter, Decide]).writer, SpacesAvailable(c.length, s.head, s.tail);
            if c.framed then w.Copying? <==> found == 0 && space >= |data| + LENGTH_BYTES
            else
              && (w.Copying? <==> space > 0)
              && (w.Copying? ==> w.chunk == data[..if found > 0 then found else Min(|data|, space)])
  {
    SpaceIs(c, s);
    var s1 := Next(c, s, UnregisterWriter);
    hide DataInv, SpacesAvailable, BytesInBuffer, LengthBytes, Wrapped;
    ShortOf(c, s);
    var run := [UnregisterWriter, Decide];
    assert run[0] == UnregisterWriter && run[1..] == [Decide] && [Decide][1..] == [];
    assert After(c, s, run) == Next(c, s1, Decide);
  }

  /** A writer that is notified looks for space again: it goes on with what there
      is now if that is enough, and otherwise waits again, registered. */
  lemma {:induction false} WokenLooksAgain(c: Config, s: State, data: seq<Byte>, found: nat)
    requires DataInv(c, s) && s.writer == Blocked(data, found) && s.notes.writerNotified
    ensures Possible(c, s, [WakeWriter(false), UnregisterWriter, AskSpace])
    ensures s.head < c.length && s.tail < c.length
    ensures var e := After(c, s, [WakeWriter(false), UnregisterWriter, AskSpace]);
            var space := SpacesAvailable(c.length, s.head, s.tail);
            && e.history == s.history && e.reader == s.reader && !e.notes.writerNotified
            && e.writer == (if space < |data| + Header(c) then Blocked(data, space) else Measured(data, space))
            && (e.notes.writerRegistered <==> e.writer.Blocked?)
  {
    SpaceIs(c, s);
    assert InRange(c, s);
    hide DataInv, SpacesAvailable, BytesInBuffer, LengthBytes, Wrapped;
    var run := [WakeWriter(false), UnregisterWriter, AskSpace];
    var s1 := Next(c, s, run[0]);
    var s2 := Next(c, s1, UnregisterWriter);
    assert run[1..] == [UnregisterWriter, AskSpace] && run[1..][1..] == [AskSpace] && [AskSpace][1..] == [];
    assert After(c, s1, run[1..]) == Next(c, s2, AskSpace);
  }

  lemma {:induction false} ShortOf(c: Config, s: State)
    requires DataInv(c, s) && s.writer.Awake?
    ensures InRange(c, s) && Sendable(s.writer.data) && s.writer.space < |s.writer.data| + Header(c)
    ensures |s.history.written| + Writes(c, s.writer.data, s.writer.space) < s.history.read + c.length
  {
    hide Encode;
  }

  predicate IsWakeReader(step: Step)
  {
    step.WakeReader?
  }

  /** A reader that will not wait any more in this call. */
  predicate ReaderIsThrough(r: Reader)
  {
    !r.Wanting? && !r.Waiting? && !r.Woken?
  }

  lemma {:induction false} ThroughNeverWoken(c: Config, s: State, run: seq<Step>)
    requires ReaderIsThrough(s.reader) && Possible(c, s, run) && GoesOnReceiving(run)
    ensures forall i :: 0 <= i < |run| ==> !IsWakeReader(run[i])
    decreases |run|
  {
    if run == [] {
    } else {
      assert !IsWriterStep(run[0]) && !run[0].ReceiveCall?;
      assert ReaderIsThrough(Next(c, s, run[0]).reader) && !IsWakeReader(run[0]) by {
        hide GoesOnReceiving, Possible, SpacesAvailable, BytesInBuffer, Wrapped, BytesLength;
      }
      hide ReaderIsThrough, Next, Enabled, IsWakeReader;
      ThroughNeverWoken(c, Next(c, s, run[0]), run[1..]);
    }
  }

  lemma {:induction false} WaitingWakes(c: Config, s: State, run: seq<Step>)
    requires s.reader.Waiting? && Possible(c, s, run) && GoesOnReceiving(run) && After(c, s, run).reader == Idle
    ensures run != [] && IsWakeReader(run[0])
  {
    assert run != [];
    assert !IsWriterStep(run[0]);
  }

  /** A call to receive waits if and only if it may and there is no more than a
      length. */
  lemma {:induction false} ReceiveWaits(c: Config, s: State, max: nat, wait: bool, run: seq<Step>)
    requires s.reader == Idle && s.head < c.length && s.tail < c.length
    requires OneReceive(run, max, wait) && Possible(c, s, run) && After(c, s, run).reader == Idle
    ensures (exists i :: 0 <= i < |run| && IsWakeReader(run[i]))
            <==> wait && BytesInBuffer(c.length, s.head, s.tail) <= Header(c)
  {
    var s1, available := Next(c, s, run[0]), BytesInBuffer(c.length, s.head, s.tail);
    hide SpacesAvailable, BytesInBuffer, BytesLength, Wrapped;
    if !wait {
      ThroughNeverWoken(c, s1, run[1..]);
    } else {
      assert s1.reader == Wanting(max) && run[1..] != [];
      assert run[1..][0] == run[1] && run[1] == AskData;
      var s2 := Next(c, s1, run[1]);
      if available <= Header(c) {
        AfterFirst(c, s, run);
        AfterFirst(c, s1, run[1..]);
        WaitingWakes(c, s2, run[1..][1..]);
        assert run[1..][1..][0] == run[2] && IsWakeReader(run[2]);
      } else {
        ThroughNeverWoken(c, s2, run[1..][1..]);
        assert forall i :: 2 <= i < |run| ==> run[i] == run[1..][1..][i - 2];
      }
    }
  }
}
