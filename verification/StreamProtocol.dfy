/** One task writing a stream or message buffer while another reads it, with
    every access to head, tail and the bytes between them a step of its own. */
module StreamProtocol {

  import opened StreamBuffers

  datatype Config = Config(length: nat, framed: bool, trigger: nat)

  datatype Writer =
    | Resting
    | Asking(data: seq<Byte>)                              // in a blocking send, about to look for space
    | Blocked(data: seq<Byte>, space: nat)                 // waiting for a notification
    | Awake(data: seq<Byte>, space: nat, timedOut: bool)   // back from it, still registered
    | Measured(data: seq<Byte>, space: nat)                // knows of so much space
    | Copying(chunk: seq<Byte>, done: nat, next: seq<Byte>)
    | Checking                                             // all published, about to look at the fill level
    | Notifying                                            // about to run sbSEND_COMPLETED

  datatype Reader =
    | Idle
    | Wanting(max: nat)                                    // in a blocking receive, about to look for data
    | Waiting(max: nat)                                    // waiting for a notification
    | Woken(max: nat)                                      // back from it, still registered
    | Looking(max: nat)                                    // about to look for data, for the last time
    | Sizing(max: nat, available: nat, got: seq<Byte>)     // copying the length of a message out
    | Refusing                                             // about to put the tail back
    | Taking(count: nat, got: seq<Byte>)                   // copying data out
    | Completing                                           // about to run sbRECEIVE_COMPLETED

  /** What the two have done so far: all bytes ever published, how many of them
      were released again, and the messages written and returned. */
  datatype History = History(written: seq<Byte>, read: nat, sent: seq<seq<Byte>>, delivered: seq<seq<Byte>>)

  /** xTaskWaitingToReceive and xTaskWaitingToSend, and the two notification states. */
  datatype Notes = Notes(readerRegistered: bool, readerNotified: bool, writerRegistered: bool, writerNotified: bool)

  datatype State = State(bytes: seq<Byte>, head: nat, tail: nat, writer: Writer, reader: Reader,
                         notes: Notes, history: History)

  datatype Step =
    | SendCall(data: seq<Byte>, wait: bool)
    | AskSpace
    | WakeWriter(timedOut: bool)
    | UnregisterWriter
    | Decide
    | CopyIn
    | PublishHead
    | CheckFill
    | SendCompleted
    | ReceiveCall(max: nat, wait: bool)
    | AskData
    | WakeReader
    | UnregisterReader
    | Look
    | CopyOut
    | PublishTail
    | PutTailBack
    | ReceiveCompleted

  function Header(c: Config): nat
  {
    if c.framed then LENGTH_BYTES else 0
  }

  ghost predicate InRange(c: Config, s: State)
  {
    0 < c.length == |s.bytes| && s.head < c.length && s.tail < c.length
  }

  /** configASSERT demands some data; its length must fit the length field. */
  predicate Sendable(data: seq<Byte>)
  {
    0 < |data| && |data| + LENGTH_BYTES < 0x1_0000_0000
  }

  ghost predicate Enabled(c: Config, s: State, step: Step)
  {
    && InRange(c, s)
    && match step
       case SendCall(data, _) => s.writer.Resting? && Sendable(data)
       case AskSpace => s.writer.Asking?
       case WakeWriter(timedOut) => s.writer.Blocked? && (s.notes.writerNotified || timedOut)
       case UnregisterWriter => s.writer.Awake?
       case Decide => s.writer.Measured? && Sendable(s.writer.data)
       case CopyIn => s.writer.Copying? && s.writer.done < |s.writer.chunk| && |s.writer.chunk| < c.length
       case PublishHead =>
         && s.writer.Copying? && s.writer.done == |s.writer.chunk| && |s.writer.chunk| < c.length
       case CheckFill => s.writer.Checking?
       case SendCompleted => s.writer.Notifying?
       case ReceiveCall(_, _) => s.reader.Idle?
       case AskData => s.reader.Wanting?
       case WakeReader => s.reader.Waiting?
       case UnregisterReader => s.reader.Woken?
       case Look => s.reader.Looking?
       case CopyOut =>
         || (s.reader.Sizing? && |s.reader.got| < LENGTH_BYTES < c.length)
         || (s.reader.Taking? && |s.reader.got| < s.reader.count < c.length)
       case PublishTail =>
         || (s.reader.Sizing? && |s.reader.got| == LENGTH_BYTES < c.length && LENGTH_BYTES <= s.reader.available)
         || (s.reader.Taking? && |s.reader.got| == s.reader.count < c.length)
       case PutTailBack => s.reader.Refusing? && LENGTH_BYTES < c.length
       case ReceiveCompleted => s.reader.Completing?
  }

  function Min(a: nat, b: nat): nat
  {
    if a < b then a else b
  }

  /** The branches of prvWriteMessageToBuffer. */
  function StartWriting(c: Config, data: seq<Byte>, space: nat): Writer
    requires Sendable(data)
  {
    if space == 0 then
      Resting
    else if !c.framed then
      Copying(data[..Min(|data|, space)], 0, [])
    else if space >= |data| + LENGTH_BYTES then
      Copying(LengthBytes(|data|), 0, data)
    else
      Resting
  }

  /** The branches of xStreamBufferReceive and prvReadMessageFromBuffer up to
      the first copy. */
  function StartReading(c: Config, max: nat, available: nat): Reader
  {
    if available <= Header(c) then
      Idle
    else if c.framed then
      Sizing(max, available, [])
    else
      Taking(Min(available, max), [])
  }

  function NextOfWriter(c: Config, s: State, step: Step): State
    requires Enabled(c, s, step)
  {
    var space := SpacesAvailable(c.length, s.head, s.tail);
    var w, n := s.writer, s.notes;
    match step
    case SendCall(data, wait) => s.(writer := if wait then Asking(data) else Measured(data, space))
    case AskSpace =>
      if space < |w.data| + Header(c) then
        s.(writer := Blocked(w.data, space), notes := n.(writerNotified := false, writerRegistered := true))
      else
        s.(writer := Measured(w.data, space))
    case WakeWriter(timedOut) =>
      s.(writer := Awake(w.data, w.space, timedOut), notes := n.(writerNotified := false))
    case UnregisterWriter =>
      s.(writer := if w.timedOut then Measured(w.data, if w.space == 0 then space else w.space) else Asking(w.data),
         notes := n.(writerRegistered := false))
    case Decide => s.(writer := StartWriting(c, w.data, w.space))
    case CopyIn =>
      s.(bytes := s.bytes[Wrapped(s.head + w.done, c.length) := w.chunk[w.done]], writer := w.(done := w.done + 1))
    case PublishHead =>
      var h := s.history;
      s.(head := Wrapped(s.head + |w.chunk|, c.length),
         writer := if w.next == [] then Checking else Copying(w.next, 0, []),
         history := h.(written := h.written + w.chunk, sent := if w.next == [] then h.sent + [w.chunk] else h.sent))
    case CheckFill =>
      s.(writer := if BytesInBuffer(c.length, s.head, s.tail) >= c.trigger then Notifying else Resting)
    case SendCompleted =>
      s.(writer := Resting,
         notes := if n.readerRegistered then n.(readerNotified := true, readerRegistered := false) else n)
    case _ => s
  }

  function NextOfReader(c: Config, s: State, step: Step): State
    requires Enabled(c, s, step)
  {
    var available := BytesInBuffer(c.length, s.head, s.tail);
    var r, n, h := s.reader, s.notes, s.history;
    match step
    case ReceiveCall(max, wait) => s.(reader := if wait then Wanting(max) else Looking(max))
    case AskData =>
      if available <= Header(c) then
        s.(reader := Waiting(r.max), notes := n.(readerNotified := false, readerRegistered := true))
      else
        s.(reader := StartReading(c, r.max, available))
    case WakeReader => s.(reader := Woken(r.max), notes := n.(readerNotified := false))
    case UnregisterReader => s.(reader := Looking(r.max), notes := n.(readerRegistered := false))
    case Look => s.(reader := StartReading(c, r.max, available))
    case CopyOut => s.(reader := r.(got := r.got + [s.bytes[Wrapped(s.tail + |r.got|, c.length)]]))
    case PublishTail =>
      if r.Sizing? then
        var size := BytesLength(r.got);
        s.(tail := Wrapped(s.tail + LENGTH_BYTES, c.length),
           reader := if size > r.max then Refusing else Taking(Min(r.available - LENGTH_BYTES, size), []),
           history := h.(read := h.read + LENGTH_BYTES))
      else if r.count > 0 then
        s.(tail := Wrapped(s.tail + r.count, c.length),
           reader := Completing,
           history := h.(read := h.read + r.count, delivered := h.delivered + [r.got]))
      else
        s.(reader := Idle)
    case PutTailBack =>
      s.(tail := Wrapped(s.tail + c.length - LENGTH_BYTES, c.length),
         reader := Idle,
         history := h.(read := if h.read < LENGTH_BYTES then 0 else h.read - LENGTH_BYTES))
    case ReceiveCompleted =>
      s.(reader := Idle,
         notes := if n.writerRegistered then n.(writerNotified := true, writerRegistered := false) else n)
    case _ => s
  }

  predicate IsWriterStep(step: Step)
  {
    || step.SendCall? || step.AskSpace? || step.WakeWriter? || step.UnregisterWriter? || step.Decide?
    || step.CopyIn? || step.PublishHead? || step.CheckFill? || step.SendCompleted?
  }

  function Next(c: Config, s: State, step: Step): State
    requires Enabled(c, s, step)
  {
    if IsWriterStep(step) then NextOfWriter(c, s, step) else NextOfReader(c, s, step)
  }

  // ---------------------------------------------------------------------
  // The invariant of the data
  // ---------------------------------------------------------------------

  /** Every published byte that has not been released is where it belongs. */
  ghost predicate RingFormed(length: nat, bytes: seq<Byte>, head: nat, tail: nat, written: seq<Byte>, read: nat)
  {
    && 0 < length == |bytes|
    && read <= |written| < read + length
    && head == Index(|written|, length) && tail == Index(read, length)
    && (forall p :: read <= p < |written| ==> bytes[Index(p, length)] == written[p])
  }

  /** So far a chunk is in place behind the published bytes. */
  ghost predicate CopiedIn(length: nat, bytes: seq<Byte>, at: nat, chunk: seq<Byte>, done: nat)
    requires 0 < length == |bytes|
  {
    done <= |chunk| && forall i :: 0 <= i < done ==> bytes[Index(at + i, length)] == chunk[i]
  }

  /** How much of its data, with its length, the writer puts into a space it
      has found. */
  function Writes(c: Config, data: seq<Byte>, space: nat): (n: nat)
    ensures n <= space
  {
    if !c.framed then Min(|data|, space)
    else if space >= |data| + LENGTH_BYTES then |data| + LENGTH_BYTES
    else 0
  }

  /** Up to where the writer will have written by the space it has found. */
  function Claim(c: Config, w: Writer, h: History): nat
  {
    match w
    case Blocked(data, space) => |h.written| + Writes(c, data, space)
    case Awake(data, space, _) => |h.written| + Writes(c, data, space)
    case Measured(data, space) => |h.written| + Writes(c, data, space)
    case Copying(chunk, _, next) => |h.written| + |chunk| + |next|
    case _ => |h.written|
  }

  /** Who waits for space, or has just stopped waiting, has found too little. */
  predicate Short(c: Config, w: Writer)
  {
    match w
    case Blocked(data, space) => space < |data| + Header(c)
    case Awake(data, space, _) => space < |data| + Header(c)
    case _ => true
  }

  /** Up to where it has written. */
  function Extent(w: Writer, h: History): nat
  {
    |h.written| + if w.Copying? then w.done else 0
  }

  ghost predicate WriterFormed(c: Config, bytes: seq<Byte>, w: Writer, h: History)
    requires 0 < c.length == |bytes|
  {
    && (forall i :: 0 <= i < |h.sent| ==> Sendable(h.sent[i]))
    && Claim(c, w, h) < h.read + c.length && Short(c, w)
    && match w
       case Asking(data) => Sendable(data) && h.written == Encode(h.sent, c.framed)
       case Blocked(data, _) => Sendable(data) && h.written == Encode(h.sent, c.framed)
       case Awake(data, _, _) => Sendable(data) && h.written == Encode(h.sent, c.framed)
       case Measured(data, _) => Sendable(data) && h.written == Encode(h.sent, c.framed)
       case Copying(chunk, done, next) =>
         && CopiedIn(c.length, bytes, |h.written|, chunk, done)
         && if next != []
            then c.framed && chunk == LengthBytes(|next|) && Sendable(next) && h.written == Encode(h.sent, c.framed)
            else Sendable(chunk) && h.written == Encode(h.sent, c.framed)
                                                 + if c.framed then LengthBytes(|chunk|) else []
       case _ => h.written == Encode(h.sent, c.framed)
  }

  /** The next message to read is complete. */
  predicate MessageReady(h: History, available: nat)
  {
    |h.delivered| < |h.sent| && available >= LENGTH_BYTES + |h.sent[|h.delivered|]|
  }

  predicate Delivered(h: History, framed: bool)
  {
    && (framed ==> h.delivered <= h.sent)
    && Encode(h.delivered, framed) <= h.written
  }

  ghost predicate CopiedOut(h: History, got: seq<Byte>, count: nat)
  {
    |got| <= count && h.read + count <= |h.written| && got == h.written[h.read..h.read + |got|]
  }

  ghost predicate ReaderFormed(c: Config, r: Reader, h: History)
  {
    && Delivered(h, c.framed)
    && match r
       case Sizing(max, available, got) =>
         && |Encode(h.delivered, c.framed)| == h.read && c.framed
         && CopiedOut(h, got, LENGTH_BYTES)
         && MessageReady(h, available) && h.read + available <= |h.written|
       case Refusing =>
         && c.framed && LENGTH_BYTES < c.length
         && |Encode(h.delivered, c.framed)| + LENGTH_BYTES == h.read <= |h.written|
       case Taking(count, got) =>
         && CopiedOut(h, got, count)
         && |Encode(h.delivered, c.framed)| + Header(c) == h.read
         && (c.framed ==> |h.delivered| < |h.sent| && count == |h.sent[|h.delivered|]|)
       case _ => |Encode(h.delivered, c.framed)| == h.read
  }

  /** The length bytes in front of the tail, which the tail may be put back to,
      are still there, unless they have been written over. */
  ghost predicate OldKept(length: nat, bytes: seq<Byte>, written: seq<Byte>, read: nat, extent: nat)
    requires 0 < length == |bytes|
  {
    forall p :: 0 <= p && read - LENGTH_BYTES <= p < read <= |written| && extent <= p + length ==>
      bytes[Index(p, length)] == written[p]
  }

  ghost predicate DataInv(c: Config, s: State)
  {
    && RingFormed(c.length, s.bytes, s.head, s.tail, s.history.written, s.history.read)
    && WriterFormed(c, s.bytes, s.writer, s.history)
    && ReaderFormed(c, s.reader, s.history)
    && (s.reader.Refusing? ==>
          OldKept(c.length, s.bytes, s.history.written, s.history.read, Extent(s.writer, s.history)))
  }

  // ---------------------------------------------------------------------
  // Ring steps
  // ---------------------------------------------------------------------

  /** Writing behind the published bytes disturbs none of them... */
  lemma {:induction false} RingUndisturbed(length: nat, bytes: seq<Byte>, head: nat, tail: nat,
                                           written: seq<Byte>, read: nat, at: nat, b: Byte)
    requires RingFormed(length, bytes, head, tail, written, read)
    requires |written| <= at < read + length
    ensures RingFormed(length, bytes[Index(at, length) := b], head, tail, written, read)
  {
    var bytes' := bytes[Index(at, length) := b];
    forall p | read <= p < |written| ensures bytes'[Index(p, length)] == written[p] {
      IndexApart(p, at, length);
    }
  }

  /** ... and none of the bytes copied before. */
  lemma {:induction false} CopiedOneMore(length: nat, bytes: seq<Byte>, at: nat, chunk: seq<Byte>, done: nat)
    requires 0 < length == |bytes| && CopiedIn(length, bytes, at, chunk, done) && done < |chunk| < length
    ensures CopiedIn(length, bytes[Index(at + done, length) := chunk[done]], at, chunk, done + 1)
  {
    var bytes' := bytes[Index(at + done, length) := chunk[done]];
    forall k | 0 <= k < done + 1 ensures bytes'[Index(at + k, length)] == chunk[k] {
      if k < done {
        IndexApart(at + k, at + done, length);
      }
    }
  }

  lemma {:induction false} RingPublish(length: nat, bytes: seq<Byte>, head: nat, tail: nat,
                                       written: seq<Byte>, read: nat, chunk: seq<Byte>)
    requires RingFormed(length, bytes, head, tail, written, read)
    requires CopiedIn(length, bytes, |written|, chunk, |chunk|) && |written| + |chunk| < read + length
    ensures RingFormed(length, bytes, Wrapped(head + |chunk|, length), tail, written + chunk, read)
  {
    IndexStep(|written|, |chunk|, length);
    var written' := written + chunk;
    forall p | read <= p < |written'| ensures bytes[Index(p, length)] == written'[p] {
      if p >= |written| {
        var i := p - |written|;
        assert bytes[Index(|written| + i, length)] == chunk[i];
      }
    }
  }

  /** The byte at a place in front of the tail. */
  lemma {:induction false} RingCopyOut(length: nat, bytes: seq<Byte>, head: nat, tail: nat,
                                       written: seq<Byte>, read: nat, i: nat)
    requires RingFormed(length, bytes, head, tail, written, read) && read + i < |written|
    ensures Wrapped(tail + i, length) < length && bytes[Wrapped(tail + i, length)] == written[read + i]
  {
    IndexStep(read, i, length);
    assert bytes[Index(read + i, length)] == written[read + i];
  }

  lemma {:induction false} RingRelease(length: nat, bytes: seq<Byte>, head: nat, tail: nat,
                                       written: seq<Byte>, read: nat, count: nat)
    requires RingFormed(length, bytes, head, tail, written, read) && read + count <= |written|
    ensures RingFormed(length, bytes, head, Wrapped(tail + count, length), written, read + count)
  {
    IndexStep(read, count, length);
  }

  /** Writing on leaves alone what is not yet due to be written over. */
  lemma {:induction false} OldUndisturbed(length: nat, bytes: seq<Byte>, written: seq<Byte>, read: nat,
                                          extent: nat, b: Byte)
    requires 0 < length == |bytes| && OldKept(length, bytes, written, read, extent) && |written| <= extent
    ensures OldKept(length, bytes[Index(extent, length) := b], written, read, extent + 1)
  {
    var bytes' := bytes[Index(extent, length) := b];
    forall p | 0 <= p && read - LENGTH_BYTES <= p < read <= |written| && extent + 1 <= p + length
      ensures bytes'[Index(p, length)] == written[p]
    {
      IndexApart(p, extent, length);
    }
  }

  /** The bytes just released are still there. */
  lemma {:induction false} OldFromRing(length: nat, bytes: seq<Byte>, head: nat, tail: nat, written: seq<Byte>,
                                       read: nat, extent: nat)
    requires RingFormed(length, bytes, head, tail, written, read)
    ensures OldKept(length, bytes, written, read + LENGTH_BYTES, extent)
  {
    hide Index;
  }

  /** Putting the tail back to bytes that are still there. */
  lemma {:induction false} RingPutBack(length: nat, bytes: seq<Byte>, head: nat, tail: nat, written: seq<Byte>,
                                       read: nat, extent: nat)
    requires RingFormed(length, bytes, head, tail, written, read) && LENGTH_BYTES <= read && LENGTH_BYTES < length
    requires OldKept(length, bytes, written, read, extent) && |written| <= extent < read - LENGTH_BYTES + length
    ensures RingFormed(length, bytes, head, Wrapped(tail + length - LENGTH_BYTES, length), written, read - LENGTH_BYTES)
  {
    IndexStep(read - LENGTH_BYTES, LENGTH_BYTES, length);
    hide Index;
  }

  // ---------------------------------------------------------------------
  // What one side does is fine with the other
  // ---------------------------------------------------------------------

  /** Publishing more changes nothing for the reader. */
  lemma {:induction false} ReaderKept(c: Config, r: Reader, h: History, chunk: seq<Byte>, more: seq<seq<Byte>>)
    requires ReaderFormed(c, r, h)
    ensures ReaderFormed(c, r, h.(written := h.written + chunk, sent := h.sent + more))
  {
    hide Encode;
    var h' := h.(written := h.written + chunk, sent := h.sent + more);
    assert Delivered(h', c.framed);
    match r {
      case Sizing(max, available, got) =>
        assert h'.written[h.read..h.read + |got|] == h.written[h.read..h.read + |got|];
      case Taking(count, got) =>
        assert h'.written[h.read..h.read + |got|] == h.written[h.read..h.read + |got|];
      case _ =>
    }
  }

  /** Releasing bytes changes nothing for the writer. */
  lemma {:induction false} WriterKept(c: Config, bytes: seq<Byte>, w: Writer, h: History, h': History)
    requires 0 < c.length == |bytes| && WriterFormed(c, bytes, w, h)
    requires h'.written == h.written && h'.sent == h.sent && h'.read >= h.read
    ensures WriterFormed(c, bytes, w, h')
  {
    hide Encode, CopiedIn, Sendable;
  }

  /** What is published: the messages sent and perhaps a length to come. */
  lemma {:induction false} WrittenIs(c: Config, bytes: seq<Byte>, w: Writer, h: History)
    requires 0 < c.length == |bytes| && WriterFormed(c, bytes, w, h)
    ensures Encode(h.sent, c.framed) <= h.written
    ensures |h.written| <= |Encode(h.sent, c.framed)| + Header(c)
    ensures !w.Copying? ==> h.written == Encode(h.sent, c.framed)
  {
    hide Encode, CopiedIn, Sendable;
  }

  lemma {:induction false} SameLength(a: seq<seq<Byte>>, b: seq<seq<Byte>>)
    requires a <= b
    ensures |a| == |b| ==> a == b
  {
  }

  /** More bytes than a length: there is a whole message. */
  lemma {:induction false} NextMessage(c: Config, h: History)
    requires c.framed && Delivered(h, true) && |Encode(h.delivered, true)| == h.read
    requires Encode(h.sent, true) <= h.written && |h.written| <= |Encode(h.sent, true)| + LENGTH_BYTES
    requires |h.written| > h.read + LENGTH_BYTES
    ensures MessageReady(h, |h.written| - h.read)
  {
    hide Encode;
    var d := |h.delivered|;
    SameLength(h.delivered, h.sent);
    assert h.delivered == h.sent[..d];
    if d < |h.sent| {
      EncodeAt(h.sent, d, true);
    }
  }

  /** The next bytes are the length and the data of the next message. */
  lemma {:induction false} NextBytes(c: Config, h: History)
    requires c.framed && Delivered(h, true) && Encode(h.sent, true) <= h.written && |h.delivered| < |h.sent|
    ensures var at := |Encode(h.delivered, true)|;
            var m := h.sent[|h.delivered|];
            at + LENGTH_BYTES + |m| <= |h.written|
            && h.written[at..at + LENGTH_BYTES] == LengthBytes(|m|)
            && h.written[at + LENGTH_BYTES..at + LENGTH_BYTES + |m|] == m
  {
    hide Encode;
    var d := |h.delivered|;
    assert h.delivered == h.sent[..d];
    EncodeAt(h.sent, d, true);
    var at, m := |Encode(h.delivered, true)|, h.sent[d];
    var e := Encode(h.sent, true);
    assert h.written[at..at + LENGTH_BYTES + |m|] == e[at..at + LENGTH_BYTES + |m|] == LengthBytes(|m|) + m;
    var f := h.written[at..at + LENGTH_BYTES + |m|];
    assert h.written[at..at + LENGTH_BYTES] == f[..LENGTH_BYTES];
    assert h.written[at + LENGTH_BYTES..at + LENGTH_BYTES + |m|] == f[LENGTH_BYTES..];
  }

  // ---------------------------------------------------------------------
  // Steps of the writer
  // ---------------------------------------------------------------------

  lemma {:induction false} SpaceIs(c: Config, s: State)
    requires RingFormed(c.length, s.bytes, s.head, s.tail, s.history.written, s.history.read)
    ensures s.head < c.length && s.tail < c.length
    ensures SpacesAvailable(c.length, s.head, s.tail) == c.length - 1 - (|s.history.written| - s.history.read)
    ensures BytesInBuffer(c.length, s.head, s.tail) == |s.history.written| - s.history.read
  {
    FillExact(|s.history.written|, s.history.read, c.length);
  }

  lemma {:induction false} DecideKeeps(c: Config, bytes: seq<Byte>, w: Writer, h: History)
    requires 0 < c.length == |bytes| && WriterFormed(c, bytes, w, h) && w.Measured?
    ensures WriterFormed(c, bytes, StartWriting(c, w.data, w.space), h)
  {
    hide Encode;
  }

  lemma {:induction false} WriterMoves(c: Config, s: State, step: Step)
    requires DataInv(c, s) && Enabled(c, s, step)
    requires IsWriterStep(step) && !step.CopyIn? && !step.PublishHead?
    ensures DataInv(c, Next(c, s, step))
  {
    OnlyTheWriter(c, s, step);
    MovedWriter(c, s, step);
    hide RingFormed, ReaderFormed, WriterFormed, OldKept, Extent, Next;
  }

  lemma {:induction false} OnlyTheWriter(c: Config, s: State, step: Step)
    requires Enabled(c, s, step) && IsWriterStep(step) && !step.CopyIn? && !step.PublishHead?
    ensures var t := Next(c, s, step);
            && t == s.(writer := t.writer, notes := t.notes)
            && Extent(t.writer, t.history) == Extent(s.writer, s.history)
  {
    hide SpacesAvailable, BytesInBuffer, LengthBytes;
  }

  lemma {:induction false} MovedWriter(c: Config, s: State, step: Step)
    requires DataInv(c, s) && Enabled(c, s, step)
    requires IsWriterStep(step) && !step.CopyIn? && !step.PublishHead?
    ensures WriterFormed(c, s.bytes, Next(c, s, step).writer, s.history)
  {
    SpaceIs(c, s);
    hide RingFormed, ReaderFormed, Encode, CopiedIn, SpacesAvailable, BytesInBuffer, StartWriting, Sendable, OldKept,
         Index, Wrapped, LengthBytes;
    if step.Decide? {
      DecideKeeps(c, s.bytes, s.writer, s.history);
    }
  }

  lemma {:induction false} CopiedWriter(c: Config, bytes: seq<Byte>, w: Writer, h: History)
    requires 0 < c.length == |bytes| && WriterFormed(c, bytes, w, h) && w.Copying? && w.done < |w.chunk| < c.length
    ensures WriterFormed(c, bytes[Index(|h.written| + w.done, c.length) := w.chunk[w.done]], w.(done := w.done + 1), h)
    ensures |h.written| + w.done < h.read + c.length
  {
    hide Encode, CopiedIn, Sendable, Index;
    CopiedOneMore(c.length, bytes, |h.written|, w.chunk, w.done);
  }

  lemma {:induction false} WriterCopies(c: Config, s: State)
    requires DataInv(c, s) && Enabled(c, s, CopyIn)
    ensures DataInv(c, Next(c, s, CopyIn))
  {
    hide WriterFormed, ReaderFormed, Wrapped, Index;
    var h, w := s.history, s.writer;
    IndexStep(|h.written|, w.done, c.length);
    CopiedWriter(c, s.bytes, w, h);
    RingUndisturbed(c.length, s.bytes, s.head, s.tail, h.written, h.read, |h.written| + w.done, w.chunk[w.done]);
    if s.reader.Refusing? {
      OldUndisturbed(c.length, s.bytes, h.written, h.read, |h.written| + w.done, w.chunk[w.done]);
    }
  }

  function Published(h: History, w: Writer): History
    requires w.Copying?
  {
    h.(written := h.written + w.chunk, sent := h.sent + if w.next == [] then [w.chunk] else [])
  }

  lemma {:induction false} PublishedWriter(c: Config, bytes: seq<Byte>, w: Writer, h: History)
    requires 0 < c.length == |bytes| && WriterFormed(c, bytes, w, h) && w.Copying?
    ensures WriterFormed(c, bytes, if w.next == [] then Checking else Copying(w.next, 0, []), Published(h, w))
  {
    hide Encode, Sendable;
    EncodeOneMore(h.sent, w.chunk, c.framed);
    assert h.sent + [] == h.sent;
  }

  lemma {:induction false} WriterPublishes(c: Config, s: State)
    requires DataInv(c, s) && Enabled(c, s, PublishHead)
    ensures DataInv(c, Next(c, s, PublishHead))
  {
    var h, w := s.history, s.writer;
    assert CopiedIn(c.length, s.bytes, |h.written|, w.chunk, w.done);
    hide RingFormed, ReaderFormed, WriterFormed, Wrapped, CopiedIn;
    PublishedWriter(c, s.bytes, w, h);
    RingPublish(c.length, s.bytes, s.head, s.tail, h.written, h.read, w.chunk);
    ReaderKept(c, s.reader, h, w.chunk, if w.next == [] then [w.chunk] else []);
    assert h.sent + [] == h.sent;
  }

  // ---------------------------------------------------------------------
  // Steps of the reader
  // ---------------------------------------------------------------------

  lemma {:induction false} StartKeeps(c: Config, h: History, max: nat)
    requires Delivered(h, c.framed) && |Encode(h.delivered, c.framed)| == h.read <= |h.written|
    requires Encode(h.sent, c.framed) <= h.written && |h.written| <= |Encode(h.sent, c.framed)| + Header(c)
    ensures ReaderFormed(c, StartReading(c, max, |h.written| - h.read), h)
  {
    hide Encode;
    if c.framed && |h.written| - h.read > LENGTH_BYTES {
      NextMessage(c, h);
    }
  }

  lemma {:induction false} ReaderMoves(c: Config, s: State, step: Step)
    requires DataInv(c, s) && Enabled(c, s, step)
    requires !IsWriterStep(step) && !step.CopyOut? && !step.PublishTail? && !step.PutTailBack?
    ensures DataInv(c, Next(c, s, step))
  {
    SpaceIs(c, s);
    WrittenIs(c, s.bytes, s.writer, s.history);
    assert s.history.read <= |s.history.written|;
    hide RingFormed, WriterFormed, Encode, SpacesAvailable, BytesInBuffer, StartReading;
    if step.Look? || step.AskData? {
      StartKeeps(c, s.history, s.reader.max);
    }
  }

  lemma {:induction false} GotOneMore(h: History, got: seq<Byte>, count: nat)
    requires CopiedOut(h, got, count) && |got| < count
    ensures CopiedOut(h, got + [h.written[h.read + |got|]], count)
  {
  }

  lemma {:induction false} CopiedReader(c: Config, r: Reader, h: History)
    requires ReaderFormed(c, r, h)
    requires (r.Sizing? && |r.got| < LENGTH_BYTES) || (r.Taking? && |r.got| < r.count)
    ensures h.read + |r.got| < |h.written|
    ensures ReaderFormed(c, r.(got := r.got + [h.written[h.read + |r.got|]]), h)
  {
    GotOneMore(h, r.got, if r.Sizing? then LENGTH_BYTES else r.count);
    assert h.read + |r.got| < |h.written|;
    hide Encode, Delivered, MessageReady, CopiedOut;
  }

  lemma {:induction false} ReaderCopies(c: Config, s: State)
    requires DataInv(c, s) && Enabled(c, s, CopyOut)
    ensures DataInv(c, Next(c, s, CopyOut))
  {
    hide RingFormed, WriterFormed, ReaderFormed, Wrapped;
    var h, r := s.history, s.reader;
    CopiedReader(c, r, h);
    RingCopyOut(c.length, s.bytes, s.head, s.tail, h.written, h.read, |r.got|);
  }

  /** A length that was read is that of the next message. */
  lemma {:induction false} SizeIs(c: Config, bytes: seq<Byte>, w: Writer, h: History, r: Reader)
    requires 0 < c.length == |bytes| && WriterFormed(c, bytes, w, h)
    requires ReaderFormed(c, r, h) && r.Sizing? && |r.got| == LENGTH_BYTES
    ensures |h.delivered| < |h.sent|
    ensures var size := BytesLength(r.got);
            size == |h.sent[|h.delivered|]| && Min(r.available - LENGTH_BYTES, size) == size
  {
    hide Encode, LengthBytes, BytesLength, CopiedIn;
    WrittenIs(c, bytes, w, h);
    NextBytes(c, h);
    var m := h.sent[|h.delivered|];
    assert Sendable(m);
    LengthRoundTrip(|m|);
  }

  lemma {:induction false} SizedIsFormed(c: Config, r: Reader, h: History)
    requires ReaderFormed(c, r, h) && r.Sizing? && LENGTH_BYTES < c.length
    ensures ReaderFormed(c, Taking(|h.sent[|h.delivered|]|, []), h.(read := h.read + LENGTH_BYTES))
    ensures ReaderFormed(c, Refusing, h.(read := h.read + LENGTH_BYTES))
    ensures h.read + LENGTH_BYTES <= |h.written|
  {
    hide Encode;
  }

  lemma {:induction false} ReaderSizes(c: Config, s: State)
    requires DataInv(c, s) && Enabled(c, s, PublishTail) && s.reader.Sizing?
    ensures DataInv(c, Next(c, s, PublishTail))
  {
    hide RingFormed, WriterFormed, ReaderFormed, Wrapped, BytesLength, OldKept, Extent;
    var h, r := s.history, s.reader;
    SizeIs(c, s.bytes, s.writer, h, r);
    SizedIsFormed(c, r, h);
    RingRelease(c.length, s.bytes, s.head, s.tail, h.written, h.read, LENGTH_BYTES);
    WriterKept(c, s.bytes, s.writer, h, h.(read := h.read + LENGTH_BYTES));
    OldFromRing(c.length, s.bytes, s.head, s.tail, h.written, h.read, Extent(s.writer, h));
    SameExtent(s.writer, h, h.(read := h.read + LENGTH_BYTES));
  }

  lemma {:induction false} SameExtent(w: Writer, h: History, h': History)
    requires h'.written == h.written
    ensures Extent(w, h') == Extent(w, h)
  {
  }

  lemma {:induction false} FramedGrows(messages: seq<seq<Byte>>, written: seq<Byte>, got: seq<Byte>)
    requires Encode(messages, true) <= written
    requires var at := |Encode(messages, true)|;
             at + LENGTH_BYTES + |got| <= |written|
             && written[at..at + LENGTH_BYTES] == LengthBytes(|got|)
             && written[at + LENGTH_BYTES..at + LENGTH_BYTES + |got|] == got
    ensures Encode(messages + [got], true) <= written
    ensures |Encode(messages + [got], true)| == |Encode(messages, true)| + LENGTH_BYTES + |got|
  {
    EncodeOneMore(messages, got, true);
    hide Encode, LengthBytes;
    var e := Encode(messages, true);
    assert written[..|e|] == e;
  }

  lemma {:induction false} UnframedGrows(messages: seq<seq<Byte>>, written: seq<Byte>, got: seq<Byte>)
    requires Encode(messages, false) <= written
    requires var at := |Encode(messages, false)|; at + |got| <= |written| && written[at..at + |got|] == got
    ensures Encode(messages + [got], false) <= written
    ensures |Encode(messages + [got], false)| == |Encode(messages, false)| + |got|
  {
    EncodeOneMore(messages, got, false);
    hide Encode;
    var e := Encode(messages, false);
    assert written[..|e|] == e;
  }

  lemma {:induction false} FramedIsDelivered(c: Config, bytes: seq<Byte>, w: Writer, h: History, got: seq<Byte>)
    requires 0 < c.length == |bytes| && WriterFormed(c, bytes, w, h) && c.framed
    requires ReaderFormed(c, Taking(|got|, got), h)
    ensures ReaderFormed(c, Completing, h.(read := h.read + |got|, delivered := h.delivered + [got]))
    ensures got != []
  {
    hide Encode, LengthBytes, CopiedIn, Sendable;
    WrittenIs(c, bytes, w, h);
    NextBytes(c, h);
    assert Sendable(h.sent[|h.delivered|]);
    assert 0 < |h.sent[|h.delivered|]| by { SendableIsSomething(h.sent[|h.delivered|]); }
    assert got == h.sent[|h.delivered|];
    FramedGrows(h.delivered, h.written, got);
  }

  lemma {:induction false} SendableIsSomething(data: seq<Byte>)
    requires Sendable(data)
    ensures data != []
  {
  }

  lemma {:induction false} UnframedIsDelivered(c: Config, h: History, got: seq<Byte>)
    requires !c.framed && ReaderFormed(c, Taking(|got|, got), h)
    ensures ReaderFormed(c, Completing, h.(read := h.read + |got|, delivered := h.delivered + [got]))
  {
    hide Encode;
    UnframedGrows(h.delivered, h.written, got);
  }

  lemma {:induction false} TakenIsDelivered(c: Config, bytes: seq<Byte>, w: Writer, h: History, r: Reader)
    requires 0 < c.length == |bytes| && WriterFormed(c, bytes, w, h)
    requires ReaderFormed(c, r, h) && r.Taking? && |r.got| == r.count
    ensures h.read + r.count <= |h.written|
    ensures r.count > 0 ==>
              ReaderFormed(c, Completing, h.(read := h.read + r.count, delivered := h.delivered + [r.got]))
    ensures r.count == 0 ==> ReaderFormed(c, Idle, h)
  {
    hide WriterFormed, Encode;
    if c.framed {
      FramedIsDelivered(c, bytes, w, h, r.got);
    } else if r.count > 0 {
      UnframedIsDelivered(c, h, r.got);
    }
  }

  lemma {:induction false} ReaderTakes(c: Config, s: State)
    requires DataInv(c, s) && Enabled(c, s, PublishTail) && s.reader.Taking?
    ensures DataInv(c, Next(c, s, PublishTail))
  {
    hide RingFormed, ReaderFormed, WriterFormed, Wrapped;
    var h, r := s.history, s.reader;
    TakenIsDelivered(c, s.bytes, s.writer, h, r);
    if r.count > 0 {
      RingRelease(c.length, s.bytes, s.head, s.tail, h.written, h.read, r.count);
      WriterKept(c, s.bytes, s.writer, h, h.(read := h.read + r.count, delivered := h.delivered + [r.got]));
    }
  }

  lemma {:induction false} PutBackKeeps(c: Config, s: State)
    requires DataInv(c, s) && Enabled(c, s, PutTailBack)
    requires Claim(c, s.writer, s.history) < s.history.read - LENGTH_BYTES + c.length
    ensures DataInv(c, Next(c, s, PutTailBack))
  {
    var h := s.history;
    ExtentClaimed(c, s.bytes, s.writer, h);
    RingPutBack(c.length, s.bytes, s.head, s.tail, h.written, h.read, Extent(s.writer, h));
    hide RingFormed, Encode, CopiedIn, Sendable, OldKept, Wrapped;
  }

  /** Putting the tail back keeps the data exactly if all that the writer has
      written or is about to write fits behind the old tail too. */
  lemma {:induction false} PutBackExact(c: Config, s: State)
    requires DataInv(c, s) && Enabled(c, s, PutTailBack)
    ensures LENGTH_BYTES <= s.history.read
    ensures DataInv(c, Next(c, s, PutTailBack))
            <==> Claim(c, s.writer, s.history) < s.history.read - LENGTH_BYTES + c.length
  {
    if Claim(c, s.writer, s.history) < s.history.read - LENGTH_BYTES + c.length {
      PutBackKeeps(c, s);
    }
    hide RingFormed, Encode, CopiedIn, Sendable, OldKept, Wrapped;
  }

  lemma {:induction false} ExtentClaimed(c: Config, bytes: seq<Byte>, w: Writer, h: History)
    requires 0 < c.length == |bytes| && WriterFormed(c, bytes, w, h)
    ensures |h.written| <= Extent(w, h) <= Claim(c, w, h)
  {
    hide Encode, Sendable;
  }

  /** A step does not put the tail back under the writer. */
  predicate Harmless(c: Config, s: State, step: Step)
  {
    step.PutTailBack? ==> Claim(c, s.writer, s.history) < s.history.read - LENGTH_BYTES + c.length
  }

  /** Every step keeps the data except putting the tail back under the writer. */
  lemma {:induction false} StepKeepsData(c: Config, s: State, step: Step)
    requires DataInv(c, s) && Enabled(c, s, step)
    ensures DataInv(c, Next(c, s, step)) <==> Harmless(c, s, step)
  {
    hide DataInv, Next;
    match step
    case CopyIn => WriterCopies(c, s);
    case PublishHead => WriterPublishes(c, s);
    case CopyOut => ReaderCopies(c, s);
    case PublishTail =>
      if s.reader.Sizing? {
        ReaderSizes(c, s);
      } else {
        ReaderTakes(c, s);
      }
    case PutTailBack => PutBackExact(c, s);
    case _ =>
      if IsWriterStep(step) {
        WriterMoves(c, s, step);
      } else {
        ReaderMoves(c, s, step);
      }
  }

  // ---------------------------------------------------------------------
  // The invariant of the notifications
  // ---------------------------------------------------------------------

  function Fill(h: History): int
  {
    |h.written| - h.read
  }

  /** The writer has published something and not yet looked at the trigger
      level or not yet acted on it. */
  predicate OwesNotice(w: Writer)
  {
    w.Copying? || w.Checking? || w.Notifying?
  }

  /** The reader has released something and not yet told the writer. */
  predicate OwesSpace(c: Config, r: Reader)
  {
    r.Completing? || r.Refusing? || (r.Taking? && c.framed)
  }

  predicate ReaderNoted(c: Config, r: Reader, w: Writer, n: Notes, h: History)
  {
    && (n.readerRegistered ==> r.Woken? || (r.Waiting? && !n.readerNotified))
    && (r.Waiting? && !n.readerNotified ==> n.readerRegistered)
    && (n.readerRegistered && !OwesNotice(w) ==> Fill(h) < c.trigger)
  }

  predicate WriterNoted(c: Config, r: Reader, w: Writer, n: Notes, h: History)
  {
    && (n.writerRegistered ==> w.Awake? || (w.Blocked? && !n.writerNotified))
    && (w.Blocked? && !n.writerNotified ==> n.writerRegistered)
    && (n.writerRegistered && (w.Blocked? || w.Awake?) && !OwesSpace(c, r) ==>
          c.length - 1 - Fill(h) < |w.data| + Header(c))
    && (n.writerRegistered && (w.Blocked? || w.Awake?) && r.Refusing? ==>
          c.length - 1 - (Fill(h) + LENGTH_BYTES) < |w.data| + Header(c))
  }

  ghost predicate NotesInv(c: Config, s: State)
  {
    && 0 < c.trigger
    && ReaderNoted(c, s.reader, s.writer, s.notes, s.history)
    && WriterNoted(c, s.reader, s.writer, s.notes, s.history)
  }

  /** Between calls of the writer a buffer that holds no more than a message
      length holds nothing. */
  lemma {:induction false} NothingThere(c: Config, s: State)
    requires DataInv(c, s) && !OwesNotice(s.writer) && s.reader.Wanting?
    ensures Fill(s.history) <= Header(c) ==> Fill(s.history) == 0
  {
    hide Encode;
    var h := s.history;
    WrittenIs(c, s.bytes, s.writer, h);
    hide RingFormed;
    if c.framed {
      SameLength(h.delivered, h.sent);
      if |h.delivered| < |h.sent| {
        NextBytes(c, h);
        assert Sendable(h.sent[|h.delivered|]);
      }
    }
  }

  lemma {:induction false} WriterKeepsNotes(c: Config, s: State, step: Step)
    requires DataInv(c, s) && NotesInv(c, s) && Enabled(c, s, step) && IsWriterStep(step)
    ensures NotesInv(c, Next(c, s, step))
  {
    SpaceIs(c, s);
    hide DataInv, Wrapped, SpacesAvailable, BytesInBuffer;
  }

  lemma {:induction false} ReaderKeepsNotes(c: Config, s: State, step: Step)
    requires DataInv(c, s) && NotesInv(c, s) && Enabled(c, s, step) && !IsWriterStep(step)
    ensures NotesInv(c, Next(c, s, step))
  {
    SpaceIs(c, s);
    if step.AskData? && !OwesNotice(s.writer) {
      NothingThere(c, s);
    }
    assert s.reader.Refusing? ==> LENGTH_BYTES <= s.history.read;
    hide DataInv, Wrapped, SpacesAvailable, BytesInBuffer, BytesLength;
  }

  // ---------------------------------------------------------------------
  // Runs
  // ---------------------------------------------------------------------

  ghost predicate Init(c: Config, s: State)
  {
    && 0 < c.length == |s.bytes| && 0 < c.trigger
    && s.head == 0 && s.tail == 0 && s.writer == Resting && s.reader == Idle
    && s.notes == Notes(false, false, false, false) && s.history == History([], 0, [], [])
  }

  ghost predicate Possible(c: Config, s: State, run: seq<Step>)
    decreases |run|
  {
    run == [] || (Enabled(c, s, run[0]) && Possible(c, Next(c, s, run[0]), run[1..]))
  }

  function After(c: Config, s: State, run: seq<Step>): State
    requires Possible(c, s, run)
    decreases |run|
  {
    if run == [] then s else After(c, Next(c, s, run[0]), run[1..])
  }

  /** A run in which the tail is never put back under the writer. */
  ghost predicate Untorn(c: Config, s: State, run: seq<Step>)
    requires Possible(c, s, run)
    decreases |run|
  {
    run == [] || (Harmless(c, s, run[0]) && Untorn(c, Next(c, s, run[0]), run[1..]))
  }

  lemma {:induction false} RunKeeps(c: Config, s: State, run: seq<Step>)
    requires DataInv(c, s) && NotesInv(c, s) && Possible(c, s, run) && Untorn(c, s, run)
    ensures DataInv(c, After(c, s, run)) && NotesInv(c, After(c, s, run))
    decreases |run|
  {
    hide DataInv, NotesInv, Enabled, Next, Harmless, IsWriterStep;
    if run == [] {
    } else {
      StepKeepsData(c, s, run[0]);
      if IsWriterStep(run[0]) {
        WriterKeepsNotes(c, s, run[0]);
      } else {
        ReaderKeepsNotes(c, s, run[0]);
      }
      RunKeeps(c, Next(c, s, run[0]), run[1..]);
    }
  }

  lemma {:induction false} InitInv(c: Config, s: State)
    requires Init(c, s)
    ensures DataInv(c, s) && NotesInv(c, s)
  {
  }

  /** In every interleaving the messages delivered are the first of those sent,
      whole and in order; from a stream buffer the bytes are. */
  lemma {:induction false} DeliversInOrder(c: Config, s: State, run: seq<Step>)
    requires Init(c, s) && Possible(c, s, run) && Untorn(c, s, run)
    ensures var h := After(c, s, run).history;
            && (c.framed ==> h.delivered <= h.sent)
            && (!c.framed ==> Encode(h.delivered, false) <= h.written
                              && (!After(c, s, run).writer.Copying? ==> h.written == Encode(h.sent, false)))
  {
    InitInv(c, s);
    RunKeeps(c, s, run);
    hide Encode;
    var e := After(c, s, run);
    WrittenIs(c, e.bytes, e.writer, e.history);
  }

  /** How far from the tail the reader copies. */
  function Reach(r: Reader): nat
  {
    match r
    case Sizing(_, _, _) => LENGTH_BYTES
    case Taking(count, _) => count
    case _ => 0
  }

  lemma {:induction false} ReachBound(c: Config, r: Reader, h: History)
    requires ReaderFormed(c, r, h)
    ensures Reach(r) > 0 ==> h.read + Reach(r) <= |h.written|
  {
    hide Encode, Delivered, MessageReady;
  }

  lemma {:induction false} ChunkBound(c: Config, bytes: seq<Byte>, w: Writer, h: History)
    requires 0 < c.length == |bytes| && WriterFormed(c, bytes, w, h) && w.Copying?
    ensures |h.written| + |w.chunk| < h.read + c.length && w.done <= |w.chunk|
  {
    hide Encode, Sendable;
  }

  lemma {:induction false} Apart(c: Config, e: State, i: nat, j: nat)
    requires DataInv(c, e) && e.writer.Copying? && i < |e.writer.chunk| && j < Reach(e.reader)
    ensures Wrapped(e.head + i, c.length) != Wrapped(e.tail + j, c.length)
  {
    hide WriterFormed, ReaderFormed, Index, Wrapped, Reach;
    var h := e.history;
    ReachBound(c, e.reader, h);
    ChunkBound(c, e.bytes, e.writer, h);
    IndexStep(|h.written|, i, c.length);
    IndexStep(h.read, j, c.length);
    assert h.read + j < |h.written| + i < h.read + j + c.length;
    IndexApart(h.read + j, |h.written| + i, c.length);
  }

  /** The place the writer copies a byte to is never one the reader copies from. */
  lemma {:induction false} CopiesApart(c: Config, s: State, run: seq<Step>, i: nat, j: nat)
    requires Init(c, s) && Possible(c, s, run) && Untorn(c, s, run)
    requires After(c, s, run).writer.Copying? && i < |After(c, s, run).writer.chunk|
    requires j < Reach(After(c, s, run).reader)
    ensures var e := After(c, s, run);
            Wrapped(e.head + i, c.length) != Wrapped(e.tail + j, c.length)
  {
    hide Init, DataInv, NotesInv, After, Wrapped, Reach, Untorn, Possible;
    InitInv(c, s);
    RunKeeps(c, s, run);
    Apart(c, After(c, s, run), i, j);
  }

  /** No notification is lost: while the writer is between calls, a reader that
      is registered, or waits without having been notified, waits for more
      bytes than there are; and likewise a writer for space. */
  lemma {:induction false} NoLostNotification(c: Config, s: State, run: seq<Step>)
    requires Init(c, s) && Possible(c, s, run) && Untorn(c, s, run)
    ensures var e := After(c, s, run);
            e.head < c.length && e.tail < c.length
    ensures var e := After(c, s, run);
            e.writer == Resting && (e.notes.readerRegistered || (e.reader.Waiting? && !e.notes.readerNotified)) ==>
              BytesInBuffer(c.length, e.head, e.tail) < c.trigger
    ensures var e := After(c, s, run);
            e.reader == Idle && e.writer.Blocked? && !e.notes.writerNotified ==>
              SpacesAvailable(c.length, e.head, e.tail) < |e.writer.data| + Header(c)
  {
    InitInv(c, s);
    RunKeeps(c, s, run);
    hide WriterFormed, ReaderFormed;
    SpaceIs(c, After(c, s, run));
  }

  /** Neither side can get stuck in the middle of a copy. */
  lemma {:induction false} WriterNeverStuck(c: Config, s: State, run: seq<Step>)
    requires Init(c, s) && Possible(c, s, run) && Untorn(c, s, run)
    ensures var e := After(c, s, run);
            && (e.writer.Copying? ==> Enabled(c, e, CopyIn) || Enabled(c, e, PublishHead))
            && (e.writer.Measured? ==> Enabled(c, e, Decide))
  {
    InitInv(c, s);
    RunKeeps(c, s, run);
    hide Encode, Index, CopiedIn, ReaderFormed;
    var e := After(c, s, run);
    SpaceIs(c, e);
    if e.writer.Copying? {
      ChunkBound(c, e.bytes, e.writer, e.history);
    }
  }

  lemma {:induction false} ReaderGoesOn(c: Config, e: State)
    requires DataInv(c, e)
    ensures e.reader.Sizing? || e.reader.Taking? ==> Enabled(c, e, CopyOut) || Enabled(c, e, PublishTail)
    ensures e.reader.Refusing? ==> Enabled(c, e, PutTailBack)
  {
    SpaceIs(c, e);
    hide Encode, Index, WriterFormed, Delivered;
  }

  lemma {:induction false} ReaderNeverStuck(c: Config, s: State, run: seq<Step>)
    requires Init(c, s) && Possible(c, s, run) && Untorn(c, s, run)
    ensures var e := After(c, s, run);
            && (e.reader.Sizing? || e.reader.Taking? ==> Enabled(c, e, CopyOut) || Enabled(c, e, PublishTail))
            && (e.reader.Refusing? ==> Enabled(c, e, PutTailBack))
  {
    hide Init, DataInv, NotesInv, After, Untorn, Possible, Enabled;
    InitInv(c, s);
    RunKeeps(c, s, run);
    ReaderGoesOn(c, After(c, s, run));
  }
}
