/** A rule that keeps the tail from being put back: no message is longer than
    the receive buffers of the readers. */
module StreamRooms {

  import opened StreamBuffers
  import opened StreamProtocol

  predicate Roomy(c: Config, room: nat, step: Step)
  {
    c.framed ==>
      && (step.SendCall? ==> |step.data| <= room)
      && (step.ReceiveCall? ==> room <= step.max)
  }

  predicate WriterRoomy(w: Writer, room: nat)
  {
    match w
    case Asking(data) => |data| <= room
    case Blocked(data, _) => |data| <= room
    case Awake(data, _, _) => |data| <= room
    case Measured(data, _) => |data| <= room
    case Copying(chunk, _, next) => if next == [] then |chunk| <= room else |next| <= room
    case _ => true
  }

  predicate ReaderRoomy(r: Reader, room: nat)
  {
    match r
    case Wanting(max) => room <= max
    case Waiting(max) => room <= max
    case Woken(max) => room <= max
    case Looking(max) => room <= max
    case Sizing(max, _, _) => room <= max
    case _ => true
  }

  ghost predicate RoomInv(c: Config, room: nat, s: State)
  {
    && !s.reader.Refusing?
    && (c.framed ==>
          && WriterRoomy(s.writer, room) && ReaderRoomy(s.reader, room)
          && forall i :: 0 <= i < |s.history.sent| ==> |s.history.sent[i]| <= room)
  }

  /** Then every message that is read has room. */
  lemma {:induction false} SizeHasRoom(c: Config, room: nat, s: State)
    requires DataInv(c, s) && RoomInv(c, room, s) && s.reader.Sizing? && |s.reader.got| == LENGTH_BYTES
    ensures BytesLength(s.reader.got) <= s.reader.max
  {
    SizeIs(c, s.bytes, s.writer, s.history, s.reader);
    assert c.framed;
    hide DataInv, BytesLength, Encode;
  }

  lemma {:induction false} WriterKeepsRoom(c: Config, room: nat, s: State, step: Step)
    requires DataInv(c, s) && RoomInv(c, room, s) && Enabled(c, s, step) && Roomy(c, room, step) && IsWriterStep(step)
    ensures RoomInv(c, room, Next(c, s, step))
  {
    WriterKind(c, s);
    hide DataInv, LengthBytes, Wrapped, SpacesAvailable, BytesInBuffer, Sendable, ReaderRoomy;
  }

  lemma {:induction false} ReaderKeepsRoom(c: Config, room: nat, s: State, step: Step)
    requires DataInv(c, s) && RoomInv(c, room, s) && Enabled(c, s, step) && Roomy(c, room, step) && !IsWriterStep(step)
    ensures RoomInv(c, room, Next(c, s, step)) && !step.PutTailBack?
  {
    if step.PublishTail? && s.reader.Sizing? {
      SizeHasRoom(c, room, s);
    }
    hide DataInv, BytesLength, Wrapped, SpacesAvailable, BytesInBuffer, Sendable, WriterRoomy;
  }

  lemma {:induction false} StepKeepsRoom(c: Config, room: nat, s: State, step: Step)
    requires DataInv(c, s) && RoomInv(c, room, s) && Enabled(c, s, step) && Roomy(c, room, step)
    ensures RoomInv(c, room, Next(c, s, step)) && Harmless(c, s, step)
  {
    hide DataInv, RoomInv, Enabled, Next, Roomy;
    if IsWriterStep(step) {
      WriterKeepsRoom(c, room, s, step);
    } else {
      ReaderKeepsRoom(c, room, s, step);
    }
  }

  /** What is copied in front of a message is never empty. */
  lemma {:induction false} WriterKind(c: Config, s: State)
    requires DataInv(c, s)
    ensures s.writer.Measured? ==> s.writer.data != []
  {
    hide Encode;
  }

  lemma {:induction false} RunKeepsRoom(c: Config, room: nat, s: State, run: seq<Step>)
    requires DataInv(c, s) && RoomInv(c, room, s) && Possible(c, s, run)
    requires forall i :: 0 <= i < |run| ==> Roomy(c, room, run[i])
    ensures Untorn(c, s, run) && RoomInv(c, room, After(c, s, run))
    decreases |run|
  {
    hide DataInv, RoomInv, Enabled, Next, Roomy, Harmless;
    if run == [] {
    } else {
      assert Roomy(c, room, run[0]);
      StepKeepsRoom(c, room, s, run[0]);
      StepKeepsData(c, s, run[0]);
      RunKeepsRoom(c, room, Next(c, s, run[0]), run[1..]);
    }
  }

  /** Where no message is longer than the receive buffers, nothing is refused,
      and the tail never put back under the writer. */
  lemma {:induction false} RoomyIsUntorn(c: Config, room: nat, s: State, run: seq<Step>)
    requires Init(c, s) && Possible(c, s, run)
    requires forall i :: 0 <= i < |run| ==> Roomy(c, room, run[i])
    ensures Untorn(c, s, run) && !After(c, s, run).reader.Refusing?
  {
    InitInv(c, s);
    hide Possible, After, Untorn;
    RunKeepsRoom(c, room, s, run);
  }
}
