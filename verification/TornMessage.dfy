/** A run in which a message that a reader has refused is torn: the writer has
    found room where the tail then is put back to. */
module TornMessage {

  import opened StreamBuffers
  import opened StreamProtocol

  // ---------------------------------------------------------------------
  // Putting a run together
  // ---------------------------------------------------------------------

  ghost predicate Reaches(c: Config, s: State, s': State)
  {
    exists run :: Possible(c, s, run) && After(c, s, run) == s'
  }

  lemma {:induction false} ReachesItself(c: Config, s: State)
    ensures Reaches(c, s, s)
  {
    assert Possible(c, s, []) && After(c, s, []) == s;
  }

  lemma {:induction false} RunsOn(c: Config, s: State, run: seq<Step>, step: Step)
    requires Possible(c, s, run) && Enabled(c, After(c, s, run), step)
    ensures Possible(c, s, run + [step]) && After(c, s, run + [step]) == Next(c, After(c, s, run), step)
    decreases |run|
  {
    hide Enabled, Next;
    if run == [] {
      assert [step][1..] == [];
      assert run + [step] == [step];
    } else {
      RunsOn(c, Next(c, s, run[0]), run[1..], step);
      assert (run + [step])[1..] == run[1..] + [step];
    }
  }

  lemma {:induction false} Follows(c: Config, s0: State, s: State, step: Step)
    requires Reaches(c, s0, s) && Enabled(c, s, step)
    ensures Reaches(c, s0, Next(c, s, step))
  {
    hide Enabled, Next, Possible, After;
    var run :| Possible(c, s0, run) && After(c, s0, run) == s;
    RunsOn(c, s0, run, step);
  }

  /** The bytes after the copying of a chunk from some byte on. */
  function Filled(bytes: seq<Byte>, head: nat, chunk: seq<Byte>, done: nat): (r: seq<Byte>)
    requires head < |bytes| && done <= |chunk| < |bytes|
    ensures |r| == |bytes|
    decreases |chunk| - done
  {
    if done == |chunk| then bytes
    else Filled(bytes[Wrapped(head + done, |bytes|) := chunk[done]], head, chunk, done + 1)
  }

  lemma {:induction false} CopiesIn(c: Config, s0: State, s: State)
    requires Reaches(c, s0, s) && InRange(c, s) && s.writer.Copying?
    requires s.writer.done <= |s.writer.chunk| < c.length
    ensures Reaches(c, s0, s.(bytes := Filled(s.bytes, s.head, s.writer.chunk, s.writer.done),
                              writer := s.writer.(done := |s.writer.chunk|)))
    decreases |s.writer.chunk| - s.writer.done
  {
    hide Reaches;
    var w := s.writer;
    if w.done == |w.chunk| {
      assert s.(bytes := s.bytes, writer := w.(done := |w.chunk|)) == s;
    } else {
      assert Enabled(c, s, CopyIn);
      Follows(c, s0, s, CopyIn);
      CopiesIn(c, s0, Next(c, s, CopyIn));
    }
  }

  /** So many bytes from the tail on. */
  function FromTail(bytes: seq<Byte>, tail: nat, from: nat, upTo: nat): seq<Byte>
    requires from <= upTo < |bytes| && tail < |bytes|
    decreases upTo - from
  {
    if from == upTo then [] else [bytes[Wrapped(tail + from, |bytes|)]] + FromTail(bytes, tail, from + 1, upTo)
  }

  function Goal(r: Reader): nat
  {
    match r
    case Sizing(_, _, _) => LENGTH_BYTES
    case Taking(count, _) => count
    case _ => 0
  }

  lemma {:induction false} CopiesOut(c: Config, s0: State, s: State)
    requires Reaches(c, s0, s) && InRange(c, s) && (s.reader.Sizing? || s.reader.Taking?)
    requires |s.reader.got| <= Goal(s.reader) < c.length
    ensures Reaches(c, s0, s.(reader := s.reader.(got := s.reader.got
                                                         + FromTail(s.bytes, s.tail, |s.reader.got|, Goal(s.reader)))))
    decreases Goal(s.reader) - |s.reader.got|
  {
    hide Reaches;
    var r := s.reader;
    if |r.got| == Goal(r) {
      assert r.got + [] == r.got;
      assert s.(reader := r.(got := r.got + [])) == s;
    } else {
      assert Enabled(c, s, CopyOut);
      Follows(c, s0, s, CopyOut);
      var s' := Next(c, s, CopyOut);
      CopiesOut(c, s0, s');
      var b := s.bytes[Wrapped(s.tail + |r.got|, c.length)];
      var rest := FromTail(s.bytes, s.tail, |r.got| + 1, Goal(r));
      assert (r.got + [b]) + rest == r.got + ([b] + rest);
      assert s'.(reader := s'.reader.(got := s'.reader.got + rest))
          == s.(reader := r.(got := r.got + ([b] + rest)));
    }
  }

  // ---------------------------------------------------------------------
  // The run
  // ---------------------------------------------------------------------

  /** A message buffer of twelve bytes. */
  function Twelve(): Config
  {
    Config(12, true, 1)
  }

  function Fresh(): State
  {
    State([0, 0, 0, 0, 0, 0, 0, 0, 0, 0, 0, 0], 0, 0, Resting, Idle, Notes(false, false, false, false),
          History([], 0, [], []))
  }

  function First(): seq<Byte>
  {
    [1, 0, 0, 0, 7]
  }

  function Second(): seq<Byte>
  {
    [8, 9]
  }

  function WithLength(): seq<Byte>
  {
    [5, 0, 0, 0, 1, 0, 0, 0, 7]
  }

  /** The writer has sent a message of five bytes. */
  function Sent(): State
  {
    State(WithLength() + [0, 0, 0], 9, 0, Resting, Idle, Notes(false, false, false, false),
          History(WithLength(), 0, [First()], []))
  }

  /** A reader with room for one byte has taken its length. */
  function Refused(): State
  {
    Sent().(tail := 4, reader := Refusing, history := History(WithLength(), 4, [First()], []))
  }

  /** The writer has found room for a message of two bytes, and the tail has
      been put back. */
  function PutBack(): State
  {
    Sent().(writer := Copying([2, 0, 0, 0], 0, Second()))
  }

  /** Its length covers the first byte of the other one's. */
  function Covered(): State
  {
    PutBack().(bytes := [0, 0, 0, 0, 1, 0, 0, 0, 7, 2, 0, 0], writer := Copying([2, 0, 0, 0], 4, Second()))
  }

  /** The reader has found a message without any bytes. */
  function Emptied(): State
  {
    Covered().(tail := 4, history := History(WithLength(), 4, [First()], []))
  }

  /** And then one that consists of the last byte of the first message. */
  function Torn(): State
  {
    Covered().(tail := 9, reader := Completing, history := History(WithLength(), 9, [First()], [[7]]))
  }

  /** The length of the first message is there. */
  function Length(): State
  {
    State([5, 0, 0, 0, 0, 0, 0, 0, 0, 0, 0, 0], 4, 0, Copying(First(), 0, []), Idle, Notes(false, false, false, false),
          History([5, 0, 0, 0], 0, [], []))
  }

  lemma {:induction false} ToLength(s0: State)
    requires Reaches(Twelve(), s0, Fresh())
    ensures Reaches(Twelve(), s0, Length())
  {
    hide Reaches, Filled;
    var c := Twelve();
    Follows(c, s0, Fresh(), SendCall(First(), false));
    var s1 := Next(c, Fresh(), SendCall(First(), false));
    Follows(c, s0, s1, Decide);
    var s2 := Next(c, s1, Decide);
    assert s2 == Fresh().(writer := Copying([5, 0, 0, 0], 0, First()));
    CopiesIn(c, s0, s2);
    FillFour(s2.bytes, 0, [5, 0, 0, 0]);
    assert Filled(s2.bytes, 0, [5, 0, 0, 0], 0) == Length().bytes;
    var s3 := s2.(bytes := Length().bytes, writer := Copying([5, 0, 0, 0], 4, First()));
    Follows(c, s0, s3, PublishHead);
    assert [] + [5, 0, 0, 0] == [5 as Byte, 0, 0, 0];
    assert Next(c, s3, PublishHead) == Length();
  }

  lemma {:induction false} ToSent(s0: State)
    requires Reaches(Twelve(), s0, Length())
    ensures Reaches(Twelve(), s0, Sent())
  {
    hide Reaches, Filled;
    var c := Twelve();
    CopiesIn(c, s0, Length());
    FillFive(Length().bytes, 4, First());
    assert Filled(Length().bytes, 4, First(), 0) == Sent().bytes;
    var s5 := Length().(bytes := Sent().bytes, writer := Copying(First(), 5, []));
    Follows(c, s0, s5, PublishHead);
    var s6 := Next(c, s5, PublishHead);
    assert [5, 0, 0, 0] + First() == WithLength();
    assert [] + [First()] == [First()];
    assert s6 == Sent().(writer := Checking);
    Follows(c, s0, s6, CheckFill);
    var s7 := Next(c, s6, CheckFill);
    Follows(c, s0, s7, SendCompleted);
    assert Next(c, s7, SendCompleted) == Sent();
  }

  lemma {:induction false} FillFour(bytes: seq<Byte>, head: nat, chunk: seq<Byte>)
    requires head < |bytes| && |chunk| == 4 < |bytes|
    ensures var n := |bytes|;
            Filled(bytes, head, chunk, 0)
            == bytes[Wrapped(head, n) := chunk[0]][Wrapped(head + 1, n) := chunk[1]]
                    [Wrapped(head + 2, n) := chunk[2]][Wrapped(head + 3, n) := chunk[3]]
  {
    var n := |bytes|;
    var b1 := bytes[Wrapped(head, n) := chunk[0]];
    var b2 := b1[Wrapped(head + 1, n) := chunk[1]];
    var b3 := b2[Wrapped(head + 2, n) := chunk[2]];
    var b4 := b3[Wrapped(head + 3, n) := chunk[3]];
    assert Filled(b4, head, chunk, 4) == b4;
    assert Filled(b3, head, chunk, 3) == b4;
    assert Filled(b2, head, chunk, 2) == b4;
    assert Filled(b1, head, chunk, 1) == b4;
  }

  lemma {:induction false} FillFive(bytes: seq<Byte>, head: nat, chunk: seq<Byte>)
    requires head < |bytes| && |chunk| == 5 < |bytes|
    ensures var n := |bytes|;
            Filled(bytes, head, chunk, 0)
            == bytes[Wrapped(head, n) := chunk[0]][Wrapped(head + 1, n) := chunk[1]]
                    [Wrapped(head + 2, n) := chunk[2]][Wrapped(head + 3, n) := chunk[3]]
                    [Wrapped(head + 4, n) := chunk[4]]
  {
    var n := |bytes|;
    var b1 := bytes[Wrapped(head, n) := chunk[0]];
    var b2 := b1[Wrapped(head + 1, n) := chunk[1]];
    var b3 := b2[Wrapped(head + 2, n) := chunk[2]];
    var b4 := b3[Wrapped(head + 3, n) := chunk[3]];
    var b5 := b4[Wrapped(head + 4, n) := chunk[4]];
    assert Filled(b5, head, chunk, 5) == b5;
    assert Filled(b4, head, chunk, 4) == b5;
    assert Filled(b3, head, chunk, 3) == b5;
    assert Filled(b2, head, chunk, 2) == b5;
    assert Filled(b1, head, chunk, 1) == b5;
  }

  lemma {:induction false} FromTailIs(bytes: seq<Byte>, tail: nat, from: nat, upTo: nat)
    requires from <= upTo < |bytes| && tail + upTo <= |bytes| && tail < |bytes|
    ensures FromTail(bytes, tail, from, upTo) == bytes[tail + from..tail + upTo]
    decreases upTo - from
  {
    if from == upTo {
      assert FromTail(bytes, tail, from, upTo) == [];
    } else {
      var i, end := tail + from, tail + upTo;
      assert Wrapped(i, |bytes|) == i;
      hide Wrapped;
      FromTailIs(bytes, tail, from + 1, upTo);
      var rest := FromTail(bytes, tail, from + 1, upTo);
      assert rest == bytes[i + 1..end];
      assert FromTail(bytes, tail, from, upTo) == [bytes[i]] + rest;
      hide FromTail;
      assert bytes[i..end] == [bytes[i]] + bytes[i + 1..end];
    }
  }

  /** A reader that finds something takes the four bytes of a length. */
  lemma {:induction false} TakesLength(s0: State, s: State, max: nat, length: seq<Byte>)
    requires Reaches(Twelve(), s0, s) && InRange(Twelve(), s) && s.reader == Idle
    requires BytesInBuffer(12, s.head, s.tail) > LENGTH_BYTES && s.tail + LENGTH_BYTES <= 12
    requires length == s.bytes[s.tail..s.tail + LENGTH_BYTES]
    ensures Reaches(Twelve(), s0, s.(reader := Sizing(max, BytesInBuffer(12, s.head, s.tail), length)))
  {
    hide Reaches, FromTail, BytesInBuffer, Wrapped;
    var c := Twelve();
    Follows(c, s0, s, ReceiveCall(max, false));
    var s1 := Next(c, s, ReceiveCall(max, false));
    Follows(c, s0, s1, Look);
    var s2 := Next(c, s1, Look);
    assert s2 == s.(reader := Sizing(max, BytesInBuffer(12, s.head, s.tail), []));
    CopiesOut(c, s0, s2);
    FromTailIs(s.bytes, s.tail, 0, LENGTH_BYTES);
    assert [] + length == length;
  }

  lemma {:induction false} ToRefused(s0: State)
    requires Reaches(Twelve(), s0, Sent())
    ensures Reaches(Twelve(), s0, Refused())
  {
    hide Reaches;
    var c := Twelve();
    assert Sent().bytes[0..4] == [5, 0, 0, 0];
    TakesLength(s0, Sent(), 1, [5, 0, 0, 0]);
    var s1 := Sent().(reader := Sizing(1, 9, [5, 0, 0, 0]));
    Follows(c, s0, s1, PublishTail);
    assert BytesLength([5, 0, 0, 0]) == 5;
    assert Next(c, s1, PublishTail) == Refused();
  }

  lemma {:induction false} ToPutBack(s0: State)
    requires Reaches(Twelve(), s0, Refused())
    ensures Reaches(Twelve(), s0, PutBack())
  {
    hide Reaches;
    var c := Twelve();
    Follows(c, s0, Refused(), SendCall(Second(), false));
    var s1 := Next(c, Refused(), SendCall(Second(), false));
    Follows(c, s0, s1, Decide);
    var s2 := Next(c, s1, Decide);
    assert s2 == Refused().(writer := Copying([2, 0, 0, 0], 0, Second()));
    Follows(c, s0, s2, PutTailBack);
    assert Next(c, s2, PutTailBack) == PutBack();
  }

  lemma {:induction false} ToCovered(s0: State)
    requires Reaches(Twelve(), s0, PutBack())
    ensures Reaches(Twelve(), s0, Covered())
  {
    hide Reaches;
    CopiesIn(Twelve(), s0, PutBack());
    FillFour(PutBack().bytes, 9, [2, 0, 0, 0]);
    assert Filled(PutBack().bytes, 9, [2, 0, 0, 0], 0) == Covered().bytes;
  }

  lemma {:induction false} ToEmptied(s0: State)
    requires Reaches(Twelve(), s0, Covered())
    ensures Reaches(Twelve(), s0, Emptied())
  {
    hide Reaches;
    var c := Twelve();
    assert Covered().bytes[0..4] == [0, 0, 0, 0];
    TakesLength(s0, Covered(), 5, [0, 0, 0, 0]);
    var s1 := Covered().(reader := Sizing(5, 9, [0, 0, 0, 0]));
    Follows(c, s0, s1, PublishTail);
    assert BytesLength([0, 0, 0, 0]) == 0;
    var s2 := Next(c, s1, PublishTail);
    assert s2 == Emptied().(reader := Taking(0, []));
    Follows(c, s0, s2, PublishTail);
    assert Next(c, s2, PublishTail) == Emptied();
  }

  lemma {:induction false} ToTorn(s0: State)
    requires Reaches(Twelve(), s0, Emptied())
    ensures Reaches(Twelve(), s0, Torn())
  {
    hide Reaches;
    var c := Twelve();
    assert Emptied().bytes[4..8] == [1, 0, 0, 0];
    TakesLength(s0, Emptied(), 5, [1, 0, 0, 0]);
    var s1 := Emptied().(reader := Sizing(5, 5, [1, 0, 0, 0]));
    Follows(c, s0, s1, PublishTail);
    assert BytesLength([1, 0, 0, 0]) == 1;
    var s2 := Next(c, s1, PublishTail);
    assert s2 == Covered().(tail := 8, reader := Taking(1, []), history := History(WithLength(), 8, [First()], []));
    Follows(c, s0, s2, CopyOut);
    var s3 := Next(c, s2, CopyOut);
    assert [] + [7] == [7 as Byte];
    assert s3 == s2.(reader := Taking(1, [7]));
    Follows(c, s0, s3, PublishTail);
    assert [] + [[7]] == [[7 as Byte]];
    assert Next(c, s3, PublishTail) == Torn();
  }

  /** A reader delivers a message that nobody has sent. */
  lemma {:induction false} RefusalCanTear()
    ensures Init(Twelve(), Fresh())
    ensures exists run :: Possible(Twelve(), Fresh(), run) && After(Twelve(), Fresh(), run) == Torn()
    ensures Torn().history.delivered == [[7]] && [7] !in Torn().history.sent
  {
    assert Reaches(Twelve(), Fresh(), Torn()) by {
      hide Reaches;
      ReachesItself(Twelve(), Fresh());
      ToLength(Fresh());
      ToSent(Fresh());
      ToRefused(Fresh());
      ToPutBack(Fresh());
      ToCovered(Fresh());
      ToEmptied(Fresh());
      ToTorn(Fresh());
    }
    assert |First()| == 5;
    hide Possible, After;
  }
}
