/** The byte buffer of a stream or message buffer: two indices chasing each
    other round an array that always keeps one byte free. */
module StreamBuffers {

  type Byte = b: int | 0 <= b < 256

  /** sizeof( configMESSAGE_BUFFER_LENGTH_TYPE ), a size_t. */
  const LENGTH_BYTES := 4

  /** The step that both indices take at the end of the array. */
  function Wrapped(i: nat, length: nat): nat
  {
    if i >= length then i - length else i
  }

  /** prvBytesInBuffer. */
  function BytesInBuffer(length: nat, head: nat, tail: nat): nat
    requires head < length && tail < length
  {
    var count := length + head - tail;
    if count >= length then count - length else count
  }

  /** xStreamBufferSpacesAvailable. */
  function SpacesAvailable(length: nat, head: nat, tail: nat): nat
    requires head < length && tail < length
  {
    var space := length + tail - head - 1;
    if space >= length then space - length else space
  }

  // ---------------------------------------------------------------------
  // Absolute positions
  // ---------------------------------------------------------------------

  /** Where the byte at a position of the whole stream is kept. */
  function Index(position: nat, length: nat): (i: nat)
    requires 0 < length
    ensures i < length
    decreases position
  {
    if position < length then position else Index(position - length, length)
  }

  lemma {:induction false} IndexStep(position: nat, step: nat, length: nat)
    requires 0 < length && step <= length
    ensures Index(position + step, length) == Wrapped(Index(position, length) + step, length)
    decreases position
  {
    if position < length {
      assert position + step >= length ==> Index(position + step, length) == Index(position + step - length, length);
    } else {
      IndexStep(position - length, step, length);
    }
  }

  /** Positions less than one buffer length apart are kept apart. */
  lemma {:induction false} IndexApart(p: nat, q: nat, length: nat)
    requires p < q < p + length
    ensures Index(p, length) != Index(q, length)
  {
    IndexStep(p, q - p, length);
  }

  /** The two fill queries are exact: a buffer of some length holds one byte
      less, and head and tail alone tell how many are in use. */
  lemma {:induction false} FillExact(written: nat, read: nat, length: nat)
    requires read <= written < read + length
    ensures BytesInBuffer(length, Index(written, length), Index(read, length)) == written - read
    ensures SpacesAvailable(length, Index(written, length), Index(read, length)) == length - 1 - (written - read)
  {
    IndexStep(read, written - read, length);
  }

  /** A reader that takes the length bytes of a message and then puts the tail
      back lets the writer see free space that is not free. A message that
      needs so many bytes is let in wrongly exactly when they fit only thanks
      to the length bytes. */
  lemma {:induction false} RollBackMisleads(length: nat, written: nat, read: nat, needed: nat)
    requires read + LENGTH_BYTES <= written < read + length
    ensures var space := SpacesAvailable(length, Index(written, length), Index(read, length));
            var seen := SpacesAvailable(length, Index(written, length), Index(read + LENGTH_BYTES, length));
            needed <= seen && written + needed - read >= length <==> space < needed <= space + LENGTH_BYTES
  {
    FillExact(written, read, length);
    FillExact(written, read + LENGTH_BYTES, length);
  }

  // ---------------------------------------------------------------------
  // Message lengths as bytes, low byte first
  // ---------------------------------------------------------------------

  function LengthBytes(n: nat): (b: seq<Byte>)
    ensures |b| == LENGTH_BYTES
  {
    [n % 256, n / 256 % 256, n / 0x1_0000 % 256, n / 0x100_0000 % 256]
  }

  function BytesLength(b: seq<Byte>): nat
    requires |b| == LENGTH_BYTES
  {
    var low: int := b[0];
    var second: int := b[1];
    var third: int := b[2];
    var high: int := b[3];
    low + 256 * second + 0x1_0000 * third + 0x100_0000 * high
  }

  lemma {:induction false} LengthRoundTrip(n: nat)
    requires n < 0x1_0000_0000
    ensures BytesLength(LengthBytes(n)) == n
  {
    assert n == n / 256 * 256 + n % 256;
    assert n / 256 == n / 256 / 256 * 256 + n / 256 % 256;
    assert n / 256 / 256 == n / 0x1_0000;
    assert n / 0x1_0000 == n / 0x1_0000 / 256 * 256 + n / 0x1_0000 % 256;
    assert n / 0x1_0000 / 256 == n / 0x100_0000;
  }

  /** The bytes of some messages in a row, with or without their lengths. */
  function Encode(messages: seq<seq<Byte>>, framed: bool): seq<Byte>
  {
    if messages == [] then
      []
    else
      var last := messages[|messages| - 1];
      Encode(messages[..|messages| - 1], framed) + Frame(last, framed)
  }

  function Frame(message: seq<Byte>, framed: bool): seq<Byte>
  {
    (if framed then LengthBytes(|message|) else []) + message
  }

  lemma {:induction false} EncodeOneMore(messages: seq<seq<Byte>>, message: seq<Byte>, framed: bool)
    ensures Encode(messages + [message], framed) == Encode(messages, framed) + Frame(message, framed)
  {
    assert (messages + [message])[..|messages|] == messages;
  }

  /** The bytes of the first messages come first. */
  lemma {:induction false} EncodePrefix(messages: seq<seq<Byte>>, n: nat, framed: bool)
    requires n <= |messages|
    ensures Encode(messages[..n], framed) <= Encode(messages, framed)
  {
    hide Frame;
    if n == |messages| {
      assert messages[..n] == messages;
    } else {
      var rest := messages[..|messages| - 1];
      EncodePrefix(rest, n, framed);
      assert rest[..n] == messages[..n];
    }
  }

  /** A message follows the ones before it. */
  lemma {:induction false} EncodeAt(messages: seq<seq<Byte>>, n: nat, framed: bool)
    requires n < |messages|
    ensures var start := |Encode(messages[..n], framed)|;
            var frame := Frame(messages[n], framed);
            start + |frame| <= |Encode(messages, framed)|
            && Encode(messages, framed)[start..start + |frame|] == frame
  {
    EncodePrefix(messages, n + 1, framed);
    EncodeOneMore(messages[..n], messages[n], framed);
    assert messages[..n + 1] == messages[..n] + [messages[n]];
    hide Frame, Encode;
    var start := |Encode(messages[..n], framed)|;
    var both := Encode(messages[..n + 1], framed);
    assert both[start..] == Frame(messages[n], framed);
  }

  // ---------------------------------------------------------------------
  // The buffer, one call at a time
  // ---------------------------------------------------------------------

  /** So many bytes further round. */
  function Away(from: nat, i: nat, length: nat): (r: nat)
  {
    Wrapped(from + i, length)
  }

  /** The bytes from one index up to another. */
  function Region(storage: seq<Byte>, from: nat, upTo: nat): (r: seq<Byte>)
    requires from < |storage| && upTo < |storage|
    ensures |r| == BytesInBuffer(|storage|, upTo, from)
  {
    if from <= upTo then storage[from..upTo] else storage[from..] + storage[..upTo]
  }

  /** The index of a byte of a region. */
  lemma {:induction false} RegionAt(storage: seq<Byte>, from: nat, upTo: nat, i: nat)
    requires from < |storage| && upTo < |storage| && i < |Region(storage, from, upTo)|
    ensures Region(storage, from, upTo)[i] == storage[Away(from, i, |storage|)]
  {
  }

  /** An index as the two parts of a copy see it: up to the end of the array,
      then from its start. */
  lemma {:induction false} TwoParts(storage: seq<Byte>, from: nat, count: nat)
    requires from < |storage| && count < |storage|
    ensures var first := if |storage| - from < count then |storage| - from else count;
            storage[from..from + first] + storage[..count - first]
            == Region(storage, from, Wrapped(from + count, |storage|))
  {
  }

  lemma {:induction false} RegionPrefix(storage: seq<Byte>, from: nat, upTo: nat, count: nat)
    requires from < |storage| && upTo < |storage| && count <= |Region(storage, from, upTo)|
    ensures Region(storage, from, Wrapped(from + count, |storage|)) == Region(storage, from, upTo)[..count]
  {
    var mid := Wrapped(from + count, |storage|);
    var all, a := Region(storage, from, upTo), Region(storage, from, mid);
    hide Region;
    forall i | 0 <= i < |a| ensures a[i] == all[i] {
      RegionAt(storage, from, mid, i);
      RegionAt(storage, from, upTo, i);
    }
  }

  lemma {:induction false} RegionSuffix(storage: seq<Byte>, from: nat, upTo: nat, count: nat)
    requires from < |storage| && upTo < |storage| && count <= |Region(storage, from, upTo)|
    ensures Region(storage, Wrapped(from + count, |storage|), upTo) == Region(storage, from, upTo)[count..]
  {
    var mid := Wrapped(from + count, |storage|);
    var all, b := Region(storage, from, upTo), Region(storage, mid, upTo);
    hide Region;
    forall i | 0 <= i < |b| ensures b[i] == all[count + i] {
      RegionAt(storage, mid, upTo, i);
      RegionAt(storage, from, upTo, count + i);
      assert Away(mid, i, |storage|) == Away(from, count + i, |storage|);
    }
  }

  /** Bytes written past the end of a region lengthen it. */
  lemma {:induction false} RegionGrows(was: seq<Byte>, now: seq<Byte>, from: nat, upTo: nat, data: seq<Byte>)
    requires |now| == |was| && from < |was| && upTo < |was|
    requires |data| <= SpacesAvailable(|was|, upTo, from)
    requires forall i :: 0 <= i < |data| ==> now[Away(upTo, i, |was|)] == data[i]
    requires forall i :: 0 <= i < BytesInBuffer(|was|, upTo, from) ==>
               now[Away(from, i, |was|)] == was[Away(from, i, |was|)]
    ensures Region(now, from, Wrapped(upTo + |data|, |was|)) == Region(was, from, upTo) + data
  {
    var length, end := |was|, Wrapped(upTo + |data|, |was|);
    var before, after := Region(was, from, upTo), Region(now, from, end);
    forall i | 0 <= i < |after| ensures after[i] == (before + data)[i] {
      RegionAt(now, from, end, i);
      if i < |before| {
        RegionAt(was, from, upTo, i);
      } else {
        assert Away(from, i, length) == Away(upTo, i - |before|, length);
      }
    }
  }

  /** The two copies of a write. */
  function Placed(storage: seq<Byte>, at: nat, data: seq<Byte>): (r: seq<Byte>)
    requires at < |storage| && |data| < |storage|
    ensures |r| == |storage|
  {
    var first := if |storage| - at < |data| then |storage| - at else |data|;
    var once := storage[..at] + data[..first] + storage[at + first..];
    data[first..] + once[|data| - first..]
  }

  lemma {:induction false} PlacedAt(storage: seq<Byte>, at: nat, data: seq<Byte>)
    requires at < |storage| && |data| < |storage|
    ensures forall i :: 0 <= i < |data| ==> Placed(storage, at, data)[Away(at, i, |storage|)] == data[i]
    ensures forall k :: 0 <= k < |storage| && !(at <= k < at + |data|) && !(k < at + |data| - |storage|) ==>
              Placed(storage, at, data)[k] == storage[k]
  {
  }

  lemma {:induction false} PlacedGrows(storage: seq<Byte>, from: nat, at: nat, data: seq<Byte>)
    requires from < |storage| && at < |storage| && |data| <= SpacesAvailable(|storage|, at, from)
    ensures Region(Placed(storage, at, data), from, Wrapped(at + |data|, |storage|))
            == Region(storage, from, at) + data
  {
    PlacedAt(storage, at, data);
    hide Placed;
    forall i | 0 <= i < BytesInBuffer(|storage|, at, from)
      ensures Placed(storage, at, data)[Away(from, i, |storage|)] == storage[Away(from, i, |storage|)]
    {
      var k := Away(from, i, |storage|);
      assert !(at <= k < at + |data|) && !(k < at + |data| - |storage|);
    }
    RegionGrows(storage, Placed(storage, at, data), from, at, data);
  }

  class StreamBuffer {
    const storage: array<Byte>
    const framed: bool
    var head: nat
    var tail: nat

    ghost predicate Valid()
      reads this, storage
    {
      head < storage.Length && tail < storage.Length
    }

    /** The bytes from tail to head. */
    ghost function Contents(): seq<Byte>
      reads this, storage
      requires Valid()
    {
      Region(storage[..], tail, head)
    }

    constructor (size: nat, framed: bool)
      requires 0 < size
      ensures Valid() && Contents() == [] && storage.Length == size && this.framed == framed && fresh(storage)
    {
      storage := new Byte[size];
      this.framed := framed;
      head, tail := 0, 0;
    }

    method CopyIn(at: nat, data: seq<Byte>)
      requires at + |data| <= storage.Length
      modifies storage
      ensures storage[..] == old(storage[..at]) + data + old(storage[at + |data|..])
    {
      forall i | 0 <= i < |data| {
        storage[at + i] := data[i];
      }
    }

    /** The copies of a write: up to the end of the array, then from its start. */
    method CopyRound(at: nat, data: seq<Byte>)
      requires at < storage.Length && |data| < storage.Length
      modifies storage
      ensures storage[..] == Placed(old(storage[..]), at, data)
    {
      var firstLength := if storage.Length - at < |data| then storage.Length - at else |data|;
      CopyIn(at, data[..firstLength]);
      ghost var once := storage[..];
      if |data| > firstLength {
        CopyIn(0, data[firstLength..]);
        assert storage[..] == data[firstLength..] + once[|data| - firstLength..];
      } else {
        assert storage[..] == data[firstLength..] + once[|data| - firstLength..];
      }
    }

    /** prvWriteBytesToBuffer. */
    method WriteBytes(data: seq<Byte>)
      requires Valid() && 0 < |data| <= SpacesAvailable(storage.Length, head, tail)
      modifies this`head, storage
      ensures Valid() && Contents() == old(Contents()) + data
    {
      hide Region, Placed;
      PlacedGrows(storage[..], tail, head, data);
      CopyRound(head, data);
      var next := head + |data|;
      if next >= storage.Length {
        next := next - storage.Length;
      }
      head := next;
    }

    /** The copies of a read. */
    method CopyOut(at: nat, count: nat) returns (data: seq<Byte>)
      requires at < storage.Length && count < storage.Length
      ensures data == Region(storage[..], at, Wrapped(at + count, storage.Length))
    {
      TwoParts(storage[..], at, count);
      var firstLength := if storage.Length - at < count then storage.Length - at else count;
      data := storage[at..at + firstLength];
      if count > firstLength {
        data := data + storage[..count - firstLength];
      }
      assert data == storage[..][at..at + firstLength] + storage[..][..count - firstLength];
    }

    /** prvReadBytesFromBuffer. */
    method ReadBytes(maxCount: nat, available: nat) returns (data: seq<Byte>)
      requires Valid() && available <= |Contents()|
      modifies this`tail
      ensures Valid() && data + Contents() == old(Contents())
      ensures |data| == if available < maxCount then available else maxCount
    {
      hide Region;
      var count := if available < maxCount then available else maxCount;
      RegionPrefix(storage[..], tail, head, count);
      RegionSuffix(storage[..], tail, head, count);
      data := [];
      if count > 0 {
        data := CopyOut(tail, count);
        var next := tail + count;
        if next >= storage.Length {
          next := next - storage.Length;
        }
        tail := next;
      }
    }

    lemma {:induction false} Filled()
      requires Valid()
      ensures BytesInBuffer(storage.Length, head, tail) == |Contents()|
      ensures SpacesAvailable(storage.Length, head, tail) == storage.Length - 1 - |Contents()|
    {
    }

    /** prvWriteMessageToBuffer, with the space the caller found: a whole frame
        or nothing in a message buffer, as much as fits in a stream buffer. */
    method WriteMessage(data: seq<Byte>, space: nat) returns (written: nat)
      requires Valid() && 0 < |data| && |data| + LENGTH_BYTES < 0x1_0000_0000
      requires space <= SpacesAvailable(storage.Length, head, tail)
      modifies this`head, storage
      ensures Valid()
      ensures written == if framed then (if space >= |data| + LENGTH_BYTES then |data| else 0)
                         else if space < |data| then space else |data|
      ensures Contents() == old(Contents())
                            + (if framed && written > 0 then LengthBytes(|data|) else []) + data[..written]
    {
      Filled();
      var data := data;
      var shouldWrite := false;
      if space == 0 {
      } else if !framed {
        shouldWrite := true;
        data := data[..if |data| < space then |data| else space];
      } else if space >= |data| + LENGTH_BYTES {
        shouldWrite := true;
        WriteBytes(LengthBytes(|data|));
        Filled();
      }
      written := 0;
      if shouldWrite {
        WriteBytes(data);
        written := |data|;
      }
    }

    /** prvReadMessageFromBuffer: the tail is put back if the message is too
        large for the receive buffer. */
    method ReadMessage(maxCount: nat, available: nat) returns (data: seq<Byte>)
      requires Valid() && available <= |Contents()| && (framed ==> available > LENGTH_BYTES)
      modifies this`tail
      ensures Valid()
      ensures !framed ==> data + Contents() == old(Contents())
                          && |data| == if available < maxCount then available else maxCount
      ensures framed ==>
                var n := BytesLength(old(Contents()[..LENGTH_BYTES]));
                if n > maxCount then
                  data == [] && Contents() == old(Contents())
                else
                  old(Contents()[..LENGTH_BYTES]) + data + Contents() == old(Contents())
                  && |data| == if available - LENGTH_BYTES < n then available - LENGTH_BYTES else n
    {
      var nextLength := maxCount;
      var available := available;
      if framed {
        var originalTail := tail;
        var lengthBytes := ReadBytes(LENGTH_BYTES, available);
        assert lengthBytes == old(Contents()[..LENGTH_BYTES]);
        nextLength := BytesLength(lengthBytes);
        available := available - LENGTH_BYTES;
        if nextLength > maxCount {
          tail := originalTail;
          nextLength := 0;
        }
      }
      data := ReadBytes(nextLength, available);
    }
  }
}
