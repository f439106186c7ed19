/** The native-messaging frame codec: a 4-byte little-endian length, then that
    many bytes (`native_host.rs`). */
module Framing {
  import opened Wrappers

  type Byte = b: int | 0 <= b < 256

  const MAX_MESSAGE_SIZE: nat := 0x10_0000

  datatype ReadError = InvalidLength(len: nat) | UnexpectedEof | Io
  type ReadResult = Result<Option<seq<Byte>>, ReadError>

  function LittleEndian(n: nat): (s: seq<Byte>)
    requires n < 0x1_0000_0000
    ensures |s| == 4
  {
    [n % 256, n / 256 % 256, n / 0x1_0000 % 256, n / 0x100_0000]
  }

  function FromLittleEndian(s: seq<Byte>): (n: nat)
    requires |s| == 4
    ensures n < 0x1_0000_0000
  {
    var a: int, b: int, c: int, d: int := s[0], s[1], s[2], s[3];
    a + 256 * b + 0x1_0000 * c + 0x100_0000 * d
  }

  // The lowest byte comes first.
  lemma LittleEndianRead(n: nat)
    requires n < 0x1_0000_0000
    ensures FromLittleEndian(LittleEndian(n)) == n
    ensures var s := LittleEndian(n);
      n == s[0] as int + 0x100 * s[1] as int + 0x1_0000 * s[2] as int + 0x100_0000 * s[3] as int
  {
    assert n / 256 / 256 == n / 0x1_0000;
    assert n / 0x1_0000 / 256 == n / 0x100_0000;
  }

  lemma LowestDigit(low: Byte, high: nat)
    ensures var n := low + 256 * high; n % 256 == low && n / 256 == high
  {
  }

  lemma LittleEndianWritten(s: seq<Byte>)
    requires |s| == 4
    ensures LittleEndian(FromLittleEndian(s)) == s
  {
    var n, b: int, c: int, d: int := FromLittleEndian(s), s[1], s[2], s[3];
    LowestDigit(s[0], b + 256 * (c + 256 * d));
    LowestDigit(s[1], c + 256 * d);
    LowestDigit(s[2], d);
    assert n / 0x1_0000 == n / 256 / 256 && n / 0x100_0000 == n / 256 / 256 / 256;
  }

  function Frame(payload: seq<Byte>): seq<Byte>
    requires |payload| <= MAX_MESSAGE_SIZE
  {
    LittleEndian(|payload|) + payload
  }

  ghost predicate Sendable(payloads: seq<seq<Byte>>) {
    forall i :: 0 <= i < |payloads| ==> 1 <= |payloads[i]| <= MAX_MESSAGE_SIZE
  }

  ghost function Frames(payloads: seq<seq<Byte>>): seq<Byte>
    requires forall i :: 0 <= i < |payloads| ==> |payloads[i]| <= MAX_MESSAGE_SIZE
  {
    if payloads == [] then [] else Frame(payloads[0]) + Frames(payloads[1..])
  }

  // One read from the bytes still to come, and what is left of them. `fault`
  // says that the source ends with an I/O error instead of an end of stream.
  ghost function Decode(bytes: seq<Byte>, fault: bool): (ReadResult, seq<Byte>) {
    if |bytes| < 4 then (if fault then Err(Io) else Ok(None), [])
    else
      var len, rest := FromLittleEndian(bytes[..4]), bytes[4..];
      if len == 0 || len > MAX_MESSAGE_SIZE then (Err(InvalidLength(len)), rest)
      else if |rest| < len then (Err(if fault then Io else UnexpectedEof), [])
      else (Ok(Some(rest[..len])), rest[len..])
  }

  // A length of zero, or over one mebibyte, is refused as soon as its four bytes
  // are read, and no other is.
  lemma LengthsRefused(bytes: seq<Byte>, fault: bool)
    requires |bytes| >= 4
    ensures var len := bytes[0] as int + 0x100 * bytes[1] as int + 0x1_0000 * bytes[2] as int
                       + 0x100_0000 * bytes[3] as int;
      Decode(bytes, fault) == (Err(InvalidLength(len)), bytes[4..]) <==> len == 0 || len > 1024 * 1024
  {
  }

  datatype End = Clean | Failed(error: ReadError)

  // Reading until the stream ends or a read fails. Each frame read takes at
  // least five bytes, so this terminates.
  ghost function DecodeAll(bytes: seq<Byte>, fault: bool): (seq<seq<Byte>>, End)
    decreases |bytes|
  {
    match Decode(bytes, fault)
    case (Ok(Some(payload)), rest) =>
      var (payloads, end) := DecodeAll(rest, fault);
      ([payload] + payloads, end)
    case (Ok(None), _) => ([], Clean)
    case (Err(e), _) => ([], Failed(e))
  }

  lemma FrameConsumed(bytes: seq<Byte>, fault: bool)
    requires Decode(bytes, fault).0.Ok? && Decode(bytes, fault).0.value.Some?
    ensures |Decode(bytes, fault).1| + 5 <= |bytes|
    ensures 1 <= |Decode(bytes, fault).0.value.value| <= MAX_MESSAGE_SIZE
    ensures bytes == Frame(Decode(bytes, fault).0.value.value) + Decode(bytes, fault).1
  {
    LittleEndianWritten(bytes[..4]);
    var len, rest := FromLittleEndian(bytes[..4]), bytes[4..];
    assert rest == rest[..len] + rest[len..];
  }

  lemma FrameDecodes(payload: seq<Byte>, rest: seq<Byte>, fault: bool)
    requires 1 <= |payload| <= MAX_MESSAGE_SIZE
    ensures Decode(Frame(payload) + rest, fault) == (Ok(Some(payload)), rest)
  {
    var bytes := Frame(payload) + rest;
    LittleEndianRead(|payload|);
    assert bytes[..4] == LittleEndian(|payload|);
    assert bytes[4..] == payload + rest;
  }

  // A payload the writer accepts is read back exactly when it is not empty: the
  // writer frames an empty payload and the reader then rejects its length.
  lemma SingleRoundTrip(payload: seq<Byte>, rest: seq<Byte>, fault: bool)
    requires |payload| <= MAX_MESSAGE_SIZE
    ensures Decode(Frame(payload) + rest, fault).0 == Ok(Some(payload)) <==> payload != []
  {
    if payload != [] {
      FrameDecodes(payload, rest, fault);
    } else {
      var bytes := Frame(payload) + rest;
      assert bytes[..4] == LittleEndian(0);
      LittleEndianRead(0);
    }
  }

  lemma FrameFirst(payload: seq<Byte>, rest: seq<Byte>, fault: bool)
    requires 1 <= |payload| <= MAX_MESSAGE_SIZE
    ensures DecodeAll(Frame(payload) + rest, fault) ==
      ([payload] + DecodeAll(rest, fault).0, DecodeAll(rest, fault).1)
  {
    FrameDecodes(payload, rest, fault);
  }

  lemma FramesFirst(payloads: seq<seq<Byte>>, tail: seq<Byte>)
    requires Sendable(payloads) && payloads != []
    ensures Frames(payloads) + tail == Frame(payloads[0]) + (Frames(payloads[1..]) + tail)
  {
  }

  lemma PayloadsFirst(payloads: seq<seq<Byte>>, more: seq<seq<Byte>>)
    requires payloads != []
    ensures [payloads[0]] + (payloads[1..] + more) == payloads + more
  {
  }

  lemma {:induction false} StreamRoundTrip(payloads: seq<seq<Byte>>, tail: seq<Byte>, fault: bool)
    requires Sendable(payloads)
    ensures DecodeAll(Frames(payloads) + tail, fault) ==
      (payloads + DecodeAll(tail, fault).0, DecodeAll(tail, fault).1)
  {
    if payloads == [] {
      assert Frames(payloads) + tail == tail && payloads + DecodeAll(tail, fault).0 == DecodeAll(tail, fault).0;
    } else {
      FramesFirst(payloads, tail);
      FrameFirst(payloads[0], Frames(payloads[1..]) + tail, fault);
      StreamRoundTrip(payloads[1..], tail, fault);
      PayloadsFirst(payloads, DecodeAll(tail, fault).0);
    }
  }

  // Any list of sendable payloads comes out as sent, then the end of the stream.
  lemma {:induction false} ListRoundTrip(payloads: seq<seq<Byte>>)
    requires Sendable(payloads)
    ensures DecodeAll(Frames(payloads), false) == (payloads, Clean)
  {
    StreamRoundTrip(payloads, [], false);
    assert Frames(payloads) + [] == Frames(payloads) && payloads + [] == payloads;
  }

  lemma {:induction false} FramesInjective(p: seq<seq<Byte>>, q: seq<seq<Byte>>)
    requires Sendable(p) && Sendable(q)
    ensures Frames(p) == Frames(q) <==> p == q
  {
    ListRoundTrip(p);
    ListRoundTrip(q);
  }

  // Nothing is invented: whatever the bytes, the payloads read are sendable,
  // their frames are exactly the front of the stream, and what is left holds no
  // complete frame. The end counts as clean only when fewer than 4 bytes are
  // left: not just at a frame boundary but inside a length prefix too.
  lemma {:induction false} DecodeSound(bytes: seq<Byte>, fault: bool)
    ensures var (payloads, end) := DecodeAll(bytes, fault);
      && Sendable(payloads)
      && |Frames(payloads)| <= |bytes|
      && bytes[..|Frames(payloads)|] == Frames(payloads)
      && 5 * |payloads| <= |Frames(payloads)|
      && (end == Clean <==> !fault && |bytes| - |Frames(payloads)| < 4)
    decreases |bytes|
  {
    var (r, rest) := Decode(bytes, fault);
    if r.Ok? && r.value.Some? {
      FrameConsumed(bytes, fault);
      DecodeSound(rest, fault);
      var payloads := DecodeAll(rest, fault).0;
      var all := [r.value.value] + payloads;
      assert all[1..] == payloads;
      assert Frames(all) == Frame(r.value.value) + Frames(payloads);
    }
  }

  // A stream cut short yields a prefix of the payloads that were sent.
  lemma {:induction false} CutStream(payloads: seq<seq<Byte>>, cut: nat, fault: bool)
    requires Sendable(payloads) && cut <= |Frames(payloads)|
    ensures DecodeAll(Frames(payloads)[..cut], fault).0 <= payloads
  {
    if payloads != [] {
      var bytes, head := Frames(payloads)[..cut], Frame(payloads[0]);
      if cut < |head| {
        LittleEndianRead(|payloads[0]|);
        if 4 <= cut {
          assert bytes[..4] == LittleEndian(|payloads[0]|);
        }
        assert DecodeAll(bytes, fault).0 == [];
      } else {
        var rest := Frames(payloads[1..])[..cut - |head|];
        assert bytes == head + rest;
        FrameFirst(payloads[0], rest, fault);
        CutStream(payloads[1..], cut - |head|, fault);
        assert payloads == [payloads[0]] + payloads[1..];
      }
    }
  }

  // One turn of the read loop, with `front` read before it.
  lemma DecodeStep(bytes: seq<Byte>, fault: bool, front: seq<seq<Byte>>)
    ensures var (r, rest) := Decode(bytes, fault);
      match r
      case Err(e) => front + DecodeAll(bytes, fault).0 == front && DecodeAll(bytes, fault).1 == Failed(e)
      case Ok(None) => front + DecodeAll(bytes, fault).0 == front && DecodeAll(bytes, fault).1 == Clean
      case Ok(Some(p)) =>
        && |rest| < |bytes|
        && front + DecodeAll(bytes, fault).0 == (front + [p]) + DecodeAll(rest, fault).0
        && DecodeAll(bytes, fault).1 == DecodeAll(rest, fault).1
  {
    var (r, rest) := Decode(bytes, fault);
    if r.Ok? && r.value.Some? {
      var p, others := r.value.value, DecodeAll(rest, fault).0;
      assert DecodeAll(bytes, fault).0 == [p] + others;
      assert front + ([p] + others) == (front + [p]) + others;
    } else {
      assert DecodeAll(bytes, fault).0 == [];
    }
  }

  ghost function Concat(chunks: seq<seq<Byte>>): seq<Byte> {
    if chunks == [] then [] else chunks[0] + Concat(chunks[1..])
  }

  /** A byte source. It delivers its bytes in the pieces `chunks`, however the
      transport happened to cut them, and then ends or fails. */
  class ByteReader {
    var chunks: seq<seq<Byte>>
    const fault: bool

    ghost predicate Valid()
      reads this
    {
      forall i :: 0 <= i < |chunks| ==> chunks[i] != []
    }

    ghost function Rest(): seq<Byte>
      reads this
    {
      Concat(chunks)
    }

    constructor (chunks: seq<seq<Byte>>, fault: bool)
      requires forall i :: 0 <= i < |chunks| ==> chunks[i] != []
      ensures Valid() && this.chunks == chunks && this.fault == fault
    {
      this.chunks, this.fault := chunks, fault;
    }

    // One read into a buffer with room for `room` bytes.
    method Read(room: nat) returns (r: Result<seq<Byte>, ReadError>)
      requires Valid() && room > 0
      modifies this
      ensures Valid()
      ensures old(Rest()) == [] ==> r == (if fault then Err(Io) else Ok([])) && Rest() == []
      ensures old(Rest()) != [] ==>
        r.Ok? && 1 <= |r.value| <= room && old(Rest()) == r.value + Rest()
    {
      if chunks == [] {
        return if fault then Err(Io) else Ok([]);
      }
      var first := chunks[0];
      assert chunks == [first] + chunks[1..];
      if |first| <= room {
        chunks := chunks[1..];
        return Ok(first);
      }
      chunks := [first[room..]] + chunks[1..];
      assert first == first[..room] + first[room..];
      return Ok(first[..room]);
    }

    method ReadExact(count: nat) returns (r: Result<seq<Byte>, ReadError>)
      requires Valid()
      modifies this
      ensures Valid()
      ensures count <= |old(Rest())| ==>
        r == Ok(old(Rest())[..count]) && Rest() == old(Rest())[count..]
      ensures count > |old(Rest())| ==>
        r == Err(if fault then Io else UnexpectedEof) && Rest() == []
    {
      var buf: seq<Byte> := [];
      ghost var all := Rest();
      while |buf| < count
        invariant Valid() && |buf| <= count
        invariant all == buf + Rest()
      {
        var piece := Read(count - |buf|);
        if piece.Err? {
          return Err(piece.error);
        }
        if piece.value == [] {
          return Err(UnexpectedEof);
        }
        buf := buf + piece.value;
      }
      return Ok(buf);
    }

    method ReadFramed() returns (r: ReadResult)
      requires Valid()
      modifies this
      ensures Valid()
      ensures (r, Rest()) == Decode(old(Rest()), fault)
    {
      var prefix := ReadExact(4);
      if prefix.Err? {
        return if prefix.error == UnexpectedEof then Ok(None) else Err(prefix.error);
      }
      var len := FromLittleEndian(prefix.value);
      if len == 0 || len > MAX_MESSAGE_SIZE {
        return Err(InvalidLength(len));
      }
      var payload := ReadExact(len);
      if payload.Err? {
        return Err(payload.error);
      }
      return Ok(Some(payload.value));
    }

    // The read loop of the native host and of its clients.
    method ReadFrames() returns (payloads: seq<seq<Byte>>, end: End)
      requires Valid()
      modifies this
      ensures (payloads, end) == DecodeAll(old(Rest()), fault)
    {
      payloads := [];
      ghost var all := Rest();
      while true
        invariant Valid()
        invariant DecodeAll(all, fault).0 == payloads + DecodeAll(Rest(), fault).0
        invariant DecodeAll(all, fault).1 == DecodeAll(Rest(), fault).1
        decreases |Rest()|
      {
        ghost var before := Rest();
        var frame := ReadFramed();
        DecodeStep(before, fault, payloads);
        if frame.Err? {
          return payloads, Failed(frame.error);
        }
        if frame.value.None? {
          return payloads, Clean;
        }
        payloads := payloads + [frame.value.value];
      }
    }
  }

  class ByteWriter {
    var written: seq<Byte>

    method WriteFramed(payload: seq<Byte>) returns (ok: bool)
      modifies this
      ensures ok <==> |payload| <= 1024 * 1024
      ensures written == if ok then old(written) + Frame(payload) else old(written)
    {
      if |payload| > MAX_MESSAGE_SIZE {
        return false;
      }
      written := written + LittleEndian(|payload|);
      written := written + payload;
      return true;
    }
  }

  // However the transport cuts the frames of `payloads` into pieces, the read
  // loop returns the payloads and then a clean end.
  method ReadBack(payloads: seq<seq<Byte>>, chunks: seq<seq<Byte>>) returns (read: seq<seq<Byte>>, end: End)
    requires Sendable(payloads) && Concat(chunks) == Frames(payloads)
    requires forall i :: 0 <= i < |chunks| ==> chunks[i] != []
    ensures read == payloads && end == Clean
  {
    var reader := new ByteReader(chunks, false);
    read, end := reader.ReadFrames();
    ListRoundTrip(payloads);
  }
}
