/**
 The hook pipe's wire format (packages/bridge/src/qq-hook-client.ts): `encodeFrame`
 and the incremental `FrameReader`. Command and message texts stay bytes.
 */
module PipeFrames {
  import opened Options
  import opened Words

  type Byte = x: int | 0 <= x < 256

  const PIPE_MAGIC := 0x31504851
  const PIPE_VERSION := 1
  const HEADER_SIZE := 40
  const MAX_PIPE_CMD_BYTES := 4096
  const MAX_PIPE_MSG_BYTES := 65536
  const MAX_PIPE_BODY_BYTES := 16 * 1024 * 1024

  datatype Frame = Frame(
    op: int,
    requestId: int,
    status: int,
    flags: int,
    value0: int,
    cmd: seq<Byte>,
    msg: seq<Byte>,
    body: seq<Byte>)

  datatype Part = Command | Message | Body

  datatype Fault = BadHeader(magic: int, version: int) | TooLong(part: Part, length: int)

  // ---------- little-endian integers ----------

  function Range(k: nat): nat {
    if k == 0 then 1 else 256 * Range(k - 1)
  }

  function Little(v: nat, k: nat): (b: seq<Byte>)
    ensures |b| == k
  {
    if k == 0 then [] else [v % 256] + Little(v / 256, k - 1)
  }

  function Value(b: seq<Byte>): nat {
    if b == [] then 0 else b[0] + 256 * Value(b[1..])
  }

  lemma {:induction false} ValueOfLittle(v: nat, k: nat)
    requires v < Range(k)
    ensures Value(Little(v, k)) == v
  {
    if k > 0 {
      assert Little(v, k)[1..] == Little(v / 256, k - 1);
      ValueOfLittle(v / 256, k - 1);
    }
  }

  lemma Ranges()
    ensures Range(2) == U16 && Range(4) == U32 && Range(8) == U64
  {
    assert Range(3) == 0x100_0000;
    assert Range(5) == 0x100_0000_0000;
    assert Range(6) == 0x1_0000_0000_0000;
    assert Range(7) == 0x100_0000_0000_0000;
  }

  /** The 32-bit two's complement reading of an unsigned value. */
  function Signed32(v: int): (r: int)
    ensures -0x8000_0000 <= r < 0x8000_0000 && (r - v) % 0x1_0000_0000 == 0
  {
    if v % U32 < 0x8000_0000 then v % U32 else v % U32 - U32
  }

  // ---------- the header ----------

  datatype Header = Header(
    op: int,
    requestId: int,
    status: int,
    flags: int,
    value0: int,
    cmdLen: nat,
    msgLen: nat,
    bodyLen: nat)

  function LengthFault(cmdLen: int, msgLen: int, bodyLen: int): Option<Fault> {
    if cmdLen > MAX_PIPE_CMD_BYTES then Some(TooLong(Command, cmdLen))
    else if msgLen > MAX_PIPE_MSG_BYTES then Some(TooLong(Message, msgLen))
    else if bodyLen > MAX_PIPE_BODY_BYTES then Some(TooLong(Body, bodyLen))
    else None
  }

  function ReadHeader(h: seq<Byte>): Header
    requires |h| == HEADER_SIZE
  {
    Header(Value(h[6..8]), Value(h[8..12]), Signed32(Value(h[12..16])), Value(h[16..20]), Value(h[32..40]),
           Value(h[20..24]), Value(h[24..28]), Value(h[28..32]))
  }

  function HeaderFault(h: seq<Byte>): Option<Fault>
    requires |h| == HEADER_SIZE
  {
    var magic, version := Value(h[0..4]), Value(h[4..6]);
    if magic != PIPE_MAGIC || version != PIPE_VERSION then Some(BadHeader(magic, version))
    else LengthFault(Value(h[20..24]), Value(h[24..28]), Value(h[28..32]))
  }

  function PayloadLength(h: Header): nat {
    h.cmdLen + h.msgLen + h.bodyLen
  }

  function ToFrame(h: Header, payload: seq<Byte>): Frame
    requires |payload| == PayloadLength(h)
  {
    Frame(h.op, h.requestId, h.status, h.flags, h.value0,
          payload[..h.cmdLen], payload[h.cmdLen..h.cmdLen + h.msgLen], payload[h.cmdLen + h.msgLen..])
  }

  // ---------- encoding ----------

  function HeaderHead(f: Frame): (h: seq<Byte>)
    requires 0 <= f.op < U16
    ensures |h| == 20
  {
    Little(PIPE_MAGIC, 4) + Little(PIPE_VERSION, 2) + Little(f.op, 2) + Little(f.requestId % U32, 4) +
    Little(f.status % U32, 4) + Little(f.flags % U32, 4)
  }

  function HeaderTail(f: Frame): (h: seq<Byte>)
    requires 0 <= f.value0 < U64
    ensures |h| == 20
  {
    Little(|f.cmd| % U32, 4) + Little(|f.msg| % U32, 4) + Little(|f.body| % U32, 4) + Little(f.value0, 8)
  }

  function WriteHeader(f: Frame): (h: seq<Byte>)
    requires 0 <= f.op < U16 && 0 <= f.value0 < U64
    ensures |h| == HEADER_SIZE
  {
    HeaderHead(f) + HeaderTail(f)
  }

  /** None where the source throws: a part over its limit, or an integer its writer rejects. */
  function EncodeFrame(f: Frame): Option<seq<Byte>> {
    if LengthFault(|f.cmd|, |f.msg|, |f.body|).Some? then None
    else if !(0 <= f.op < U16) || !(0 <= f.value0 < U64) then None
    else Some(WriteHeader(f) + f.cmd + f.msg + f.body)
  }

  /** What the peer sees of a frame: 32-bit fields wrap as `>>> 0` and `| 0` do. */
  function Wire(f: Frame): Frame {
    f.(requestId := f.requestId % U32, status := Signed32(f.status), flags := f.flags % U32)
  }

  /** A frame is encoded exactly when its three parts are within their limits and its writer takes the two checked numbers. */
  lemma EncodesExactly(f: Frame)
    ensures EncodeFrame(f).Some? <==>
              && |f.cmd| <= 4096 && |f.msg| <= 65536 && |f.body| <= 16777216
              && 0 <= f.op < 0x1_0000 && 0 <= f.value0 < 0x1_0000_0000_0000_0000
  {
    hide WriteHeader;
  }

  lemma FirstByte(v: nat, k: nat)
    requires k > 0
    ensures Little(v, k)[0] == v % 256 && Little(v, k)[1..] == Little(v / 256, k - 1)
  {
  }

  /** A header of forty bytes, and then the three parts. */
  lemma FrameShape(f: Frame)
    requires EncodeFrame(f).Some?
    ensures var b := EncodeFrame(f).value;
            |b| == 40 + |f.cmd| + |f.msg| + |f.body| && b[40..] == f.cmd + f.msg + f.body && b[..20] == HeaderHead(f)
  {
    hide HeaderHead, HeaderTail, LengthFault;
  }

  /** The bytes a frame begins with: the magic and the version, low byte first, then the operation. */
  lemma FirstBytes(f: Frame)
    requires EncodeFrame(f).Some?
    ensures |EncodeFrame(f).value| >= 8
    ensures EncodeFrame(f).value[..8] == [0x51, 0x48, 0x50, 0x31, 1, 0, f.op % 256, f.op / 256]
  {
    FrameShape(f);
    EncodesExactly(f);
    HeadFields(f);
    LittleBytes4(0x31504851);
    LittleBytes2(1);
    LittleBytes2(f.op);
    hide Little, HeaderHead, EncodeFrame;
    var b, h := EncodeFrame(f).value, HeaderHead(f);
    assert b[..8] == b[..20][..8];
    assert h[..8] == h[0..4] + h[4..6] + h[6..8];
  }

  lemma LittleBytes2(v: nat)
    requires v < 0x1_0000
    ensures Little(v, 2) == [v % 256, v / 256]
  {
    FirstByte(v, 2);
    FirstByte(v / 256, 1);
    assert Little(v, 2) == [Little(v, 2)[0]] + Little(v, 2)[1..];
    assert Little(v / 256, 1) == [Little(v / 256, 1)[0]] + Little(v / 256, 1)[1..];
  }

  lemma LittleBytes4(v: nat)
    requires v < 0x1_0000_0000
    ensures Little(v, 4) == [v % 256, v / 256 % 256, v / 256 / 256 % 256, v / 256 / 256 / 256]
  {
    FirstByte(v, 4);
    FirstByte(v / 256, 3);
    LittleBytes2(v / 256 / 256);
    assert Little(v, 4) == [Little(v, 4)[0]] + Little(v, 4)[1..];
    assert Little(v / 256, 3) == [Little(v / 256, 3)[0]] + Little(v / 256, 3)[1..];
  }

  lemma Front(a: seq<Byte>, b: seq<Byte>, i: nat, j: nat)
    requires i <= j <= |a|
    ensures (a + b)[i..j] == a[i..j]
  {
  }

  lemma Back(a: seq<Byte>, b: seq<Byte>, i: nat, j: nat)
    requires |a| <= i <= j <= |a| + |b|
    ensures (a + b)[i..j] == b[i - |a|..j - |a|]
  {
  }

  lemma HeadFields(f: Frame)
    requires 0 <= f.op < U16
    ensures var h := HeaderHead(f);
            && h[0..4] == Little(PIPE_MAGIC, 4) && h[4..6] == Little(PIPE_VERSION, 2) && h[6..8] == Little(f.op, 2)
            && h[8..12] == Little(f.requestId % U32, 4) && h[12..16] == Little(f.status % U32, 4)
            && h[16..20] == Little(f.flags % U32, 4)
  {
    hide Little;
  }

  lemma TailFields(f: Frame)
    requires 0 <= f.value0 < U64
    ensures var h := HeaderTail(f);
            && h[0..4] == Little(|f.cmd| % U32, 4) && h[4..8] == Little(|f.msg| % U32, 4)
            && h[8..12] == Little(|f.body| % U32, 4) && h[12..20] == Little(f.value0, 8)
  {
    hide Little;
    assert HeaderTail(f)[12..20] == HeaderTail(f)[12..];
  }

  /** Every fixed-width field sits where the reader looks for it. */
  lemma HeaderFields(f: Frame)
    requires 0 <= f.op < U16 && 0 <= f.value0 < U64
    ensures var h := WriteHeader(f);
            && h[0..4] == Little(PIPE_MAGIC, 4) && h[4..6] == Little(PIPE_VERSION, 2) && h[6..8] == Little(f.op, 2)
            && h[8..12] == Little(f.requestId % U32, 4) && h[12..16] == Little(f.status % U32, 4)
            && h[16..20] == Little(f.flags % U32, 4) && h[20..24] == Little(|f.cmd| % U32, 4)
            && h[24..28] == Little(|f.msg| % U32, 4) && h[28..32] == Little(|f.body| % U32, 4)
            && h[32..40] == Little(f.value0, 8)
  {
    hide Little;
    var a, b := HeaderHead(f), HeaderTail(f);
    HeadFields(f);
    TailFields(f);
    assert WriteHeader(f) == a + b;
    Front(a, b, 0, 4);
    Front(a, b, 4, 6);
    Front(a, b, 6, 8);
    Front(a, b, 8, 12);
    Front(a, b, 12, 16);
    Front(a, b, 16, 20);
    Back(a, b, 20, 24);
    Back(a, b, 24, 28);
    Back(a, b, 28, 32);
    Back(a, b, 32, 40);
  }

  // ---------- decoding a whole byte stream ----------

  /** The frames of a stream, the bytes of the frame not yet complete, and the fault that ended it. */
  datatype Decoded = Decoded(frames: seq<Frame>, rest: seq<Byte>, fault: Option<Fault>)

  function Decode(bytes: seq<Byte>): Decoded
    decreases |bytes|
  {
    if |bytes| < HEADER_SIZE then Decoded([], bytes, None)
    else if HeaderFault(bytes[..HEADER_SIZE]).Some? then Decoded([], bytes, HeaderFault(bytes[..HEADER_SIZE]))
    else
      var h := ReadHeader(bytes[..HEADER_SIZE]);
      var end := HEADER_SIZE + PayloadLength(h);
      if |bytes| < end then Decoded([], bytes, None)
      else
        var d := Decode(bytes[end..]);
        Decoded([ToFrame(h, bytes[HEADER_SIZE..end])] + d.frames, d.rest, d.fault)
  }

  /** The same fields read back: a header says what its frame's wire form says. */
  lemma HeaderRoundTrip(f: Frame)
    requires EncodeFrame(f).Some?
    ensures HeaderFault(WriteHeader(f)) == None
    ensures ReadHeader(WriteHeader(f)) ==
              Header(f.op, f.requestId % U32, Signed32(f.status), f.flags % U32, f.value0, |f.cmd|, |f.msg|, |f.body|)
  {
    hide Little;
    hide Value;
    Ranges();
    HeaderFields(f);
    ValueOfLittle(PIPE_MAGIC, 4);
    ValueOfLittle(PIPE_VERSION, 2);
    ValueOfLittle(f.op, 2);
    ValueOfLittle(f.requestId % U32, 4);
    ValueOfLittle(f.status % U32, 4);
    ValueOfLittle(f.flags % U32, 4);
    ValueOfLittle(|f.cmd| % U32, 4);
    ValueOfLittle(|f.msg| % U32, 4);
    ValueOfLittle(|f.body| % U32, 4);
    ValueOfLittle(f.value0, 8);
  }

  /** One encoded frame in front of any bytes decodes to itself, and the rest decodes as before. */
  lemma FrameRoundTrip(f: Frame, tail: seq<Byte>)
    requires EncodeFrame(f).Some?
    ensures var d := Decode(tail);
            Decode(EncodeFrame(f).value + tail) == Decoded([Wire(f)] + d.frames, d.rest, d.fault)
  {
    hide WriteHeader;
    hide ReadHeader;
    hide HeaderFault;
    var h, payload := WriteHeader(f), f.cmd + f.msg + f.body;
    var bytes := EncodeFrame(f).value + tail;
    HeaderRoundTrip(f);
    assert bytes[..HEADER_SIZE] == h;
    var end := HEADER_SIZE + |payload|;
    assert bytes[HEADER_SIZE..end] == payload && bytes[end..] == tail;
    assert payload[..|f.cmd|] == f.cmd;
    assert payload[|f.cmd|..|f.cmd| + |f.msg|] == f.msg && payload[|f.cmd| + |f.msg|..] == f.body;
  }

  function EncodeAll(frames: seq<Frame>): seq<Byte>
    requires forall i :: 0 <= i < |frames| ==> EncodeFrame(frames[i]).Some?
  {
    if frames == [] then [] else EncodeFrame(frames[0]).value + EncodeAll(frames[1..])
  }

  function WireAll(frames: seq<Frame>): seq<Frame> {
    if frames == [] then [] else [Wire(frames[0])] + WireAll(frames[1..])
  }

  /** Printing any frames and parsing the bytes gives those frames back, with nothing left over. */
  lemma {:induction false} RoundTrip(frames: seq<Frame>)
    requires forall i :: 0 <= i < |frames| ==> EncodeFrame(frames[i]).Some?
    ensures Decode(EncodeAll(frames)) == Decoded(WireAll(frames), [], None)
  {
    if frames != [] {
      hide EncodeFrame;
      hide Wire;
      hide Decode;
      RoundTrip(frames[1..]);
      FrameRoundTrip(frames[0], EncodeAll(frames[1..]));
    } else {
      assert Decode([]) == Decoded([], [], None);
    }
  }

  /** A complete frame at the front is the first one decoded. */
  lemma CompleteFrame(bytes: seq<Byte>, h: seq<Byte>, payload: seq<Byte>, tail: seq<Byte>)
    requires |h| == HEADER_SIZE && HeaderFault(h) == None && |payload| == PayloadLength(ReadHeader(h))
    requires bytes == h + payload + tail
    ensures var d := Decode(tail);
            Decode(bytes) == Decoded([ToFrame(ReadHeader(h), payload)] + d.frames, d.rest, d.fault)
  {
    hide ReadHeader;
    hide HeaderFault;
    assert bytes[..HEADER_SIZE] == h;
    assert bytes[HEADER_SIZE..HEADER_SIZE + |payload|] == payload && bytes[HEADER_SIZE + |payload|..] == tail;
  }

  /** Where no frame is complete, or the header is bad, nothing is decoded. */
  lemma IncompleteFrame(bytes: seq<Byte>)
    requires |bytes| >= HEADER_SIZE ==>
               HeaderFault(bytes[..HEADER_SIZE]).Some?
               || |bytes| < HEADER_SIZE + PayloadLength(ReadHeader(bytes[..HEADER_SIZE]))
    ensures Decode(bytes) == Decoded([], bytes, if |bytes| < HEADER_SIZE then None else HeaderFault(bytes[..HEADER_SIZE]))
  {
    hide ReadHeader;
    hide HeaderFault;
  }

  /** Decoding in two parts: carry the unfinished bytes over and go on. */
  lemma {:induction false} DecodeSplits(a: seq<Byte>, b: seq<Byte>)
    ensures var d := Decode(a);
            var e := Decode(d.rest + b);
            if d.fault.Some? then Decode(a + b).frames == d.frames && Decode(a + b).fault == d.fault
            else Decode(a + b) == Decoded(d.frames + e.frames, e.rest, e.fault)
    decreases |a|
  {
    hide ReadHeader;
    hide HeaderFault;
    hide Decode;
    if |a| < HEADER_SIZE {
      IncompleteFrame(a);
      return;
    }
    var h := a[..HEADER_SIZE];
    assert (a + b)[..HEADER_SIZE] == h;
    var end := HEADER_SIZE + PayloadLength(ReadHeader(h));
    if HeaderFault(h).Some? {
      IncompleteFrame(a);
      IncompleteFrame(a + b);
    } else if |a| < end {
      IncompleteFrame(a);
    } else {
      DecodeSplits(a[end..], b);
      CompleteFrame(a, h, a[HEADER_SIZE..end], a[end..]);
      CompleteFrame(a + b, h, a[HEADER_SIZE..end], a[end..] + b);
      var d := Decode(a[end..]);
      var e := Decode(d.rest + b);
      var first := [ToFrame(ReadHeader(h), a[HEADER_SIZE..end])];
      assert first + (d.frames + e.frames) == (first + d.frames) + e.frames;
    }
  }

  function Flatten(chunks: seq<seq<Byte>>): seq<Byte> {
    if chunks == [] then [] else Flatten(chunks[..|chunks| - 1]) + chunks[|chunks| - 1]
  }

  // ---------- the incremental reader ----------

  /** The parts of a frame against their limits, in the order in which a fault is reported. */
  method ValidatePipeFrameLengths(cmdLen: nat, msgLen: nat, bodyLen: nat) returns (fault: Option<Fault>)
    ensures fault == LengthFault(cmdLen, msgLen, bodyLen)
  {
    var lengths := [(Command, cmdLen, 4096), (Message, msgLen, 65536), (Body, bodyLen, 16777216)];
    var i := 0;
    while i < |lengths|
      invariant 0 <= i <= 3
      invariant forall j :: 0 <= j < i ==> lengths[j].1 <= lengths[j].2
    {
      if lengths[i].1 > lengths[i].2 {
        return Some(TooLong(lengths[i].0, lengths[i].1));
      }
      i := i + 1;
    }
    assert lengths[0].1 <= lengths[0].2 && lengths[1].1 <= lengths[1].2 && lengths[2].1 <= lengths[2].2;
    return None;
  }

  class FrameReader {
    const header: array<Byte>
    var headerBytes: nat
    var pending: Option<Header>
    var payload: array<Byte>
    var received: nat

    /** The bytes of the frame under way. */
    ghost function Buffered(): seq<Byte>
      requires header.Length == HEADER_SIZE && headerBytes <= HEADER_SIZE && received <= payload.Length
      reads this, header, payload
    {
      if pending.None? then header[..headerBytes] else header[..] + payload[..received]
    }

    ghost predicate Shape()
      reads this, header, payload
    {
      && header.Length == HEADER_SIZE && headerBytes <= HEADER_SIZE && received <= payload.Length
      && header != payload
      && (pending.Some? ==>
            && headerBytes == 0 && HeaderFault(header[..]) == None
            && pending.value == ReadHeader(header[..]) && payload.Length == PayloadLength(pending.value))
    }

    /** Between chunks: no complete frame is waiting. */
    ghost predicate Valid()
      reads this, header, payload
    {
      Shape() && headerBytes < HEADER_SIZE && (pending.Some? ==> received < payload.Length)
    }

    constructor ()
      ensures Valid() && Buffered() == [] && fresh(header) && fresh(payload)
    {
      header := new Byte[HEADER_SIZE];
      headerBytes, pending, received := 0, None, 0;
      payload := new Byte[0];
      new;
    }

    /** What is held is never more than one header and the three limits. */
    lemma BufferedIsBounded()
      requires Valid()
      ensures |Buffered()| < HEADER_SIZE + MAX_PIPE_CMD_BYTES + MAX_PIPE_MSG_BYTES + MAX_PIPE_BODY_BYTES
      ensures Decode(Buffered()) == Decoded([], Buffered(), None)
    {
      if pending.Some? {
        assert Buffered()[..HEADER_SIZE] == header[..];
      }
      IncompleteFrame(Buffered());
    }

    method CopyHeader(chunk: seq<Byte>, offset: nat) returns (copied: nat)
      requires Shape() && pending.None? && headerBytes < HEADER_SIZE && offset < |chunk|
      modifies this`headerBytes, header
      ensures Shape() && 0 < copied <= |chunk| - offset
      ensures Buffered() == old(Buffered()) + chunk[offset..offset + copied]
      ensures headerBytes == old(headerBytes) + copied
      ensures headerBytes < HEADER_SIZE ==> offset + copied == |chunk|
    {
      copied := if HEADER_SIZE - headerBytes < |chunk| - offset then HEADER_SIZE - headerBytes else |chunk| - offset;
      forall i | 0 <= i < copied {
        header[headerBytes + i] := chunk[offset + i];
      }
      headerBytes := headerBytes + copied;
    }

    /** Magic and version first, then the three lengths. */
    method CheckHeader() returns (fault: Option<Fault>)
      requires header.Length == HEADER_SIZE
      ensures fault == HeaderFault(header[..])
    {
      hide Value;
      var h := header[..];
      var magic, version := Value(h[0..4]), Value(h[4..6]);
      if magic != 0x31504851 || version != 1 {
        return Some(BadHeader(magic, version));
      }
      fault := ValidatePipeFrameLengths(Value(h[20..24]), Value(h[24..28]), Value(h[28..32]));
    }

    /** The header part of a pass: collects header bytes and, once there are enough, checks and parses them. */
    method TakeHeader(chunk: seq<Byte>, offset: nat) returns (copied: nat, fault: Option<Fault>)
      requires Valid() && pending.None? && offset < |chunk|
      modifies this, header
      ensures Shape() && 0 < copied <= |chunk| - offset && (payload == old(payload) || fresh(payload))
      ensures fault.Some? ==>
                var d := Decode(old(Buffered()) + chunk[offset..]);
                d.frames == [] && d.fault == fault
      ensures fault.None? ==> Buffered() == old(Buffered()) + chunk[offset..offset + copied]
      ensures fault.None? && pending.None? ==> Valid() && offset + copied == |chunk|
    {
      hide ReadHeader;
      hide HeaderFault;
      hide Decode;
      ghost var before := Buffered() + chunk[offset..];
      copied := CopyHeader(chunk, offset);
      fault := None;
      if headerBytes < HEADER_SIZE {
        return;
      }
      assert before == Buffered() + chunk[offset + copied..];
      assert header[..headerBytes] == header[..] && before[..HEADER_SIZE] == header[..];
      headerBytes := 0;
      fault := CheckHeader();
      if fault.Some? {
        IncompleteFrame(before);
        return;
      }
      var h := ReadHeader(header[..]);
      pending, payload, received := Some(h), new Byte[PayloadLength(h)], 0;
    }

    method CopyPayload(chunk: seq<Byte>, offset: nat) returns (copied: nat)
      requires Shape() && pending.Some? && offset <= |chunk|
      modifies this`received, payload
      ensures Shape() && copied <= |chunk| - offset
      ensures Buffered() == old(Buffered()) + chunk[offset..offset + copied] && header[..] == old(header[..])
      ensures received < payload.Length ==> offset + copied == |chunk|
      ensures offset < |chunk| && old(received) < payload.Length ==> copied > 0
    {
      copied := if payload.Length - received < |chunk| - offset then payload.Length - received else |chunk| - offset;
      forall i | 0 <= i < copied {
        payload[received + i] := chunk[offset + i];
      }
      assert header[..] == old(header[..]);
      received := received + copied;
    }

    /** The payload part of a pass: collects payload bytes and delivers the frame once all are there. */
    method TakePayload(chunk: seq<Byte>, offset: nat) returns (copied: nat, frame: Option<Frame>)
      requires Shape() && pending.Some? && offset <= |chunk|
      modifies this, payload
      ensures Valid() && copied <= |chunk| - offset && payload == old(payload)
      ensures offset < |chunk| && old(received) < payload.Length ==> copied > 0
      ensures frame.None? ==> offset + copied == |chunk| && Buffered() == old(Buffered()) + chunk[offset..]
      ensures frame.Some? ==>
                var d := Decode(chunk[offset + copied..]);
                && Buffered() == []
                && Decode(old(Buffered()) + chunk[offset..]) == Decoded([frame.value] + d.frames, d.rest, d.fault)
    {
      hide ReadHeader;
      hide HeaderFault;
      hide Decode;
      ghost var before := Buffered() + chunk[offset..];
      copied := CopyPayload(chunk, offset);
      frame := None;
      if received < payload.Length {
        return;
      }
      assert payload[..received] == payload[..];
      assert before == Buffered() + chunk[offset + copied..];
      CompleteFrame(before, header[..], payload[..], chunk[offset + copied..]);
      frame := Some(ToFrame(pending.value, payload[..]));
      pending, received := None, 0;
    }

    /** One turn of the loop: a fault, a complete frame, or the end of the chunk. */
    method Turn(chunk: seq<Byte>, offset: nat) returns (next: nat, frame: Option<Frame>, fault: Option<Fault>)
      requires Valid() && offset < |chunk|
      modifies this, header, payload
      ensures payload == old(payload) || fresh(payload)
      ensures fault.Some? ==> var d := Decode(old(Buffered()) + chunk[offset..]); d.frames == [] && d.fault == fault
      ensures fault.None? ==> Valid() && offset < next <= |chunk|
      ensures fault.None? && frame.None? ==> next == |chunk| && Buffered() == old(Buffered()) + chunk[offset..]
      ensures fault.None? && frame.Some? ==>
                var d := Decode(chunk[next..]);
                && Buffered() == []
                && Decode(old(Buffered()) + chunk[offset..]) == Decoded([frame.value] + d.frames, d.rest, d.fault)
    {
      hide ReadHeader, HeaderFault, Decode, ToFrame;
      ghost var before := Buffered() + chunk[offset..];
      next, frame, fault := offset, None, None;
      var copied := 0;
      if pending.None? {
        copied, fault := TakeHeader(chunk, offset);
        if fault.Some? {
          return;
        }
        next := offset + copied;
        assert before == Buffered() + chunk[next..];
      }
      if pending.Some? {
        copied, frame := TakePayload(chunk, next);
        next := next + copied;
      }
    }

    /**
     Takes one chunk. Whatever was buffered, the frames delivered and the fault are those of
     the buffered bytes followed by the chunk.
     */
    method Push(chunk: seq<Byte>) returns (frames: seq<Frame>, fault: Option<Fault>)
      requires Valid()
      modifies this, header, payload
      ensures payload == old(payload) || fresh(payload)
      ensures var d := Decode(old(Buffered()) + chunk);
              && frames == d.frames && fault == d.fault
              && (fault == None ==> Valid() && Buffered() == d.rest)
    {
      hide ReadHeader, HeaderFault, Decode, PayloadLength;
      ghost var all := Buffered() + chunk;
      frames, fault := [], None;
      var offset := 0;
      while offset < |chunk|
        invariant offset <= |chunk| && Valid() && fault == None
        invariant payload == old(payload) || fresh(payload)
        invariant var d := Decode(Buffered() + chunk[offset..]);
                  Decode(all) == Decoded(frames + d.frames, d.rest, d.fault)
        decreases |chunk| - offset
      {
        var next, frame;
        next, frame, fault := Turn(chunk, offset);
        if fault.Some? {
          return;
        }
        offset := next;
        if frame.None? {
          break;
        }
        frames := frames + [frame.value];
        assert Buffered() + chunk[offset..] == chunk[offset..];
      }
      assert Buffered() + chunk[offset..] == Buffered();
      BufferedIsBounded();
    }
  }

  /**
   Feeds chunks until one faults, as the socket's data handler does. The frames and the first
   fault depend on the concatenation alone, however it was cut.
   */
  method Feed(chunks: seq<seq<Byte>>) returns (frames: seq<Frame>, fault: Option<Fault>, reader: FrameReader)
    ensures frames == Decode(Flatten(chunks)).frames && fault == Decode(Flatten(chunks)).fault
    ensures fault == None ==> reader.Valid() && reader.Buffered() == Decode(Flatten(chunks)).rest
  {
    assert Decode([]) == Decoded([], [], None);
    hide Decode, HeaderFault, ReadHeader, PayloadLength;
    reader := new FrameReader();
    frames, fault := [], None;
    for i := 0 to |chunks|
      invariant fresh(reader) && fresh(reader.header) && fresh(reader.payload)
      invariant fault == None ==> reader.Valid() && Decode(Flatten(chunks[..i])) == Decoded(frames, reader.Buffered(), None)
      invariant fault.Some? ==>
                  Decode(Flatten(chunks[..i])).frames == frames && Decode(Flatten(chunks[..i])).fault == fault
    {
      assert chunks[..i + 1][..i] == chunks[..i];
      DecodeSplits(Flatten(chunks[..i]), chunks[i]);
      if fault == None {
        var more;
        more, fault := reader.Push(chunks[i]);
        frames := frames + more;
      }
    }
    assert chunks[..|chunks|] == chunks;
  }

  /** Any frames, printed, concatenated and cut anywhere, arrive whole and in order. */
  method FeedEncoded(frames: seq<Frame>, chunks: seq<seq<Byte>>) returns (received: seq<Frame>)
    requires forall i :: 0 <= i < |frames| ==> EncodeFrame(frames[i]).Some?
    requires Flatten(chunks) == EncodeAll(frames)
    ensures received == WireAll(frames)
  {
    RoundTrip(frames);
    var fault, reader;
    received, fault, reader := Feed(chunks);
  }
}
