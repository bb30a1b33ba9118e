/** Frames as they are built and taken apart: the fixed header, what follows it, and the
    reads that never run past what has arrived. */
module Frames {
  import opened Bytes

  const HEADER_LEN: nat := 24
  const MAGIC0: byte := 0x50
  const MAGIC1: byte := 0x38

  /** A datagram whose header has been accepted. The payload accessors are bounded
      by the bytes that arrived; only Payload also honours the declared length. */
  datatype RawFrame = RawFrame(data: bytes) {
    predicate Valid() { |data| >= HEADER_LEN && data[0] == MAGIC0 && data[1] == MAGIC1 }

    function Protocol(): u16 requires Valid() { U16(data, 2) }
    function RemoteId(): uid requires Valid() { data[4..20] }
    function Opcode(): u16 requires Valid() { U16(data, 20) }
    function PayloadLen(): u16 requires Valid() { U16(data, 22) }

    function Payload(): bytes
      requires Valid()
    {
      if |data| <= HEADER_LEN then []
      else
        var end := HEADER_LEN + PayloadLen();
        data[HEADER_LEN..if end > |data| then |data| else end]
    }

    function U8At(i: nat): Option<byte> {
      if HEADER_LEN + i >= |data| then None else Some(data[HEADER_LEN + i])
    }

    predicate BoolAt(i: nat) { U8At(i) == Some(1) }

    function U16At(i: nat): Option<u16> {
      if HEADER_LEN + i + 1 >= |data| then None else Some(U16(data, HEADER_LEN + i))
    }

    function U32At(i: nat): Option<u32> {
      if HEADER_LEN + i + 3 >= |data| then None else Some(U32(data, HEADER_LEN + i))
    }

    function UidAt(i: nat): Option<uid> {
      if HEADER_LEN + i + 16 > |data| then None else Some(data[HEADER_LEN + i..HEADER_LEN + i + 16])
    }

    /** The uid at i, or the zero uid when the frame is too short for one. */
    function UidOrZero(i: nat): uid { if UidAt(i).Some? then UidAt(i).value else ZERO_UID }

    function StrAt(i: nat, length: nat): Option<bytes>
      requires length > 0
    {
      if HEADER_LEN + i + length > |data| then None
      else Some(CStr(data[HEADER_LEN + i..HEADER_LEN + i + length]))
    }

    /** What StrAt gives, or the empty text where the frame is too short. */
    function StrOrEmpty(i: nat, length: nat): bytes
      requires length > 0
    {
      if StrAt(i, length).Some? then StrAt(i, length).value else []
    }
  }

  function Parse(data: bytes): Option<RawFrame> {
    if |data| < HEADER_LEN || data[0] != MAGIC0 || data[1] != MAGIC1 then None else Some(RawFrame(data))
  }

  function Build(sender: uid, opcode: u16, protocol: u16, payload: bytes): bytes {
    [MAGIC0, MAGIC1] + Wire16(protocol) + sender + Wire16(opcode) + Wire16(|payload|) + payload
  }

  /** Copies src into out from position at. */
  method CopyInto(out: array<byte>, at: nat, src: bytes)
    requires at + |src| <= out.Length
    modifies out
    ensures out[..at + |src|] == old(out[..at]) + src
    ensures out[at + |src|..] == old(out[at + |src|..])
  {
    var i := 0;
    while i < |src|
      invariant i <= |src|
      invariant forall k :: 0 <= k < i ==> out[at + k] == src[k]
      invariant forall k :: 0 <= k < out.Length && !(at <= k < at + i) ==> out[k] == old(out[k])
    {
      out[at + i] := src[i];
      i := i + 1;
    }
  }

  method BuildFrame(sender: uid, opcode: u16, protocol: u16, payload: bytes) returns (out: array<byte>)
    ensures fresh(out) && out[..] == Build(sender, opcode, protocol, payload)
  {
    out := new byte[HEADER_LEN + |payload|](_ => 0);
    out[0] := MAGIC0;
    out[1] := MAGIC1;
    assert out[..2] == [MAGIC0, MAGIC1];
    CopyInto(out, 2, Wire16(protocol));
    CopyInto(out, 4, sender);
    CopyInto(out, 20, Wire16(opcode));
    CopyInto(out, 22, Wire16(|payload|));
    CopyInto(out, 24, payload);
    assert out[..24 + |payload|] == out[..];
  }

  lemma BuildLayout(sender: uid, opcode: u16, protocol: u16, payload: bytes)
    ensures var d := Build(sender, opcode, protocol, payload);
            && |d| == HEADER_LEN + |payload| && d[0] == MAGIC0 && d[1] == MAGIC1
            && d[2..4] == Wire16(protocol) && d[4..20] == sender && d[20..22] == Wire16(opcode)
            && d[22..24] == Wire16(|payload|) && d[24..] == payload
  {
  }

  /** A frame byte by byte: two magic bytes, the version, the sender, the opcode, the length of
      the payload, each number its low byte first. Nothing else is taken for a frame. */
  lemma FrameBytes(sender: uid, opcode: u16, protocol: u16, payload: bytes, data: bytes)
    ensures var d := Build(sender, opcode, protocol, payload);
            && |d| == 24 + |payload| && d[0] == 0x50 && d[1] == 0x38
            && Le(d[2..4]) == protocol && d[4..20] == sender && Le(d[20..22]) == opcode
            && Le(d[22..24]) == |payload| % 0x1_0000 && d[24..] == payload
    ensures Parse(data).Some? <==> |data| >= 24 && data[0] == 0x50 && data[1] == 0x38
    ensures Parse(data).Some? ==>
              var f := Parse(data).value;
              && f.Protocol() == Le(data[2..4]) && f.RemoteId() == data[4..20] && f.Opcode() == Le(data[20..22])
              && f.PayloadLen() == Le(data[22..24])
              && f.Payload() == data[24..if 24 + Le(data[22..24]) <= |data| then 24 + Le(data[22..24]) else |data|]
  {
    hide Le;
    hide U16;
    BuildLayout(sender, opcode, protocol, payload);
    var d := Build(sender, opcode, protocol, payload);
    U16Slice(d, 2, protocol);
    U16Slice(d, 20, opcode);
    U16Slice(d, 22, |payload|);
    LeReads(d, 2);
    LeReads(d, 20);
    LeReads(d, 22);
    LeReads(data, 2);
    LeReads(data, 20);
    LeReads(data, 22);
  }

  lemma U16Slice(d: bytes, i: nat, v: int)
    requires i + 2 <= |d| && d[i..i + 2] == Wire16(v)
    ensures U16(d, i) == v % 0x1_0000
  {
    assert d[i] == d[i..i + 2][0] && d[i + 1] == d[i..i + 2][1];
  }

  /** Parsing a built frame gives back every header field, and the payload up to
      the 65535 bytes the length field can declare: beyond that the length wraps and
      only the remainder is read. */
  lemma FrameRoundTrip(sender: uid, opcode: u16, protocol: u16, payload: bytes)
    ensures var f := Parse(Build(sender, opcode, protocol, payload));
            && f.Some? && f.value.Valid()
            && f.value.Protocol() == protocol
            && f.value.RemoteId() == sender
            && f.value.Opcode() == opcode
            && f.value.PayloadLen() == |payload| % 0x1_0000
            && f.value.Payload() == payload[..|payload| % 0x1_0000]
            && (f.value.Payload() == payload <==> |payload| <= 65535)
  {
    var d := Build(sender, opcode, protocol, payload);
    BuildLayout(sender, opcode, protocol, payload);
    U16Slice(d, 2, protocol);
    U16Slice(d, 20, opcode);
    U16Slice(d, 22, |payload|);
    var n := |payload| % 0x1_0000;
    assert d[24..24 + n] == d[24..][..n];
  }

  /** The accessors of a built frame read the payload it was built from. */
  lemma AccessorsReadPayload(sender: uid, opcode: u16, protocol: u16, payload: bytes, i: nat)
    ensures var f := RawFrame(Build(sender, opcode, protocol, payload));
            && f.U8At(i) == (if i < |payload| then Some(payload[i]) else None)
            && f.U16At(i) == (if i + 2 <= |payload| then Some(U16(payload, i)) else None)
            && f.U32At(i) == (if i + 4 <= |payload| then Some(U32(payload, i)) else None)
            && f.UidAt(i) == (if i + 16 <= |payload| then Some(payload[i..i + 16]) else None)
  {
    var d := Build(sender, opcode, protocol, payload);
    BuildLayout(sender, opcode, protocol, payload);
    forall k | 0 <= k < |payload|
      ensures d[24 + k] == payload[k]
    {
      assert d[24..][k] == d[24 + k];
    }
    if i + 16 <= |payload| {
      assert d[24 + i..24 + i + 16] == payload[i..i + 16];
    }
  }
}
