/** The payloads the control calls build and what the receive handlers read out of
    them. Each decoder takes the frame as it arrived, as its handler does. */
module Control {
  import opened Bytes
  import opened Frames
  import opened V2ipConfig

  /** A setting addressed to one bay of one device. */
  datatype Addressed<T> = Addressed(target: uid, port: u16, value: T)

  // ---- volume ----

  const DONT_CHANGE: byte := 0xFF

  /** -1 stands for an unknown volume. */
  datatype Volume = Volume(left: int, right: int, mutedLeft: Option<bool>, mutedRight: Option<bool>) {
    /** The mean of the channels, rounded down; an unknown channel counts as the other one. */
    function Combined(): (c: int)
      ensures left >= 0 && right >= 0 ==> 2 * c <= left + right < 2 * c + 2
      ensures left >= 0 > right ==> c == left
      ensures right >= 0 > left ==> c == right
      ensures left < 0 && right < 0 ==> c == 0
    {
      if right < 0 then (if left < 0 then 0 else left)
      else if left < 0 then right
      else (left + right) / 2
    }

    function MutedValue(): byte {
      var ml, mr := mutedLeft == Some(true), mutedRight == Some(true);
      if !ml && !mr then 0 else if ml && mr then 3 else if ml then 1 else 2
    }

    function Wire(): bytes {
      [(if left < 0 then Combined() else left) % 256, (if right < 0 then Combined() else right) % 256, MutedValue()]
    }

    /** Takes over every field of other that is known. */
    function Update(other: Volume): Volume {
      Volume(if other.left >= 0 then other.left else left,
             if other.right >= 0 then other.right else right,
             if other.mutedLeft.Some? then other.mutedLeft else mutedLeft,
             if other.mutedRight.Some? then other.mutedRight else mutedRight)
    }
  }

  /** The bytes a volume is sent as: a channel that is not known as the other one is, and one bit
      for each channel known to be muted. */
  lemma VolumeBytes(v: Volume)
    ensures var w := v.Wire();
            && |w| == 3
            && w[0] == (if v.left >= 0 then v.left else if v.right >= 0 then v.right else 0) % 256
            && w[1] == (if v.right >= 0 then v.right else if v.left >= 0 then v.left else 0) % 256
            && w[2] == (if v.mutedLeft == Some(true) then 1 else 0) + (if v.mutedRight == Some(true) then 2 else 0)
  {
  }

  function Level(b: byte): int { if b <= 100 then b else -1 }

  function VolumeSetting(left: byte, right: byte, mute: byte): Volume {
    Volume(Level(left), Level(right),
           if mute == DONT_CHANGE then None else Some(Has(mute, 1)),
           if mute == DONT_CHANGE then None else Some(Has(mute, 2)))
  }

  /** Both forms of the request: a u16 bay, or the earlier one-byte bay that ends
      after exactly 20 bytes. */
  function DecodeVolumeSet(f: RawFrame): Option<Addressed<Volume>>
    requires f.Valid()
  {
    var p := f.Payload();
    if |p| < 20 then None
    else if |p| <= 20 then Some(Addressed(p[..16], p[16], VolumeSetting(p[17], p[18], p[19])))
    else Some(Addressed(p[..16], U16(p, 16), VolumeSetting(p[18], p[19], p[20])))
  }

  function VolumeRequest(volume: int, muted: Option<bool>): Volume { Volume(volume, volume, muted, muted) }

  function VolumeSetPayload(target: uid, port: nat, volume: int, muted: Option<bool>): bytes {
    target + Wire16(port) + VolumeRequest(volume, muted).Wire() + [0, 0, 0]
  }

  method BuildVolumeSet(target: uid, port: nat, vol: Volume) returns (p: bytes)
    ensures p == target + Wire16(port) + vol.Wire() + [0, 0, 0]
  {
    p := target;
    p := p + Wire16(port);
    p := p + vol.Wire();
    p := p + [0, 0, 0];
  }

  // ---- name, hidden, EDID profile, action ----

  function DecodeName(f: RawFrame): Option<Addressed<bytes>>
    requires f.Valid()
  {
    var p := f.Payload();
    if |p| < 34 then None else Some(Addressed(p[..16], U16(p, 16), CStr(p[18..34])))
  }

  function NamePayload(target: uid, port: nat, name: bytes): bytes { target + Wire16(port) + Fixed(name, 16) }

  method BuildName(target: uid, port: nat, name: bytes) returns (p: bytes)
    ensures p == NamePayload(target, port, name)
  {
    var cut := Cut(name, 16);
    p := target + Wire16(port);
    p := AppendFixedStr(p, cut, 16);
  }

  function DecodeHidden(f: RawFrame): Option<Addressed<bool>>
    requires f.Valid()
  {
    if f.U16At(16).None? then None else Some(Addressed(f.UidOrZero(0), f.U16At(16).value, f.BoolAt(18)))
  }

  function HiddenPayload(target: uid, port: nat, hidden: bool): bytes {
    target + Wire16(port) + [if hidden then 1 else 0] + [0, 0, 0, 0, 0]
  }

  method BuildHidden(target: uid, port: nat, hidden: bool) returns (p: bytes)
    ensures p == HiddenPayload(target, port, hidden)
  {
    p := target + Wire16(port);
    if hidden {
      p := p + [1];
    } else {
      p := p + [0];
    }
    p := p + [0, 0, 0, 0, 0];
  }

  function DecodeEdid(f: RawFrame): Option<(uid, u16)>
    requires f.Valid()
  {
    var p := f.Payload();
    if |p| < 18 then None else Some((p[..16], U16(p, 16)))
  }

  function EdidPayload(target: uid, profile: int): bytes { target + Wire16(profile) + [0, 0, 0, 0, 0, 0] }

  method BuildEdid(target: uid, profile: int) returns (p: bytes)
    ensures p == EdidPayload(target, profile)
  {
    p := target;
    p := p + Wire16(profile);
    p := p + [0, 0, 0, 0, 0, 0];
  }

  function DecodeAction(f: RawFrame): Option<Addressed<u16>>
    requires f.Valid()
  {
    var p := f.Payload();
    if |p| < 20 then None else Some(Addressed(p[..16], U16(p, 16), U16(p, 18)))
  }

  function ActionPayload(target: uid, port: nat, action: int): bytes { target + Wire16(port) + Wire16(action) }

  method BuildAction(target: uid, port: nat, action: int) returns (p: bytes)
    ensures p == ActionPayload(target, port, action)
  {
    p := target;
    p := p + Wire16(port) + Wire16(action);
  }

  // ---- manual source switch ----

  datatype AudioFormat = AudioFormat(sampleRate: u32, channels: byte)

  datatype SinkRoute = SinkRoute(video: StreamSource, audio: StreamSource, anc: StreamSource, fmt: Option<AudioFormat>)

  function StreamWire(s: StreamSource): bytes { s.ip + Wire16(s.port) + [0, 0] }

  function FormatWire(fmt: AudioFormat): bytes { Wire32(fmt.sampleRate) + [fmt.channels, 0, 0, 0] }

  function ParseFormat(p: bytes, i: nat): AudioFormat
    requires i + 8 <= |p|
  {
    AudioFormat(U32(p, i), p[i + 4])
  }

  function ManualSwitchPayload(target: uid, r: SinkRoute): bytes {
    target + StreamWire(r.video) + StreamWire(r.audio) + StreamWire(r.anc)
    + if r.fmt.None? then [] else FormatWire(r.fmt.value)
  }

  method BuildManualSwitch(target: uid, r: SinkRoute) returns (p: bytes)
    ensures p == ManualSwitchPayload(target, r)
  {
    p := target;
    p := p + StreamWire(r.video);
    p := p + StreamWire(r.audio);
    p := p + StreamWire(r.anc);
    if r.fmt.Some? {
      p := p + FormatWire(r.fmt.value);
    }
  }

  function DecodeManualSwitch(f: RawFrame): Option<(uid, SinkRoute)>
    requires f.Valid()
  {
    var p := f.Payload();
    if |p| < 38 then None
    else Some((f.UidOrZero(0), SinkRoute(ParseStream(p, 16), ParseStream(p, 24), ParseStream(p, 32),
                                         if |p| >= 48 then Some(ParseFormat(p, 40)) else None)))
  }

  // ---- audio input selection ----

  datatype AudioSelection = AudioSelection(source: uid, sourceId: u16, sink: uid, sinkId: u16)

  const OP_SELECT_INPUT: u16 := 3

  function AudioSelectPayload(sink: uid, sinkId: int, source: uid, sourceId: int): bytes {
    Wire16(OP_SELECT_INPUT) + [0, 0] + sink + sink + source + Wire16(sinkId) + Wire16(sourceId)
  }

  method BuildAudioSelect(sink: uid, sinkId: int, source: uid, sourceId: int) returns (p: bytes)
    ensures p == AudioSelectPayload(sink, sinkId, source, sourceId)
  {
    p := Wire16(OP_SELECT_INPUT) + [0, 0];
    p := p + sink;
    p := p + sink;
    p := p + source;
    p := p + Wire16(sinkId) + Wire16(sourceId);
  }

  /** The route is read from the body alone: sink first, then source. */
  function DecodeAudioSelect(f: RawFrame): Option<AudioSelection> {
    if f.UidAt(20).None? || f.UidAt(36).None? || f.U16At(52).None? || f.U16At(54).None? then None
    else Some(AudioSelection(f.UidAt(36).value, f.U16At(54).value, f.UidAt(20).value, f.U16At(52).value))
  }

  // ---- amplifier zone settings ----

  datatype AmpZone = AmpZone(gainLeft: int, gainRight: int, volumeMin: int, volumeMax: int,
                             delayLeft: u32, delayRight: u32,
                             bass: int, treble: int, bridged: int, powerMode: int, powerLevel: int,
                             powerTimeout: u32, eqLeft: seq<int>, eqRight: seq<int>) {
    predicate Shaped() { |eqLeft| == 5 == |eqRight| }

    /** Every byte-wide field holds a byte. */
    predicate InRange() {
      && 0 <= gainLeft < 256 && 0 <= gainRight < 256 && 0 <= volumeMin < 256 && 0 <= volumeMax < 256
      && 0 <= bass < 256 && 0 <= treble < 256 && 0 <= bridged < 256 && 0 <= powerMode < 256 && 0 <= powerLevel < 256
      && (forall i :: 0 <= i < |eqLeft| ==> 0 <= eqLeft[i] < 256)
      && (forall i :: 0 <= i < |eqRight| ==> 0 <= eqRight[i] < 256)
    }
  }

  function LowBytes(s: seq<int>): bytes { seq(|s|, i requires 0 <= i < |s| => s[i] % 256) }

  const AMP_ZONE_SIZE: nat := 56

  function AmpZonePayload(target: uid, port: nat, s: AmpZone): bytes {
    target + Wire16(port)
    + [s.gainLeft % 256, s.gainRight % 256, s.volumeMin % 256, s.volumeMax % 256] + [0, 0]
    + Wire32(s.delayLeft) + Wire32(s.delayRight)
    + [s.bass % 256, s.treble % 256, s.bridged % 256, s.powerMode % 256, s.powerLevel % 256] + [0, 0, 0]
    + Wire32(s.powerTimeout) + LowBytes(s.eqLeft) + LowBytes(s.eqRight) + [0, 0]
  }

  method BuildAmpZone(target: uid, port: nat, s: AmpZone) returns (p: bytes)
    requires s.Shaped()
    ensures p == AmpZonePayload(target, port, s) && |p| == AMP_ZONE_SIZE
  {
    p := target + Wire16(port);
    p := p + [s.gainLeft % 256, s.gainRight % 256, s.volumeMin % 256, s.volumeMax % 256];
    p := p + [0, 0];
    p := p + Wire32(s.delayLeft);
    p := p + Wire32(s.delayRight);
    p := p + [s.bass % 256, s.treble % 256, s.bridged % 256, s.powerMode % 256, s.powerLevel % 256];
    p := p + [0, 0, 0];
    p := p + Wire32(s.powerTimeout);
    ghost var fixed := p;
    for i := 0 to 5
      invariant p == fixed + LowBytes(s.eqLeft)[..i]
    {
      p := p + [s.eqLeft[i] % 256];
    }
    ghost var left := p;
    for i := 0 to 5
      invariant p == left + LowBytes(s.eqRight)[..i]
    {
      p := p + [s.eqRight[i] % 256];
    }
    p := p + [0, 0];
    assert LowBytes(s.eqLeft)[..5] == LowBytes(s.eqLeft) && LowBytes(s.eqRight)[..5] == LowBytes(s.eqRight);
  }

  function Ints(p: bytes): seq<int> { seq(|p|, i requires 0 <= i < |p| => p[i] as int) }

  /** The settings of a record, wherever the frame's bay and device come from. */
  function ParseAmpZone(p: bytes): AmpZone
    requires |p| >= AMP_ZONE_SIZE
  {
    AmpZone(p[18], p[19], p[20], p[21], U32(p, 24), U32(p, 28), p[32], p[33], p[34], p[35], p[36],
            U32(p, 40), Ints(p[44..49]), Ints(p[49..54]))
  }

  /** The uid is that of the addressed unit, zero in a status notification. */
  function DecodeAmpZone(f: RawFrame): Option<Addressed<AmpZone>>
    requires f.Valid()
  {
    var p := f.Payload();
    if |p| < AMP_ZONE_SIZE then None else Some(Addressed(f.UidOrZero(0), U16(p, 16), ParseAmpZone(p)))
  }

  method ReadEqBands(p: bytes) returns (left: seq<int>, right: seq<int>)
    requires |p| >= AMP_ZONE_SIZE
    ensures left == ParseAmpZone(p).eqLeft && right == ParseAmpZone(p).eqRight
  {
    left, right := [], [];
    for i := 0 to 5
      invariant left == Ints(p[44..44 + i]) && right == Ints(p[49..49 + i])
    {
      left, right := left + [p[44 + i]], right + [p[49 + i]];
    }
  }

  // ---- every payload read back by its handler ----

  function Sent(sender: uid, opcode: u16, stamp: u16, payload: bytes): RawFrame {
    RawFrame(Build(sender, opcode, stamp, payload))
  }

  lemma SentReads(sender: uid, opcode: u16, stamp: u16, payload: bytes)
    requires 16 <= |payload| < 0x1_0000
    ensures var f := Sent(sender, opcode, stamp, payload);
            f.Valid() && f.Payload() == payload && f.UidOrZero(0) == payload[..16]
  {
    FrameRoundTrip(sender, opcode, stamp, payload);
    AccessorsReadPayload(sender, opcode, stamp, payload, 0);
  }

  /** A volume survives the trip exactly when it lies in 0..100, a mute state always
      does, and no mute state arrives as unmuted. */
  lemma VolumeRoundTrip(sender: uid, opcode: u16, stamp: u16, target: uid, port: u16, volume: int, muted: Option<bool>)
    ensures var f := Sent(sender, opcode, stamp, VolumeSetPayload(target, port, volume, muted));
            && f.Valid() && DecodeVolumeSet(f).Some?
            && DecodeVolumeSet(f).value.target == target && DecodeVolumeSet(f).value.port == port
            && var v := DecodeVolumeSet(f).value.value;
            && (v.left == volume && v.right == volume <==> 0 <= volume <= 100)
            && v.mutedLeft == v.mutedRight == Some(muted == Some(true))
  {
    var p := VolumeSetPayload(target, port, volume, muted);
    SentReads(sender, opcode, stamp, p);
    assert p[..16] == target && U16(p, 16) == port;
    assert p[18..21] == VolumeRequest(volume, muted).Wire();
  }

  lemma NameRoundTrip(sender: uid, opcode: u16, stamp: u16, target: uid, port: u16, name: bytes)
    ensures var f := Sent(sender, opcode, stamp, NamePayload(target, port, name));
            && f.Valid() && DecodeName(f).Some?
            && DecodeName(f).value.target == target && DecodeName(f).value.port == port
            && (DecodeName(f).value.value == Cut(name, 16) <==> Ascii(Cut(name, 16)))
  {
    var p := NamePayload(target, port, name);
    SentReads(sender, opcode, stamp, p);
    assert p[..16] == target && U16(p, 16) == port && p[18..34] == Fixed(name, 16);
    FixedFieldRoundTrip(name, 16);
  }

  lemma HiddenRoundTrip(sender: uid, opcode: u16, stamp: u16, target: uid, port: u16, hidden: bool)
    ensures var f := Sent(sender, opcode, stamp, HiddenPayload(target, port, hidden));
            f.Valid() && DecodeHidden(f) == Some(Addressed(target, port, hidden))
  {
    var p := HiddenPayload(target, port, hidden);
    SentReads(sender, opcode, stamp, p);
    AccessorsReadPayload(sender, opcode, stamp, p, 16);
    AccessorsReadPayload(sender, opcode, stamp, p, 18);
    assert p[..16] == target && U16(p, 16) == port;
  }

  lemma EdidRoundTrip(sender: uid, opcode: u16, stamp: u16, target: uid, profile: int)
    ensures var f := Sent(sender, opcode, stamp, EdidPayload(target, profile));
            && f.Valid() && DecodeEdid(f).Some? && DecodeEdid(f).value.0 == target
            && (DecodeEdid(f).value.1 == profile <==> 0 <= profile < 0x1_0000)
  {
    var p := EdidPayload(target, profile);
    SentReads(sender, opcode, stamp, p);
    assert p[..16] == target && p[16..18] == Wire16(profile);
  }

  lemma ActionRoundTrip(sender: uid, opcode: u16, stamp: u16, target: uid, port: u16, action: int)
    ensures var f := Sent(sender, opcode, stamp, ActionPayload(target, port, action));
            && f.Valid() && DecodeAction(f).Some?
            && DecodeAction(f).value.target == target && DecodeAction(f).value.port == port
            && (DecodeAction(f).value.value == action <==> 0 <= action < 0x1_0000)
  {
    var p := ActionPayload(target, port, action);
    SentReads(sender, opcode, stamp, p);
    assert p[..16] == target && U16(p, 16) == port && p[18..20] == Wire16(action);
  }

  lemma StreamSlice(p: bytes, i: nat, s: StreamSource)
    requires |s.ip| == 4 && i + 8 <= |p| && p[i..i + 8] == StreamWire(s)
    ensures ParseStream(p, i) == s
  {
    var w := p[i..i + 8];
    assert p[i..i + 4] == w[..4] == s.ip;
    assert p[i + 4] == w[4] == Wire16(s.port)[0] && p[i + 5] == w[5] == Wire16(s.port)[1];
  }

  lemma U32Slice(p: bytes, i: nat, v: u32)
    requires i + 4 <= |p| && p[i..i + 4] == Wire32(v)
    ensures U32(p, i) == v
  {
    Wire32Reads(v);
    var w := p[i..i + 4];
    assert p[i] == w[0] && p[i + 1] == w[1] && p[i + 2] == w[2] && p[i + 3] == w[3];
  }

  lemma FormatSlice(p: bytes, i: nat, fmt: AudioFormat)
    requires i + 8 <= |p| && p[i..i + 8] == FormatWire(fmt)
    ensures ParseFormat(p, i) == fmt
  {
    var w := p[i..i + 8];
    assert p[i..i + 4] == w[..4] == Wire32(fmt.sampleRate) && p[i + 4] == w[4] == fmt.channels;
    U32Slice(p, i, fmt.sampleRate);
  }

  lemma ManualSwitchLayout(target: uid, r: SinkRoute)
    requires |r.video.ip| == 4 == |r.audio.ip| && |r.anc.ip| == 4
    ensures var p := ManualSwitchPayload(target, r);
            && |p| == (if r.fmt.None? then 40 else 48) && p[..16] == target
            && p[16..24] == StreamWire(r.video) && p[24..32] == StreamWire(r.audio) && p[32..40] == StreamWire(r.anc)
            && (r.fmt.Some? ==> p[40..48] == FormatWire(r.fmt.value))
  {
  }

  lemma ManualSwitchRoundTrip(sender: uid, opcode: u16, stamp: u16, target: uid, r: SinkRoute)
    requires |r.video.ip| == 4 == |r.audio.ip| && |r.anc.ip| == 4
    ensures var f := Sent(sender, opcode, stamp, ManualSwitchPayload(target, r));
            f.Valid() && DecodeManualSwitch(f) == Some((target, r))
  {
    var p := ManualSwitchPayload(target, r);
    ManualSwitchLayout(target, r);
    SentReads(sender, opcode, stamp, p);
    StreamSlice(p, 16, r.video);
    StreamSlice(p, 24, r.audio);
    StreamSlice(p, 32, r.anc);
    if r.fmt.Some? {
      FormatSlice(p, 40, r.fmt.value);
    }
  }

  lemma AudioSelectLayout(sink: uid, sinkId: u16, source: uid, sourceId: u16)
    ensures var p := AudioSelectPayload(sink, sinkId, source, sourceId);
            && |p| == 56 && p[20..36] == sink && p[36..52] == source
            && U16(p, 52) == sinkId && U16(p, 54) == sourceId
  {
    var p := AudioSelectPayload(sink, sinkId, source, sourceId);
    assert p[52..54] == Wire16(sinkId) && p[54..56] == Wire16(sourceId);
    U16Slice(p, 52, sinkId);
    U16Slice(p, 54, sourceId);
  }

  lemma AudioSelectRoundTrip(sender: uid, opcode: u16, stamp: u16, sink: uid, sinkId: u16, source: uid, sourceId: u16)
    ensures DecodeAudioSelect(Sent(sender, opcode, stamp, AudioSelectPayload(sink, sinkId, source, sourceId)))
            == Some(AudioSelection(source, sourceId, sink, sinkId))
  {
    var p := AudioSelectPayload(sink, sinkId, source, sourceId);
    AudioSelectLayout(sink, sinkId, source, sourceId);
    AccessorsReadPayload(sender, opcode, stamp, p, 20);
    AccessorsReadPayload(sender, opcode, stamp, p, 36);
    AccessorsReadPayload(sender, opcode, stamp, p, 52);
    AccessorsReadPayload(sender, opcode, stamp, p, 54);
  }

  lemma LowBytesExact(s: seq<int>)
    ensures Ints(LowBytes(s)) == s <==> forall i :: 0 <= i < |s| ==> 0 <= s[i] < 256
  {
    if Ints(LowBytes(s)) == s {
      forall i | 0 <= i < |s|
        ensures 0 <= s[i] < 256
      {
        assert Ints(LowBytes(s))[i] == s[i] % 256;
      }
    }
  }

  lemma AmpZoneHead(target: uid, port: u16, s: AmpZone)
    requires s.Shaped()
    ensures var p := AmpZonePayload(target, port, s);
            && |p| == AMP_ZONE_SIZE && p[..16] == target && U16(p, 16) == port
            && p[18..22] == [s.gainLeft % 256, s.gainRight % 256, s.volumeMin % 256, s.volumeMax % 256]
  {
    var p := AmpZonePayload(target, port, s);
    assert p[16..18] == Wire16(port);
    U16Slice(p, 16, port);
  }

  lemma AmpZoneWords(target: uid, port: u16, s: AmpZone)
    requires s.Shaped()
    ensures var p := AmpZonePayload(target, port, s);
            && |p| == AMP_ZONE_SIZE
            && p[24..28] == Wire32(s.delayLeft) && p[28..32] == Wire32(s.delayRight) && p[40..44] == Wire32(s.powerTimeout)
  {
  }

  lemma AmpZoneTones(target: uid, port: u16, s: AmpZone)
    requires s.Shaped()
    ensures var p := AmpZonePayload(target, port, s);
            && |p| == AMP_ZONE_SIZE
            && p[32..37] == [s.bass % 256, s.treble % 256, s.bridged % 256, s.powerMode % 256, s.powerLevel % 256]
            && p[44..49] == LowBytes(s.eqLeft) && p[49..54] == LowBytes(s.eqRight)
  {
  }

  /** The settings with every byte-wide field cut to its low byte. */
  function Truncated(s: AmpZone): AmpZone {
    AmpZone(s.gainLeft % 256, s.gainRight % 256, s.volumeMin % 256, s.volumeMax % 256, s.delayLeft, s.delayRight,
            s.bass % 256, s.treble % 256, s.bridged % 256, s.powerMode % 256, s.powerLevel % 256,
            s.powerTimeout, Ints(LowBytes(s.eqLeft)), Ints(LowBytes(s.eqRight)))
  }

  lemma TruncatedExact(s: AmpZone)
    ensures Truncated(s) == s <==> s.InRange()
  {
    LowBytesExact(s.eqLeft);
    LowBytesExact(s.eqRight);
  }

  lemma AmpZoneParses(target: uid, port: u16, s: AmpZone)
    requires s.Shaped()
    ensures ParseAmpZone(AmpZonePayload(target, port, s)) == Truncated(s)
  {
    hide AmpZonePayload;
    hide U32;
    var p := AmpZonePayload(target, port, s);
    AmpZoneHead(target, port, s);
    AmpZoneWords(target, port, s);
    AmpZoneTones(target, port, s);
    U32Slice(p, 24, s.delayLeft);
    U32Slice(p, 28, s.delayRight);
    U32Slice(p, 40, s.powerTimeout);
    var gains, tones := p[18..22], p[32..37];
    assert p[18] == gains[0] && p[19] == gains[1] && p[20] == gains[2] && p[21] == gains[3];
    assert p[32] == tones[0] && p[33] == tones[1] && p[34] == tones[2] && p[35] == tones[3] && p[36] == tones[4];
  }

  /** Amplifier settings arrive as sent exactly when every byte-wide field is a byte. */
  lemma AmpZoneRoundTrip(sender: uid, opcode: u16, stamp: u16, target: uid, port: u16, s: AmpZone)
    requires s.Shaped()
    ensures var f := Sent(sender, opcode, stamp, AmpZonePayload(target, port, s));
            && f.Valid() && DecodeAmpZone(f).Some?
            && DecodeAmpZone(f).value.target == target && DecodeAmpZone(f).value.port == port
            && (DecodeAmpZone(f).value.value == s <==> s.InRange())
  {
    SentReads(sender, opcode, stamp, AmpZonePayload(target, port, s));
    AmpZoneHead(target, port, s);
    AmpZoneParses(target, port, s);
    TruncatedExact(s);
  }

  lemma SentIs(sender: uid, opcode: u16, stamp: u16, p: bytes)
    requires |p| < 0x1_0000
    ensures Sent(sender, opcode, stamp, p).Valid() && Sent(sender, opcode, stamp, p).Payload() == p
  {
    FrameRoundTrip(sender, opcode, stamp, p);
  }

  /** What the requests that are not stored of a bay here say, byte by byte. */
  lemma RequestBytes(sender: uid, opcode: u16, stamp: u16, p: bytes)
    requires |p| < 0x1_0000
    ensures var f := Sent(sender, opcode, stamp, p);
            && f.Valid()
            && (DecodeName(f) == if |p| < 34 then None else Some(Addressed(p[..16], Le(p[16..18]), CStr(p[18..34]))))
            && (DecodeEdid(f) == if |p| < 18 then None else Some((p[..16], Le(p[16..18]))))
            && (DecodeAction(f).Some? <==> |p| >= 20)
            && (|p| >= 20 ==>
                  var a := DecodeAction(f).value;
                  a.target == p[..16] && a.port == Le(p[16..18]) && a.value == Le(p[18..20]))
  {
    hide Le;
    hide CStr;
    hide U16;
    hide Sent;
    hide RawFrame.Valid;
    hide RawFrame.Payload;
    SentIs(sender, opcode, stamp, p);
    LeReads(p, 16);
    LeReads(p, 18);
  }

  /** The sink comes first in an input selection, its number behind both uids. */
  lemma SelectionBytes(sender: uid, opcode: u16, stamp: u16, p: bytes)
    ensures DecodeAudioSelect(Sent(sender, opcode, stamp, p))
         == if |p| < 56 then None else Some(AudioSelection(p[36..52], Le(p[54..56]), p[20..36], Le(p[52..54])))
  {
    hide Le;
    hide U16;
    hide Sent;
    hide RawFrame.UidAt;
    hide RawFrame.U16At;
    FieldsAt(sender, opcode, stamp, p, 20);
    FieldsAt(sender, opcode, stamp, p, 36);
    FieldsAt(sender, opcode, stamp, p, 52);
    FieldsAt(sender, opcode, stamp, p, 54);
  }

  lemma FieldsAt(sender: uid, opcode: u16, stamp: u16, p: bytes, i: nat)
    ensures var f := Sent(sender, opcode, stamp, p);
            && (i + 2 <= |p| ==> f.U16At(i).Some? && f.U16At(i).value == Le(p[i..i + 2]))
            && (i + 2 > |p| ==> f.U16At(i) == None)
            && f.UidAt(i) == (if i + 16 <= |p| then Some(p[i..i + 16]) else None)
  {
    hide Le;
    AccessorsReadPayload(sender, opcode, stamp, p, i);
    LeReads(p, i);
  }
}
