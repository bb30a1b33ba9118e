/** A control call stores of a bay what it has asked for; a peer that receives its frame
    does the same to its own copy of that bay. */
module Peers {
  import opened Bytes
  import opened Frames
  import opened Opcodes
  import opened Control
  import opened BayModel
  import opened DeviceModel
  import opened Registry

  /** What a client announces of itself. */
  function HelloPayload(h: Hello): bytes {
    Wire16(h.protocol) + Fixed(h.name, 16) + Fixed(h.serial, 16) + Fixed(h.version, 16) + Wire32(h.features)
  }

  lemma HelloReads(sender: uid, opcode: u16, stamp: u16, h: Hello)
    ensures var f := Sent(sender, opcode, stamp, HelloPayload(h));
            && f.Valid() && |f.Payload()| == 54
            && HelloOf(f) == Hello(h.protocol, CStr(Fixed(h.name, 16)), CStr(Fixed(h.serial, 16)),
                                   CStr(Fixed(h.version, 16)), h.features)
  {
    hide CStr;
    hide Fixed;
    hide HelloPayload;
    hide U16;
    hide U32;
    var p, f := HelloPayload(h), Sent(sender, opcode, stamp, HelloPayload(h));
    HelloLayout(h);
    FrameRoundTrip(sender, opcode, stamp, p);
    AccessorsReadPayload(sender, opcode, stamp, p, 0);
    AccessorsReadPayload(sender, opcode, stamp, p, 50);
    TextReads(sender, opcode, stamp, p, 2);
    TextReads(sender, opcode, stamp, p, 18);
    TextReads(sender, opcode, stamp, p, 34);
  }

  lemma HelloLayout(h: Hello)
    ensures var p := HelloPayload(h);
            && |p| == 54 && U16(p, 0) == h.protocol && U32(p, 50) == h.features
            && p[2..18] == Fixed(h.name, 16) && p[18..34] == Fixed(h.serial, 16) && p[34..50] == Fixed(h.version, 16)
  {
    hide CStr;
    var p := HelloPayload(h);
    FixedLength(h.name);
    FixedLength(h.serial);
    FixedLength(h.version);
    hide Fixed;
    assert p[..2] == Wire16(h.protocol);
    U16Slice(p, 0, h.protocol);
    U32Slice(p, 50, h.features);
  }

  lemma FixedLength(text: bytes)
    ensures |Fixed(text, 16)| == 16
  {
  }

  lemma TextReads(sender: uid, opcode: u16, stamp: u16, payload: bytes, i: nat)
    requires i + 16 <= |payload|
    ensures Sent(sender, opcode, stamp, payload).StrOrEmpty(i, 16) == CStr(payload[i..i + 16])
  {
    var f := Sent(sender, opcode, stamp, payload);
    BuildLayout(sender, opcode, stamp, payload);
    assert f.data[24 + i..24 + i + 16] == f.data[24..][i..i + 16];
  }

  /** An announcement is heard as it was made, its names cut to 16 bytes, exactly when
      they are ASCII without a NUL. */
  lemma HelloRoundTrip(sender: uid, opcode: u16, stamp: u16, h: Hello)
    ensures var f := Sent(sender, opcode, stamp, HelloPayload(h));
            && f.Valid()
            && (HelloOf(f) == Hello(h.protocol, Cut(h.name, 16), Cut(h.serial, 16), Cut(h.version, 16), h.features)
                <==> Ascii(Cut(h.name, 16)) && Ascii(Cut(h.serial, 16)) && Ascii(Cut(h.version, 16)))
  {
    HelloReads(sender, opcode, stamp, h);
    FixedFieldRoundTrip(h.name, 16);
    FixedFieldRoundTrip(h.serial, 16);
    FixedFieldRoundTrip(h.version, 16);
  }

  lemma HiddenReachesPeer(r: Reg, sender: uid, stamp: u16, target: uid, port: u16, hidden: bool)
    ensures var f := Sent(sender, OP_BAY_HIDE, stamp, HiddenPayload(target, port, hidden));
            f.Valid() && HandleBayHide(r, f) == r.OnBay(BayId(target, port), [OpFlag(Hidden, hidden)])
  {
    HiddenRoundTrip(sender, OP_BAY_HIDE, stamp, target, port, hidden);
  }

  // ---- volume ----

  /** What a peer hears of a volume request: a negative volume as 0, any other by its
      low byte and only up to 100, an absent mute state as unmuted. */
  function Heard(volume: int, muted: Option<bool>): Volume {
    var level := Control.Level((if volume < 0 then 0 else volume) % 256);
    VolumeRequest(level, Some(muted == Some(true)))
  }

  /** What the caller of VolumeSet has cached of a bay after it, and what a peer that had
      the same bay has. */
  function CallerHas(b: Bay, volume: int, muted: Option<bool>): Value {
    Apply(b, OpVolume(VolumeRequest(volume, muted))).Read(Level)
  }

  function PeerHas(b: Bay, volume: int, muted: Option<bool>): Value { Apply(b, OpVolume(Heard(volume, muted))).Read(Level) }

  lemma VolumeHeard(sender: uid, stamp: u16, target: uid, port: u16, volume: int, muted: Option<bool>)
    ensures var f := Sent(sender, OP_AUDIO_SET_VOLUME, stamp, VolumeSetPayload(target, port, volume, muted));
            && f.Valid() && f.RemoteId() == sender
            && DecodeVolumeSet(f) == Some(Addressed(target, port, Heard(volume, muted)))
  {
    var p := VolumeSetPayload(target, port, volume, muted);
    SentReads(sender, OP_AUDIO_SET_VOLUME, stamp, p);
    SenderIs(sender, OP_AUDIO_SET_VOLUME, stamp, p);
    assert p[..16] == target && U16(p, 16) == port;
    assert p[18..21] == VolumeRequest(volume, muted).Wire();
    assert p[18] == p[18..21][0] && p[19] == p[18..21][1] && p[20] == p[18..21][2];
  }

  /** The same bay in two registries, as far as its volume goes. */
  ghost predicate SameVolume(caller: Reg, peer: Reg, id: BayId) {
    && caller.Knows(id) && caller.devices[id.device].uid == id.device
    && peer.Knows(id) && peer.devices[id.device].uid == id.device
    && caller.BayAt(id).HasVolumeControl() == peer.BayAt(id).HasVolumeControl()
    && caller.BayAt(id).Read(Level) == peer.BayAt(id).Read(Level)
  }

  /** Both channels are cached at the same volume. */
  predicate BothAt(cached: Value, volume: int) {
    cached.LevelIs? && cached.volume.Some? && cached.volume.value.left == volume == cached.volume.value.right
  }

  predicate KnownUnmuted(cached: Value) {
    && cached.LevelIs? && cached.volume.Some?
    && cached.volume.value.mutedLeft == Some(false) == cached.volume.value.mutedRight
  }

  /** The mute state is given, or known to be off; the volume is in range, or out of it
      in a way that moves neither side. */
  predicate Agreed(cached: Value, volume: int, muted: Option<bool>) {
    && (muted.Some? || KnownUnmuted(cached))
    && (|| 0 <= volume <= 100
        || (volume < 0 && BothAt(cached, 0))
        || (volume > 100 && volume % 256 > 100 && BothAt(cached, volume)))
  }

  lemma HeardLevel(volume: int, muted: Option<bool>)
    ensures var level := Heard(volume, muted).left;
            && (0 <= volume <= 100 ==> level == volume) && (volume < 0 ==> level == 0)
            && (volume > 100 ==> level != volume && (level < 0 <==> volume % 256 > 100))
    ensures muted.Some? ==> Heard(volume, muted).mutedLeft == muted == Heard(volume, muted).mutedRight
  {
    if 0 <= volume < 256 {
      assert volume % 256 == volume;
    }
    match muted {
      case None =>
      case Some(true) =>
      case Some(false) =>
    }
  }

  lemma MergesAgree(cached: Value, volume: int, muted: Option<bool>)
    ensures Combine(cached, VolumeRequest(volume, muted)) == Combine(cached, Heard(volume, muted))
       <==> Agreed(cached, volume, muted)
  {
    var mine, heard := Combine(cached, VolumeRequest(volume, muted)), Combine(cached, Heard(volume, muted));
    assert mine == heard <==> mine.left == heard.left && mine.right == heard.right
                              && mine.mutedLeft == heard.mutedLeft && mine.mutedRight == heard.mutedRight;
    HeardLevel(volume, muted);
    if cached.LevelIs? && cached.volume.Some? {
      assert mine.left == heard.left && mine.right == heard.right <==> Agreed(cached, volume, Some(true));
      assert mine.mutedLeft == heard.mutedLeft && mine.mutedRight == heard.mutedRight <==> muted.Some? || KnownUnmuted(cached);
    } else {
      assert mine.mutedLeft == heard.mutedLeft <==> muted.Some?;
      assert mine.left == heard.left <==> 0 <= volume <= 100;
    }
  }

  lemma VolumeAgrees(b: Bay, volume: int, muted: Option<bool>)
    ensures CallerHas(b, volume, muted) == PeerHas(b, volume, muted)
       <==> !b.HasVolumeControl() || Agreed(b.Read(Level), volume, muted)
  {
    if b.HasVolumeControl() {
      var mine, heard := VolumeRequest(volume, muted), Heard(volume, muted);
      assert CallerHas(b, volume, muted) == LevelIs(Some(Combine(b.Read(Level), mine)));
      assert PeerHas(b, volume, muted) == LevelIs(Some(Combine(b.Read(Level), heard)));
      MergesAgree(b.Read(Level), volume, muted);
    }
  }

  lemma OneOpRead(r: Reg, id: BayId, op: Op)
    requires r.Knows(id) && r.devices[id.device].uid == id.device
    ensures r.OnBay(id, [op]).Knows(id) && r.OnBay(id, [op]).BayAt(id) == Apply(r.BayAt(id), op)
  {
    hide Apply;
    var d := r.devices[id.device];
    assert [op][1..] == [];
    assert OnBays(d, id.port, [op]) == d.OnBay(id.port, op);
  }

  lemma SameReadings(a: Bay, b: Bay, v: Volume)
    requires a.HasVolumeControl() == b.HasVolumeControl() && a.Read(Level) == b.Read(Level)
    ensures Apply(a, OpVolume(v)).Read(Level) == Apply(b, OpVolume(v)).Read(Level)
  {
  }

  /** A peer that knows the sender and has the same bay ends up with the volume the
      caller has cached exactly in the agreed cases. */
  lemma VolumeReachesPeer(caller: Reg, peer: Reg, sender: uid, stamp: u16, target: uid, port: u16,
                          volume: int, muted: Option<bool>)
    requires sender in peer.devices && SameVolume(caller, peer, BayId(target, port))
    ensures var id := BayId(target, port);
            var f := Sent(sender, OP_AUDIO_SET_VOLUME, stamp, VolumeSetPayload(target, port, volume, muted));
            var mine := caller.OnBay(id, [OpVolume(VolumeRequest(volume, muted))]);
            && f.Valid() && mine.Knows(id) && HandleVolumeSet(peer, f).Knows(id)
            && (mine.BayAt(id).Read(Level) == HandleVolumeSet(peer, f).BayAt(id).Read(Level)
                <==> !caller.BayAt(id).HasVolumeControl() || Agreed(caller.BayAt(id).Read(Level), volume, muted))
  {
    hide DecodeVolumeSet;
    hide Apply;
    hide Reg.OnBay;
    hide Heard;
    hide Agreed;
    var id := BayId(target, port);
    VolumeHeard(sender, stamp, target, port, volume, muted);
    OneOpRead(caller, id, OpVolume(VolumeRequest(volume, muted)));
    OneOpRead(peer, id, OpVolume(Heard(volume, muted)));
    SameReadings(caller.BayAt(id), peer.BayAt(id), Heard(volume, muted));
    VolumeAgrees(caller.BayAt(id), volume, muted);
  }

  /** Raising the volume keeps a peer in step exactly below full volume with the mute
      known to be off; lowering it, above silence or with both channels silent, likewise;
      setting the mute, whenever the volume shown is one a peer can be sent. */
  lemma StepsReachPeer(b: Bay, mute: bool)
    requires b.HasVolumeControl() && b.Read(Level).LevelIs? && b.Read(Level).volume.Some?
    ensures var cached := b.Read(Level);
            var shown := cached.volume.value.Combined();
            && (CallerHas(b, shown + 1, None) == PeerHas(b, shown + 1, None) <==> KnownUnmuted(cached) && shown < 100)
            && (CallerHas(b, shown - 1, None) == PeerHas(b, shown - 1, None)
                <==> KnownUnmuted(cached) && shown <= 101 && (shown > 0 || BothAt(cached, 0)))
            && (CallerHas(b, shown, Some(mute)) == PeerHas(b, shown, Some(mute))
                <==> shown <= 100 || (shown % 256 > 100 && BothAt(cached, shown)))
  {
    hide CallerHas;
    hide PeerHas;
    var shown := b.Read(Level).volume.value.Combined();
    VolumeAgrees(b, shown + 1, None);
    VolumeAgrees(b, shown - 1, None);
    VolumeAgrees(b, shown, Some(mute));
  }

  /** An amplifier output at the given volume. */
  function AmpBay(left: int, right: int, muted: bool): Bay {
    Bay(BayId(ZERO_UID, 0), [], Some(0), AUDIO_AMP_OUT, 0, 0, None, None, ZERO_UID,
        map[Level := LevelIs(Some(Volume(left, right, Some(muted), Some(muted))))], [])
  }

  /** Raised at full volume the caller shows 101 and the peer stays; lowered near silence
      the caller stays and the peer goes silent; set without a mute state a muted bay
      stays muted for the caller alone. */
  lemma VolumeDrifts()
    ensures CallerHas(AmpBay(100, 100, false), 101, None) == LevelIs(Some(Volume(101, 101, Some(false), Some(false))))
    ensures PeerHas(AmpBay(100, 100, false), 101, None) == LevelIs(Some(Volume(100, 100, Some(false), Some(false))))
    ensures CallerHas(AmpBay(0, 1, false), -1, None) == LevelIs(Some(Volume(0, 1, Some(false), Some(false))))
    ensures PeerHas(AmpBay(0, 1, false), -1, None) == LevelIs(Some(Volume(0, 0, Some(false), Some(false))))
    ensures CallerHas(AmpBay(50, 50, true), 60, None) == LevelIs(Some(Volume(60, 60, Some(true), Some(true))))
    ensures PeerHas(AmpBay(50, 50, true), 60, None) == LevelIs(Some(Volume(60, 60, Some(false), Some(false))))
  {
    assert AmpBay(100, 100, false).HasVolumeControl() && AmpBay(0, 1, false).HasVolumeControl();
    assert AmpBay(50, 50, true).HasVolumeControl();
  }

  lemma AmpZoneReachesPeer(r: Reg, sender: uid, stamp: u16, target: uid, port: u16, zone: AmpZone)
    requires zone.Shaped() && zone.InRange() && !Empty(target)
    ensures var f := Sent(sender, OP_AMP_ZONE_SETTINGS, stamp, AmpZonePayload(target, port, zone));
            f.Valid() && HandleAmpZone(r, f) == r.OnBay(BayId(target, port), [OpAmp(zone)])
  {
    AmpZoneRoundTrip(sender, OP_AMP_ZONE_SETTINGS, stamp, target, port, zone);
  }

  /** A manual source switch leaves its target subscribed to exactly the route sent,
      whatever the addresses are looked up as. */
  lemma ManualSwitchReachesPeer(r: Reg, sender: uid, stamp: u16, target: uid, route: SinkRoute, choice: Choice)
    requires |route.video.ip| == 4 == |route.audio.ip| && |route.anc.ip| == 4
    requires target in r.devices && r.devices[target].uid == target
    ensures var f := Sent(sender, OP_V2IP_MANUAL_SRC_SWITCH, stamp, ManualSwitchPayload(target, route));
            f.Valid() && target in HandleManualSwitch(r, f, choice).devices
            && HandleManualSwitch(r, f, choice).devices[target].sink == Some(route)
  {
    var f := Sent(sender, OP_V2IP_MANUAL_SRC_SWITCH, stamp, ManualSwitchPayload(target, route));
    ManualSwitchRoundTrip(sender, OP_V2IP_MANUAL_SRC_SWITCH, stamp, target, route);
    hide DecodeManualSwitch;
    hide OnBays;
    if Sink(r, target).Some? {
      OnBaysUid(r.devices[target], Sink(r, target).value.port, [OpSelect(choice.video, choice.audio)]);
    }
  }

  lemma SenderIs(sender: uid, opcode: u16, stamp: u16, payload: bytes)
    ensures Sent(sender, opcode, stamp, payload).Valid() && Sent(sender, opcode, stamp, payload).RemoteId() == sender
  {
    FrameRoundTrip(sender, opcode, stamp, payload);
  }

  lemma {:induction false} OnBaysUid(d: Device, port: nat, ops: seq<Op>)
    requires port in d.bays
    ensures OnBays(d, port, ops).uid == d.uid
    decreases |ops|
  {
    hide Apply;
    if ops != [] {
      OnBaysUid(d.OnBay(port, ops[0]), port, ops[1..]);
    }
  }
}
