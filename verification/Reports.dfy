/** What the datagrams about bays do, said of the bytes of their payloads and of what a
    reader of the registry sees afterwards. */
module Reports {
  import opened Bytes
  import opened Frames
  import opened Opcodes
  import opened V2ipConfig
  import opened Control
  import opened BayModel
  import opened DeviceModel
  import opened Links
  import opened Registry

  // ---- what is left alone ----

  /** All of a device besides its bays, its notices and whether it is alive and complete. */
  ghost predicate SameFacts(d: Device, e: Device) {
    && e.uid == d.uid && e.hello == d.hello && e.sources == d.sources && e.details == d.details
    && e.sink == d.sink && e.tiling == d.tiling && e.linkConfig == d.linkConfig
  }

  /** No device, bay or link has come, gone or changed, apart from these bays. */
  ghost predicate OnlyBays(r: Reg, s: Reg, changed: set<BayId>) {
    && s.book == r.book && s.devices.Keys == r.devices.Keys
    && (forall u :: u in r.devices ==> SameFacts(r.devices[u], s.devices[u]))
    && (forall id :: s.Knows(id) <==> r.Knows(id))
    && (forall id :: r.Knows(id) && id !in changed ==> s.BayAt(id) == r.BayAt(id))
  }

  /** Nothing about the bay has changed but what a reader sees of these attributes. */
  ghost predicate OnlyReads(b: Bay, c: Bay, changed: set<Kind>) {
    && c == b.(attrs := c.attrs, log := c.log)
    && forall kind :: kind !in changed ==> c.Read(kind) == b.Read(kind)
  }

  /** A bay after the operations of one report, the first of them first. */
  function ApplyAll(b: Bay, ops: seq<Op>): Bay
    decreases |ops|
  {
    if ops == [] then b else ApplyAll(Apply(b, ops[0]), ops[1..])
  }

  lemma {:induction false} OnBaysAppliesAll(d: Device, port: nat, ops: seq<Op>)
    requires port in d.bays
    ensures var e := OnBays(d, port, ops);
            SameFacts(d, e) && e.bays == d.bays[port := ApplyAll(d.bays[port], ops)]
    decreases |ops|
  {
    hide Apply;
    if ops == [] {
      assert d.bays[port := d.bays[port]] == d.bays;
    } else {
      OnBaysAppliesAll(d.OnBay(port, ops[0]), port, ops[1..]);
    }
  }

  lemma OneOp(b: Bay, op: Op)
    ensures ApplyAll(b, [op]) == Apply(b, op)
  {
    hide Apply;
    assert [op][1..] == [];
  }

  lemma OnBayReports(r: Reg, id: BayId, ops: seq<Op>)
    requires forall u :: u in r.devices ==> r.devices[u].uid == u
    ensures OnlyBays(r, r.OnBay(id, ops), {id})
    ensures r.Knows(id) ==> r.OnBay(id, ops).BayAt(id) == ApplyAll(r.BayAt(id), ops)
  {
    hide OnBays;
    hide ApplyAll;
    if r.Knows(id) {
      OnBaysAppliesAll(r.devices[id.device], id.port, ops);
    }
  }

  lemma TouchReports(r: Reg, u: uid, ts: int, now: int)
    requires forall v :: v in r.devices ==> r.devices[v].uid == v
    ensures OnlyBays(r, TouchSender(r, u, ts, now), {})
  {
  }

  lemma OnlyBaysOn(r: Reg, m: Reg, s: Reg, changed: set<BayId>)
    requires OnlyBays(r, m, changed) && OnlyBays(m, s, {})
    ensures OnlyBays(r, s, changed)
    ensures forall id :: r.Knows(id) ==> s.BayAt(id) == m.BayAt(id)
  {
  }

  lemma WellFormedKeyed(r: Reg)
    requires WellFormed(r)
    ensures forall u :: u in r.devices ==> r.devices[u].uid == u
  {
    forall u | u in r.devices
      ensures r.devices[u].uid == u
    {
      assert DeviceOk(r, u);
    }
  }

  lemma Received(u: uid, opcode: u16, stamp: u16, p: bytes)
    requires |p| < 0x1_0000
    ensures var f := Sent(u, opcode, stamp, p);
            f.Valid() && f.Payload() == p && f.RemoteId() == u && f.Opcode() == opcode
  {
    FrameRoundTrip(u, opcode, stamp, p);
  }

  /** A datagram is handled as the frame it was built from, which touches its sender. */
  lemma Arrives(r: Reg, u: uid, opcode: u16, stamp: u16, p: bytes, ts: int, now: int, choice: Choice)
    requires u != r.me && |p| < 0x1_0000 && Sent(u, opcode, stamp, p).Valid()
    ensures Process(r, Build(u, opcode, stamp, p), ts, now, choice)
         == TouchSender(Handle(r, Sent(u, opcode, stamp, p), now, choice), u, ts, now)
  {
    hide Handle;
    hide TouchSender;
    FrameRoundTrip(u, opcode, stamp, p);
  }

  /** A datagram whose handler works on one bay. */
  lemma Reported(r: Reg, u: uid, opcode: u16, stamp: u16, p: bytes, ts: int, now: int, choice: Choice,
                 id: BayId, ops: seq<Op>)
    requires WellFormed(r) && u != r.me && |p| < 0x1_0000 && Sent(u, opcode, stamp, p).Valid()
    requires Handle(r, Sent(u, opcode, stamp, p), now, choice) == r.OnBay(id, ops)
    ensures var s := Process(r, Build(u, opcode, stamp, p), ts, now, choice);
            OnlyBays(r, s, {id}) && (r.Knows(id) ==> s.BayAt(id) == ApplyAll(r.BayAt(id), ops))
  {
    hide Process;
    hide Handle;
    hide TouchSender;
    hide WellFormed;
    hide ApplyAll;
    hide Reg.OnBay;
    var m := r.OnBay(id, ops);
    WellFormedKeyed(r);
    Arrives(r, u, opcode, stamp, p, ts, now, choice);
    OnBayReports(r, id, ops);
    TouchReports(m, u, ts, now);
    OnlyBaysOn(r, m, TouchSender(m, u, ts, now), {id});
  }

  /** A datagram whose handler does nothing. */
  lemma Ignored(r: Reg, u: uid, opcode: u16, stamp: u16, p: bytes, ts: int, now: int, choice: Choice)
    requires WellFormed(r) && u != r.me && |p| < 0x1_0000 && Sent(u, opcode, stamp, p).Valid()
    requires Handle(r, Sent(u, opcode, stamp, p), now, choice) == r
    ensures OnlyBays(r, Process(r, Build(u, opcode, stamp, p), ts, now, choice), {})
  {
    hide Process;
    hide Handle;
    hide TouchSender;
    hide WellFormed;
    WellFormedKeyed(r);
    Arrives(r, u, opcode, stamp, p, ts, now, choice);
    TouchReports(r, u, ts, now);
  }

  /** Which handler a frame goes to. */
  lemma Dispatched(r: Reg, f: RawFrame, now: int, choice: Choice)
    requires f.Valid()
    ensures var op, s := f.Opcode(), Handle(r, f, now, choice);
            && (op == 0x00 ==> s == HandleHello(r, f, now))
            && (op == 0x02 || op == 0x23 ==> s == HandleBayConfig(r, f, now))
            && (op == 0x03 ==> s == HandleLinks(r, f))
            && (op == 0x04 ==> s == HandleConnect(r, f))
            && (op == 0x05 ==> s == HandlePower(r, f))
            && (op == 0x08 ==> s == HandleRouting(r, f))
            && (op == 0x12 ==> s == HandleVolumeMute(r, f))
            && (op == 0x14 ==> s == HandleVolumeSet(r, f))
            && (op == 0x1F ==> s == HandleSourceSwitch(r, f, choice))
            && (op == 0x24 ==> s == HandleManualSwitch(r, f, choice))
            && (op == 0x26 ==> s == HandleSources(r, f))
            && (op == 0x27 ==> s == HandleBayHide(r, f))
            && (op == 0x31 ==> s == HandleSignalReport(r, f, choice))
            && (op == 0x32 ==> s == HandleMirror(r, f))
            && (op == 0x38 ==> s == HandleFilter(r, f))
            && (op == 0x39 ==> s == HandleBayStatus(r, f))
            && (op == 0x3C ==> s == HandleDeviceConfig(r, f))
            && (op == 0x3D ==> s == HandleAmpZone(r, f))
            && (op == 0x40 ==> s == HandleTiling(r, f))
            && (op == 0x44 ==> s == HandleBayMapping(r, f))
  {
    hide HandleHello;
    hide HandleBayConfig;
    hide HandleLinks;
    hide HandleConnect;
    hide HandlePower;
    hide HandleRouting;
    hide HandleVolumeSet;
    hide HandleVolumeMute;
    hide HandleSources;
    hide HandleSourceSwitch;
    hide HandleManualSwitch;
    hide HandleDeviceConfig;
    hide HandleBayHide;
    hide HandleBayStatus;
    hide HandleMirror;
    hide HandleBayMapping;
    hide HandleAmpZone;
    hide HandleFilter;
    hide HandleSignalReport;
    hide HandleTiling;
    hide RawFrame.Opcode;
  }

  // ---- what a frame reads ----

  /** What a frame reads at an offset is the number there. */
  lemma NumberAt(u: uid, opcode: u16, stamp: u16, p: bytes, i: nat)
    ensures var f := Sent(u, opcode, stamp, p);
            && (i + 2 <= |p| ==> f.U16At(i).Some? && f.U16At(i).value == Le(p[i..i + 2]))
            && (i + 2 > |p| ==> f.U16At(i) == None)
            && (i + 4 <= |p| ==> f.U32At(i).Some? && f.U32At(i).value == Le(p[i..i + 4]))
            && (i + 4 > |p| ==> f.U32At(i) == None)
  {
    hide Le;
    hide U16;
    hide U32;
    hide RawFrame.U16At;
    hide RawFrame.U32At;
    AccessorsReadPayload(u, opcode, stamp, p, i);
    LeReads(p, i);
  }

  // ---- routes, connection, power ----

  /** The sources a routing report may name, where the sender has such bays. */
  function Port(r: Reg, u: uid, port: nat): Option<BayId> {
    if r.Knows(BayId(u, port)) then Some(BayId(u, port)) else None
  }

  lemma RoutingHandled(r: Reg, u: uid, stamp: u16, p: bytes, now: int, choice: Choice)
    requires u in r.devices && 9 <= |p| < 0x1_0000
    ensures var f := Sent(u, 0x08, stamp, p);
            && f.Valid()
            && Handle(r, f, now, choice)
               == r.OnBay(BayId(u, Le(p[0..2])), [OpSelect(Port(r, u, Le(p[4..6])), Port(r, u, Le(p[7..9])))])
  {
    hide OnBays;
    hide Le;
    hide Handle;
    hide Sent;
    hide RawFrame.U16At;
    hide RawFrame.RemoteId;
    hide RawFrame.Opcode;
    hide RawFrame.Valid;
    Received(u, 0x08, stamp, p);
    Dispatched(r, Sent(u, 0x08, stamp, p), now, choice);
    NumberAt(u, 0x08, stamp, p, 0);
    NumberAt(u, 0x08, stamp, p, 4);
    NumberAt(u, 0x08, stamp, p, 7);
  }

  lemma Selected(b: Bay, v: Option<BayId>, a: Option<BayId>)
    ensures var c := Apply(b, OpSelect(v, a));
            && (!b.IsOutput() ==> c == b)
            && (b.IsOutput() ==>
                  && c == b.(video := if v.Some? then v else b.video, audio := if a.Some? then a else b.audio, log := c.log)
                  && (a.Some? ==> c.AudioSource() == a)
                  && c.log == b.log + (if v.Some? && v != b.video then [Routed(false, v.value)] else [])
                              + if a.Some? && a != b.(video := c.video).AudioSource() then [Routed(true, a.value)] else [])
  {
  }

  /** A routing report puts the bay at 4 on the screen of the output at 0, and plays the bay at
      7 there, as far as the sender has them. The selected input at 2 is not the one shown. */
  lemma RoutingReport(r: Reg, u: uid, stamp: u16, p: bytes, ts: int, now: int, choice: Choice)
    requires WellFormed(r) && u in r.devices && 9 <= |p| < 0x1_0000
    ensures var s := Process(r, Build(u, 0x08, stamp, p), ts, now, choice);
            var sink, video, audio := BayId(u, Le(p[0..2])), Port(r, u, Le(p[4..6])), Port(r, u, Le(p[7..9]));
            && OnlyBays(r, s, {sink})
            && (r.Knows(sink) && !r.BayAt(sink).IsOutput() ==> s.BayAt(sink) == r.BayAt(sink))
            && (r.Knows(sink) && r.BayAt(sink).IsOutput() ==>
                  var b, c := r.BayAt(sink), s.BayAt(sink);
                  && c == b.(video := c.video, audio := c.audio, log := c.log)
                  && c.video == (if video.Some? then video else b.video)
                  && c.audio == (if audio.Some? then audio else b.audio)
                  && (audio.Some? ==> c.AudioSource() == audio)
                  && c.log == b.log
                              + (if video.Some? && video != b.video then [Routed(false, video.value)] else [])
                              + if audio.Some? && audio != b.(video := c.video).AudioSource()
                                then [Routed(true, audio.value)] else [])
  {
    hide Process;
    hide Handle;
    hide WellFormed;
    hide OnlyBays;
    hide Apply;
    hide ApplyAll;
    hide Le;
    hide Bay.IsOutput;
    hide Bay.AudioSource;
    hide Sent;
    hide Reg.OnBay;
    var sink, op := BayId(u, Le(p[0..2])), OpSelect(Port(r, u, Le(p[4..6])), Port(r, u, Le(p[7..9])));
    RoutingHandled(r, u, stamp, p, now, choice);
    Stranger(r, u);
    Reported(r, u, 0x08, stamp, p, ts, now, choice, sink, [op]);
    if r.Knows(sink) {
      OneOp(r.BayAt(sink), op);
      Selected(r.BayAt(sink), op.video, op.audio);
    }
  }

  lemma Stranger(r: Reg, u: uid)
    requires WellFormed(r) && u in r.devices
    ensures u != r.me
  {
  }

  lemma ByteAt(u: uid, opcode: u16, stamp: u16, p: bytes, i: nat)
    ensures var f := Sent(u, opcode, stamp, p);
            && f.U8At(i) == (if i < |p| then Some(p[i]) else None)
            && (f.BoolAt(i) <==> i < |p| && p[i] == 1)
  {
    AccessorsReadPayload(u, opcode, stamp, p, i);
  }

  lemma SetReports(b: Bay, kind: Kind, value: Value)
    ensures var c := b.Set(kind, value); OnlyReads(b, c, {kind}) && c.Read(kind) == value
  {
  }

  lemma ConnectionHandled(r: Reg, u: uid, stamp: u16, p: bytes, now: int, choice: Choice)
    requires u in r.devices && 1 <= |p| < 0x1_0000
    ensures var f, id := Sent(u, 0x04, stamp, p), BayId(u, p[0]);
            && f.Valid()
            && (r.Knows(id) ==>
                  Handle(r, f, now, choice)
                  == r.OnBay(id, [OpFlag(if r.BayAt(id).IsInput() then Signal else Hpd, |p| > 1 && p[1] == 1)]))
            && (!r.Knows(id) ==> Handle(r, f, now, choice) == r)
    ensures var f, id := Sent(u, 0x05, stamp, p), BayId(u, p[0]);
            && f.Valid()
            && Handle(r, f, now, choice) == r.OnBay(id, [OpPower(if |p| > 1 && p[1] == 1 then PowerOn else PowerOff)])
  {
    hide OnBays;
    hide Le;
    hide Handle;
    hide Sent;
    hide RawFrame.RemoteId;
    hide RawFrame.Opcode;
    hide RawFrame.Valid;
    hide RawFrame.U8At;
    hide RawFrame.BoolAt;
    hide Bay.IsInput;
    Received(u, 0x04, stamp, p);
    Received(u, 0x05, stamp, p);
    Dispatched(r, Sent(u, 0x04, stamp, p), now, choice);
    Dispatched(r, Sent(u, 0x05, stamp, p), now, choice);
    ByteAt(u, 0x04, stamp, p, 0);
    ByteAt(u, 0x04, stamp, p, 1);
    ByteAt(u, 0x05, stamp, p, 0);
    ByteAt(u, 0x05, stamp, p, 1);
  }

  /** A connection report says of an input that it has a signal, and of any other bay that
      something is plugged in. */
  lemma ConnectionReport(r: Reg, u: uid, stamp: u16, p: bytes, ts: int, now: int, choice: Choice)
    requires WellFormed(r) && u in r.devices && 1 <= |p| < 0x1_0000
    ensures var s, id := Process(r, Build(u, 0x04, stamp, p), ts, now, choice), BayId(u, p[0]);
            && OnlyBays(r, s, {id})
            && (r.Knows(id) ==>
                  var flag := if r.BayAt(id).IsInput() then Signal else Hpd;
                  && OnlyReads(r.BayAt(id), s.BayAt(id), {State(flag)})
                  && s.BayAt(id).Read(State(flag)) == Truth(|p| > 1 && p[1] == 1))
  {
    hide Process;
    hide Handle;
    hide WellFormed;
    hide OnlyBays;
    hide Apply;
    hide ApplyAll;
    hide OnlyReads;
    hide Le;
    hide Sent;
    hide Reg.OnBay;
    hide Bay.IsInput;
    hide Bay.Read;
    var id := BayId(u, p[0]);
    ConnectionHandled(r, u, stamp, p, now, choice);
    Stranger(r, u);
    if r.Knows(id) {
      var flag, on := if r.BayAt(id).IsInput() then Signal else Hpd, |p| > 1 && p[1] == 1;
      Reported(r, u, 0x04, stamp, p, ts, now, choice, id, [OpFlag(flag, on)]);
      OneOp(r.BayAt(id), OpFlag(flag, on));
      FlagApplied(r.BayAt(id), flag, on);
    } else {
      Ignored(r, u, 0x04, stamp, p, ts, now, choice);
      OnlyBaysWider(r, Process(r, Build(u, 0x04, stamp, p), ts, now, choice), {}, {id});
    }
  }

  lemma OnlyBaysWider(r: Reg, s: Reg, few: set<BayId>, many: set<BayId>)
    requires OnlyBays(r, s, few) && few <= many
    ensures OnlyBays(r, s, many)
  {
  }

  lemma FlagApplied(b: Bay, flag: Flag, on: bool)
    ensures var c := Apply(b, OpFlag(flag, on)); OnlyReads(b, c, {State(flag)}) && c.Read(State(flag)) == Truth(on)
  {
    SetReports(b, State(flag), Truth(on));
  }

  lemma PowerReport(r: Reg, u: uid, stamp: u16, p: bytes, ts: int, now: int, choice: Choice)
    requires WellFormed(r) && u in r.devices && 1 <= |p| < 0x1_0000
    ensures var s, id := Process(r, Build(u, 0x05, stamp, p), ts, now, choice), BayId(u, p[0]);
            && OnlyBays(r, s, {id})
            && (r.Knows(id) ==>
                  && OnlyReads(r.BayAt(id), s.BayAt(id), {Power})
                  && s.BayAt(id).Read(Power) == PowerIs(if |p| > 1 && p[1] == 1 then PowerOn else PowerOff))
  {
    hide Process;
    hide Handle;
    hide WellFormed;
    hide OnlyBays;
    hide Apply;
    hide ApplyAll;
    hide OnlyReads;
    hide Le;
    hide Sent;
    hide Reg.OnBay;
    hide Bay.Read;
    var id, power := BayId(u, p[0]), if |p| > 1 && p[1] == 1 then PowerOn else PowerOff;
    ConnectionHandled(r, u, stamp, p, now, choice);
    Stranger(r, u);
    Reported(r, u, 0x05, stamp, p, ts, now, choice, id, [OpPower(power)]);
    if r.Knows(id) {
      OneOp(r.BayAt(id), OpPower(power));
      PowerApplied(r.BayAt(id), power);
    }
  }

  lemma PowerApplied(b: Bay, power: PowerStatus)
    ensures var c := Apply(b, OpPower(power)); OnlyReads(b, c, {Power}) && c.Read(Power) == PowerIs(power)
  {
    SetReports(b, Power, PowerIs(power));
  }

  // ---- volume ----

  /** The volume a bay keeps, unknown in every part before one is heard. */
  function VolumeOf(b: Bay): Volume {
    var v := b.Read(Level);
    if v.LevelIs? && v.volume.Some? then v.volume.value else Volume(-1, -1, None, None)
  }

  /** The bay has taken over these levels up to 100, and these mute bits unless they are 0xFF. */
  ghost predicate Heard(b: Bay, c: Bay, left: byte, right: byte, mute: Option<byte>) {
    && OnlyReads(b, c, {Level})
    && (!b.HasVolumeControl() ==> c == b)
    && (b.HasVolumeControl() ==>
          && c.Read(Level) == LevelIs(Some(VolumeOf(c)))
          && VolumeOf(c).left == (if left <= 100 then left else VolumeOf(b).left)
          && VolumeOf(c).right == (if right <= 100 then right else VolumeOf(b).right)
          && VolumeOf(c).mutedLeft == (if mute.Some? then Some(mute.value % 2 == 1) else VolumeOf(b).mutedLeft)
          && VolumeOf(c).mutedRight == (if mute.Some? then Some(mute.value / 2 % 2 == 1) else VolumeOf(b).mutedRight))
  }

  function MutePart(mute: Option<byte>, flag: nat): Option<bool>
    requires flag > 0
  {
    if mute.None? then None else Some(Has(mute.value, flag))
  }

  function Volumes(left: byte, right: byte, mute: Option<byte>): Volume {
    Volume(Control.Level(left), Control.Level(right), MutePart(mute, 1), MutePart(mute, 2))
  }

  lemma VolumeApplied(b: Bay, left: byte, right: byte, mute: Option<byte>)
    ensures Heard(b, Apply(b, OpVolume(Volumes(left, right, mute))), left, right, mute)
  {
    var v := Volumes(left, right, mute);
    hide Bay.HasVolumeControl;
    if b.HasVolumeControl() {
      SetReports(b, Level, LevelIs(Some(Combine(b.Read(Level), v))));
    }
  }

  /** The device's own report: the bay is its own, and both mute bits are always given. */
  lemma VolumeReport(r: Reg, u: uid, stamp: u16, p: bytes, ts: int, now: int, choice: Choice)
    requires WellFormed(r) && u in r.devices && 4 <= |p| < 0x1_0000
    ensures var s, id := Process(r, Build(u, 0x12, stamp, p), ts, now, choice), BayId(u, p[0]);
            && OnlyBays(r, s, {id})
            && (r.Knows(id) ==> Heard(r.BayAt(id), s.BayAt(id), p[1], p[2], Some(p[3])))
  {
    hide Process;
    hide Handle;
    hide WellFormed;
    hide OnlyBays;
    hide Apply;
    hide ApplyAll;
    hide OnlyReads;
    hide Le;
    hide Sent;
    hide Reg.OnBay;
    hide Heard;
    hide Volumes;
    var id, v := BayId(u, p[0]), Volumes(p[1], p[2], Some(p[3]));
    VolumeHandled(r, u, stamp, p, now, choice);
    Stranger(r, u);
    Reported(r, u, 0x12, stamp, p, ts, now, choice, id, [OpVolume(v)]);
    if r.Knows(id) {
      OneOp(r.BayAt(id), OpVolume(v));
      VolumeApplied(r.BayAt(id), p[1], p[2], Some(p[3]));
    }
  }

  lemma VolumeHandled(r: Reg, u: uid, stamp: u16, p: bytes, now: int, choice: Choice)
    requires u in r.devices && 4 <= |p| < 0x1_0000
    ensures var f := Sent(u, 0x12, stamp, p);
            f.Valid() && Handle(r, f, now, choice) == r.OnBay(BayId(u, p[0]), [OpVolume(Volumes(p[1], p[2], Some(p[3])))])
  {
    hide OnBays;
    hide Le;
    hide Handle;
    hide Sent;
    hide RawFrame.RemoteId;
    hide RawFrame.Opcode;
    hide RawFrame.Valid;
    hide RawFrame.Payload;
    Received(u, 0x12, stamp, p);
    Dispatched(r, Sent(u, 0x12, stamp, p), now, choice);
  }

  /** A request from anyone known: the uid names the device, a payload of 20 bytes has a bay of
      one byte before its settings and a longer one of two, and 0xFF leaves the mute alone. */
  lemma VolumeRequested(r: Reg, u: uid, stamp: u16, p: bytes, ts: int, now: int, choice: Choice)
    requires WellFormed(r) && u in r.devices && 20 <= |p| < 0x1_0000
    ensures var s := Process(r, Build(u, 0x14, stamp, p), ts, now, choice);
            var id, i := BayId(p[..16], if |p| == 20 then p[16] else Le(p[16..18])), if |p| == 20 then 17 else 18;
            && OnlyBays(r, s, {id})
            && (r.Knows(id) ==>
                  Heard(r.BayAt(id), s.BayAt(id), p[i], p[i + 1], if p[i + 2] == 0xFF then None else Some(p[i + 2])))
  {
    hide Process;
    hide Handle;
    hide WellFormed;
    hide OnlyBays;
    hide Apply;
    hide ApplyAll;
    hide OnlyReads;
    hide Le;
    hide Sent;
    hide Reg.OnBay;
    hide Heard;
    hide Volumes;
    var id, i := BayId(p[..16], if |p| == 20 then p[16] else Le(p[16..18])), if |p| == 20 then 17 else 18;
    var mute: Option<byte> := if p[i + 2] == 0xFF then None else Some(p[i + 2]);
    var v := Volumes(p[i], p[i + 1], mute);
    RequestHandled(r, u, stamp, p, now, choice);
    Stranger(r, u);
    Reported(r, u, 0x14, stamp, p, ts, now, choice, id, [OpVolume(v)]);
    if r.Knows(id) {
      OneOp(r.BayAt(id), OpVolume(v));
      VolumeApplied(r.BayAt(id), p[i], p[i + 1], mute);
    }
  }

  lemma RequestHandled(r: Reg, u: uid, stamp: u16, p: bytes, now: int, choice: Choice)
    requires u in r.devices && 20 <= |p| < 0x1_0000
    ensures var f := Sent(u, 0x14, stamp, p);
            var id, i := BayId(p[..16], if |p| == 20 then p[16] else Le(p[16..18])), if |p| == 20 then 17 else 18;
            && f.Valid()
            && Handle(r, f, now, choice)
               == r.OnBay(id, [OpVolume(Volumes(p[i], p[i + 1], if p[i + 2] == 0xFF then None else Some(p[i + 2])))])
  {
    hide OnBays;
    hide Le;
    hide Handle;
    hide Sent;
    hide RawFrame.RemoteId;
    hide RawFrame.Opcode;
    hide RawFrame.Valid;
    hide RawFrame.Payload;
    hide U16;
    Received(u, 0x14, stamp, p);
    Dispatched(r, Sent(u, 0x14, stamp, p), now, choice);
    LeReads(p, 16);
  }

  // ---- status and signal ----

  /** A bay's status word, as the report carries it. */
  lemma StatusHandled(r: Reg, u: uid, stamp: u16, p: bytes, now: int, choice: Choice)
    requires u in r.devices && 2 <= |p| < 0x1_0000
    ensures var f, id := Sent(u, 0x39, stamp, p), BayId(u, Le(p[0..2]));
            && f.Valid()
            && Handle(r, f, now, choice) == r.OnBay(id, StatusOps(f, r.devices[u].IsV2ip()))
  {
    hide OnBays;
    hide Le;
    hide Handle;
    hide Sent;
    hide RawFrame.RemoteId;
    hide RawFrame.Opcode;
    hide RawFrame.Valid;
    hide RawFrame.U16At;
    hide StatusOps;
    Received(u, 0x39, stamp, p);
    Dispatched(r, Sent(u, 0x39, stamp, p), now, choice);
    NumberAt(u, 0x39, stamp, p, 0);
  }

  lemma StatusOpsRead(u: uid, stamp: u16, p: bytes, onV2ip: bool)
    requires 2 <= |p| < 0x1_0000
    ensures StatusOps(Sent(u, 0x39, stamp, p), onV2ip)
         == (if |p| >= 28 then [OpFeatures(Le(p[24..28]))] else [])
            + if |p| < 24 then []
              else [OpStatus(Le(p[20..24]))]
                   + if Has(Le(p[20..24]), 0x8) && onV2ip then []
                     else [OpFlag(Signal, Has(Le(p[20..24]), 0x8)), OpSignalType(CStr(p[2..16]))]
  {
    hide Le;
    hide CStr;
    hide Has;
    hide Sent;
    hide RawFrame.U32At;
    hide RawFrame.StrOrEmpty;
    NumberAt(u, 0x39, stamp, p, 20);
    NumberAt(u, 0x39, stamp, p, 24);
    if |p| >= 16 {
      TextAt(u, 0x39, stamp, p, 2, 14);
    }
  }

  lemma TextAt(u: uid, opcode: u16, stamp: u16, p: bytes, i: nat, n: nat)
    requires 0 < n && i + n <= |p|
    ensures Sent(u, opcode, stamp, p).StrOrEmpty(i, n) == CStr(p[i..i + n])
  {
    var f := Sent(u, opcode, stamp, p);
    BuildLayout(u, opcode, stamp, p);
    assert f.data[24 + i..24 + i + n] == f.data[24..][i..i + n];
  }

  /** Nothing else changes of a bay than its features, its state and its signal's name. */
  ghost predicate StatusTaken(b: Bay, c: Bay, data: u32, named: Option<bytes>) {
    && Shows(c, data)
    && c.Read(SignalType) == (if named.Some? then Text(named.value) else b.Read(SignalType))
    && c == b.(attrs := c.attrs, log := c.log)
    && forall kind: Kind :: !kind.State? && !kind.Power? && !kind.Arc? && !kind.SignalType? ==> c.Read(kind) == b.Read(kind)
  }

  lemma StatusApplied(b: Bay, data: u32)
    ensures StatusTaken(b, Apply(b, OpStatus(data)), data, None)
  {
    hide Bay.ApplyStatus;
    hide Bay.Read;
    hide Shows;
    StatusIsCached(b, data);
  }

  lemma ShowsStill(b: Bay, c: Bay, data: u32)
    requires Shows(b, data) && (c.On(Signal) <==> Has(data, 0x8))
    requires forall kind: Kind :: kind != SignalType && kind != State(Signal) ==> c.Read(kind) == b.Read(kind)
    ensures Shows(c, data)
  {
    hide Bay.Read;
    hide Has;
  }

  lemma SignalNamed(b: Bay, c: Bay, data: u32, text: bytes)
    requires StatusTaken(b, c, data, None)
    ensures StatusTaken(b, Apply(Apply(c, OpFlag(Signal, Has(data, 0x8))), OpSignalType(text)), data, Some(text))
  {
    hide Bay.Set;
    hide Bay.Read;
    hide Shows;
    hide Has;
    var on := Has(data, 0x8);
    var m := c.Set(State(Signal), Truth(on));
    var e := m.Set(SignalType, Text(text));
    SetReports(c, State(Signal), Truth(on));
    SetReports(m, SignalType, Text(text));
    ShowsStill(c, e, data);
  }

  lemma SameReads(b: Bay, features: u32)
    ensures var c := b.(features := features);
            (forall kind :: c.Read(kind) == b.Read(kind)) && forall data: u32 :: Shows(b, data) ==> Shows(c, data)
  {
    hide Has;
  }

  lemma FeaturesApplied(b: Bay, mask: u32, c: Bay, data: u32, named: Option<bytes>)
    requires StatusTaken(b.(features := mask), c, data, named)
    ensures StatusTaken(b, c.(features := b.features), data, named) && c.features == mask
  {
    hide Bay.Read;
    hide Shows;
    SameReads(c, b.features);
    SameReads(b, mask);
  }

  /** A bay after the operations of a status report. */
  lemma StatusOpsApplied(b: Bay, features: Option<u32>, data: u32, named: Option<bytes>)
    ensures var ops := (if features.Some? then [OpFeatures(features.value)] else []) + [OpStatus(data)]
                       + if named.Some? then [OpFlag(Signal, Has(data, 0x8)), OpSignalType(named.value)] else [];
            var c := ApplyAll(b, ops);
            && c.features == (if features.Some? then features.value else b.features)
            && StatusTaken(b, c.(features := b.features), data, named)
  {
    hide StatusTaken;
    hide Bay.ApplyStatus;
    hide Bay.Set;
    hide Has;
    var named2: seq<Op> := if named.Some? then [OpFlag(Signal, Has(data, 0x8)), OpSignalType(named.value)] else [];
    var masked := if features.Some? then b.(features := features.value) else b;
    StatusApplied(masked, data);
    if named.Some? {
      SignalNamed(masked, Apply(masked, OpStatus(data)), data, named.value);
    }
    var c := ApplyAll(masked, [OpStatus(data)] + named2);
    TwoMore(Apply(masked, OpStatus(data)), named2);
    assert ([OpStatus(data)] + named2)[1..] == named2;
    FeaturesApplied(b, masked.features, c, data, named);
    if features.Some? {
      var rest := [OpStatus(data)] + named2;
      assert ([OpFeatures(features.value)] + [OpStatus(data)] + named2)[1..] == rest;
    } else {
      assert [] + [OpStatus(data)] + named2 == [OpStatus(data)] + named2;
    }
  }

  lemma TwoMore(b: Bay, ops: seq<Op>)
    requires |ops| == 0 || |ops| == 2
    ensures ApplyAll(b, ops) == if |ops| == 0 then b else Apply(Apply(b, ops[0]), ops[1])
  {
    hide Apply;
    if |ops| == 2 {
      OneOp(Apply(b, ops[0]), ops[1]);
      assert ops[1..] == [ops[1]];
    }
  }

  /** A status report, as far as it reaches: the features at 24, the status word at 20, and the
      signal's name at 2, which a V2IP device gives only while there is no signal. */
  lemma StatusReport(r: Reg, u: uid, stamp: u16, p: bytes, ts: int, now: int, choice: Choice)
    requires WellFormed(r) && u in r.devices && 2 <= |p| < 0x1_0000
    ensures var s, id := Process(r, Build(u, 0x39, stamp, p), ts, now, choice), BayId(u, Le(p[0..2]));
            && OnlyBays(r, s, {id})
            && (r.Knows(id) ==>
                  var b, c := r.BayAt(id), s.BayAt(id);
                  && (|p| < 24 ==> c == b)
                  && c.features == (if |p| >= 28 then Le(p[24..28]) else b.features)
                  && (|p| >= 24 ==>
                        var data := Le(p[20..24]);
                        var v2ip := Has(r.devices[u].hello.features, 0x8) || Has(r.devices[u].hello.features, 0x10);
                        StatusTaken(b, c.(features := b.features), data,
                                    if Has(data, 0x8) && v2ip then None else Some(CStr(p[2..16])))))
  {
    hide Process;
    hide Handle;
    hide WellFormed;
    hide OnlyBays;
    hide Apply;
    hide ApplyAll;
    hide OnlyReads;
    hide Le;
    hide Sent;
    hide Reg.OnBay;
    hide StatusTaken;
    hide StatusOps;
    hide CStr;
    hide Has;
    var id, onV2ip := BayId(u, Le(p[0..2])), r.devices[u].IsV2ip();
    StatusHandled(r, u, stamp, p, now, choice);
    StatusOpsRead(u, stamp, p, onV2ip);
    Stranger(r, u);
    var ops := StatusOps(Sent(u, 0x39, stamp, p), onV2ip);
    Reported(r, u, 0x39, stamp, p, ts, now, choice, id, ops);
    if r.Knows(id) && |p| >= 24 {
      var data := Le(p[20..24]);
      var features: Option<u32> := if |p| >= 28 then Some(Le(p[24..28])) else None;
      var named: Option<bytes> := if Has(data, 0x8) && onV2ip then None else Some(CStr(p[2..16]));
      StatusOpsApplied(r.BayAt(id), features, data, named);
      AsOptions(ops, features, data, named);
    } else if r.Knows(id) {
      assert ops == [];
      NoOp(r.BayAt(id));
    }
  }

  lemma NoOp(b: Bay)
    ensures ApplyAll(b, []) == b
  {
  }

  lemma AsOptions(ops: seq<Op>, features: Option<u32>, data: u32, named: Option<bytes>)
    requires ops == (if features.Some? then [OpFeatures(features.value)] else [])
                    + ([OpStatus(data)]
                       + if named.None? then [] else [OpFlag(Signal, Has(data, 0x8)), OpSignalType(named.value)])
    ensures ops == (if features.Some? then [OpFeatures(features.value)] else []) + [OpStatus(data)]
                   + if named.Some? then [OpFlag(Signal, Has(data, 0x8)), OpSignalType(named.value)] else []
  {
    hide Has;
  }

  /** A signal report of at least 112 bytes names its bay at 100. */
  lemma SignalReport(r: Reg, u: uid, stamp: u16, p: bytes, ts: int, now: int, choice: Choice)
    requires WellFormed(r) && u in r.devices && 112 <= |p| < 0x1_0000
    ensures var s, id := Process(r, Build(u, 0x31, stamp, p), ts, now, choice), BayId(u, Le(p[100..102]));
            && OnlyBays(r, s, {id})
            && (r.Knows(id) ==>
                  var b, c := r.BayAt(id), s.BayAt(id);
                  && OnlyReads(b, c, {State(Signal), SignalType})
                  && c.Read(State(Signal)) == Truth(p[2] / 2 % 2 == 1) && c.Read(SignalType) == Text(choice.text))
  {
    hide Process;
    hide Handle;
    hide WellFormed;
    hide OnlyBays;
    hide Apply;
    hide ApplyAll;
    hide OnlyReads;
    hide Le;
    hide Sent;
    hide Reg.OnBay;
    hide Bay.Read;
    var id, on := BayId(u, Le(p[100..102])), p[2] / 2 % 2 == 1;
    SignalHandled(r, u, stamp, p, now, choice);
    Stranger(r, u);
    Reported(r, u, 0x31, stamp, p, ts, now, choice, id, [OpFlag(Signal, on), OpSignalType(choice.text)]);
    if r.Knows(id) {
      TwoMore(r.BayAt(id), [OpFlag(Signal, on), OpSignalType(choice.text)]);
      SignalApplied(r.BayAt(id), on, choice.text);
    }
  }

  lemma SignalHandled(r: Reg, u: uid, stamp: u16, p: bytes, now: int, choice: Choice)
    requires u in r.devices && 112 <= |p| < 0x1_0000
    ensures var f := Sent(u, 0x31, stamp, p);
            && f.Valid()
            && Handle(r, f, now, choice)
               == r.OnBay(BayId(u, Le(p[100..102])), [OpFlag(Signal, p[2] / 2 % 2 == 1), OpSignalType(choice.text)])
  {
    hide OnBays;
    hide Le;
    hide Handle;
    hide Sent;
    hide RawFrame.RemoteId;
    hide RawFrame.Opcode;
    hide RawFrame.Valid;
    hide RawFrame.Payload;
    hide U16;
    Received(u, 0x31, stamp, p);
    Dispatched(r, Sent(u, 0x31, stamp, p), now, choice);
    LeReads(p, 100);
  }

  lemma SignalApplied(b: Bay, on: bool, text: bytes)
    ensures var c := Apply(Apply(b, OpFlag(Signal, on)), OpSignalType(text));
            && OnlyReads(b, c, {State(Signal), SignalType})
            && c.Read(State(Signal)) == Truth(on) && c.Read(SignalType) == Text(text)
  {
    SetReports(b, State(Signal), Truth(on));
    SetReports(b.Set(State(Signal), Truth(on)), SignalType, Text(text));
    hide Bay.Set;
    hide Bay.Read;
  }

  // ---- settings of a bay named by the payload ----

  lemma SettingHandled(r: Reg, u: uid, stamp: u16, p: bytes, now: int, choice: Choice)
    requires |p| < 0x1_0000
    ensures var f := Sent(u, 0x27, stamp, p);
            && f.Valid()
            && (|p| >= 18 ==>
                  Handle(r, f, now, choice)
                  == r.OnBay(BayId(p[..16], Le(p[16..18])), [OpFlag(Hidden, |p| > 18 && p[18] == 1)]))
    ensures var f := Sent(u, 0x3D, stamp, p);
            && f.Valid()
            && (|p| >= 56 ==>
                  Handle(r, f, now, choice)
                  == r.OnBay(BayId(if p[..16] == ZERO_UID then u else p[..16], Le(p[16..18])), [OpAmp(ParseAmpZone(p))]))
  {
    hide OnBays;
    hide Le;
    hide Handle;
    hide Sent;
    hide RawFrame.RemoteId;
    hide RawFrame.Opcode;
    hide RawFrame.Valid;
    hide RawFrame.U16At;
    hide RawFrame.BoolAt;
    hide RawFrame.UidOrZero;
    hide RawFrame.Payload;
    hide ParseAmpZone;
    hide U16;
    Received(u, 0x27, stamp, p);
    Received(u, 0x3D, stamp, p);
    Dispatched(r, Sent(u, 0x27, stamp, p), now, choice);
    Dispatched(r, Sent(u, 0x3D, stamp, p), now, choice);
    LeReads(p, 16);
    NumberAt(u, 0x27, stamp, p, 16);
    ByteAt(u, 0x27, stamp, p, 18);
    if |p| >= 16 {
      SentReads(u, 0x27, stamp, p);
      SentReads(u, 0x3D, stamp, p);
    }
  }

  /** Anyone may hide or show a bay of any device. */
  lemma HideReport(r: Reg, u: uid, stamp: u16, p: bytes, ts: int, now: int, choice: Choice)
    requires WellFormed(r) && u != r.me && 18 <= |p| < 0x1_0000
    ensures var s, id := Process(r, Build(u, 0x27, stamp, p), ts, now, choice), BayId(p[..16], Le(p[16..18]));
            && OnlyBays(r, s, {id})
            && (r.Knows(id) ==>
                  && OnlyReads(r.BayAt(id), s.BayAt(id), {State(Hidden)})
                  && s.BayAt(id).Read(State(Hidden)) == Truth(|p| > 18 && p[18] == 1))
  {
    hide Process;
    hide Handle;
    hide WellFormed;
    hide OnlyBays;
    hide Apply;
    hide ApplyAll;
    hide OnlyReads;
    hide Le;
    hide Sent;
    hide Reg.OnBay;
    hide Bay.Read;
    var id, on := BayId(p[..16], Le(p[16..18])), |p| > 18 && p[18] == 1;
    SettingHandled(r, u, stamp, p, now, choice);
    Reported(r, u, 0x27, stamp, p, ts, now, choice, id, [OpFlag(Hidden, on)]);
    if r.Knows(id) {
      OneOp(r.BayAt(id), OpFlag(Hidden, on));
      FlagApplied(r.BayAt(id), Hidden, on);
    }
  }

  /** The settings an amplifier zone record of at least 56 bytes holds. */
  ghost predicate ZoneIn(p: bytes, z: AmpZone)
    requires |p| >= 56
  {
    && z.gainLeft == p[18] && z.gainRight == p[19] && z.volumeMin == p[20] && z.volumeMax == p[21]
    && z.delayLeft == Le(p[24..28]) && z.delayRight == Le(p[28..32])
    && z.bass == p[32] && z.treble == p[33] && z.bridged == p[34] && z.powerMode == p[35] && z.powerLevel == p[36]
    && z.powerTimeout == Le(p[40..44])
    && |z.eqLeft| == 5 == |z.eqRight|
    && forall i :: 0 <= i < 5 ==> z.eqLeft[i] == p[44 + i] && z.eqRight[i] == p[49 + i]
  }

  lemma ZoneParsed(p: bytes)
    requires |p| >= 56
    ensures ZoneIn(p, ParseAmpZone(p))
  {
    hide Le;
    hide U32;
    LeReads(p, 24);
    LeReads(p, 28);
    LeReads(p, 40);
  }

  /** A record with no target is about a zone of its sender, any other about one of its target. */
  lemma ZoneReport(r: Reg, u: uid, stamp: u16, p: bytes, ts: int, now: int, choice: Choice)
    requires WellFormed(r) && u != r.me && 56 <= |p| < 0x1_0000
    ensures var s := Process(r, Build(u, 0x3D, stamp, p), ts, now, choice);
            var id := BayId(if p[..16] == ZERO_UID then u else p[..16], Le(p[16..18]));
            && OnlyBays(r, s, {id})
            && (r.Knows(id) ==>
                  && OnlyReads(r.BayAt(id), s.BayAt(id), {Amp})
                  && exists z :: s.BayAt(id).Read(Amp) == AmpIs(Some(z)) && ZoneIn(p, z))
  {
    hide Process;
    hide Handle;
    hide WellFormed;
    hide OnlyBays;
    hide Apply;
    hide ApplyAll;
    hide OnlyReads;
    hide Le;
    hide Sent;
    hide Reg.OnBay;
    hide Bay.Read;
    hide ZoneIn;
    hide ParseAmpZone;
    var id, zone := BayId(if p[..16] == ZERO_UID then u else p[..16], Le(p[16..18])), ParseAmpZone(p);
    SettingHandled(r, u, stamp, p, now, choice);
    Reported(r, u, 0x3D, stamp, p, ts, now, choice, id, [OpAmp(zone)]);
    if r.Knows(id) {
      OneOp(r.BayAt(id), OpAmp(zone));
      ZoneApplied(r.BayAt(id), zone);
      ZoneParsed(p);
    }
  }

  lemma ZoneApplied(b: Bay, zone: AmpZone)
    ensures var c := Apply(b, OpAmp(zone)); OnlyReads(b, c, {Amp}) && c.Read(Amp) == AmpIs(Some(zone))
  {
    SetReports(b, Amp, AmpIs(Some(zone)));
  }

  // ---- reports about a device's first output ----

  /** The output of a device with the lowest port. */
  ghost predicate FirstOutputOf(r: Reg, u: uid, id: BayId) {
    && id.device == u && r.Knows(id) && r.BayAt(id).IsOutput()
    && forall other :: r.Knows(other) && other.device == u && r.BayAt(other).IsOutput() ==> id.port <= other.port
  }

  lemma SinkIsFirstOutput(r: Reg, u: uid, id: BayId)
    ensures Sink(r, u) == Some(id) <==> FirstOutputOf(r, u, id)
    ensures Sink(r, u).None? ==> !r.Knows(id) || id.device != u || !r.BayAt(id).IsOutput()
  {
    hide Bay.IsOutput;
    if u in r.devices {
      var d := r.devices[u];
      if r.Knows(id) && id.device == u && r.BayAt(id).IsOutput() {
        assert id.port in d.Outputs();
      }
      if FirstOutputOf(r, u, id) {
        var first := d.FirstOutput().value;
        assert r.Knows(BayId(u, first)) && r.BayAt(BayId(u, first)).IsOutput();
      }
      if Sink(r, u) == Some(id) {
        forall other | r.Knows(other) && other.device == u && r.BayAt(other).IsOutput()
          ensures id.port <= other.port
        {
          assert other.port in d.Outputs();
        }
      }
    }
  }

  lemma FilterHandled(r: Reg, u: uid, stamp: u16, p: bytes, now: int, choice: Choice, sink: BayId)
    requires 16 <= |p| < 0x1_0000 && Sink(r, u) == Some(sink)
    ensures var f := Sent(u, 0x38, stamp, p);
            f.Valid() && Handle(r, f, now, choice) == r.OnBay(sink, [OpFilter(Records(p[16..], 16))])
  {
    hide OnBays;
    hide Le;
    hide Handle;
    hide Sent;
    hide RawFrame.RemoteId;
    hide RawFrame.Opcode;
    hide RawFrame.Valid;
    hide RawFrame.Payload;
    hide Sink;
    Received(u, 0x38, stamp, p);
    Dispatched(r, Sent(u, 0x38, stamp, p), now, choice);
  }

  /** The devices filtered out of the picker of a device's first output are the whole uids
      after the first. */
  lemma FilterReport(r: Reg, u: uid, stamp: u16, p: bytes, ts: int, now: int, choice: Choice, sink: BayId)
    requires WellFormed(r) && u in r.devices && 16 <= |p| < 0x1_0000 && FirstOutputOf(r, u, sink)
    ensures var s := Process(r, Build(u, 0x38, stamp, p), ts, now, choice);
            && OnlyBays(r, s, {sink}) && s.Knows(sink)
            && OnlyReads(r.BayAt(sink), s.BayAt(sink), {Filter})
            && var filter := s.BayAt(sink).Read(Filter);
               && filter.FilterIs? && |filter.devices| == |p| / 16 - 1
               && forall i :: 0 <= i < |filter.devices| ==> filter.devices[i] == p[16 * i + 16..16 * i + 32]
  {
    hide Process;
    hide Handle;
    hide WellFormed;
    hide OnlyBays;
    hide Apply;
    hide ApplyAll;
    hide OnlyReads;
    hide Le;
    hide Sent;
    hide Reg.OnBay;
    hide Bay.Read;
    hide Sink;
    var devices := Records(p[16..], 16);
    SinkIsFirstOutput(r, u, sink);
    FilterHandled(r, u, stamp, p, now, choice, sink);
    Stranger(r, u);
    Reported(r, u, 0x38, stamp, p, ts, now, choice, sink, [OpFilter(devices)]);
    OneOp(r.BayAt(sink), OpFilter(devices));
    FilterApplied(r.BayAt(sink), devices);
    RecordCount(p[16..], 16);
    forall i | 0 <= i < |devices|
      ensures devices[i] == p[16 * i + 16..16 * i + 32]
    {
      RecordAt(p[16..], 16, i);
      assert p[16..][16 * i..16 * i + 16] == p[16 * i + 16..16 * i + 32];
    }
    KnownStill(r, Process(r, Build(u, 0x38, stamp, p), ts, now, choice), {sink}, sink);
  }

  lemma KnownStill(r: Reg, s: Reg, changed: set<BayId>, id: BayId)
    requires OnlyBays(r, s, changed) && r.Knows(id)
    ensures s.Knows(id)
  {
  }

  lemma FilterApplied(b: Bay, devices: seq<uid>)
    ensures var c := Apply(b, OpFilter(devices)); OnlyReads(b, c, {Filter}) && c.Read(Filter) == FilterIs(devices)
  {
    SetReports(b, Filter, FilterIs(devices));
  }

  lemma MirrorHandled(r: Reg, u: uid, stamp: u16, p: bytes, now: int, choice: Choice, sink: BayId)
    requires 32 <= |p| < 0x1_0000 && Sink(r, u) == Some(sink)
    ensures var f := Sent(u, 0x32, stamp, p);
            var master: uid := p[16..32];
            && f.Valid()
            && Handle(r, f, now, choice)
               == if p[..16] != u then r
                  else r.OnBay(sink, [OpMirror(if master == ZERO_UID || master == u then None else Some(BayId(master, 0)))])
  {
    hide OnBays;
    hide Le;
    hide Handle;
    hide Sent;
    hide RawFrame.RemoteId;
    hide RawFrame.Opcode;
    hide RawFrame.Valid;
    hide RawFrame.Payload;
    hide RawFrame.UidOrZero;
    hide Sink;
    Received(u, 0x32, stamp, p);
    Dispatched(r, Sent(u, 0x32, stamp, p), now, choice);
    UidIn(u, 0x32, stamp, p, 0);
    UidIn(u, 0x32, stamp, p, 16);
    assert p[0..16] == p[..16];
  }

  lemma UidIn(u: uid, opcode: u16, stamp: u16, p: bytes, i: nat)
    ensures Sent(u, opcode, stamp, p).UidOrZero(i) == if i + 16 <= |p| then p[i..i + 16] else ZERO_UID
  {
    AccessorsReadPayload(u, opcode, stamp, p, i);
  }

  /** A device reports for itself whose picture its first output shows: no one's where the
      other uid is zero or its own. */
  lemma MirrorReport(r: Reg, u: uid, stamp: u16, p: bytes, ts: int, now: int, choice: Choice, sink: BayId)
    requires WellFormed(r) && u in r.devices && 32 <= |p| < 0x1_0000 && FirstOutputOf(r, u, sink)
    ensures var s := Process(r, Build(u, 0x32, stamp, p), ts, now, choice);
            var master: uid := p[16..32];
            && (p[..16] != u ==> OnlyBays(r, s, {}))
            && (p[..16] == u ==>
                  && OnlyBays(r, s, {sink}) && s.Knows(sink)
                  && OnlyReads(r.BayAt(sink), s.BayAt(sink), {Mirror})
                  && s.BayAt(sink).Read(Mirror)
                     == MirrorIs(if master == ZERO_UID || master == u then None else Some(BayId(master, 0))))
  {
    hide Process;
    hide Handle;
    hide WellFormed;
    hide OnlyBays;
    hide Apply;
    hide ApplyAll;
    hide OnlyReads;
    hide Le;
    hide Sent;
    hide Reg.OnBay;
    hide Bay.Read;
    hide Sink;
    SinkIsFirstOutput(r, u, sink);
    MirrorHandled(r, u, stamp, p, now, choice, sink);
    Stranger(r, u);
    if p[..16] == u {
      var master: uid := p[16..32];
      var mirrored := if master == ZERO_UID || master == u then None else Some(BayId(master, 0));
      Reported(r, u, 0x32, stamp, p, ts, now, choice, sink, [OpMirror(mirrored)]);
      OneOp(r.BayAt(sink), OpMirror(mirrored));
      MirrorApplied(r.BayAt(sink), mirrored);
      KnownStill(r, Process(r, Build(u, 0x32, stamp, p), ts, now, choice), {sink}, sink);
    } else {
      Ignored(r, u, 0x32, stamp, p, ts, now, choice);
    }
  }

  lemma MirrorApplied(b: Bay, master: Option<BayId>)
    ensures var c := Apply(b, OpMirror(master)); OnlyReads(b, c, {Mirror}) && c.Read(Mirror) == MirrorIs(master)
  {
    SetReports(b, Mirror, MirrorIs(master));
  }

  /** The first input of a device, with the addresses advertised for it. */
  ghost predicate Sends(r: Reg, id: BayId, stream: StreamSources) {
    && r.Knows(id) && r.BayAt(id).IsInput() && r.devices[id.device].SourceOf(r.BayAt(id)) == Some(stream)
    && forall other :: r.Knows(other) && other.device == id.device && r.BayAt(other).IsInput() ==> id.port <= other.port
  }

  /** A bay whose picture is sent to the address, if there is one. */
  ghost predicate FindsVideo(r: Reg, ip: bytes, found: Option<BayId>) {
    if found.Some? then exists stream :: Sends(r, found.value, stream) && stream.video.ip == ip
    else forall id, stream :: Sends(r, id, stream) ==> stream.video.ip != ip
  }

  /** A bay whose sound is. */
  ghost predicate FindsAudio(r: Reg, ip: bytes, found: Option<BayId>) {
    if found.Some? then exists stream :: Sends(r, found.value, stream) && stream.audio.ip == ip
    else forall id, stream :: Sends(r, id, stream) ==> stream.audio.ip != ip
  }

  lemma MatchMeans(r: Reg, ip: bytes, id: BayId, stream: StreamSources)
    ensures Sends(r, id, stream) ==>
              && (StreamMatch(r, ip, false, id) <==> stream.video.ip == ip)
              && (StreamMatch(r, ip, true, id) <==> stream.audio.ip == ip)
    ensures StreamMatch(r, ip, false, id) || StreamMatch(r, ip, true, id) ==>
              r.Knows(id) && r.devices[id.device].SourceOf(r.BayAt(id)).Some?
              && Sends(r, id, r.devices[id.device].SourceOf(r.BayAt(id)).value)
  {
    hide Bay.IsInput;
    hide Device.SourceOf;
    if r.Knows(id) {
      var d := r.devices[id.device];
      if Sends(r, id, stream) {
        assert id.port in d.Inputs();
        var first := d.FirstInput().value;
        assert r.Knows(BayId(id.device, first)) && r.BayAt(BayId(id.device, first)).IsInput();
      }
      if d.FirstInput() == Some(id.port) {
        forall other | r.Knows(other) && other.device == id.device && r.BayAt(other).IsInput()
          ensures id.port <= other.port
        {
          assert other.port in d.Inputs();
        }
      }
    }
  }

  lemma LookupMeans(r: Reg, ip: bytes, found: Option<BayId>)
    ensures Resolves(r, ip, false, found) ==> FindsVideo(r, ip, found)
    ensures Resolves(r, ip, true, found) ==> FindsAudio(r, ip, found)
  {
    hide StreamMatch;
    hide Sends;
    forall id, stream
      ensures Sends(r, id, stream) ==>
                && (StreamMatch(r, ip, false, id) <==> stream.video.ip == ip)
                && (StreamMatch(r, ip, true, id) <==> stream.audio.ip == ip)
    {
      MatchMeans(r, ip, id, stream);
    }
    if found.Some? && (StreamMatch(r, ip, false, found.value) || StreamMatch(r, ip, true, found.value)) {
      var none := StreamSource([], 0);
      MatchMeans(r, ip, found.value, StreamSources(ZERO_UID, none, none, none));
    }
  }

  lemma SwitchHandled(r: Reg, u: uid, stamp: u16, p: bytes, now: int, choice: Choice, sink: BayId)
    requires 24 <= |p| < 0x1_0000 && Sink(r, p[..16]) == Some(sink)
    ensures var f := Sent(u, 0x1F, stamp, p);
            f.Valid() && Handle(r, f, now, choice) == r.OnBay(sink, [OpSelect(choice.video, choice.audio)])
  {
    hide OnBays;
    hide Le;
    hide Handle;
    hide Sent;
    hide RawFrame.RemoteId;
    hide RawFrame.Opcode;
    hide RawFrame.Valid;
    hide RawFrame.Payload;
    hide RawFrame.UidOrZero;
    hide Sink;
    Received(u, 0x1F, stamp, p);
    Dispatched(r, Sent(u, 0x1F, stamp, p), now, choice);
    UidIn(u, 0x1F, stamp, p, 0);
    assert p[0..16] == p[..16];
  }

  lemma SwitchChoice(r: Reg, u: uid, stamp: u16, p: bytes, ts: int, now: int, choice: Choice)
    requires |p| < 0x1_0000
    requires Enabled(r, Datagram(Build(u, 0x1F, stamp, p), ts, now, choice))
          || Enabled(r, Datagram(Build(u, 0x24, stamp, p), ts, now, choice))
    ensures Enabled(r, Datagram(Build(u, 0x1F, stamp, p), ts, now, choice)) && |p| >= 24 ==>
              FindsVideo(r, p[16..20], choice.video) && FindsAudio(r, p[20..24], choice.audio)
    ensures Enabled(r, Datagram(Build(u, 0x24, stamp, p), ts, now, choice)) && |p| >= 38 ==>
              FindsVideo(r, p[16..20], choice.video) && FindsAudio(r, p[24..28], choice.audio)
  {
    hide Resolves;
    hide FindsVideo;
    hide FindsAudio;
    FrameRoundTrip(u, 0x1F, stamp, p);
    FrameRoundTrip(u, 0x24, stamp, p);
    if |p| >= 28 {
      LookupMeans(r, p[24..28], choice.audio);
    }
    if |p| >= 24 {
      LookupMeans(r, p[16..20], choice.video);
      LookupMeans(r, p[20..24], choice.audio);
    }
  }

  /** The first output of the device named is routed to bays advertising the two addresses. */
  lemma SwitchReport(r: Reg, u: uid, stamp: u16, p: bytes, ts: int, now: int, choice: Choice, sink: BayId)
    requires WellFormed(r) && u != r.me && 24 <= |p| < 0x1_0000
    requires FirstOutputOf(r, p[..16], sink) && Enabled(r, Datagram(Build(u, 0x1F, stamp, p), ts, now, choice))
    ensures var s := Process(r, Build(u, 0x1F, stamp, p), ts, now, choice);
            && FindsVideo(r, p[16..20], choice.video) && FindsAudio(r, p[20..24], choice.audio)
            && OnlyBays(r, s, {sink}) && s.Knows(sink)
            && var b, c := r.BayAt(sink), s.BayAt(sink);
               && c == b.(video := c.video, audio := c.audio, log := c.log)
               && c.video == (if choice.video.Some? then choice.video else b.video)
               && c.audio == (if choice.audio.Some? then choice.audio else b.audio)
  {
    hide Process;
    hide Handle;
    hide WellFormed;
    hide OnlyBays;
    hide Apply;
    hide ApplyAll;
    hide OnlyReads;
    hide Le;
    hide Sent;
    hide Reg.OnBay;
    hide Bay.IsOutput;
    hide Sink;
    hide Enabled;
    hide FindsVideo;
    hide FindsAudio;
    SinkIsFirstOutput(r, p[..16], sink);
    SwitchHandled(r, u, stamp, p, now, choice, sink);
    SwitchChoice(r, u, stamp, p, ts, now, choice);
    Reported(r, u, 0x1F, stamp, p, ts, now, choice, sink, [OpSelect(choice.video, choice.audio)]);
    OneOp(r.BayAt(sink), OpSelect(choice.video, choice.audio));
    Selected(r.BayAt(sink), choice.video, choice.audio);
    KnownStill(r, Process(r, Build(u, 0x1F, stamp, p), ts, now, choice), {sink}, sink);
  }

  // ---- mapped sources ----

  /** The bay of a device with the lowest port among those of a mode with a number. */
  ghost predicate Numbered(r: Reg, u: uid, input: bool, number: nat, id: BayId) {
    && OfMode(r, u, input, number, id)
    && forall other :: OfMode(r, u, input, number, other) ==> id.port <= other.port
  }

  ghost predicate OfMode(r: Reg, u: uid, input: bool, number: nat, id: BayId) {
    && id.device == u && r.Knows(id) && r.BayAt(id).number == Some(number)
    && if input then r.BayAt(id).IsInput() && !r.BayAt(id).IsOutput() else r.BayAt(id).IsOutput()
  }

  lemma NumberedIsByMode(r: Reg, u: uid, input: bool, number: nat, id: BayId)
    requires u in r.devices
    ensures Numbered(r, u, input, number, id) <==> id.device == u && r.devices[u].ByMode(input, number) == Some(id.port)
  {
    hide Bay.IsInput;
    hide Bay.IsOutput;
    var d := r.devices[u];
    if Numbered(r, u, input, number, id) {
      assert id.port in d.Numbered(input, number);
      var port := d.ByMode(input, number).value;
      assert OfMode(r, u, input, number, BayId(u, port));
    }
    if id.device == u && d.ByMode(input, number) == Some(id.port) {
      forall other | OfMode(r, u, input, number, other)
        ensures id.port <= other.port
      {
        assert other.port in d.Numbered(input, number);
      }
    }
  }

  /** A bay after the first n uids of a mapping. */
  ghost function MappedBay(d: Device, f: RawFrame, input: bool, first: nat, n: nat, port: nat): Bay
    requires port in d.bays
  {
    var b := d.bays[port];
    if b.number.Some? && first <= b.number.value < first + n && d.ByMode(input, b.number.value) == Some(port)
       && f.UidAt(8 + 16 * (b.number.value - first)).Some?
    then b.(v2ipUid := f.UidAt(8 + 16 * (b.number.value - first)).value)
    else b
  }

  /** Bays that differ in the source mapped to them alone are numbered alike. */
  lemma SameNumbering(d: Device, e: Device, input: bool, number: nat)
    requires e.bays.Keys == d.bays.Keys
    requires forall p :: p in d.bays ==> e.bays[p] == d.bays[p].(v2ipUid := e.bays[p].v2ipUid)
    ensures e.ByMode(input, number) == d.ByMode(input, number)
  {
    assert e.Numbered(input, number) == d.Numbered(input, number);
  }

  lemma ByModeNumber(d: Device, input: bool, number: nat)
    ensures var port := d.ByMode(input, number);
            port.Some? ==> port.value in d.bays && d.bays[port.value].number == Some(number)
  {
  }

  lemma SourceMapped(d: Device, port: nat, source: uid)
    requires port in d.bays
    ensures var e := d.OnBay(port, OpV2ipUid(source));
            SameFacts(d, e) && e.bays == d.bays[port := d.bays[port].(v2ipUid := source)]
  {
  }

  lemma MappedBayNext(d: Device, f: RawFrame, input: bool, first: nat, n: nat, p: nat)
    requires p in d.bays
    ensures var mapped, m := f.UidAt(8 + 16 * n), MappedBay(d, f, input, first, n, p);
            MappedBay(d, f, input, first, n + 1, p)
            == if d.ByMode(input, first + n) == Some(p) && mapped.Some? then m.(v2ipUid := mapped.value) else m
  {
    hide Device.ByMode;
    hide RawFrame.UidAt;
    ByModeNumber(d, input, first + n);
    var b := d.bays[p];
    if b.number == Some(first + n) {
      assert b.number.value - first == n;
    }
  }

  ghost predicate MappedSoFar(d: Device, e: Device, f: RawFrame, input: bool, first: nat, n: nat) {
    && SameFacts(d, e) && e.bays.Keys == d.bays.Keys
    && forall p :: p in d.bays ==> e.bays[p] == MappedBay(d, f, input, first, n, p)
  }

  lemma MappedNumbering(d: Device, e: Device, f: RawFrame, input: bool, first: nat, n: nat)
    requires MappedSoFar(d, e, f, input, first, n)
    ensures var port := d.ByMode(input, first + n);
            e.ByMode(input, first + n) == port && (port.Some? ==> port.value in d.bays)
  {
    hide Device.ByMode;
    hide RawFrame.UidAt;
    SameNumbering(d, e, input, first + n);
    ByModeNumber(d, input, first + n);
  }

  lemma MapNext(d: Device, m: Device, f: RawFrame, input: bool, first: nat, n: nat)
    requires MappedSoFar(d, m, f, input, first, n)
    ensures var mapped, port := f.UidAt(8 + 16 * n), d.ByMode(input, first + n);
            var e := if mapped.None? || port.None? || port.value !in m.bays then m
                     else m.OnBay(port.value, OpV2ipUid(mapped.value));
            MappedSoFar(d, e, f, input, first, n + 1)
  {
    hide Device.ByMode;
    hide Device.OnBay;
    hide RawFrame.UidAt;
    hide MappedBay;
    var mapped, port := f.UidAt(8 + 16 * n), d.ByMode(input, first + n);
    if mapped.Some? && port.Some? && port.value in m.bays {
      SourceMapped(m, port.value, mapped.value);
    }
    forall p | p in d.bays
      ensures MappedBay(d, f, input, first, n + 1, p)
           == if port == Some(p) && mapped.Some? then m.bays[p].(v2ipUid := mapped.value) else m.bays[p]
    {
      MappedBayNext(d, f, input, first, n, p);
    }
  }

  lemma NoneMapped(d: Device, f: RawFrame, input: bool, first: nat)
    ensures MappedSoFar(d, d, f, input, first, 0)
  {
    hide Device.ByMode;
    hide RawFrame.UidAt;
  }

  lemma {:induction false} MappingsMap(d: Device, f: RawFrame, input: bool, first: nat, n: nat)
    ensures MappedSoFar(d, TakeMappings(d, f, input, first, n), f, input, first, n)
  {
    hide Device.ByMode;
    hide Device.OnBay;
    hide RawFrame.UidAt;
    hide MappedSoFar;
    if n == 0 {
      NoneMapped(d, f, input, first);
    } else {
      var m := TakeMappings(d, f, input, first, n - 1);
      MappingsMap(d, f, input, first, n - 1);
      MappedNumbering(d, m, f, input, first, n - 1);
      ByModeKnown(m, input, first + n - 1);
      MapNext(d, m, f, input, first, n - 1);
    }
  }

  lemma MappingHandled(r: Reg, u: uid, stamp: u16, p: bytes, now: int, choice: Choice)
    requires u in r.devices && 4 <= |p| < 0x1_0000
    ensures var f := Sent(u, 0x44, stamp, p);
            && f.Valid()
            && Handle(r, f, now, choice)
               == r.With(TakeMappings(r.devices[u], f, Le(p[0..2]) % 2 == 1, Le(p[2..4]), Le(p[0..2]) / 2))
  {
    hide OnBays;
    hide Le;
    hide Handle;
    hide Sent;
    hide RawFrame.RemoteId;
    hide RawFrame.Opcode;
    hide RawFrame.Valid;
    hide RawFrame.U16At;
    hide TakeMappings;
    Received(u, 0x44, stamp, p);
    Dispatched(r, Sent(u, 0x44, stamp, p), now, choice);
    NumberAt(u, 0x44, stamp, p, 0);
    NumberAt(u, 0x44, stamp, p, 2);
  }

  /** The uid for the bay, where the mapping reaches as far as its number. */
  ghost predicate MapsTo(r: Reg, u: uid, p: bytes, id: BayId, source: uid)
    requires |p| >= 4
  {
    exists i: nat :: MapsAt(r, u, p, id, source, i)
  }

  ghost predicate MapsAt(r: Reg, u: uid, p: bytes, id: BayId, source: uid, i: nat)
    requires |p| >= 4
  {
    && i < Le(p[0..2]) / 2 && Numbered(r, u, Le(p[0..2]) % 2 == 1, Le(p[2..4]) + i, id)
    && 16 * i + 24 <= |p| && source == p[16 * i + 8..16 * i + 24]
  }

  lemma MapsToBay(r: Reg, u: uid, stamp: u16, p: bytes, id: BayId)
    requires u in r.devices && 4 <= |p| < 0x1_0000 && id.device == u && r.Knows(id)
    ensures var f := Sent(u, 0x44, stamp, p);
            var c := MappedBay(r.devices[u], f, Le(p[0..2]) % 2 == 1, Le(p[2..4]), Le(p[0..2]) / 2, id.port);
            && (forall source :: MapsTo(r, u, p, id, source) ==> c == r.BayAt(id).(v2ipUid := source))
            && (c == r.BayAt(id) || exists source :: MapsTo(r, u, p, id, source))
  {
    hide Le;
    hide Sent;
    hide RawFrame.UidAt;
    hide Device.ByMode;
    hide Numbered;
    var f, b, first, input := Sent(u, 0x44, stamp, p), r.BayAt(id), Le(p[2..4]), Le(p[0..2]) % 2 == 1;
    forall source, i: nat | MapsAt(r, u, p, id, source, i)
      ensures MappedBay(r.devices[u], f, input, first, Le(p[0..2]) / 2, id.port) == b.(v2ipUid := source)
    {
      NumberedIsByMode(r, u, input, first + i, id);
      ByModeNumber(r.devices[u], input, first + i);
      UidThere(u, stamp, p, 16 * i + 8);
    }
    if b.number.Some? && first <= b.number.value {
      var i := b.number.value - first;
      NumberedIsByMode(r, u, input, first + i, id);
      UidThere(u, stamp, p, 16 * i + 8);
      if i < Le(p[0..2]) / 2 && r.devices[u].ByMode(input, first + i) == Some(id.port) && 16 * i + 24 <= |p| {
        var source: uid := p[16 * i + 8..16 * i + 24];
        assert MapsAt(r, u, p, id, source, i);
        assert MapsTo(r, u, p, id, source);
      }
    }
  }

  lemma UidThere(u: uid, stamp: u16, p: bytes, i: nat)
    ensures Sent(u, 0x44, stamp, p).UidAt(i) == if i + 16 <= |p| then Some(p[i..i + 16]) else None
  {
    AccessorsReadPayload(u, 0x44, stamp, p, i);
  }

  /** The bays of one device. */
  function BaysOf(d: Device): set<BayId> { set port | port in d.bays :: BayId(d.uid, port) }

  lemma WithReports(r: Reg, e: Device)
    requires e.uid in r.devices && SameFacts(r.devices[e.uid], e) && e.bays.Keys == r.devices[e.uid].bays.Keys
    ensures OnlyBays(r, r.With(e), BaysOf(e))
  {
  }

  /** The uids from 8 on are given to the sender's bays numbered from the first on, inputs where
      the lowest bit says so, and no other bay changes. */
  lemma MappingReport(r: Reg, u: uid, stamp: u16, p: bytes, ts: int, now: int, choice: Choice, id: BayId)
    requires WellFormed(r) && u in r.devices && 4 <= |p| < 0x1_0000 && r.Knows(id)
    ensures var s := Process(r, Build(u, 0x44, stamp, p), ts, now, choice);
            && OnlyBays(r, s, BaysOf(r.devices[u])) && s.Knows(id)
            && (forall source :: MapsTo(r, u, p, id, source) ==> s.BayAt(id) == r.BayAt(id).(v2ipUid := source))
            && ((forall source :: !MapsTo(r, u, p, id, source)) ==> s.BayAt(id) == r.BayAt(id))
  {
    hide Process;
    hide Handle;
    hide WellFormed;
    hide Le;
    hide Sent;
    hide TakeMappings;
    hide MapsTo;
    hide MappedBay;
    hide TouchSender;
    hide OnlyBays;
    var f, d := Sent(u, 0x44, stamp, p), r.devices[u];
    var e := TakeMappings(d, f, Le(p[0..2]) % 2 == 1, Le(p[2..4]), Le(p[0..2]) / 2);
    var s := TouchSender(r.With(e), u, ts, now);
    MappingHandled(r, u, stamp, p, now, choice);
    MappingsMap(d, f, Le(p[0..2]) % 2 == 1, Le(p[2..4]), Le(p[0..2]) / 2);
    Stranger(r, u);
    WellFormedKeyed(r);
    Arrives(r, u, 0x44, stamp, p, ts, now, choice);
    WithReports(r, e);
    TouchReports(r.With(e), u, ts, now);
    OnlyBaysOn(r, r.With(e), s, BaysOf(e));
    KnownStill(r, s, BaysOf(e), id);
    if id.device == u {
      MapsToBay(r, u, stamp, p, id);
    } else {
      ForeignUnmapped(r, u, p, id);
    }
  }

  lemma ForeignUnmapped(r: Reg, u: uid, p: bytes, id: BayId)
    requires |p| >= 4 && id.device != u
    ensures forall source :: !MapsTo(r, u, p, id, source)
  {
    hide Le;
  }

  // ---- what is ignored ----

  /** The shortest payload that is taken up. */
  function Shortest(opcode: u16): nat {
    match opcode
    case 0x04 => 1
    case 0x05 => 1
    case 0x08 => 2
    case 0x12 => 4
    case 0x14 => 20
    case 0x1F => 24
    case 0x24 => 38
    case 0x27 => 18
    case 0x31 => 112
    case 0x38 => 16
    case 0x39 => 2
    case 0x3C => 61
    case 0x3D => 56
    case 0x40 => 24
    case 0x44 => 4
    case _ => 0
  }

  lemma ShortFieldsHandled(r: Reg, u: uid, opcode: u16, stamp: u16, p: bytes, now: int, choice: Choice)
    requires |p| < Shortest(opcode) && opcode in {0x04, 0x05, 0x08, 0x27, 0x39, 0x44}
    ensures Sent(u, opcode, stamp, p).Valid() && Handle(r, Sent(u, opcode, stamp, p), now, choice) == r
  {
    hide OnBays;
    hide Le;
    hide Handle;
    hide Sent;
    hide RawFrame.RemoteId;
    hide RawFrame.Opcode;
    hide RawFrame.Valid;
    hide RawFrame.U8At;
    hide RawFrame.U16At;
    hide TakeMappings;
    Received(u, opcode, stamp, p);
    Dispatched(r, Sent(u, opcode, stamp, p), now, choice);
    ByteAt(u, opcode, stamp, p, 0);
    NumberAt(u, opcode, stamp, p, 0);
    NumberAt(u, opcode, stamp, p, 2);
    NumberAt(u, opcode, stamp, p, 16);
  }

  lemma ShortPayloadHandled(r: Reg, u: uid, opcode: u16, stamp: u16, p: bytes, now: int, choice: Choice)
    requires |p| < Shortest(opcode) && opcode in {0x12, 0x14, 0x1F, 0x24, 0x31, 0x38, 0x3D, 0x40}
    ensures Sent(u, opcode, stamp, p).Valid() && Handle(r, Sent(u, opcode, stamp, p), now, choice) == r
  {
    hide OnBays;
    hide Le;
    hide Handle;
    hide Sent;
    hide RawFrame.RemoteId;
    hide RawFrame.Opcode;
    hide RawFrame.Valid;
    hide RawFrame.Payload;
    hide Sink;
    Received(u, opcode, stamp, p);
    Dispatched(r, Sent(u, opcode, stamp, p), now, choice);
  }

  /** A report that is too short is taken as no more than a sign of life. */
  lemma ShortIsIgnored(r: Reg, u: uid, opcode: u16, stamp: u16, p: bytes, ts: int, now: int, choice: Choice)
    requires WellFormed(r) && u != r.me && |p| < Shortest(opcode)
    ensures OnlyBays(r, Process(r, Build(u, opcode, stamp, p), ts, now, choice), {})
  {
    hide Process;
    hide Handle;
    hide WellFormed;
    hide OnlyBays;
    hide Sent;
    if opcode in {0x12, 0x14, 0x1F, 0x24, 0x31, 0x38, 0x3D, 0x40} {
      ShortPayloadHandled(r, u, opcode, stamp, p, now, choice);
      Ignored(r, u, opcode, stamp, p, ts, now, choice);
    } else if opcode == 0x3C {
      ShortConfigHandled(r, u, stamp, p, now, choice);
      Ignored(r, u, opcode, stamp, p, ts, now, choice);
    } else {
      ShortFieldsHandled(r, u, opcode, stamp, p, now, choice);
      Ignored(r, u, opcode, stamp, p, ts, now, choice);
    }
  }

  lemma ShortConfigHandled(r: Reg, u: uid, stamp: u16, p: bytes, now: int, choice: Choice)
    requires |p| < 61 && WellFormed(r)
    ensures Sent(u, 0x3C, stamp, p).Valid() && Handle(r, Sent(u, 0x3C, stamp, p), now, choice) == r
  {
    hide OnBays;
    hide Le;
    hide Handle;
    hide Sent;
    hide RawFrame.RemoteId;
    hide RawFrame.Opcode;
    hide RawFrame.Valid;
    hide RawFrame.Payload;
    hide Sound;
    Received(u, 0x3C, stamp, p);
    Dispatched(r, Sent(u, 0x3C, stamp, p), now, choice);
    if u in r.devices {
      assert DeviceOk(r, u);
      assert r.devices[u := r.devices[u]] == r.devices;
    }
  }

  /** Of a device that has not said hello, only what is addressed to another one is taken up. */
  lemma StrangerIsIgnored(r: Reg, u: uid, opcode: u16, stamp: u16, p: bytes, ts: int, now: int, choice: Choice)
    requires WellFormed(r) && u !in r.devices && |p| < 0x1_0000
    requires opcode !in {0x00, 0x1F, 0x24, 0x27, 0x3D}
    ensures Process(r, Build(u, opcode, stamp, p), ts, now, choice) == r
  {
    if u == r.me {
      OwnFrame(r, opcode, stamp, p, ts, now, choice);
    } else {
      hide Process;
      hide Handle;
      hide WellFormed;
      hide Sent;
      hide RawFrame.Valid;
      hide RawFrame.RemoteId;
      hide RawFrame.Opcode;
      Received(u, opcode, stamp, p);
      StrangerHandled(r, Sent(u, opcode, stamp, p), now, choice);
      Arrives(r, u, opcode, stamp, p, ts, now, choice);
    }
  }

  lemma OwnFrame(r: Reg, opcode: u16, stamp: u16, p: bytes, ts: int, now: int, choice: Choice)
    ensures Process(r, Build(r.me, opcode, stamp, p), ts, now, choice) == r
  {
    hide Handle;
    hide TouchSender;
    FrameRoundTrip(r.me, opcode, stamp, p);
  }

  lemma StrangerHandled(r: Reg, f: RawFrame, now: int, choice: Choice)
    requires f.Valid() && f.RemoteId() !in r.devices && f.Opcode() !in {0x00, 0x1F, 0x24, 0x27, 0x3D}
    ensures Handle(r, f, now, choice) == r
  {
    hide RawFrame.Opcode;
    hide RawFrame.RemoteId;
    hide RawFrame.Payload;
    hide RawFrame.U8At;
    hide RawFrame.U16At;
    hide RawFrame.Valid;
    hide OnBays;
    hide HandleHello;
    hide HandleSourceSwitch;
    hide HandleManualSwitch;
    hide HandleBayHide;
    hide HandleAmpZone;
  }

  // ---- control calls ----

  /** What a call that went out leaves of the bay it was for. */
  ghost predicate Asked(b: Bay, c: Bay, op: Op) {
    match op
    case OpName(name) => OnlyReads(b, c, {Name}) && c.Read(Name) == Text(name)
    case OpFlag(flag, on) => OnlyReads(b, c, {State(flag)}) && c.Read(State(flag)) == Truth(on)
    case OpPower(power) => OnlyReads(b, c, {Power}) && c.Read(Power) == PowerIs(power)
    case OpAmp(zone) => OnlyReads(b, c, {Amp}) && c.Read(Amp) == AmpIs(Some(zone))
    case OpEdid(code) =>
      if b.IsHdmiInput() then OnlyReads(b, c, {Edid}) && c.Read(Edid) == CodeIs(Some(code)) else c == b
    case OpVolume(v) =>
      if b.HasVolumeControl()
      then
        && OnlyReads(b, c, {Level}) && c.Read(Level) == LevelIs(Some(VolumeOf(c)))
        && (b.Read(Level) == LevelIs(None) ==> VolumeOf(c) == v)
        && (b.Read(Level) == LevelIs(Some(VolumeOf(b))) ==>
              && VolumeOf(c).left == (if v.left >= 0 then v.left else VolumeOf(b).left)
              && VolumeOf(c).right == (if v.right >= 0 then v.right else VolumeOf(b).right)
              && VolumeOf(c).mutedLeft == (if v.mutedLeft.Some? then v.mutedLeft else VolumeOf(b).mutedLeft)
              && VolumeOf(c).mutedRight == (if v.mutedRight.Some? then v.mutedRight else VolumeOf(b).mutedRight))
      else c == b
    case _ => true
  }

  lemma VolumeAsked(b: Bay, v: Volume)
    ensures Asked(b, Apply(b, OpVolume(v)), OpVolume(v))
  {
    hide Bay.HasVolumeControl;
    SetReports(b, Level, LevelIs(Some(Combine(b.Read(Level), v))));
  }

  lemma EdidAsked(b: Bay, code: int)
    ensures Asked(b, Apply(b, OpEdid(code)), OpEdid(code))
  {
    hide Bay.IsHdmiInput;
    SetReports(b, Edid, CodeIs(Some(code)));
  }

  lemma NameAsked(b: Bay, name: bytes)
    ensures Asked(b, Apply(b, OpName(name)), OpName(name))
  {
    SetReports(b, Name, Text(name));
  }

  lemma AskedApplied(b: Bay, op: Op)
    ensures Asked(b, Apply(b, op), op)
  {
    hide OnlyReads;
    hide Apply;
    hide Bay.Read;
    match op
    case OpName(name) => NameAsked(b, name);
    case OpFlag(flag, on) => FlagApplied(b, flag, on);
    case OpPower(power) => PowerApplied(b, power);
    case OpAmp(zone) => ZoneApplied(b, zone);
    case OpEdid(code) => EdidAsked(b, code);
    case OpVolume(v) => VolumeAsked(b, v);
    case _ =>
  }

  /** A call that went out changes the bay it was for as it asked, and no other. */
  lemma CallReport(r: Reg, id: BayId, op: Op)
    requires WellFormed(r) && Enabled(r, Called(id, op))
    ensures var s := Next(r, Called(id, op));
            OnlyBays(r, s, {id}) && s.Knows(id) && Asked(r.BayAt(id), s.BayAt(id), op)
  {
    hide WellFormed;
    hide OnlyBays;
    hide Asked;
    hide Apply;
    hide Reg.OnBay;
    WellFormedKeyed(r);
    OnBayReports(r, id, [op]);
    OneOp(r.BayAt(id), op);
    AskedApplied(r.BayAt(id), op);
    KnownStill(r, r.OnBay(id, [op]), {id}, id);
  }
}
