/** The protocol gate every transmitted frame passes through: a receiver drops any
    frame stamped above its own version, so a send it could not take is refused. */
module Gate {
  import opened Bytes
  import opened Frames
  import opened Opcodes

  /** A frame goes to one device, with the version it has reported (0 when it has not
      reported any), or to everyone. */
  datatype Target = Everyone | Device(version: u16)

  predicate Refused(target: Target, opcode: u16) {
    target.Device? && target.version != 0 && target.version < ProtocolFor(opcode)
  }

  /** The receiver's own gate, for a receiver whose version is known. */
  predicate Takes(version: u16, f: RawFrame)
    requires f.Valid()
  {
    f.Protocol() <= version
  }

  /** The control calls that address one device. */
  datatype Call =
    | SelectVideoSource | SelectAudioSource | SelectAudioSourceAddr | SelectAudioSourceByName(format: bool)
    | SetName | SetHidden | SelectEdidProfile | TxAction | VolumeSet
    | AudioMute | AudioTrigger | AudioVolumeSet | AudioSelectInput
    | SetZoneSettings | ReadStats | Reboot
    | Multiviewer

  function OpcodeOf(c: Call): u16 {
    match c
    case SelectVideoSource | SelectAudioSource => OP_V2IP_SOURCE_SWITCH
    case SelectAudioSourceAddr => OP_V2IP_MANUAL_SRC_SWITCH
    case SelectAudioSourceByName(format) => if format then OP_V2IP_MANUAL_SRC_SWITCH else OP_V2IP_SOURCE_SWITCH
    case SetName => OP_CHANGE_BAY_NAME
    case SetHidden => OP_BAY_HIDE
    case SelectEdidProfile => OP_BAY_EDID_PROFILE
    case TxAction => OP_RC_TX_ACTION
    case VolumeSet => OP_AUDIO_SET_VOLUME
    case AudioMute | AudioTrigger | AudioVolumeSet | AudioSelectInput => OP_V2IP_AUDIO
    case SetZoneSettings => OP_AMP_ZONE_SETTINGS
    case ReadStats => OP_V2IP_STATS
    case Reboot => OP_SYS_REBOOT
    case Multiviewer => OP_V2IP_MULTIVIEWER
  }

  /** The opcodes the calls go out under, and the stamps in their headers. */
  lemma CallNumbers(c: Call)
    ensures (c.SelectVideoSource? || c.SelectAudioSource?) ==> OpcodeOf(c) == 0x1F && StampOf(c) == 0x06
    ensures c.SelectAudioSourceAddr? ==> OpcodeOf(c) == 0x24 && StampOf(c) == 0x07
    ensures c.SelectAudioSourceByName? ==>
              OpcodeOf(c) == (if c.format then 0x24 else 0x1F) && StampOf(c) == (if c.format then 0x07 else 0x06)
    ensures c.SetName? ==> OpcodeOf(c) == 0x22 && StampOf(c) == 0x06
    ensures c.SetHidden? ==> OpcodeOf(c) == 0x27 && StampOf(c) == 0x06
    ensures c.SelectEdidProfile? ==> OpcodeOf(c) == 0x34 && StampOf(c) == 0x08
    ensures c.TxAction? ==> OpcodeOf(c) == 0x0E && StampOf(c) == 0x0C
    ensures c.VolumeSet? ==> OpcodeOf(c) == 0x14 && StampOf(c) == 0x11
    ensures (c.AudioMute? || c.AudioTrigger? || c.AudioVolumeSet? || c.AudioSelectInput?) ==>
              OpcodeOf(c) == 0x43 && StampOf(c) == 0x1A
    ensures c.SetZoneSettings? ==> OpcodeOf(c) == 0x3D && StampOf(c) == 0x1C
    ensures c.ReadStats? ==> OpcodeOf(c) == 0x3F && StampOf(c) == 0x13
    ensures c.Reboot? ==> OpcodeOf(c) == 0x28 && StampOf(c) == 0x01
    ensures c.Multiviewer? ==> OpcodeOf(c) == 0x42 && StampOf(c) == 0x20
  {
  }

  const MULTIVIEWER_STAMP: u16 := 0x20

  /** Every call stamps its opcode's floor except those of the multiviewer. */
  function StampOf(c: Call): u16 {
    if c.Multiviewer? then MULTIVIEWER_STAMP else ProtocolFor(OpcodeOf(c))
  }

  datatype Delivery = Delivery(target: Target, call: Call, data: bytes)

  /** One send as the caller makes it. */
  datatype Request = Request(sender: uid, target: Target, call: Call, payload: bytes, connected: bool)

  function Sends(wire: seq<Delivery>, q: Request): seq<Delivery> {
    if Refused(q.target, OpcodeOf(q.call)) || !q.connected then wire
    else wire + [Delivery(q.target, q.call, Build(q.sender, OpcodeOf(q.call), StampOf(q.call), q.payload))]
  }

  function AllSends(wire: seq<Delivery>, requests: seq<Request>): seq<Delivery> {
    if requests == [] then wire
    else Sends(AllSends(wire, requests[..|requests| - 1]), requests[|requests| - 1])
  }

  /** transmit and what has reached the connection through it. */
  class Connection {
    var connected: bool
    ghost var wire: seq<Delivery>

    /** The opcode is read out of the frame itself; what is too short to have one passes. */
    method Transmit(target: Target, data: bytes, ghost call: Call) returns (ok: bool)
      modifies this`wire
      ensures ok <==> connected && (|data| < HEADER_LEN || !Refused(target, U16(data, 20)))
      ensures wire == old(wire) + if ok then [Delivery(target, call, data)] else []
    {
      if target.Device? && |data| >= HEADER_LEN {
        var have, need := target.version, ProtocolFor(U16(data, 20));
        if !(have == 0 || have >= need) {
          return false;
        }
      }
      if !connected {
        return false;
      }
      wire := wire + [Delivery(target, call, data)];
      ok := true;
    }

    method Send(sender: uid, target: Target, call: Call, payload: bytes) returns (ok: bool)
      modifies this`wire
      ensures ok <==> connected && !Refused(target, OpcodeOf(call))
      ensures wire == Sends(old(wire), Request(sender, target, call, payload, connected))
    {
      FrameRoundTrip(sender, OpcodeOf(call), StampOf(call), payload);
      var frame := BuildFrame(sender, OpcodeOf(call), StampOf(call), payload);
      ok := Transmit(target, frame[..], call);
    }
  }

  /** A call other than the multiviewer's is refused exactly when the receiver is
      known and would drop the frame. */
  lemma RefusalMatchesReceiver(sender: uid, version: u16, call: Call, payload: bytes)
    requires !call.Multiviewer? && version != 0
    ensures var f := RawFrame(Build(sender, OpcodeOf(call), StampOf(call), payload));
            f.Valid() && (Refused(Device(version), OpcodeOf(call)) <==> !Takes(version, f))
  {
    FrameRoundTrip(sender, OpcodeOf(call), StampOf(call), payload);
  }

  /** The multiviewer's stamp is above its opcode's floor, so its frames pass the
      gate and are dropped by the receivers in between, and by no others. */
  lemma MultiviewerStamp(sender: uid, version: u16, payload: bytes)
    requires version != 0
    ensures var f := RawFrame(Build(sender, OpcodeOf(Multiviewer), StampOf(Multiviewer), payload));
            f.Valid() && (!Refused(Device(version), OpcodeOf(Multiviewer)) && !Takes(version, f) <==> 0x16 <= version < 0x20)
  {
    FrameRoundTrip(sender, OpcodeOf(Multiviewer), StampOf(Multiviewer), payload);
  }

  predicate Unknown(target: Target) { target.Everyone? || target.version == 0 }

  /** What of a wire went to everyone or to devices that had reported no version. */
  function ToUnknown(wire: seq<Delivery>): seq<Delivery> {
    if wire == [] then []
    else ToUnknown(wire[..|wire| - 1]) + if Unknown(wire[|wire| - 1].target) then [wire[|wire| - 1]] else []
  }

  /** The frames of the calls made to them while there was a connection. */
  function AskedOfUnknown(requests: seq<Request>): seq<Delivery> {
    if requests == [] then []
    else
      var q := requests[|requests| - 1];
      AskedOfUnknown(requests[..|requests| - 1])
      + if q.connected && Unknown(q.target)
        then [Delivery(q.target, q.call, Build(q.sender, OpcodeOf(q.call), StampOf(q.call), q.payload))] else []
  }

  /** Over every run of calls, what reaches devices that have reported no version, and
      everyone, is all that was sent to them, once and in order. */
  lemma {:induction false} UnknownIsNeverRefused(requests: seq<Request>)
    ensures ToUnknown(AllSends([], requests)) == AskedOfUnknown(requests)
  {
    hide Build;
    hide StampOf;
    hide OpcodeOf;
    if requests != [] {
      var front, q := requests[..|requests| - 1], requests[|requests| - 1];
      UnknownIsNeverRefused(front);
      var wire := AllSends([], front);
      if Sends(wire, q) != wire {
        var d := Delivery(q.target, q.call, Build(q.sender, OpcodeOf(q.call), StampOf(q.call), q.payload));
        assert (wire + [d])[..|wire|] == wire;
      }
    }
  }

  ghost predicate Safe(d: Delivery) {
    var f := RawFrame(d.data);
    && f.Valid() && f.Opcode() == OpcodeOf(d.call)
    && (d.target.Device? && d.target.version != 0 ==>
          ProtocolFor(f.Opcode()) <= d.target.version && (!d.call.Multiviewer? ==> Takes(d.target.version, f)))
  }

  /** Over every run of calls nothing reaches the wire for a device known to be below
      the opcode's floor, and what does is never stamped above a known version. */
  lemma {:induction false} EverySendIsSafe(requests: seq<Request>)
    ensures forall i :: 0 <= i < |AllSends([], requests)| ==> Safe(AllSends([], requests)[i])
  {
    if requests != [] {
      var q := requests[|requests| - 1];
      EverySendIsSafe(requests[..|requests| - 1]);
      FrameRoundTrip(q.sender, OpcodeOf(q.call), StampOf(q.call), q.payload);
    }
  }
}
