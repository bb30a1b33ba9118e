/** The control calls on a bay: build the payload, send the frame through the gate, and
    only when it is away store what was asked for. */
module Calls {
  import opened Bytes
  import opened Frames
  import opened V2ipConfig
  import opened Control
  import opened BayModel
  import opened DeviceModel
  import opened Registry
  import opened Gate
  import opened Bays
  import opened Remotes

  const ACTION_POWER_ON: nat := 1
  const ACTION_POWER_OFF: nat := 2

  function PowerAction(on: bool): nat { if on then ACTION_POWER_ON else ACTION_POWER_OFF }

  class Client {
    const remote: Remote
    const connection: Connection

    ghost predicate Valid()
      reads this, remote, remote.objects
    {
      remote.Valid() && connection !in remote.objects
    }

    /** Whether a frame of the call can be sent to the device. */
    ghost predicate Sendable(u: uid, call: Call)
      requires Valid() && u in remote.View().devices
      reads this, remote, remote.objects, connection`connected
    {
      connection.connected && !Refused(Gate.Device(remote.View().devices[u].hello.protocol), OpcodeOf(call))
    }

    /** The frame of a call as it goes out. */
    ghost function Frame(u: uid, call: Call, payload: bytes): Delivery
      requires Valid() && u in remote.View().devices
      reads this, remote, remote.objects
    {
      Delivery(Gate.Device(remote.View().devices[u].hello.protocol), call,
               Build(remote.me, OpcodeOf(call), StampOf(call), payload))
    }

    constructor (remote: Remote, connection: Connection)
      requires remote.Valid() && connection !in remote.objects
      ensures Valid() && this.remote == remote && this.connection == connection
    {
      this.remote, this.connection := remote, connection;
    }

    method Transmit(u: uid, call: Call, payload: bytes) returns (ok: bool)
      requires Valid() && u in remote.View().devices
      modifies connection`wire
      ensures Valid() && remote.View() == old(remote.View()) && ok == old(Sendable(u, call))
      ensures connection.wire == old(connection.wire)
              + if ok then [Frame(u, call, payload)] else []
    {
      hide Build;
      hide OpcodeOf;
      hide StampOf;
      hide Refused;
      hide Remote.Models;
      remote.Known(u);
      var version := remote.ProtocolOf(u);
      ok := connection.Send(remote.me, Gate.Device(version), call, payload);
    }

    /** Sends a call's frame and, if it went out, stores the operation: nothing is cached
        of a call that was refused or failed. */
    method SendThenStore(id: BayId, call: Call, payload: bytes, op: Op) returns (ok: bool, batch: seq<Queued>)
      requires Valid() && remote.View().Knows(id) && remote.queue.pending == [] && !op.OpSelect?
      modifies connection`wire, remote, remote.objects, remote.queue
      ensures Valid() && remote.queue.pending == [] && ok == old(Sendable(id.device, call))
      ensures connection.wire == old(connection.wire)
              + if ok then [old(Frame(id.device, call, payload))] else []
      ensures remote.View()
              == if ok then old(remote.View()).OnBay(id, [op]) else old(remote.View())
      ensures Announced(old(remote.View()), remote.View(), [], batch)
    {
      hide Announced;
      hide Sendable;
      hide Frame;
      hide Remote.Valid;
      AnnouncedNothing(remote.View(), []);
      batch := [];
      ok := Transmit(id.device, call, payload);
      if ok {
        batch := remote.RunLocked(id, op);
      }
    }

    method SetName(id: BayId, name: bytes) returns (ok: bool, batch: seq<Queued>)
      requires Valid() && remote.View().Knows(id) && remote.queue.pending == []
      modifies connection`wire, remote, remote.objects, remote.queue
      ensures Valid() && remote.queue.pending == [] && Announced(old(remote.View()), remote.View(), [], batch)
      ensures ok == old(Sendable(id.device, Call.SetName))
      ensures connection.wire == old(connection.wire)
              + if ok then [old(Frame(id.device, Call.SetName, NamePayload(id.device, id.port, name)))] else []
      ensures remote.View()
              == if ok then old(remote.View()).OnBay(id, [OpName(Cut(name, 16))]) else old(remote.View())
    {
      hide Valid;
      hide Sendable;
      hide Frame;
      hide Announced;
      hide Remote.Valid;
      hide Remote.View;
      hide Reg.OnBay;
      hide Remote.HasBay;
      var payload := BuildName(id.device, id.port, name);
      ok, batch := SendThenStore(id, Call.SetName, payload, OpName(Cut(name, 16)));
    }

    method SetHidden(id: BayId, hidden: bool) returns (ok: bool, batch: seq<Queued>)
      requires Valid() && remote.View().Knows(id) && remote.queue.pending == []
      modifies connection`wire, remote, remote.objects, remote.queue
      ensures Valid() && remote.queue.pending == [] && Announced(old(remote.View()), remote.View(), [], batch)
      ensures ok == old(Sendable(id.device, Call.SetHidden))
      ensures connection.wire == old(connection.wire)
              + if ok then [old(Frame(id.device, Call.SetHidden, HiddenPayload(id.device, id.port, hidden)))] else []
      ensures remote.View()
              == if ok then old(remote.View()).OnBay(id, [OpFlag(Hidden, hidden)]) else old(remote.View())
    {
      hide Valid;
      hide Sendable;
      hide Frame;
      hide Announced;
      hide Remote.Valid;
      hide Remote.View;
      hide Reg.OnBay;
      hide Remote.HasBay;
      var payload := BuildHidden(id.device, id.port, hidden);
      ok, batch := SendThenStore(id, Call.SetHidden, payload, OpFlag(Hidden, hidden));
    }

    method SelectEdidProfile(id: BayId, profile: int) returns (ok: bool, batch: seq<Queued>)
      requires Valid() && remote.View().Knows(id) && remote.queue.pending == []
      modifies connection`wire, remote, remote.objects, remote.queue
      ensures Valid() && remote.queue.pending == [] && Announced(old(remote.View()), remote.View(), [], batch)
      ensures ok == old(Sendable(id.device, Call.SelectEdidProfile))
      ensures connection.wire == old(connection.wire)
              + if ok then [old(Frame(id.device, Call.SelectEdidProfile, EdidPayload(id.device, profile)))] else []
      ensures remote.View()
              == if ok then old(remote.View()).OnBay(id, [OpEdid(profile)]) else old(remote.View())
    {
      hide Valid;
      hide Sendable;
      hide Frame;
      hide Announced;
      hide Remote.Valid;
      hide Remote.View;
      hide Reg.OnBay;
      hide Remote.HasBay;
      var payload := BuildEdid(id.device, profile);
      ok, batch := SendThenStore(id, Call.SelectEdidProfile, payload, OpEdid(profile));
    }

    method SetZoneSettings(id: BayId, s: AmpZone) returns (ok: bool, batch: seq<Queued>)
      requires s.Shaped()
      requires Valid() && remote.View().Knows(id) && remote.queue.pending == []
      modifies connection`wire, remote, remote.objects, remote.queue
      ensures Valid() && remote.queue.pending == [] && Announced(old(remote.View()), remote.View(), [], batch)
      ensures ok == old(Sendable(id.device, Call.SetZoneSettings))
      ensures connection.wire == old(connection.wire)
              + if ok then [old(Frame(id.device, Call.SetZoneSettings, AmpZonePayload(id.device, id.port, s)))] else []
      ensures remote.View()
              == if ok then old(remote.View()).OnBay(id, [OpAmp(s)]) else old(remote.View())
    {
      hide Valid;
      hide Sendable;
      hide Frame;
      hide Announced;
      hide Remote.Valid;
      hide Remote.View;
      hide Reg.OnBay;
      hide Remote.HasBay;
      hide AmpZonePayload;
      var payload := BuildAmpZone(id.device, id.port, s);
      ok, batch := SendThenStore(id, Call.SetZoneSettings, payload, OpAmp(s));
    }

    /** Power is a remote-control action; the status is stored once it is away. */
    method SetPower(id: BayId, on: bool) returns (ok: bool, batch: seq<Queued>)
      requires Valid() && remote.View().Knows(id) && remote.queue.pending == []
      modifies connection`wire, remote, remote.objects, remote.queue
      ensures Valid() && remote.queue.pending == [] && Announced(old(remote.View()), remote.View(), [], batch)
      ensures ok == old(Sendable(id.device, Call.TxAction))
      ensures connection.wire == old(connection.wire)
              + if ok then [old(Frame(id.device, Call.TxAction, ActionPayload(id.device, id.port, PowerAction(on))))] else []
      ensures remote.View()
              == if ok then old(remote.View()).OnBay(id, [OpPower(if on then PowerOn else PowerOff)]) else old(remote.View())
    {
      hide Valid;
      hide Sendable;
      hide Frame;
      hide Announced;
      hide Remote.Valid;
      hide Remote.View;
      hide Reg.OnBay;
      hide Remote.HasBay;
      var payload := BuildAction(id.device, id.port, PowerAction(on));
      ok, batch := SendThenStore(id, Call.TxAction, payload, OpPower(if on then PowerOn else PowerOff));
    }

    /** Refused outright, with nothing sent, for a bay without volume control. */
    method VolumeSet(id: BayId, volume: int, muted: Option<bool>) returns (ok: bool, batch: seq<Queued>)
      requires Valid() && remote.View().Knows(id) && remote.queue.pending == []
      modifies connection`wire, remote, remote.objects, remote.queue
      ensures Valid() && remote.queue.pending == [] && Announced(old(remote.View()), remote.View(), [], batch)
      ensures ok == (old(remote.View()).BayAt(id).HasVolumeControl() && old(Sendable(id.device, Call.VolumeSet)))
      ensures connection.wire == old(connection.wire)
              + if ok then [old(Frame(id.device, Call.VolumeSet, VolumeSetPayload(id.device, id.port, volume, muted)))] else []
      ensures remote.View()
              == if ok then old(remote.View()).OnBay(id, [OpVolume(VolumeRequest(volume, muted))]) else old(remote.View())
    {
      hide Sendable;
      hide Frame;
      hide Announced;
      hide Remote.Models;
      AnnouncedNothing(remote.View(), []);
      ok, batch := false, [];
      if remote.HasVolumeControlAt(id) {
        var payload := BuildVolumeSet(id.device, id.port, VolumeRequest(volume, muted));
        ok, batch := SendThenStore(id, Call.VolumeSet, payload, OpVolume(VolumeRequest(volume, muted)));
      }
    }

    /** Up, down, or a mute state at the volume shown. A bay that keeps no volume,
        its own or not yet known, is refused. */
    method StepVolume(id: BayId, step: int, muted: Option<bool>) returns (ok: bool, batch: seq<Queued>)
      requires Valid() && remote.View().Knows(id) && remote.queue.pending == []
      modifies connection`wire, remote, remote.objects, remote.queue
      ensures Valid() && remote.queue.pending == [] && Announced(old(remote.View()), remote.View(), [], batch)
      ensures ok == (old(remote.View()).BayAt(id).ShownVolume().Some? && old(Sendable(id.device, Call.VolumeSet)))
      ensures !ok ==> connection.wire == old(connection.wire) && remote.View() == old(remote.View())
      ensures ok ==> var volume := old(remote.View()).BayAt(id).ShownVolume().value + step;
                     && connection.wire == old(connection.wire)
                        + [old(Frame(id.device, Call.VolumeSet, VolumeSetPayload(id.device, id.port, volume, muted)))]
                     && remote.View() == old(remote.View()).OnBay(id, [OpVolume(VolumeRequest(volume, muted))])
    {
      hide Sendable;
      hide Frame;
      hide Announced;
      hide Remote.Models;
      hide VolumeSetPayload;
      hide Reg.OnBay;
      AnnouncedNothing(remote.View(), []);
      ok, batch := false, [];
      var shown := remote.VolumeAt(id);
      if shown.Some? {
        ok, batch := VolumeSet(id, shown.value + step, muted);
      }
    }

    // ---- calls that store nothing ----

    /** Routes the audio of a V2IP sink to an address; only the low 16 bits of the port
        are sent, and port 0 stands for the standard one. */
    method SelectAudioSourceAddr(id: BayId, ip: bytes, port: int, fmt: Option<AudioFormat>) returns (ok: bool)
      requires Valid() && remote.View().Knows(id)
      modifies connection`wire
      ensures Valid() && remote.View() == old(remote.View())
      ensures ok == (old(remote.View()).BayAt(id).IsV2ipSink() && old(Sendable(id.device, Call.SelectAudioSourceAddr)))
      ensures connection.wire == old(connection.wire)
              + if !ok then []
                else [Frame(id.device, Call.SelectAudioSourceAddr, ManualSwitchPayload(id.device, AudioRoute(ip, port, fmt)))]
    {
      hide Sendable;
      hide Frame;
      hide Remote.Models;
      ok := false;
      if remote.IsV2ipSinkAt(id) {
        var payload := BuildManualSwitch(id.device, AudioRoute(ip, port, fmt));
        ok := Transmit(id.device, Call.SelectAudioSourceAddr, payload);
      }
    }

    method AudioSelectInput(u: uid, sinkId: int, source: uid, sourceId: int) returns (ok: bool)
      requires Valid() && u in remote.View().devices
      modifies connection`wire
      ensures Valid() && remote.View() == old(remote.View()) && ok == old(Sendable(u, Call.AudioSelectInput))
      ensures connection.wire == old(connection.wire)
              + if ok then [Frame(u, Call.AudioSelectInput, AudioSelectPayload(u, sinkId, source, sourceId))] else []
    {
      hide Sendable;
      hide Frame;
      hide Remote.Models;
      var payload := BuildAudioSelect(u, sinkId, source, sourceId);
      ok := Transmit(u, Call.AudioSelectInput, payload);
    }
  }

  const V2IP_PORT_AUDIO: u16 := 50022

  const NO_STREAM: StreamSource := StreamSource([0, 0, 0, 0], 0)

  function AudioRoute(ip: bytes, port: int, fmt: Option<AudioFormat>): SinkRoute {
    SinkRoute(NO_STREAM, StreamSource(ip, if port == 0 then V2IP_PORT_AUDIO else port % 0x1_0000), NO_STREAM, fmt)
  }

  /** Routing the audio of a sink leaves the other two streams blank, and takes port 50022 where
      none is given; power on is action 1, off action 2. */
  lemma CallBytes(target: uid, port: nat, ip: bytes, audioPort: int, fmt: Option<AudioFormat>, on: bool)
    requires |ip| == 4
    ensures var p := ManualSwitchPayload(target, AudioRoute(ip, audioPort, fmt));
            && |p| >= 40 && p[..16] == target && p[24..28] == ip
            && Le(p[28..30]) == (if audioPort == 0 then 50022 else audioPort % 0x1_0000)
            && p[16..24] == p[32..40] == [0, 0, 0, 0, 0, 0, 0, 0]
    ensures var p := ActionPayload(target, port, PowerAction(on));
            |p| == 20 && p[..16] == target && Le(p[16..18]) == port % 0x1_0000 && Le(p[18..20]) == if on then 1 else 2
  {
    hide Le;
    hide U16;
    var r, q := AudioRoute(ip, audioPort, fmt), ActionPayload(target, port, PowerAction(on));
    var p := ManualSwitchPayload(target, r);
    ManualSwitchLayout(target, r);
    StreamSlice(p, 24, r.audio);
    LeReads(p, 28);
    assert q[16..18] == Wire16(port) && q[18..20] == Wire16(PowerAction(on));
    U16Slice(q, 16, port);
    U16Slice(q, 18, PowerAction(on));
    LeReads(q, 16);
    LeReads(q, 18);
  }
}
