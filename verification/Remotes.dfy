/** The client: the registry of device objects, and what every frame does to it. */
module Remotes {
  import opened Bytes
  import opened Frames
  import opened Opcodes
  import opened V2ipConfig
  import opened Control
  import opened BayModel
  import opened DeviceModel
  import opened Links
  import opened Registry
  import opened Bays
  import opened Devices

  /** What a device has notified in a state of the registry. */
  function Notices(r: Reg, u: uid): seq<Notice> { if u in r.devices then r.devices[u].notices else [] }

  /** What of a queue one device has notified. */
  function Of(q: seq<Queued>, u: uid): seq<Notice> {
    if q == [] then []
    else Of(q[..|q| - 1], u) + if q[|q| - 1].device == u then [q[|q| - 1].notice] else []
  }

  ghost predicate AnnouncedBy(r: Reg, s: Reg, p: seq<Queued>, q: seq<Queued>, u: uid)
    requires p <= q
  {
    Notices(s, u) == Notices(r, u) + Of(q[|p|..], u)
  }

  /** Between two states every device's notices have grown by exactly what has been
      queued for it meanwhile, in that order, and nothing else has been queued. */
  ghost predicate Announced(r: Reg, s: Reg, p: seq<Queued>, q: seq<Queued>) {
    p <= q && forall u :: AnnouncedBy(r, s, p, q, u)
  }

  lemma BatchesJoin(r: Reg, s: Reg, t: Reg, a: seq<Queued>, b: seq<Queued>)
    requires Announced(r, s, [], a) && Announced(s, t, [], b)
    ensures Announced(r, t, [], a + b)
  {
    assert a[0..] == a && b[0..] == b && (a + b)[0..] == a + b;
    forall u
      ensures AnnouncedBy(r, t, [], a + b, u)
    {
      assert AnnouncedBy(r, s, [], a, u) && AnnouncedBy(s, t, [], b, u);
      OfAppend(a, b, u);
    }
  }

  lemma {:induction false} OfAppend(a: seq<Queued>, b: seq<Queued>, u: uid)
    ensures Of(a + b, u) == Of(a, u) + Of(b, u)
  {
    if b == [] {
      assert a + b == a;
    } else {
      OfAppend(a, b[..|b| - 1], u);
      assert (a + b)[..|a + b| - 1] == a + b[..|b| - 1];
    }
  }

  lemma AnnouncedNothing(r: Reg, q: seq<Queued>)
    ensures Announced(r, r, q, q)
  {
  }

  /** A device that has notified nothing, or another link book, is nothing to announce. */
  lemma AnnouncedQuietly(r: Reg, s: Reg, q: seq<Queued>)
    requires forall u :: Notices(s, u) == Notices(r, u)
    ensures Announced(r, s, q, q)
  {
  }

  lemma AnnouncedByJoin(r: Reg, s: Reg, t: Reg, p: seq<Queued>, q: seq<Queued>, w: seq<Queued>, u: uid)
    requires p <= q <= w && AnnouncedBy(r, s, p, q, u) && AnnouncedBy(s, t, q, w, u)
    ensures AnnouncedBy(r, t, p, w, u)
  {
    hide Notices;
    hide Of;
    var first, second := q[|p|..], w[|q|..];
    assert w[|p|..] == first + second;
    OfAppend(first, second, u);
  }

  lemma AnnouncedJoin(r: Reg, s: Reg, t: Reg, p: seq<Queued>, q: seq<Queued>, w: seq<Queued>)
    requires Announced(r, s, p, q) && Announced(s, t, q, w)
    ensures Announced(r, t, p, w)
  {
    hide AnnouncedBy;
    forall u
      ensures AnnouncedBy(r, t, p, w, u)
    {
      assert AnnouncedBy(r, s, p, q, u) && AnnouncedBy(s, t, q, w, u);
      AnnouncedByJoin(r, s, t, p, q, w, u);
    }
  }

  lemma OfOne(q: seq<Queued>, x: Queued, u: uid)
    ensures Of(q + [x], u) == Of(q, u) + if x.device == u then [x.notice] else []
  {
    assert (q + [x])[..|q|] == q;
  }

  lemma NewsStep(u: uid, a: seq<Notice>, b: seq<Notice>, n: Notice)
    requires a <= b
    ensures DeviceNews(u, a, b + [n]) == DeviceNews(u, a, b) + [Queued(u, n)]
    ensures (b + [n])[|a|..] == b[|a|..] + [n]
  {
  }

  lemma {:induction false} OfNews(u: uid, a: seq<Notice>, b: seq<Notice>, v: uid)
    requires a <= b
    ensures Of(DeviceNews(u, a, b), v) == if v == u then b[|a|..] else []
    decreases |b|
  {
    if |a| == |b| {
      NoDeviceNews(u, a);
    } else {
      hide DeviceNews;
      hide Of;
      var c, n := b[..|b| - 1], b[|b| - 1];
      assert b == c + [n];
      NewsStep(u, a, c, n);
      OfNews(u, a, c, v);
      OfOne(DeviceNews(u, a, c), Queued(u, n), v);
    }
  }

  /** One device's notices are queued as it grows them. */
  lemma DeviceAnnounced(r: Reg, e: DeviceModel.Device, p: seq<Queued>)
    requires e.uid in r.devices && r.devices[e.uid].notices <= e.notices
    ensures Announced(r, r.With(e), p, p + DeviceNews(e.uid, r.devices[e.uid].notices, e.notices))
  {
    hide DeviceNews;
    hide Of;
    var before := r.devices[e.uid].notices;
    var q := p + DeviceNews(e.uid, before, e.notices);
    assert q[|p|..] == DeviceNews(e.uid, before, e.notices);
    forall v
      ensures AnnouncedBy(r, r.With(e), p, q, v)
    {
      OfNews(e.uid, before, e.notices, v);
      if v == e.uid {
        assert e.notices == before + e.notices[|before|..];
      } else {
        assert Notices(r.With(e), v) == Notices(r, v);
      }
    }
  }

  lemma OneAnnounced(r: Reg, u: uid, w: Work, p: seq<Queued>)
    requires u in r.devices && r.devices[u].uid == u && Done(r.devices[u], w).uid == u
    ensures Announced(r, r.With(Done(r.devices[u], w)), p, p + DeviceNews(u, r.devices[u].notices, Done(r.devices[u], w).notices))
  {
    hide DeviceNews;
    hide Announced;
    hide Done;
    hide Possible;
    DoneNotices(r.devices[u], w);
    DeviceAnnounced(r, Done(r.devices[u], w), p);
  }

  lemma OnBaysOne(d: DeviceModel.Device, port: nat, op: Op)
    requires port in d.bays
    ensures OnBays(d, port, [op]) == Done(d, AtBay(port, op))
  {
    assert [op][1..] == [];
  }

  lemma FirstInputKnown(d: DeviceModel.Device)
    ensures d.FirstInput().Some? ==> d.FirstInput().value in d.bays && d.bays[d.FirstInput().value].IsInput()
  {
  }

  lemma FirstOutputKnown(d: DeviceModel.Device)
    ensures d.FirstOutput().Some? ==> d.FirstOutput().value in d.bays
  {
  }

  lemma ViewKeys(d: Devices.Device)
    ensures d.View().bays.Keys == d.bays.Keys
  {
  }

  class Remote {
    const me: uid
    const queue: Callbacks

    var devices: map<uid, Devices.Device>
    var links: map<BayId, Link>

    ghost var linkLog: seq<LinkEvent>
    ghost var objects: set<object>

    ghost predicate Owns(u: uid)
      requires u in devices
      reads this`devices, this`objects, objects
    {
      var d := devices[u];
      d in objects && d.bays.Values <= objects && d.uid == u && d.queue == queue && d.Valid()
    }

    ghost predicate Valid()
      reads this`devices, this`objects, objects
    {
      this !in objects && queue !in objects && forall u :: u in devices ==> Owns(u)
    }

    ghost function Models(): map<uid, DeviceModel.Device>
      requires Valid()
      reads this`devices, this`objects, objects
    {
      map u | u in devices :: assert Owns(u); devices[u].View()
    }

    /** The registry as a value of the cached-state model. */
    ghost function View(): Reg
      requires Valid()
      reads this, objects
    {
      Reg(me, Models(), Book(links, linkLog))
    }

    constructor (me: uid, queue: Callbacks)
      ensures Valid() && View() == EmptyRegistry(me) && this.queue == queue
    {
      this.me, this.queue := me, queue;
      devices, links, linkLog, objects := map[], map[], [], {};
    }

    // ---- one device at a time ----

    lemma AllOwned()
      requires Valid()
      ensures this !in objects && queue !in objects && Models().Keys == devices.Keys
      ensures forall v :: v in devices ==> Owns(v) && devices[v].View() == Models()[v]
    {
    }

    /** Hands the work to the device; the others stay as they are. */
    method Delegate(u: uid, w: Work, ghost before: map<uid, DeviceModel.Device>)
      requires Valid() && u in devices && before == Models() && Possible(before[u], w)
      modifies this`objects, objects, queue
      ensures this !in objects && queue !in objects && fresh(objects - old(objects))
      ensures Owns(u) && devices[u].View() == Done(before[u], w)
      ensures forall v :: v in devices && v != u ==> Owns(v) && devices[v].View() == before[v]
      ensures queue.pending == old(queue.pending) + DeviceNews(u, before[u].notices, devices[u].View().notices)
    {
      hide DeviceNews;
      hide Done;
      hide Possible;
      hide Devices.Device.Valid;
      hide Devices.Device.View;
      hide Valid;
      hide Models;
      Apart(u);
      AllOwned();
      var d := devices[u];
      ghost var known := d.bays.Values;
      d.Perform(w);
      objects := objects + (d.bays.Values - known);
    }

    method OnDevice(u: uid, w: Work)
      requires Valid() && u in devices && Possible(Models()[u], w)
      modifies this`objects, objects, queue
      ensures Valid() && fresh(objects - old(objects))
      ensures Models() == old(Models())[u := Done(old(Models())[u], w)]
      ensures queue.pending == old(queue.pending) + DeviceNews(u, old(Models())[u].notices, Models()[u].notices)
    {
      hide DeviceNews;
      hide Done;
      hide Possible;
      hide Owns;
      ghost var before := Models();
      assert before.Keys == devices.Keys;
      hide Models;
      Delegate(u, w, before);
      Rebuilt(u, before);
    }

    /** The registry with one device changed. */
    lemma Rebuilt(u: uid, before: map<uid, DeviceModel.Device>)
      requires this !in objects && queue !in objects && u in devices && before.Keys == devices.Keys
      requires Owns(u) && forall v :: v in devices && v != u ==> Owns(v) && devices[v].View() == before[v]
      ensures Valid() && Models() == before[u := devices[u].View()]
    {
    }

    /** The same as a change of the registry. */
    method Change(u: uid, w: Work)
      requires Valid() && u in devices && Possible(Models()[u], w)
      modifies this`objects, objects, queue
      ensures Valid() && fresh(objects - old(objects))
      ensures View() == old(View()).With(Done(old(View()).devices[u], w))
      ensures Announced(old(View()), View(), old(queue.pending), queue.pending)
    {
      hide DeviceNews;
      hide Announced;
      hide Done;
      hide Possible;
      Keyed(u);
      DoneUid(Models()[u], w);
      hide Models;
      hide Owns;
      ghost var r := View();
      OnDevice(u, w);
      OneAnnounced(r, u, w, old(queue.pending));
    }

    predicate HasBay(id: BayId)
      requires Valid()
      reads this`devices, this`objects, objects
      ensures HasBay(id) == (id.device in Models() && id.port in Models()[id.device].bays)
    {
      assert id.device in devices ==> Owns(id.device);
      id.device in devices && id.port in devices[id.device].bays
    }

    lemma BayKnown(id: BayId)
      requires Valid()
      ensures View().Knows(id) <==> HasBay(id)
    {
    }

    method OnBay(id: BayId, op: Op)
      requires Valid()
      modifies this`objects, objects, queue
      ensures Valid() && fresh(objects - old(objects))
      ensures View() == old(View()).OnBay(id, [op])
      ensures Announced(old(View()), View(), old(queue.pending), queue.pending)
    {
      hide Announced;
      hide Done;
      hide Models;
      AnnouncedNothing(View(), queue.pending);
      if HasBay(id) {
        OnBaysOne(View().devices[id.device], id.port, op);
        Change(id.device, AtBay(id.port, op));
      }
    }

    // ---- lookups ----

    function ProtocolOf(u: uid): u16
      requires Valid() && u in devices
      reads this`devices, this`objects, objects
      ensures ProtocolOf(u) == Models()[u].hello.protocol
    {
      assert Owns(u);
      devices[u].hello.protocol
    }

    /** Whether the first input of one device advertises a stream address. */
    method StreamInput(u: uid, ip: bytes, audio: bool) returns (port: Option<nat>)
      requires Valid() && u in devices
      ensures port.Some? ==> StreamMatch(View(), ip, audio, BayId(u, port.value))
      ensures port.None? ==> forall id: BayId :: id.device == u ==> !StreamMatch(View(), ip, audio, id)
    {
      hide Devices.Device.Valid;
      hide Devices.Device.View;
      hide DeviceModel.Device.FirstInput;
      hide DeviceModel.Device.SourceOf;
      port := None;
      assert Owns(u);
      var d := devices[u];
      FirstInputKnown(d.View());
      ViewKeys(d);
      var first := d.FirstInput();
      if first.Some? {
        var s := d.SourceOf(first.value);
        if s.Some? && (if audio then s.value.audio.ip else s.value.video.ip) == ip {
          port := first;
        }
      }
    }

    /** The bay advertising a stream address, devices being looked at in any order. */
    method ByStreamIp(ip: bytes, audio: bool) returns (found: Option<BayId>)
      requires Valid()
      ensures Resolves(View(), ip, audio, found)
    {
      hide StreamMatch;
      hide Owns;
      hide Models;
      var rest := devices.Keys;
      found := None;
      while rest != {}
        invariant rest <= devices.Keys
        invariant forall id: BayId :: id.device in devices.Keys - rest ==> !StreamMatch(View(), ip, audio, id)
        decreases |rest|
      {
        var u :| u in rest;
        var port := StreamInput(u, ip, audio);
        if port.Some? {
          return Some(BayId(u, port.value));
        }
        rest := rest - {u};
      }
      NoMatchElsewhere(ip, audio);
    }

    lemma NoMatchElsewhere(ip: bytes, audio: bool)
      requires Valid()
      ensures forall id: BayId :: id.device !in devices ==> !StreamMatch(View(), ip, audio, id)
    {
    }

    /** The first output of a device, where it has one. */
    method SinkOf(u: uid) returns (sink: Option<BayId>)
      requires Valid()
      ensures sink == Sink(View(), u)
    {
      hide Devices.Device.Valid;
      hide Devices.Device.View;
      hide DeviceModel.Device.FirstOutput;
      if u !in devices {
        return None;
      }
      assert Owns(u);
      var d := devices[u];
      var first := d.FirstOutput();
      FirstOutputKnown(Models()[u]);
      sink := if first.Some? then Some(BayId(u, first.value)) else None;
    }

    lemma Known(u: uid)
      requires Valid()
      ensures u in View().devices <==> u in devices
      ensures u in devices ==> View().devices[u].uid == u
    {
      if u in devices {
        Keyed(u);
      }
    }

    lemma Keyed(u: uid)
      requires Valid() && u in devices
      ensures Models()[u].uid == u
    {
      assert Owns(u);
    }

    /** No object belongs to two devices. */
    lemma Apart(u: uid)
      requires Valid() && u in devices
      ensures forall v :: v in devices && v != u ==>
                devices[v] != devices[u] && devices[v].bays.Values !! devices[u].bays.Values
    {
      assert Owns(u);
      forall v | v in devices && v != u
        ensures devices[v] != devices[u] && devices[v].bays.Values !! devices[u].bays.Values
      {
        assert Owns(v);
      }
    }

    // ---- handlers ----

    method NewEntry(u: uid, h: Hello, now: int, ghost before: map<uid, DeviceModel.Device>)
      requires Valid() && u !in devices && before == Models()
      modifies this`devices, this`objects
      ensures this !in objects && queue !in objects && fresh(objects - old(objects))
      ensures devices.Keys == old(devices.Keys) + {u} && Owns(u) && devices[u].View() == NewDevice(u, h, now)
      ensures forall v :: v in devices && v != u ==> Owns(v) && devices[v].View() == before[v]
    {
      hide Devices.Device.Valid;
      hide Devices.Device.View;
      hide Valid;
      hide Models;
      hide Owns;
      hide NewDevice;
      AllOwned();
      var d := new Devices.Device(u, h, now, queue);
      devices := devices[u := d];
      objects := objects + {d};
      OwnedNew(u);
      forall v | v in devices && v != u
        ensures Owns(v) && devices[v].View() == before[v]
      {
        OwnedStill(v);
      }
    }

    lemma OwnedNew(u: uid)
      requires u in devices && devices[u] in objects && devices[u].bays == map[]
      requires devices[u].uid == u && devices[u].queue == queue && devices[u].Valid()
      ensures Owns(u)
    {
    }

    /** A device stays as it was when others come. */
    twostate lemma OwnedStill(v: uid)
      requires v in old(devices) && v in devices && devices[v] == old(devices[v])
      requires old(Owns(v)) && old(objects) <= objects
      requires unchanged(old(devices[v])) && forall b :: b in old(devices[v].bays.Values) ==> unchanged(b)
      ensures Owns(v) && devices[v].View() == old(devices[v].View())
    {
    }

    method AddDevice(u: uid, h: Hello, now: int)
      requires Valid() && u !in devices
      modifies this`devices, this`objects
      ensures Valid() && fresh(objects - old(objects)) && u in devices
      ensures Models() == old(Models())[u := NewDevice(u, h, now)]
    {
      hide Owns;
      hide NewDevice;
      ghost var before := Models();
      assert before.Keys == devices.Keys;
      hide Models;
      NewEntry(u, h, now, before);
      Added(u, before);
    }

    lemma Added(u: uid, before: map<uid, DeviceModel.Device>)
      requires this !in objects && queue !in objects && u in devices && before.Keys == devices.Keys - {u}
      requires Owns(u) && forall v :: v in devices && v != u ==> Owns(v) && devices[v].View() == before[v]
      ensures Valid() && Models() == before[u := devices[u].View()]
    {
    }

    method HandleHello(f: RawFrame, now: int)
      requires Valid() && f.Valid()
      modifies this, objects, queue
      ensures Valid() && fresh(objects - old(objects)) && View() == Registry.HandleHello(old(View()), f, now)
      ensures Announced(old(View()), View(), old(queue.pending), queue.pending)
    {
      hide Announced;
      hide Valid;
      hide HelloOf;
      var u, h := f.RemoteId(), HelloOf(f);
      ghost var r := View();
      assert r.devices.Keys == devices.Keys;
      hide Models;
      if u !in devices {
        AddDevice(u, h, now);
        Overwritten(r.devices, u, NewDevice(u, h, now), NewDevice(u, h, now).ApplyHello(h, now));
      }
      ghost var s := View();
      AnnouncedQuietly(r, s, queue.pending);
      Change(u, Greet(h, now));
      AnnouncedJoin(r, s, View(), old(queue.pending), old(queue.pending), queue.pending);
    }

    method HandleBayConfig(f: RawFrame, now: int)
      requires Valid() && f.Valid()
      modifies this, objects, queue
      ensures Valid() && fresh(objects - old(objects)) && View() == Registry.HandleBayConfig(old(View()), f, now)
      ensures Announced(old(View()), View(), old(queue.pending), queue.pending)
    {
      hide Announced;
      hide Valid;
      AnnouncedNothing(View(), queue.pending);
      if f.RemoteId() in devices {
        Change(f.RemoteId(), Page(f.Payload(), now));
      }
    }

    /** Several operations on one bay, in order. */
    method OnBayAll(id: BayId, ops: seq<Op>)
      requires Valid()
      modifies this`objects, objects, queue
      ensures Valid() && fresh(objects - old(objects)) && View() == old(View()).OnBay(id, ops)
      ensures Announced(old(View()), View(), old(queue.pending), queue.pending)
    {
      hide Announced;
      hide OnBays;
      hide Valid;
      hide Models;
      hide Notices;
      hide Reg.OnBay;
      ghost var r, q := View(), queue.pending;
      Known(id.device);
      AnnouncedNothing(View(), queue.pending);
      OnBayNone(r, id);
      for i := 0 to |ops|
        invariant Valid() && fresh(objects - old(objects)) && View() == r.OnBay(id, ops[..i])
        invariant Announced(r, View(), q, queue.pending)
      {
        ghost var s, before := View(), queue.pending;
        OnBay(id, ops[i]);
        assert ops[..i + 1] == ops[..i] + [ops[i]];
        OnBaySnoc(r, id, ops[..i], ops[i]);
        AnnouncedJoin(r, s, View(), q, before, queue.pending);
      }
      assert ops[..|ops|] == ops;
    }

    predicate IsInputBay(id: BayId)
      requires Valid() && HasBay(id)
      reads this`devices, this`objects, objects
      ensures IsInputBay(id) == Models()[id.device].bays[id.port].IsInput()
    {
      assert Owns(id.device);
      devices[id.device].bays[id.port].IsInput()
    }

    predicate HasVolumeControlAt(id: BayId)
      requires Valid() && HasBay(id)
      reads this`devices, this`objects, objects
      ensures HasVolumeControlAt(id) == Models()[id.device].bays[id.port].HasVolumeControl()
    {
      assert Owns(id.device);
      devices[id.device].bays[id.port].HasVolumeControl()
    }

    /** The volume shown of a bay that keeps one. */
    function VolumeAt(id: BayId): Option<int>
      requires Valid() && HasBay(id)
      reads this`devices, this`objects, objects
      ensures VolumeAt(id) == Models()[id.device].bays[id.port].ShownVolume()
    {
      assert Owns(id.device);
      var b := devices[id.device].bays[id.port];
      assert ShownIn(b.model, b.Now(), Level);
      if b.HasVolumeControl() && b.audioVolume.Some? then Some(b.audioVolume.value.Combined()) else None
    }

    predicate IsV2ipSinkAt(id: BayId)
      requires Valid() && HasBay(id)
      reads this`devices, this`objects, objects
      ensures IsV2ipSinkAt(id) == Models()[id.device].bays[id.port].IsV2ipSink()
    {
      assert Owns(id.device);
      var f := devices[id.device].bays[id.port].features;
      Has(f, V2IP_SINK_LOCAL) || Has(f, V2IP_SINK_REMOTE)
    }

    predicate IsV2ipDevice(u: uid)
      requires Valid() && u in devices
      reads this`devices, this`objects, objects
      ensures IsV2ipDevice(u) == Models()[u].IsV2ip()
    {
      assert Owns(u);
      devices[u].IsV2ip()
    }

    method HandleConnect(f: RawFrame)
      requires Valid() && f.Valid()
      modifies this, objects, queue
      ensures Valid() && fresh(objects - old(objects)) && View() == Registry.HandleConnect(old(View()), f)
      ensures Announced(old(View()), View(), old(queue.pending), queue.pending)
    {
      hide Announced;
      hide Valid;
      hide Models;
      AnnouncedNothing(View(), queue.pending);
      var port := f.U8At(0);
      if port.Some? && HasBay(BayId(f.RemoteId(), port.value)) {
        var id := BayId(f.RemoteId(), port.value);
        OnBay(id, OpFlag(if IsInputBay(id) then Signal else Hpd, f.BoolAt(1)));
      }
    }

    method HandlePower(f: RawFrame)
      requires Valid() && f.Valid()
      modifies this, objects, queue
      ensures Valid() && fresh(objects - old(objects)) && View() == Registry.HandlePower(old(View()), f)
      ensures Announced(old(View()), View(), old(queue.pending), queue.pending)
    {
      hide Announced;
      hide Valid;
      hide Models;
      AnnouncedNothing(View(), queue.pending);
      var port := f.U8At(0);
      if port.Some? && HasBay(BayId(f.RemoteId(), port.value)) {
        if f.BoolAt(1) {
          OnBay(BayId(f.RemoteId(), port.value), OpPower(PowerOn));
        } else {
          OnBay(BayId(f.RemoteId(), port.value), OpPower(PowerOff));
        }
      }
    }

    /** The bay of a device at a port read from the frame. */
    function Find(u: uid, port: Option<nat>): Option<BayId>
      requires Valid()
      reads this`devices, this`objects, objects
    {
      if port.Some? && HasBay(BayId(u, port.value)) then Some(BayId(u, port.value)) else None
    }

    method HandleRouting(f: RawFrame)
      requires Valid() && f.Valid()
      modifies this, objects, queue
      ensures Valid() && fresh(objects - old(objects)) && View() == Registry.HandleRouting(old(View()), f)
      ensures Announced(old(View()), View(), old(queue.pending), queue.pending)
    {
      hide Announced;
      hide Valid;
      hide Models;
      AnnouncedNothing(View(), queue.pending);
      var sink := Find(f.RemoteId(), f.U16At(0));
      if sink.Some? {
        OnBay(sink.value, OpSelect(Find(f.RemoteId(), f.U16At(4)), Find(f.RemoteId(), f.U16At(7))));
      }
    }

    /** The device whose bay changes is the one the payload names. */
    method HandleVolumeSet(f: RawFrame)
      requires Valid() && f.Valid()
      modifies this, objects, queue
      ensures Valid() && fresh(objects - old(objects)) && View() == Registry.HandleVolumeSet(old(View()), f)
      ensures Announced(old(View()), View(), old(queue.pending), queue.pending)
    {
      hide Announced;
      hide Valid;
      hide Models;
      hide Control.Level;
      hide Has;
      Known(f.RemoteId());
      AnnouncedNothing(View(), queue.pending);
      if f.RemoteId() !in devices {
        return;
      }
      var p := f.Payload();
      if |p| < 20 {
        return;
      }
      var uid := p[..16];
      var port: nat, settings := U16(p, 16), 18;
      if |p| <= 20 {
        port, settings := p[16], 17;
      }
      OnBay(BayId(uid, port), OpVolume(VolumeSetting(p[settings], p[settings + 1], p[settings + 2])));
    }

    method HandleVolumeMute(f: RawFrame)
      requires Valid() && f.Valid()
      modifies this, objects, queue
      ensures Valid() && fresh(objects - old(objects)) && View() == Registry.HandleVolumeMute(old(View()), f)
      ensures Announced(old(View()), View(), old(queue.pending), queue.pending)
    {
      hide Announced;
      hide Valid;
      hide Models;
      hide Control.Level;
      hide Has;
      AnnouncedNothing(View(), queue.pending);
      var p := f.Payload();
      if |p| >= 4 {
        OnBay(BayId(f.RemoteId(), p[0]),
              OpVolume(Volume(Control.Level(p[1]), Control.Level(p[2]), Some(Has(p[3], 1)), Some(Has(p[3], 2)))));
      }
    }

    method HandleBayStatus(f: RawFrame)
      requires Valid() && f.Valid()
      modifies this, objects, queue
      ensures Valid() && fresh(objects - old(objects)) && View() == Registry.HandleBayStatus(old(View()), f)
      ensures Announced(old(View()), View(), old(queue.pending), queue.pending)
    {
      hide Announced;
      hide Valid;
      hide Models;
      hide StatusOps;
      AnnouncedNothing(View(), queue.pending);
      var id := Find(f.RemoteId(), f.U16At(0));
      if id.Some? {
        Known(f.RemoteId());
        OnBayAll(id.value, StatusOps(f, IsV2ipDevice(f.RemoteId())));
      }
    }

    method HandleSignalReport(f: RawFrame, text: bytes)
      requires Valid() && f.Valid()
      modifies this, objects, queue
      ensures Valid() && fresh(objects - old(objects))
      ensures View() == Registry.HandleSignalReport(old(View()), f, Choice(None, None, text))
      ensures Announced(old(View()), View(), old(queue.pending), queue.pending)
    {
      hide Announced;
      hide Valid;
      hide Models;
      hide Has;
      AnnouncedNothing(View(), queue.pending);
      var p := f.Payload();
      if |p| >= 112 {
        OnBayAll(BayId(f.RemoteId(), U16(p, 100)), [OpFlag(Signal, Has(p[2], 2)), OpSignalType(text)]);
      }
    }

    method HandleSources(f: RawFrame)
      requires Valid() && f.Valid()
      modifies this, objects, queue
      ensures Valid() && fresh(objects - old(objects)) && View() == Registry.HandleSources(old(View()), f)
      ensures Announced(old(View()), View(), old(queue.pending), queue.pending)
    {
      hide Announced;
      hide Valid;
      hide Models;
      hide DecodeSources;
      Known(f.RemoteId());
      AnnouncedNothing(View(), queue.pending);
      if f.RemoteId() in devices {
        Change(f.RemoteId(), Advertise(DecodeSources(f.Payload())));
      }
    }

    method HandleDeviceConfig(f: RawFrame)
      requires Valid() && f.Valid()
      modifies this, objects, queue
      ensures Valid() && fresh(objects - old(objects)) && View() == Registry.HandleDeviceConfig(old(View()), f)
      ensures Announced(old(View()), View(), old(queue.pending), queue.pending)
    {
      hide Announced;
      hide Valid;
      hide Models;
      hide TakeDeviceConfig;
      Known(f.RemoteId());
      AnnouncedNothing(View(), queue.pending);
      if f.RemoteId() in devices {
        Change(f.RemoteId(), Configuring(f.Payload()));
      }
    }

    method HandleBayHide(f: RawFrame)
      requires Valid() && f.Valid()
      modifies this, objects, queue
      ensures Valid() && fresh(objects - old(objects)) && View() == Registry.HandleBayHide(old(View()), f)
      ensures Announced(old(View()), View(), old(queue.pending), queue.pending)
    {
      hide Announced;
      hide Valid;
      hide Models;
      AnnouncedNothing(View(), queue.pending);
      var port := f.U16At(16);
      if port.Some? {
        OnBay(BayId(f.UidOrZero(0), port.value), OpFlag(Hidden, f.BoolAt(18)));
      }
    }

    method HandleAmpZone(f: RawFrame)
      requires Valid() && f.Valid()
      modifies this, objects, queue
      ensures Valid() && fresh(objects - old(objects)) && View() == Registry.HandleAmpZone(old(View()), f)
      ensures Announced(old(View()), View(), old(queue.pending), queue.pending)
    {
      hide Announced;
      hide Valid;
      hide Models;
      hide ParseAmpZone;
      var u := if Empty(f.UidOrZero(0)) then f.RemoteId() else f.UidOrZero(0);
      AnnouncedNothing(View(), queue.pending);
      var p := f.Payload();
      if |p| >= AMP_ZONE_SIZE {
        OnBay(BayId(u, U16(p, 16)), OpAmp(ParseAmpZone(p)));
      }
    }

    method HandleTiling(f: RawFrame)
      requires Valid() && f.Valid()
      modifies this, objects, queue
      ensures Valid() && fresh(objects - old(objects)) && View() == Registry.HandleTiling(old(View()), f)
      ensures Announced(old(View()), View(), old(queue.pending), queue.pending)
    {
      hide Announced;
      hide Valid;
      hide Models;
      hide TilingAt;
      var t := DecodeTiling(f.Payload());
      Known(f.RemoteId());
      AnnouncedNothing(View(), queue.pending);
      if f.RemoteId() in devices && t.Some? {
        Known(t.value.target);
        if t.value.target in devices {
          TilingTarget(f.Payload());
          Change(t.value.target, Tile(t.value));
        }
      }
    }

    method HandleMirror(f: RawFrame)
      requires Valid() && f.Valid()
      modifies this, objects, queue
      ensures Valid() && fresh(objects - old(objects)) && View() == Registry.HandleMirror(old(View()), f)
      ensures Announced(old(View()), View(), old(queue.pending), queue.pending)
    {
      hide Announced;
      hide Valid;
      hide Models;
      hide Sink;
      AnnouncedNothing(View(), queue.pending);
      SinkIsOf(f.RemoteId());
      var target, master := f.UidOrZero(0), f.UidOrZero(16);
      if f.RemoteId() != target {
        return;
      }
      var sink := SinkOf(f.RemoteId());
      if sink.Some? {
        OnBay(sink.value, OpMirror(if Empty(master) || master == target then None else Some(BayId(master, 0))));
      }
    }

    method HandleFilter(f: RawFrame)
      requires Valid() && f.Valid()
      modifies this, objects, queue
      ensures Valid() && fresh(objects - old(objects)) && View() == Registry.HandleFilter(old(View()), f)
      ensures Announced(old(View()), View(), old(queue.pending), queue.pending)
    {
      hide Announced;
      hide Valid;
      hide Models;
      hide Sink;
      AnnouncedNothing(View(), queue.pending);
      SinkIsOf(f.RemoteId());
      var uids := DecodeFilter(f.Payload());
      var sink := SinkOf(f.RemoteId());
      if uids.Some? && sink.Some? {
        OnBay(sink.value, OpFilter(uids.value));
      }
    }

    lemma SinkIsOf(u: uid)
      requires Valid()
      ensures Sink(View(), u).Some? ==> Sink(View(), u).value.device == u
    {
    }

    method HandleSourceSwitch(f: RawFrame, ghost text: bytes) returns (ghost choice: Choice)
      requires Valid() && f.Valid()
      modifies this, objects, queue
      ensures Valid() && fresh(objects - old(objects)) && View() == Registry.HandleSourceSwitch(old(View()), f, choice)
      ensures Announced(old(View()), View(), old(queue.pending), queue.pending)
      ensures choice.text == text
      ensures |f.Payload()| >= 24 ==>
                Resolves(old(View()), f.Payload()[16..20], false, choice.video)
                && Resolves(old(View()), f.Payload()[20..24], true, choice.audio)
    {
      hide Announced;
      hide Valid;
      hide Models;
      hide Sink;
      hide Resolves;
      choice := Choice(None, None, text);
      AnnouncedNothing(View(), queue.pending);
      SinkIsOf(f.UidOrZero(0));
      var p := f.Payload();
      if |p| < 24 {
        return;
      }
      var video := ByStreamIp(p[16..20], false);
      var audio := ByStreamIp(p[20..24], true);
      choice := Choice(video, audio, text);
      var sink := SinkOf(f.UidOrZero(0));
      if sink.Some? {
        OnBay(sink.value, OpSelect(video, audio));
      }
    }

    method SwitchTo(u: uid, route: SinkRoute, video: Option<BayId>, audio: Option<BayId>, ghost choice: Choice)
      requires Valid() && u in View().devices && choice.video == video && choice.audio == audio
      modifies this, objects, queue
      ensures Valid() && fresh(objects - old(objects)) && View() == Registry.SwitchTo(old(View()), u, route, choice)
      ensures Announced(old(View()), View(), old(queue.pending), queue.pending)
    {
      hide Announced;
      hide Valid;
      hide Models;
      hide Sink;
      ghost var r := View();
      AnnouncedNothing(r, queue.pending);
      SinkIsOf(u);
      Known(u);
      var sink := SinkOf(u);
      if sink.Some? {
        OnBay(sink.value, OpSelect(video, audio));
        OnBayPrefix(r, sink.value, [OpSelect(video, audio)]);
      }
      ghost var s, before := View(), queue.pending;
      Known(u);
      Change(u, Subscribe(route));
      AnnouncedJoin(r, s, View(), old(queue.pending), before, queue.pending);
    }

    method HandleManualSwitch(f: RawFrame, ghost text: bytes) returns (ghost choice: Choice)
      requires Valid() && f.Valid()
      modifies this, objects, queue
      ensures Valid() && fresh(objects - old(objects)) && View() == Registry.HandleManualSwitch(old(View()), f, choice)
      ensures Announced(old(View()), View(), old(queue.pending), queue.pending)
      ensures choice.text == text
      ensures |f.Payload()| >= 38 ==>
                Resolves(old(View()), f.Payload()[16..20], false, choice.video)
                && Resolves(old(View()), f.Payload()[24..28], true, choice.audio)
    {
      hide Announced;
      hide Valid;
      hide Models;
      hide Sink;
      hide Resolves;
      hide ParseStream;
      hide ParseFormat;
      hide Registry.SwitchTo;
      choice := Choice(None, None, text);
      AnnouncedNothing(View(), queue.pending);
      Known(f.UidOrZero(0));
      var p := f.Payload();
      if |p| < 38 {
        return;
      }
      var video := ByStreamIp(p[16..20], false);
      var audio := ByStreamIp(p[24..28], true);
      choice := Choice(video, audio, text);
      if f.UidOrZero(0) in devices {
        var route := SinkRoute(ParseStream(p, 16), ParseStream(p, 24), ParseStream(p, 32),
                               if |p| >= 48 then Some(ParseFormat(p, 40)) else None);
        SwitchTo(f.UidOrZero(0), route, video, audio, choice);
      }
    }

    // ---- links and mappings ----

    method UpdateLink(key: BayId, nl: Link)
      modifies this`links, this`linkLog
      ensures Book(links, linkLog) == Book(old(links), old(linkLog)).Update(key, nl)
    {
      if key in links {
        var previous := links[key];
        if previous.serial == nl.serial && previous.features == nl.features {
          return;
        }
        if previous.Configured() {
          linkLog := linkLog + [Unlinked(key, nl.origin, previous.serial)];
        }
      }
      links := links[key := nl];
      if nl.Configured() {
        linkLog := linkLog + [Linked(key, nl.origin, nl.serial)];
      }
    }

    method LinkKey(u: uid, port: nat) returns (key: BayId)
      requires Valid() && HasBay(BayId(u, port))
      ensures key == Models()[u].KeyOf(Models()[u].bays[port])
    {
      hide DeviceModel.Device.KeyOf;
      assert Owns(u);
      var d := devices[u];
      key := d.KeyOf(port);
    }

    /** One link descriptor; that of an unknown port is skipped. */
    method TakeLinkRecord(u: uid, rec: bytes)
      requires Valid() && u in devices && |rec| == LINK_SIZE
      modifies this`links, this`linkLog
      ensures Valid() && Models() == old(Models())
      ensures Book(links, linkLog) == TakeLink(Book(old(links), old(linkLog)), Models()[u], rec)
    {
      hide Owns;
      hide Models;
      hide TakeLink;
      hide DeviceModel.Device.KeyOf;
      Known(u);
      LinkTaken(Book(links, linkLog), View().devices[u], rec);
      var port: nat := rec[0];
      var serial := DecodeCStr(rec[2..18]);
      var bay := DecodeCStr(rec[18..34]);
      if HasBay(BayId(u, port)) {
        var key := LinkKey(u, port);
        UpdateLink(key, Link(BayId(u, port), serial, bay, U32(rec, 34)));
      }
    }

    /** One page of link descriptors. */
    method TakeLinkPage(u: uid, p: bytes)
      requires Valid() && u in devices
      modifies this`links, this`linkLog
      ensures Valid() && Models() == old(Models())
      ensures Book(links, linkLog) == TakeLinks(Book(old(links), old(linkLog)), Models()[u], Records(p, LINK_SIZE))
    {
      hide Owns;
      hide Models;
      hide TakeLinks;
      hide TakeLink;
      hide Records;
      hide WholeRecords;
      Known(u);
      ghost var b, d := Book(links, linkLog), View().devices[u];
      NoLinks(b, d, p);
      var off := 0;
      while off + LINK_SIZE <= |p|
        invariant off <= |p| && WholeRecords(p[..off], LINK_SIZE)
        invariant Valid() && Models() == old(Models())
        invariant Book(links, linkLog) == TakeLinks(b, d, Records(p[..off], LINK_SIZE))
      {
        var rec := p[off..off + LINK_SIZE];
        LinkStep(b, d, p[..off], rec);
        assert p[..off] + rec == p[..off + LINK_SIZE];
        TakeLinkRecord(u, rec);
        off := off + LINK_SIZE;
      }
      RecordsAppend(p[..off], p[off..], LINK_SIZE);
      assert p[..off] + p[off..] == p;
    }

    method HandleLinks(f: RawFrame)
      requires Valid() && f.Valid()
      modifies this, objects, queue
      ensures Valid() && fresh(objects - old(objects)) && View() == Registry.HandleLinks(old(View()), f)
      ensures Announced(old(View()), View(), old(queue.pending), queue.pending)
    {
      hide Announced;
      hide Valid;
      hide Models;
      hide TakeLinks;
      Known(f.RemoteId());
      AnnouncedNothing(View(), queue.pending);
      if f.RemoteId() in devices {
        ghost var r := View();
        TakeLinkPage(f.RemoteId(), f.Payload());
        ghost var s := View();
        AnnouncedQuietly(r, s, queue.pending);
        Change(f.RemoteId(), Work.LinksDone);
        AnnouncedJoin(r, s, View(), old(queue.pending), old(queue.pending), queue.pending);
      }
    }

    method PortOf(u: uid, input: bool, number: nat) returns (port: Option<nat>)
      requires Valid() && u in devices
      ensures port == Models()[u].ByMode(input, number)
    {
      hide DeviceModel.Device.ByMode;
      assert Owns(u);
      var d := devices[u];
      port := d.ByMode(input, number);
    }

    /** The mapped uids go to the bays of one mode, numbered from first on; the list
        ends where the frame does. */
    method TakeMappings(u: uid, f: RawFrame, input: bool, first: nat, n: nat)
      requires Valid() && u in devices
      modifies this`objects, objects, queue
      ensures Valid() && fresh(objects - old(objects))
      ensures View() == old(View()).With(Registry.TakeMappings(old(View()).devices[u], f, input, first, n))
      ensures Announced(old(View()), View(), old(queue.pending), queue.pending)
    {
      hide Announced;
      hide Valid;
      hide Models;
      hide RawFrame.UidAt;
      hide DeviceModel.Device.ByMode;
      hide DeviceModel.Device.OnBay;
      ghost var r, q := View(), queue.pending;
      Known(u);
      AnnouncedNothing(View(), queue.pending);
      Same(r, u);
      var i := 0;
      while i < n
        invariant i <= n && Valid() && fresh(objects - old(objects))
        invariant View() == r.With(Registry.TakeMappings(r.devices[u], f, input, first, i))
        invariant Announced(r, View(), q, queue.pending)
      {
        ghost var s, before := View(), queue.pending;
        MappingStep(r, u, f, input, first, i);
        Known(u);
        var mapped := f.UidAt(8 + 16 * i);
        if mapped.None? {
          MappingsPastEnd(r.devices[u], f, input, first, i, n);
          return;
        }
        ghost var e := Registry.TakeMappings(r.devices[u], f, input, first, i);
        assert s.devices[u] == e;
        var port := PortOf(u, input, first + i);
        assert port == e.ByMode(input, first + i);
        if port.Some? {
          Change(u, AtBay(port.value, OpV2ipUid(mapped.value)));
          assert View() == s.With(e.OnBay(port.value, OpV2ipUid(mapped.value)));
          AnnouncedJoin(r, s, View(), q, before, queue.pending);
        }
        i := i + 1;
      }
    }

    method HandleBayMapping(f: RawFrame)
      requires Valid() && f.Valid()
      modifies this, objects, queue
      ensures Valid() && fresh(objects - old(objects)) && View() == Registry.HandleBayMapping(old(View()), f)
      ensures Announced(old(View()), View(), old(queue.pending), queue.pending)
    {
      hide Announced;
      hide Valid;
      hide Models;
      hide Registry.TakeMappings;
      Known(f.RemoteId());
      AnnouncedNothing(View(), queue.pending);
      var head, first := f.U16At(0), f.U16At(2);
      if f.RemoteId() in devices && head.Some? && first.Some? {
        TakeMappings(f.RemoteId(), f, head.value % 2 == 1, first.value, head.value / 2);
      }
    }

    // ---- frames and ticks ----

    /** One frame of a device other than this client, by its opcode. text is how a signal
        report's video mode is described. */
    method Handle(f: RawFrame, now: int, text: bytes) returns (ghost choice: Choice)
      requires Valid() && f.Valid()
      modifies this, objects, queue
      ensures Valid() && fresh(objects - old(objects))
      ensures View() == Registry.Handle(old(View()), f, now, choice) && MayChoose(old(View()), f, choice)
      ensures choice.text == text
      ensures Announced(old(View()), View(), old(queue.pending), queue.pending)
    {
      hide Valid;
      hide Models;
      hide Announced;
      hide Resolves;
      choice := Choice(None, None, text);
      var op := f.Opcode();
      if op == OP_SYS_HELLO {
        HandleHello(f, now);
      } else if op == OP_SYS_BAY_CONFIG || op == OP_SYS_BAY_CONFIG_SECONDARY {
        HandleBayConfig(f, now);
      } else if op == OP_SYS_LINKS {
        HandleLinks(f);
      } else if op == OP_DEV_CONNECT {
        HandleConnect(f);
      } else if op == OP_DEV_POWER_CHANGE {
        HandlePower(f);
      } else if op == OP_MX_ROUTE {
        HandleRouting(f);
      } else if op == OP_AUDIO_SET_VOLUME {
        HandleVolumeSet(f);
      } else if op == OP_AUDIO_VOLUME_MUTE {
        HandleVolumeMute(f);
      } else if op == OP_SYS_BAY_V2IP_SOURCES {
        HandleSources(f);
      } else if op == OP_V2IP_SOURCE_SWITCH {
        choice := HandleSourceSwitch(f, text);
      } else if op == OP_V2IP_MANUAL_SRC_SWITCH {
        choice := HandleManualSwitch(f, text);
      } else {
        HandleMore(f, now, text);
      }
    }

    /** The frames that look nothing up beyond the devices they name. */
    method HandleMore(f: RawFrame, now: int, text: bytes)
      requires Valid() && f.Valid()
      requires f.Opcode() !in {OP_SYS_HELLO, OP_SYS_BAY_CONFIG, OP_SYS_BAY_CONFIG_SECONDARY, OP_SYS_LINKS, OP_DEV_CONNECT,
                               OP_DEV_POWER_CHANGE, OP_MX_ROUTE, OP_AUDIO_SET_VOLUME, OP_AUDIO_VOLUME_MUTE,
                               OP_SYS_BAY_V2IP_SOURCES, OP_V2IP_SOURCE_SWITCH, OP_V2IP_MANUAL_SRC_SWITCH}
      modifies this, objects, queue
      ensures Valid() && fresh(objects - old(objects))
      ensures View() == Registry.Handle(old(View()), f, now, Choice(None, None, text))
      ensures Announced(old(View()), View(), old(queue.pending), queue.pending)
    {
      hide Valid;
      hide Models;
      hide Announced;
      AnnouncedNothing(View(), queue.pending);
      var op := f.Opcode();
      if op == OP_V2IP_DEVICE_CFG {
        HandleDeviceConfig(f);
      } else if op == OP_BAY_HIDE {
        HandleBayHide(f);
      } else if op == OP_BAY_STATUS {
        HandleBayStatus(f);
      } else if op == OP_BAY_MIRROR_STATUS {
        HandleMirror(f);
      } else if op == OP_V2IP_BAY_MAPPINGS {
        HandleBayMapping(f);
      } else if op == OP_AMP_ZONE_SETTINGS {
        HandleAmpZone(f);
      } else if op == OP_BAY_FILTER_STATUS {
        HandleFilter(f);
      } else if op == OP_BAY_SIGNAL_STATUS {
        HandleSignalReport(f, text);
      } else if op == OP_V2IP_TILING {
        HandleTiling(f);
      }
    }

    /** A datagram, from the lock being taken to its release: what the callbacks to fire
        are is what was queued meanwhile. */
    method ProcessFrame(data: bytes, ts: int, now: int, text: bytes) returns (batch: seq<Queued>, ghost choice: Choice)
      requires Valid() && queue.pending == []
      modifies this, objects, queue
      ensures Valid() && fresh(objects - old(objects)) && queue.pending == []
      ensures View() == Process(old(View()), data, ts, now, choice) && Announced(old(View()), View(), [], batch)
      ensures Enabled(old(View()), Datagram(data, ts, now, choice)) && choice.text == text
      ensures !Locks(me, data) ==> batch == []
    {
      hide Valid;
      hide Models;
      hide Announced;
      hide Registry.Handle;
      hide MayChoose;
      batch, choice := [], Choice(None, None, text);
      ghost var r := View();
      AnnouncedNothing(r, []);
      var f := Parse(data);
      if f.None? {
        return;
      }
      if f.value.RemoteId() == me {
        AnyChoice(View(), f.value, text);
        choice :| MayChoose(View(), f.value, choice) && choice.text == text;
        return;
      }
      choice := Handle(f.value, now, text);
      ghost var s, before := View(), queue.pending;
      Known(f.value.RemoteId());
      if f.value.RemoteId() in devices {
        Change(f.value.RemoteId(), Touching(ts, now));
        AnnouncedJoin(r, s, View(), [], before, queue.pending);
      }
      QueueApart();
      batch := queue.Take();
    }

    lemma QueueApart()
      requires Valid()
      ensures queue !in objects
    {
    }

    /** What a control call stores of a bay once its frame is out, and what is fired for
        it. */
    method RunLocked(id: BayId, op: Op) returns (batch: seq<Queued>)
      requires Valid() && queue.pending == [] && !op.OpSelect?
      modifies this, objects, queue
      ensures Valid() && fresh(objects - old(objects)) && queue.pending == []
      ensures View() == old(View()).OnBay(id, [op])
      ensures Announced(old(View()), View(), [], batch)
    {
      hide Valid;
      hide Models;
      hide Announced;
      OnBay(id, op);
      QueueApart();
      batch := queue.Take();
    }

    method IsComplete(u: uid) returns (complete: bool)
      requires Valid() && u in devices
      ensures complete == Models()[u].Complete()
    {
      hide DeviceModel.Device.Complete;
      assert Owns(u);
      var d := devices[u];
      complete := d.ConfigurationComplete();
    }

    method AnyComplete() returns (any: bool)
      requires Valid()
      ensures any <==> exists u :: u in Models() && Models()[u].Complete()
    {
      hide Valid;
      hide DeviceModel.Device.Complete;
      any := false;
      var rest := devices.Keys;
      while rest != {}
        invariant rest <= devices.Keys
        invariant any ==> exists u :: u in Models() && Models()[u].Complete()
        invariant !any ==> forall u :: u in devices && u !in rest ==> !Models()[u].Complete()
        decreases |rest|
      {
        var u :| u in rest;
        var complete := IsComplete(u);
        any := any || complete;
        rest := rest - {u};
      }
    }

    method ProbeDevice(u: uid, clock: map<uid, int>, ghost r: Reg, ghost some: set<uid>)
      requires Valid() && r.devices.Keys <= clock.Keys && View() == PartlyProbed(r, some, clock)
      requires u in r.devices && u !in some && r.devices[u].uid == u
      modifies this`objects, objects, queue
      ensures Valid() && fresh(objects - old(objects)) && View() == PartlyProbed(r, some + {u}, clock)
      ensures Announced(old(View()), View(), old(queue.pending), queue.pending)
    {
      hide Valid;
      hide Models;
      hide Announced;
      hide PartlyProbed;
      hide DeviceModel.Device.CheckOnline;
      ProbedOne(r, some, clock, u);
      Known(u);
      Change(u, Probing(clock[u]));
    }

    lemma AllKeyed()
      requires Valid()
      ensures View().devices.Keys == devices.Keys
      ensures forall u :: u in devices ==> View().devices[u].uid == u
    {
      forall u | u in devices
        ensures View().devices[u].uid == u
      {
        Keyed(u);
      }
    }

    /** Every device is checked, in any order, at the clock's reading for it. */
    method ProbeAll(clock: map<uid, int>)
      requires Valid() && devices.Keys <= clock.Keys
      modifies this`objects, objects, queue
      ensures Valid() && fresh(objects - old(objects))
      ensures View() == PartlyProbed(old(View()), old(View()).devices.Keys, clock)
      ensures Announced(old(View()), View(), old(queue.pending), queue.pending)
    {
      hide Valid;
      hide Models;
      hide PartlyProbed;
      hide Announced;
      hide Owns;
      ghost var r, q := View(), queue.pending;
      AllKeyed();
      AnnouncedNothing(r, q);
      NoneProbed(r, clock);
      var rest := devices.Keys;
      while rest != {}
        invariant Valid() && fresh(objects - old(objects)) && rest <= r.devices.Keys
        invariant View() == PartlyProbed(r, r.devices.Keys - rest, clock)
        invariant Announced(r, View(), q, queue.pending)
        decreases |rest|
      {
        var u :| u in rest;
        ghost var s, before, some := View(), queue.pending, r.devices.Keys - rest;
        ProbeDevice(u, clock, r, some);
        AnnouncedJoin(r, s, View(), q, before, queue.pending);
        assert r.devices.Keys - (rest - {u}) == some + {u};
        rest := rest - {u};
      }
      assert r.devices.Keys - {} == r.devices.Keys;
    }

    /** A tick of the probe: the devices are checked once some device is configured. */
    method ProbeTick(clock: map<uid, int>) returns (batch: seq<Queued>)
      requires Valid() && queue.pending == [] && devices.Keys <= clock.Keys
      modifies this, objects, queue
      ensures Valid() && fresh(objects - old(objects)) && queue.pending == []
      ensures View() == Probe(old(View()), clock) && Announced(old(View()), View(), [], batch)
    {
      hide Valid;
      hide Models;
      hide PartlyProbed;
      hide Announced;
      hide Owns;
      hide DeviceModel.Device.Complete;
      AllKeyed();
      AnnouncedNothing(View(), []);
      var any := AnyComplete();
      if any {
        ProbeAll(clock);
      }
      QueueApart();
      batch := queue.Take();
    }

    /** The receive loop over the datagrams that arrive. The objects stay in step with a
        run of the registry that takes exactly those datagrams in order, so everything that
        holds of every run holds of them, and the callbacks fired are all there was to
        notify, each once and in each device's order. */
    method ReceiveLoop(arrivals: seq<Arrival>, ghost before: seq<Step>) returns (fired: seq<Queued>, ghost steps: seq<Step>)
      requires Valid() && queue.pending == [] && Run(me, before) == Some(View())
      modifies this, objects, queue
      ensures Valid() && fresh(objects - old(objects)) && queue.pending == []
      ensures before <= steps && |steps| == |before| + |arrivals| && Run(me, steps) == Some(View())
      ensures forall i :: 0 <= i < |arrivals| ==> Takes(steps[|before| + i], arrivals[i])
      ensures WellFormed(View()) && Announced(old(View()), View(), [], fired)
    {
      hide Valid;
      hide View;
      hide Next;
      hide Enabled;
      hide Announced;
      fired, steps := [], before;
      AnnouncedNothing(View(), []);
      for i := 0 to |arrivals|
        invariant Valid() && fresh(objects - old(objects)) && queue.pending == []
        invariant before <= steps && |steps| == |before| + i && Run(me, steps) == Some(View())
        invariant forall j :: 0 <= j < i ==> Takes(steps[|before| + j], arrivals[j])
        invariant Announced(old(View()), View(), [], fired)
      {
        ghost var r := View();
        var a := arrivals[i];
        ghost var choice;
        var batch;
        batch, choice := ProcessFrame(a.data, a.ts, a.now, a.text);
        ghost var step := Datagram(a.data, a.ts, a.now, choice);
        RunNext(me, steps, r, step);
        NextIsProcess(r, step);
        BatchesJoin(old(View()), r, View(), fired, batch);
        steps, fired := steps + [step], fired + batch;
      }
      RegistryStaysWellFormed(me, steps);
    }
  }

  /** Whether a datagram is handled at all: a frame, and not this client's own. */
  predicate Locks(me: uid, data: bytes) { Parse(data).Some? && Parse(data).value.RemoteId() != me }

  /** A step that takes the datagram that arrived. */
  ghost predicate Takes(step: Step, a: Arrival) {
    && step.Datagram? && step.data == a.data && step.ts == a.ts && step.now == a.now
    && step.choice.text == a.text
  }

  /** A datagram, when it arrived, the clock as it is handled, and how the video mode of a
      signal report is described. */
  datatype Arrival = Arrival(data: bytes, ts: int, now: int, text: bytes)

  lemma NextIsProcess(r: Reg, step: Step)
    requires Enabled(r, step) && step.Datagram?
    ensures Next(r, step) == Process(r, step.data, step.ts, step.now, step.choice)
  {
  }

  lemma NoneProbed(r: Reg, clock: map<uid, int>)
    requires r.devices.Keys <= clock.Keys
    ensures PartlyProbed(r, r.devices.Keys - r.devices.Keys, clock) == r
  {
    assert PartlyProbed(r, r.devices.Keys - r.devices.Keys, clock).devices == r.devices;
  }

  lemma ProbedOne(r: Reg, some: set<uid>, clock: map<uid, int>, u: uid)
    requires r.devices.Keys <= clock.Keys && u in r.devices && u !in some && r.devices[u].uid == u
    ensures u in PartlyProbed(r, some, clock).devices && PartlyProbed(r, some, clock).devices[u] == r.devices[u]
    ensures PartlyProbed(r, some, clock).With(r.devices[u].CheckOnline(clock[u])) == PartlyProbed(r, some + {u}, clock)
  {
    hide DeviceModel.Device.CheckOnline;
    assert r.devices[u].CheckOnline(clock[u]).uid == u by { CheckOnlineUid(r.devices[u], clock[u]); }
    assert PartlyProbed(r, some, clock).devices[u := r.devices[u].CheckOnline(clock[u])]
        == PartlyProbed(r, some + {u}, clock).devices;
  }

  lemma CheckOnlineUid(d: DeviceModel.Device, now: int)
    ensures d.CheckOnline(now).uid == d.uid
  {
  }

  /** The lookups of a frame always have something they may find. */
  lemma AnyChoice(r: Reg, f: RawFrame, text: bytes)
    requires f.Valid()
    ensures exists choice :: MayChoose(r, f, choice) && choice.text == text
  {
    var p := f.Payload();
    if |p| >= 28 {
      AnyResolves(r, p[16..20], false);
      AnyResolves(r, p[20..24], true);
      AnyResolves(r, p[24..28], true);
    } else if |p| >= 24 {
      AnyResolves(r, p[16..20], false);
      AnyResolves(r, p[20..24], true);
    }
    if f.Opcode() == OP_V2IP_SOURCE_SWITCH && |p| >= 24 {
      var video :| Resolves(r, p[16..20], false, video);
      var audio :| Resolves(r, p[20..24], true, audio);
      assert MayChoose(r, f, Choice(video, audio, text));
    } else if f.Opcode() == OP_V2IP_MANUAL_SRC_SWITCH && |p| >= 38 {
      var video :| Resolves(r, p[16..20], false, video);
      var audio :| Resolves(r, p[24..28], true, audio);
      assert MayChoose(r, f, Choice(video, audio, text));
    } else {
      assert MayChoose(r, f, Choice(None, None, text));
    }
  }

  lemma AnyResolves(r: Reg, ip: bytes, audio: bool)
    ensures exists found :: Resolves(r, ip, audio, found)
  {
    if id :| StreamMatch(r, ip, audio, id) {
      assert Resolves(r, ip, audio, Some(id));
    } else {
      assert Resolves(r, ip, audio, None);
    }
  }

  lemma NoLinks(b: Book, d: DeviceModel.Device, p: bytes)
    ensures p[..0] == [] && WholeRecords([], LINK_SIZE) && TakeLinks(b, d, Records([], LINK_SIZE)) == b
  {
  }

  lemma LinkStep(b: Book, d: DeviceModel.Device, p: bytes, rec: bytes)
    requires WholeRecords(p, LINK_SIZE) && |rec| == LINK_SIZE
    ensures WholeRecords(p + rec, LINK_SIZE)
    ensures TakeLinks(b, d, Records(p + rec, LINK_SIZE)) == TakeLink(TakeLinks(b, d, Records(p, LINK_SIZE)), d, rec)
  {
    hide TakeLink;
    WholeAppend(p, rec, LINK_SIZE);
    RecordsAppend(p, rec, LINK_SIZE);
    var recs := Records(p, LINK_SIZE);
    assert (recs + [rec])[..|recs|] == recs;
  }

  lemma LinkTaken(b: Book, d: DeviceModel.Device, rec: bytes)
    requires |rec| == LINK_SIZE
    ensures var port: nat := rec[0];
            TakeLink(b, d, rec)
            == if port !in d.bays then b
               else b.Update(d.KeyOf(d.bays[port]), Link(BayId(d.uid, port), CStr(rec[2..18]), CStr(rec[18..34]), U32(rec, 34)))
  {
    hide DeviceModel.Device.KeyOf;
    hide Book.Update;
  }

  lemma Same(r: Reg, u: uid)
    requires u in r.devices && r.devices[u].uid == u
    ensures r.With(r.devices[u]) == r
  {
    assert r.devices[u := r.devices[u]] == r.devices;
  }

  /** One more mapping is one more operation on a bay, or nothing. */
  lemma MappingStep(r: Reg, u: uid, f: RawFrame, input: bool, first: nat, i: nat)
    requires u in r.devices && r.devices[u].uid == u
    ensures var e := Registry.TakeMappings(r.devices[u], f, input, first, i);
            var g := Registry.TakeMappings(r.devices[u], f, input, first, i + 1);
            var mapped, port := f.UidAt(8 + 16 * i), e.ByMode(input, first + i);
            && e.uid == u && r.devices[u].notices <= e.notices <= g.notices
            && (port.Some? ==> port.value in e.bays)
            && g == (if mapped.None? || port.None? then e else e.OnBay(port.value, OpV2ipUid(mapped.value)))
            && r.With(e).With(g) == r.With(g)
  {
    hide DeviceModel.Device.ByMode;
    hide RawFrame.UidAt;
    hide DeviceModel.Device.OnBay;
    var e := Registry.TakeMappings(r.devices[u], f, input, first, i);
    var g := Registry.TakeMappings(r.devices[u], f, input, first, i + 1);
    ByModeKnown(e, input, first + i);
    MappingsFrame(r.devices[u], f, input, first, i);
    MappingsFrame(r.devices[u], f, input, first, i + 1);
    Overwritten(r.devices, u, e, g);
  }

  lemma MapBayFrame(d: DeviceModel.Device, port: nat, u: uid)
    requires port in d.bays
    ensures d.OnBay(port, OpV2ipUid(u)).uid == d.uid && d.notices <= d.OnBay(port, OpV2ipUid(u)).notices
  {
  }

  lemma {:induction false} MappingsFrame(d: DeviceModel.Device, f: RawFrame, input: bool, first: nat, n: nat)
    ensures var e := Registry.TakeMappings(d, f, input, first, n); e.uid == d.uid && d.notices <= e.notices
    ensures n > 0 ==>
              Registry.TakeMappings(d, f, input, first, n - 1).notices <= Registry.TakeMappings(d, f, input, first, n).notices
  {
    hide DeviceModel.Device.ByMode;
    hide RawFrame.UidAt;
    hide DeviceModel.Device.OnBay;
    if n > 0 {
      MappingsFrame(d, f, input, first, n - 1);
      var e := Registry.TakeMappings(d, f, input, first, n - 1);
      ByModeKnown(e, input, first + n - 1);
      var mapped, port := f.UidAt(8 + 16 * (n - 1)), e.ByMode(input, first + n - 1);
      if mapped.Some? && port.Some? {
        MapBayFrame(e, port.value, mapped.value);
      }
    }
  }

  lemma {:induction false} MappingsPastEnd(d: DeviceModel.Device, f: RawFrame, input: bool, first: nat, i: nat, n: nat)
    requires i <= n && f.UidAt(8 + 16 * i).None?
    ensures Registry.TakeMappings(d, f, input, first, n) == Registry.TakeMappings(d, f, input, first, i)
  {
    hide DeviceModel.Device.ByMode;
    hide DeviceModel.Device.OnBay;
    if i < n {
      MappingsPastEnd(d, f, input, first, i, n - 1);
      assert f.UidAt(8 + 16 * (n - 1)).None?;
    }
  }

  lemma TilingTarget(p: bytes)
    ensures DecodeTiling(p).Some? ==> DecodeTiling(p).value.target == p[..16]
  {
  }

  lemma OnBayPrefix(r: Reg, id: BayId, ops: seq<Op>)
    requires id.device in r.devices ==> r.devices[id.device].uid == id.device
    ensures Notices(r, id.device) <= Notices(r.OnBay(id, ops), id.device)
    ensures r.devices.Keys == r.OnBay(id, ops).devices.Keys
  {
    hide OnBays;
    if r.Knows(id) {
      OnBaysSnoc(r.devices[id.device], id.port, ops, OpPower(PowerOn));
    }
  }

  lemma OnBayNone(r: Reg, id: BayId)
    requires id.device in r.devices ==> r.devices[id.device].uid == id.device
    ensures r.OnBay(id, []) == r && forall ops: seq<Op> :: ops[..0] == []
  {
    if r.Knows(id) {
      assert r.devices[id.device := r.devices[id.device]] == r.devices;
    }
  }

  lemma {:induction false} OnBaysSnoc(d: DeviceModel.Device, port: nat, ops: seq<Op>, op: Op)
    requires port in d.bays
    ensures var e := OnBays(d, port, ops);
            && port in e.bays && e.uid == d.uid && d.notices <= e.notices
            && OnBays(d, port, ops + [op]) == OnBays(e, port, [op])
    decreases |ops|
  {
    hide Apply;
    if ops == [] {
      assert ops + [op] == [op];
    } else {
      OnBaysSnoc(d.OnBay(port, ops[0]), port, ops[1..], op);
      assert (ops + [op])[1..] == ops[1..] + [op];
    }
  }

  lemma OnBaySnoc(r: Reg, id: BayId, ops: seq<Op>, op: Op)
    requires id.device in r.devices ==> r.devices[id.device].uid == id.device
    ensures var s := r.OnBay(id, ops);
            && s.OnBay(id, [op]) == r.OnBay(id, ops + [op])
            && Notices(r, id.device) <= Notices(s, id.device) <= Notices(s.OnBay(id, [op]), id.device)
  {
    hide OnBays;
    if r.Knows(id) {
      var d := r.devices[id.device];
      OnBaysSnoc(d, id.port, ops, op);
      OnBaysSnoc(OnBays(d, id.port, ops), id.port, [op], op);
      Overwritten(r.devices, id.device, OnBays(d, id.port, ops), OnBays(d, id.port, ops + [op]));
    }
  }
}