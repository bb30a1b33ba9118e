/** The device registry: what every received datagram, every tick of the probe and
    every control call makes of it. */
module Registry {
  import opened Bytes
  import opened Frames
  import opened Opcodes
  import opened V2ipConfig
  import opened Control
  import opened BayModel
  import opened DeviceModel
  import opened Links

  /** me is the uid this client loaded before it started receiving. */
  datatype Reg = Reg(me: uid, devices: map<uid, Device>, book: Book) {
    predicate Knows(id: BayId) { id.device in devices && id.port in devices[id.device].bays }

    function BayAt(id: BayId): Bay
      requires Knows(id)
    {
      devices[id.device].bays[id.port]
    }

    function With(d: Device): Reg { this.(devices := devices[d.uid := d]) }

    function OnBay(id: BayId, ops: seq<Op>): Reg {
      if !Knows(id) then this else With(OnBays(devices[id.device], id.port, ops))
    }

    function Resolve(u: uid, port: Option<nat>): Option<BayId> {
      if port.Some? && Knows(BayId(u, port.value)) then Some(BayId(u, port.value)) else None
    }
  }

  function OnBays(d: Device, port: nat, ops: seq<Op>): Device
    requires port in d.bays
    decreases |ops|
  {
    if ops == [] then d else OnBays(d.OnBay(port, ops[0]), port, ops[1..])
  }

  function EmptyRegistry(me: uid): Reg { Reg(me, map[], EMPTY_BOOK) }

  /** The parts of a step that the code leaves open: which source bays the two stream
      addresses are looked up as, a device map being walked in no particular order,
      and the text a signal report is described by. */
  datatype Choice = Choice(video: Option<BayId>, audio: Option<BayId>, text: bytes)

  /** The bay is the first input of a device advertising the address for it. */
  ghost predicate StreamMatch(r: Reg, ip: bytes, audio: bool, id: BayId) {
    && r.Knows(id) && r.devices[id.device].FirstInput() == Some(id.port)
    && var s := r.devices[id.device].SourceOf(r.BayAt(id));
       s.Some? && (if audio then s.value.audio.ip else s.value.video.ip) == ip
  }

  ghost predicate Resolves(r: Reg, ip: bytes, audio: bool, found: Option<BayId>) {
    if found.Some? then StreamMatch(r, ip, audio, found.value) else forall id :: !StreamMatch(r, ip, audio, id)
  }

  // ---- handlers ----

  function HelloOf(f: RawFrame): Hello
    requires f.Valid()
  {
    Hello(if f.U16At(0).Some? then f.U16At(0).value else 0, f.StrOrEmpty(2, 16), f.StrOrEmpty(18, 16), f.StrOrEmpty(34, 16),
          if f.U32At(50).Some? then f.U32At(50).value else 0)
  }

  function HandleHello(r: Reg, f: RawFrame, now: int): Reg
    requires f.Valid()
  {
    var u := f.RemoteId();
    r.With((if u in r.devices then r.devices[u] else NewDevice(u, HelloOf(f), now)).ApplyHello(HelloOf(f), now))
  }

  function HandleBayConfig(r: Reg, f: RawFrame, now: int): Reg
    requires f.Valid()
  {
    if f.RemoteId() !in r.devices then r
    else r.With(r.devices[f.RemoteId()].TakeConfigPage(f.Payload(), now))
  }

  const LINK_SIZE: nat := 38

  /** One link descriptor of device d; those of ports it has no bay for are skipped. */
  ghost function TakeLink(b: Book, d: Device, rec: bytes): Book
    requires |rec| == LINK_SIZE
  {
    var port: nat := rec[0];
    if port !in d.bays then b
    else b.Update(d.KeyOf(d.bays[port]), Link(BayId(d.uid, port), CStr(rec[2..18]), CStr(rec[18..34]), U32(rec, 34)))
  }

  ghost function TakeLinks(b: Book, d: Device, recs: seq<bytes>): Book
    requires forall i :: 0 <= i < |recs| ==> |recs[i]| == LINK_SIZE
  {
    if recs == [] then b else TakeLink(TakeLinks(b, d, recs[..|recs| - 1]), d, recs[|recs| - 1])
  }

  ghost function HandleLinks(r: Reg, f: RawFrame): Reg
    requires f.Valid()
  {
    if f.RemoteId() !in r.devices then r
    else
      var d := r.devices[f.RemoteId()];
      r.(book := TakeLinks(r.book, d, Records(f.Payload(), LINK_SIZE))).With(d.LinksReceived())
  }

  function HandleConnect(r: Reg, f: RawFrame): Reg
    requires f.Valid()
  {
    var id := r.Resolve(f.RemoteId(), f.U8At(0));
    if id.None? then r
    else r.OnBay(id.value, [OpFlag(if r.BayAt(id.value).IsInput() then Signal else Hpd, f.BoolAt(1))])
  }

  function HandlePower(r: Reg, f: RawFrame): Reg
    requires f.Valid()
  {
    var id := r.Resolve(f.RemoteId(), f.U8At(0));
    if id.None? then r else r.OnBay(id.value, [OpPower(if f.BoolAt(1) then PowerOn else PowerOff)])
  }

  function HandleRouting(r: Reg, f: RawFrame): Reg
    requires f.Valid()
  {
    var sink := r.Resolve(f.RemoteId(), f.U16At(0));
    if sink.None? then r
    else r.OnBay(sink.value, [OpSelect(r.Resolve(f.RemoteId(), f.U16At(4)), r.Resolve(f.RemoteId(), f.U16At(7)))])
  }

  /** The payload names the device whose bay changes, which is not the sender. */
  function HandleVolumeSet(r: Reg, f: RawFrame): Reg
    requires f.Valid()
  {
    var v := DecodeVolumeSet(f);
    if f.RemoteId() !in r.devices || v.None? then r
    else r.OnBay(BayId(v.value.target, v.value.port), [OpVolume(v.value.value)])
  }

  function HandleVolumeMute(r: Reg, f: RawFrame): Reg
    requires f.Valid()
  {
    var p := f.Payload();
    if |p| < 4 then r
    else r.OnBay(BayId(f.RemoteId(), p[0]),
                 [OpVolume(Volume(Control.Level(p[1]), Control.Level(p[2]), Some(Has(p[3], 1)), Some(Has(p[3], 2))))])
  }

  const SOURCE_SIZE: nat := 40

  function ParseSources(rec: bytes): StreamSources
    requires |rec| == SOURCE_SIZE
  {
    StreamSources(rec[..16], ParseStream(rec, 16), ParseStream(rec, 24), ParseStream(rec, 32))
  }

  /** The advertised sources; a payload without a whole record advertises none. */
  function DecodeSources(p: bytes): Option<seq<StreamSources>> {
    var recs := Records(p, SOURCE_SIZE);
    if recs == [] then None else Some(seq(|recs|, i requires 0 <= i < |recs| => ParseSources(recs[i])))
  }

  function HandleSources(r: Reg, f: RawFrame): Reg
    requires f.Valid()
  {
    if f.RemoteId() !in r.devices then r else r.With(r.devices[f.RemoteId()].(sources := DecodeSources(f.Payload())))
  }

  /** The first output of a device, where it has one. */
  ghost function Sink(r: Reg, u: uid): Option<BayId> {
    if u in r.devices then r.Resolve(u, r.devices[u].FirstOutput()) else None
  }

  ghost function HandleSourceSwitch(r: Reg, f: RawFrame, choice: Choice): Reg
    requires f.Valid()
  {
    var sink := Sink(r, f.UidOrZero(0));
    if sink.None? || |f.Payload()| < 24 then r
    else r.OnBay(sink.value, [OpSelect(choice.video, choice.audio)])
  }

  ghost function HandleManualSwitch(r: Reg, f: RawFrame, choice: Choice): Reg
    requires f.Valid()
  {
    var route := DecodeManualSwitch(f);
    if route.None? || route.value.0 !in r.devices then r else SwitchTo(r, route.value.0, route.value.1, choice)
  }

  /** A known device's first output is routed to the bays found, and the subscription stored. */
  ghost function SwitchTo(r: Reg, u: uid, route: SinkRoute, choice: Choice): Reg
    requires u in r.devices
  {
    var s := if Sink(r, u).None? then r else r.OnBay(Sink(r, u).value, [OpSelect(choice.video, choice.audio)]);
    s.With(s.devices[u].(sink := Some(route)))
  }

  function HandleDeviceConfig(r: Reg, f: RawFrame): Reg
    requires f.Valid()
  {
    if f.RemoteId() !in r.devices then r else r.With(TakeDeviceConfig(r.devices[f.RemoteId()], f.Payload()))
  }

  function HandleBayHide(r: Reg, f: RawFrame): Reg
    requires f.Valid()
  {
    var h := DecodeHidden(f);
    if h.None? then r else r.OnBay(BayId(h.value.target, h.value.port), [OpFlag(Hidden, h.value.value)])
  }

  function StatusOps(f: RawFrame, onV2ip: bool): seq<Op> {
    var st := f.U32At(20);
    (if f.U32At(24).Some? then [OpFeatures(f.U32At(24).value)] else [])
    + if st.None? then []
      else [OpStatus(st.value)]
           + if Has(st.value, STATUS_SIGNAL) && onV2ip then []
             else [OpFlag(Signal, Has(st.value, STATUS_SIGNAL)), OpSignalType(f.StrOrEmpty(2, 14))]
  }

  function HandleBayStatus(r: Reg, f: RawFrame): Reg
    requires f.Valid()
  {
    var id := r.Resolve(f.RemoteId(), f.U16At(0));
    if id.None? then r else r.OnBay(id.value, StatusOps(f, r.devices[f.RemoteId()].IsV2ip()))
  }

  /** A mirror report counts when it is about its sender; mirroring nobody, or itself,
      is not mirroring. */
  ghost function HandleMirror(r: Reg, f: RawFrame): Reg
    requires f.Valid()
  {
    var target, master := f.UidOrZero(0), f.UidOrZero(16);
    var sink := Sink(r, f.RemoteId());
    if f.RemoteId() != target || sink.None? then r
    else r.OnBay(sink.value, [OpMirror(if Empty(master) || master == target then None else Some(BayId(master, 0)))])
  }

  /** The uids mapped to the device's bays of one mode, numbered from first on. */
  ghost function TakeMappings(d: Device, f: RawFrame, input: bool, first: nat, n: nat): Device {
    if n == 0 then d
    else
      var e := TakeMappings(d, f, input, first, n - 1);
      var mapped := f.UidAt(8 + 16 * (n - 1));
      var port := e.ByMode(input, first + n - 1);
      if mapped.None? || port.None? then e else e.OnBay(port.value, OpV2ipUid(mapped.value))
  }

  ghost function HandleBayMapping(r: Reg, f: RawFrame): Reg
    requires f.Valid()
  {
    if f.RemoteId() !in r.devices || f.U16At(0).None? || f.U16At(2).None? then r
    else r.With(TakeMappings(r.devices[f.RemoteId()], f, f.U16At(0).value % 2 == 1, f.U16At(2).value, f.U16At(0).value / 2))
  }

  /** A frame with no target is a notification about its sender. */
  function HandleAmpZone(r: Reg, f: RawFrame): Reg
    requires f.Valid()
  {
    var z := DecodeAmpZone(f);
    if z.None? then r
    else r.OnBay(BayId(if Empty(z.value.target) then f.RemoteId() else z.value.target, z.value.port), [OpAmp(z.value.value)])
  }

  /** The devices filtered out of a sink's picker: whole uids after the target's. */
  function DecodeFilter(p: bytes): Option<seq<uid>> { if |p| < 16 then None else Some(Records(p[16..], 16)) }

  ghost function HandleFilter(r: Reg, f: RawFrame): Reg
    requires f.Valid()
  {
    var devices, sink := DecodeFilter(f.Payload()), Sink(r, f.RemoteId());
    if devices.None? || sink.None? then r else r.OnBay(sink.value, [OpFilter(devices.value)])
  }

  function HandleSignalReport(r: Reg, f: RawFrame, choice: Choice): Reg
    requires f.Valid()
  {
    var p := f.Payload();
    if |p| < 112 then r
    else r.OnBay(BayId(f.RemoteId(), U16(p, 100)), [OpFlag(Signal, Has(p[2], 2)), OpSignalType(choice.text)])
  }

  function DecodeTiling(p: bytes): Option<Tiling> { if |p| < 24 then None else Some(TilingAt(p, 16, p[..16])) }

  /** A window for a device the registry does not know is only passed on. */
  function HandleTiling(r: Reg, f: RawFrame): Reg
    requires f.Valid()
  {
    var t := DecodeTiling(f.Payload());
    if f.RemoteId() !in r.devices || t.None? || t.value.target !in r.devices then r
    else r.With(r.devices[t.value.target].SetTiling(t.value))
  }

  ghost function Handle(r: Reg, f: RawFrame, now: int, choice: Choice): Reg
    requires f.Valid()
  {
    var op := f.Opcode();
    if op == OP_SYS_HELLO then HandleHello(r, f, now)
    else if op == OP_SYS_BAY_CONFIG || op == OP_SYS_BAY_CONFIG_SECONDARY then HandleBayConfig(r, f, now)
    else if op == OP_SYS_LINKS then HandleLinks(r, f)
    else if op == OP_DEV_CONNECT then HandleConnect(r, f)
    else if op == OP_DEV_POWER_CHANGE then HandlePower(r, f)
    else if op == OP_MX_ROUTE then HandleRouting(r, f)
    else if op == OP_AUDIO_SET_VOLUME then HandleVolumeSet(r, f)
    else if op == OP_AUDIO_VOLUME_MUTE then HandleVolumeMute(r, f)
    else if op == OP_SYS_BAY_V2IP_SOURCES then HandleSources(r, f)
    else if op == OP_V2IP_SOURCE_SWITCH then HandleSourceSwitch(r, f, choice)
    else if op == OP_V2IP_MANUAL_SRC_SWITCH then HandleManualSwitch(r, f, choice)
    else if op == OP_V2IP_DEVICE_CFG then HandleDeviceConfig(r, f)
    else if op == OP_BAY_HIDE then HandleBayHide(r, f)
    else if op == OP_BAY_STATUS then HandleBayStatus(r, f)
    else if op == OP_BAY_MIRROR_STATUS then HandleMirror(r, f)
    else if op == OP_V2IP_BAY_MAPPINGS then HandleBayMapping(r, f)
    else if op == OP_AMP_ZONE_SETTINGS then HandleAmpZone(r, f)
    else if op == OP_BAY_FILTER_STATUS then HandleFilter(r, f)
    else if op == OP_BAY_SIGNAL_STATUS then HandleSignalReport(r, f, choice)
    else if op == OP_V2IP_TILING then HandleTiling(r, f)
    else r
  }

  /** Any frame from a known device proves it alive. */
  function TouchSender(r: Reg, u: uid, ts: int, now: int): Reg {
    if u in r.devices then r.With(r.devices[u].Touch(ts, now)) else r
  }

  /** A datagram received at ts and handled by now; this client's own frames and what
      is not a frame at all are dropped. */
  ghost function Process(r: Reg, data: bytes, ts: int, now: int, choice: Choice): Reg {
    var f := Parse(data);
    if f.None? || f.value.RemoteId() == r.me then r
    else TouchSender(Handle(r, f.value, now, choice), f.value.RemoteId(), ts, now)
  }

  /** The lookups of a source switch find what they may. */
  ghost predicate MayChoose(r: Reg, f: RawFrame, choice: Choice)
    requires f.Valid()
  {
    var p := f.Payload();
    && (f.Opcode() == OP_V2IP_SOURCE_SWITCH && |p| >= 24 ==>
          Resolves(r, p[16..20], false, choice.video) && Resolves(r, p[20..24], true, choice.audio))
    && (f.Opcode() == OP_V2IP_MANUAL_SRC_SWITCH && |p| >= 38 ==>
          Resolves(r, p[16..20], false, choice.video) && Resolves(r, p[24..28], true, choice.audio))
  }

  /** Some of the devices checked, each at the clock's reading for it. */
  function PartlyProbed(r: Reg, some: set<uid>, clock: map<uid, int>): Reg
    requires r.devices.Keys <= clock.Keys
  {
    r.(devices := map u | u in r.devices :: if u in some then r.devices[u].CheckOnline(clock[u]) else r.devices[u])
  }

  /** A tick of the probe: nothing is checked before some device is configured. */
  ghost function Probe(r: Reg, clock: map<uid, int>): Reg
    requires r.devices.Keys <= clock.Keys
  {
    if exists u :: u in r.devices && r.devices[u].Complete() then PartlyProbed(r, r.devices.Keys, clock) else r
  }

  // ---- well-formedness ----

  ghost predicate RoutesKnown(r: Reg, b: Bay) {
    (b.video.Some? ==> r.Knows(b.video.value)) && (b.audio.Some? ==> r.Knows(b.audio.value))
  }

  ghost predicate DeviceOk(r: Reg, u: uid)
    requires u in r.devices
  {
    var d := r.devices[u];
    d.uid == u && Sound(d) && forall p :: p in d.bays ==> RoutesKnown(r, d.bays[p])
  }

  ghost predicate BookOk(r: Reg) {
    Consistent(r.book) && forall k :: k in r.book.links ==> r.Knows(r.book.links[k].origin)
  }

  ghost predicate WellFormed(r: Reg) {
    r.me !in r.devices && (forall u :: u in r.devices ==> DeviceOk(r, u)) && BookOk(r)
  }

  ghost predicate Grows(r: Reg, s: Reg) {
    && s.me == r.me && r.devices.Keys <= s.devices.Keys
    && forall id :: r.Knows(id) ==> s.Knows(id)
  }

  // ---- one device or one bay at a time ----

  lemma PutDevice(r: Reg, d: Device)
    requires WellFormed(r) && d.uid != r.me && Sound(d)
    requires d.uid in r.devices ==> r.devices[d.uid].bays.Keys <= d.bays.Keys
    requires forall p :: p in d.bays ==> RoutesKnown(r.With(d), d.bays[p])
    ensures WellFormed(r.With(d)) && Grows(r, r.With(d))
  {
    var s := r.With(d);
    forall u | u in s.devices
      ensures DeviceOk(s, u)
    {
      if u != d.uid {
        assert DeviceOk(r, u);
        forall p | p in s.devices[u].bays
          ensures RoutesKnown(s, s.devices[u].bays[p])
        {
          assert RoutesKnown(r, r.devices[u].bays[p]);
        }
      }
    }
  }

  /** A device whose bays are as they were. */
  lemma PutSameBays(r: Reg, d: Device)
    requires WellFormed(r) && Sound(d) && d.uid in r.devices && d.bays == r.devices[d.uid].bays
    ensures WellFormed(r.With(d)) && Grows(r, r.With(d))
  {
    assert DeviceOk(r, d.uid);
    forall p | p in d.bays
      ensures RoutesKnown(r.With(d), d.bays[p])
    {
      assert RoutesKnown(r, r.devices[d.uid].bays[p]);
    }
    PutDevice(r, d);
  }

  /** One bay of a device has been worked on, and leads to where it led or to known bays. */
  ghost predicate OneBayWorked(d: Device, e: Device, port: nat, known: set<BayId>)
    requires port in d.bays
  {
    && e.uid == d.uid && e.bays.Keys == d.bays.Keys
    && (forall p :: p in d.bays && p != port ==> e.bays[p] == d.bays[p])
    && RoutesFrom(d.bays[port], e.bays[port], known)
  }

  lemma WorkedOn(d: Device, e: Device, g: Device, port: nat, known: set<BayId>)
    requires port in d.bays && OneBayWorked(d, e, port, known) && OneBayWorked(e, g, port, known)
    ensures OneBayWorked(d, g, port, known)
  {
  }

  lemma OnBayWorked(d: Device, port: nat, op: Op, known: set<BayId>)
    requires Sound(d) && port in d.bays && Sources(op) <= known
    ensures Sound(d.OnBay(port, op)) && OneBayWorked(d, d.OnBay(port, op), port, known)
  {
    ApplyFaithful(d.bays[port], op);
    OnBaySound(d, port, op);
    hide Apply;
    hide Sound;
    hide Faithful;
    hide Sources;
  }

  lemma {:induction false} OnBaysSound(d: Device, port: nat, ops: seq<Op>, known: set<BayId>)
    requires Sound(d) && port in d.bays && forall i :: 0 <= i < |ops| ==> Sources(ops[i]) <= known
    ensures Sound(OnBays(d, port, ops)) && OneBayWorked(d, OnBays(d, port, ops), port, known)
    decreases |ops|
  {
    hide Sound;
    hide Device.OnBay;
    hide Sources;
    hide RoutesFrom;
    if ops == [] {
      Unworked(d, port, known);
    } else {
      var e := d.OnBay(port, ops[0]);
      OnBayWorked(d, port, ops[0], known);
      OnBaysSound(e, port, ops[1..], known);
      WorkedOn(d, e, OnBays(d, port, ops), port, known);
    }
  }

  lemma Unworked(d: Device, port: nat, known: set<BayId>)
    requires port in d.bays
    ensures OneBayWorked(d, d, port, known)
  {
  }

  lemma OnBayKeeps(r: Reg, id: BayId, ops: seq<Op>, known: set<BayId>)
    requires WellFormed(r) && forall i :: 0 <= i < |ops| ==> Sources(ops[i]) <= known
    requires forall k :: k in known ==> r.Knows(k)
    ensures WellFormed(r.OnBay(id, ops)) && Grows(r, r.OnBay(id, ops))
  {
    if r.Knows(id) {
      assert DeviceOk(r, id.device);
      var d := r.devices[id.device];
      var e := OnBays(d, id.port, ops);
      OnBaysSound(d, id.port, ops, known);
      forall p | p in e.bays
        ensures RoutesKnown(r.With(e), e.bays[p])
      {
        assert RoutesKnown(r, d.bays[p]);
      }
      PutDevice(r, e);
    }
  }

  // ---- every handler ----

  lemma HelloKeeps(r: Reg, f: RawFrame, now: int)
    requires WellFormed(r) && f.Valid() && f.RemoteId() != r.me
    ensures WellFormed(HandleHello(r, f, now)) && Grows(r, HandleHello(r, f, now))
    ensures f.RemoteId() in HandleHello(r, f, now).devices
  {
    var u, h := f.RemoteId(), HelloOf(f);
    if u in r.devices {
      assert DeviceOk(r, u);
      HelloTracked(r.devices[u], h, now);
      PutSameBays(r, r.devices[u].ApplyHello(h, now));
    } else {
      HelloTracked(NewDevice(u, h, now), h, now);
      PutDevice(r, NewDevice(u, h, now).ApplyHello(h, now));
    }
  }

  lemma {:induction false} ApplyConfigsSound(r: Reg, d: Device, recs: seq<bytes>)
    requires Sound(d) && forall i :: 0 <= i < |recs| ==> |recs[i]| == CONFIG_SIZE
    requires forall p :: p in d.bays ==> RoutesKnown(r.With(d), d.bays[p])
    ensures var e := d.ApplyConfigs(recs);
            && Sound(e) && e.uid == d.uid && d.bays.Keys <= e.bays.Keys
            && forall p :: p in e.bays ==> RoutesKnown(r.With(e), e.bays[p])
  {
    hide Device.ApplyConfig;
    if recs != [] {
      ApplyConfigsSound(r, d, recs[..|recs| - 1]);
      ApplyConfigKnown(r, d.ApplyConfigs(recs[..|recs| - 1]), ParseConfig(recs[|recs| - 1]));
    }
  }

  /** Storing a bay whose routes lead where they did, or to bays of its own device. */
  lemma StoreKnown(r: Reg, d: Device, e: Device, before: Bay, b: Bay, known: set<BayId>)
    requires forall p :: p in d.bays ==> RoutesKnown(r.With(d), d.bays[p])
    requires e.uid == d.uid && e.bays == d.bays[b.id.port := b]
    requires RoutesKnown(r.With(d), before) && RoutesFrom(before, b, known)
    requires forall k :: k in known ==> k.device == e.uid && k.port in e.bays
    ensures forall p :: p in e.bays ==> RoutesKnown(r.With(e), e.bays[p])
  {
    assert forall id :: r.With(d).Knows(id) ==> r.With(e).Knows(id);
    forall p | p in e.bays
      ensures RoutesKnown(r.With(e), e.bays[p])
    {
      assert p in d.bays ==> RoutesKnown(r.With(d), d.bays[p]);
    }
  }

  lemma BeforeKnown(r: Reg, d: Device, cfg: Config)
    requires forall p :: p in d.bays ==> RoutesKnown(r.With(d), d.bays[p])
    ensures RoutesKnown(r.With(d), Before(d, cfg))
  {
  }

  lemma ApplyConfigKnown(r: Reg, d: Device, cfg: Config)
    requires Sound(d) && forall p :: p in d.bays ==> RoutesKnown(r.With(d), d.bays[p])
    ensures var e := d.ApplyConfig(cfg);
            && Sound(e) && e.uid == d.uid && d.bays.Keys <= e.bays.Keys
            && forall p :: p in e.bays ==> RoutesKnown(r.With(e), e.bays[p])
  {
    hide Device.ApplyConfig;
    hide Configure;
    hide Before;
    hide Faithful;
    ApplyConfigStores(d, cfg);
    ApplyConfigSound(d, cfg);
    ConfigureFaithful(d, cfg);
    BeforeKnown(r, d, cfg);
    var b, e := Configure(d, cfg), d.ApplyConfig(cfg);
    StoreKnown(r, d, e, Before(d, cfg), b,
               Just(d.Resolve(cfg.videoSource, cfg.port)) + Just(d.Resolve(cfg.audioSource, cfg.port)));
  }

  lemma BayConfigKeeps(r: Reg, f: RawFrame, now: int)
    requires WellFormed(r) && f.Valid()
    ensures WellFormed(HandleBayConfig(r, f, now)) && Grows(r, HandleBayConfig(r, f, now))
  {
    var u := f.RemoteId();
    if u in r.devices {
      assert DeviceOk(r, u);
      var d := r.devices[u];
      forall p | p in d.bays
        ensures RoutesKnown(r.With(d), d.bays[p])
      {
        assert RoutesKnown(r, d.bays[p]);
      }
      ApplyConfigsSound(r, d, Records(f.Payload(), CONFIG_SIZE));
      var e := d.TakeConfigPage(f.Payload(), now);
      forall p | p in e.bays
        ensures RoutesKnown(r.With(e), e.bays[p])
      {
        assert RoutesKnown(r.With(d.ApplyConfigs(Records(f.Payload(), CONFIG_SIZE))), e.bays[p]);
      }
      PutDevice(r, e);
    }
  }

  lemma {:induction false} TakeLinksKeeps(r: Reg, d: Device, recs: seq<bytes>)
    requires BookOk(r) && d.uid in r.devices && d.bays == r.devices[d.uid].bays
    requires forall i :: 0 <= i < |recs| ==> |recs[i]| == LINK_SIZE
    ensures BookOk(r.(book := TakeLinks(r.book, d, recs)))
  {
    if recs != [] {
      var front, rec := TakeLinks(r.book, d, recs[..|recs| - 1]), recs[|recs| - 1];
      TakeLinksKeeps(r, d, recs[..|recs| - 1]);
      var port: nat := rec[0];
      if port in d.bays {
        UpdateConsistent(front, d.KeyOf(d.bays[port]),
                         Link(BayId(d.uid, port), CStr(rec[2..18]), CStr(rec[18..34]), U32(rec, 34)));
      }
    }
  }

  lemma LinksKeeps(r: Reg, f: RawFrame)
    requires WellFormed(r) && f.Valid()
    ensures WellFormed(HandleLinks(r, f)) && Grows(r, HandleLinks(r, f))
  {
    if f.RemoteId() in r.devices {
      var d, recs := r.devices[f.RemoteId()], Records(f.Payload(), LINK_SIZE);
      assert DeviceOk(r, f.RemoteId());
      TakeLinksKeeps(r, d, recs);
      var s := r.(book := TakeLinks(r.book, d, recs));
      assert forall id :: s.Knows(id) == r.Knows(id);
      forall u | u in s.devices
        ensures DeviceOk(s, u)
      {
        assert DeviceOk(r, u);
        assert forall p :: p in r.devices[u].bays ==> RoutesKnown(r, r.devices[u].bays[p]);
        assert forall p :: p in s.devices[u].bays ==> RoutesKnown(s, s.devices[u].bays[p]);
      }
      CheckCompleteTracked(d.(linkConfig := true));
      PutSameBays(s, d.LinksReceived());
    }
  }

  /** Handlers that change what is stored of one known device besides its bays. */
  lemma DeviceFieldsKeep(r: Reg, f: RawFrame)
    requires WellFormed(r) && f.Valid()
    ensures WellFormed(HandleSources(r, f)) && Grows(r, HandleSources(r, f))
    ensures WellFormed(HandleDeviceConfig(r, f)) && Grows(r, HandleDeviceConfig(r, f))
  {
    hide DecodeSources;
    if f.RemoteId() in r.devices {
      var d, p := r.devices[f.RemoteId()], f.Payload();
      assert DeviceOk(r, f.RemoteId());
      PutSameBays(r, d.(sources := DecodeSources(p)));
      DeviceConfigSound(d, p);
      PutSameBays(r, TakeDeviceConfig(d, p));
    }
  }

  lemma TilingKeeps(r: Reg, f: RawFrame)
    requires WellFormed(r) && f.Valid()
    ensures WellFormed(HandleTiling(r, f)) && Grows(r, HandleTiling(r, f))
  {
    hide TilingAt;
    var t := DecodeTiling(f.Payload());
    if f.RemoteId() in r.devices && t.Some? && t.value.target in r.devices {
      assert DeviceOk(r, t.value.target);
      SetTilingSound(r.devices[t.value.target], t.value);
      PutSameBays(r, r.devices[t.value.target].SetTiling(t.value));
    }
  }

  /** Changing attributes of a bay, whichever it is, without routing it. */
  lemma AttributesKeep(r: Reg)
    requires WellFormed(r)
    ensures Grows(r, r)
    ensures forall id, ops: seq<Op> :: (forall i :: 0 <= i < |ops| ==> !ops[i].OpSelect?) ==>
              WellFormed(r.OnBay(id, ops)) && Grows(r, r.OnBay(id, ops))
  {
    hide OnBays;
    forall id, ops: seq<Op> | forall i :: 0 <= i < |ops| ==> !ops[i].OpSelect?
      ensures WellFormed(r.OnBay(id, ops)) && Grows(r, r.OnBay(id, ops))
    {
      OnBayKeeps(r, id, ops, {});
    }
  }

  lemma StatusOpsPlain(f: RawFrame, onV2ip: bool)
    ensures forall i :: 0 <= i < |StatusOps(f, onV2ip)| ==> !StatusOps(f, onV2ip)[i].OpSelect?
  {
  }

  lemma BayStatusKeeps(r: Reg, f: RawFrame)
    requires WellFormed(r) && f.Valid()
    ensures WellFormed(HandleBayStatus(r, f)) && Grows(r, HandleBayStatus(r, f))
  {
    hide OnBays;
    hide WellFormed;
    hide Grows;
    hide StatusOps;
    AttributesKeep(r);
    if f.RemoteId() in r.devices {
      StatusOpsPlain(f, r.devices[f.RemoteId()].IsV2ip());
    }
  }

  lemma ConnectionKeeps(r: Reg, f: RawFrame)
    requires WellFormed(r) && f.Valid()
    ensures WellFormed(HandleConnect(r, f)) && Grows(r, HandleConnect(r, f))
    ensures WellFormed(HandlePower(r, f)) && Grows(r, HandlePower(r, f))
    ensures WellFormed(HandleVolumeSet(r, f)) && Grows(r, HandleVolumeSet(r, f))
    ensures WellFormed(HandleVolumeMute(r, f)) && Grows(r, HandleVolumeMute(r, f))
  {
    hide OnBays;
    hide WellFormed;
    hide Grows;
    hide DecodeVolumeSet;
    AttributesKeep(r);
  }

  lemma SettingKeeps(r: Reg, f: RawFrame, choice: Choice)
    requires WellFormed(r) && f.Valid()
    ensures WellFormed(HandleBayHide(r, f)) && Grows(r, HandleBayHide(r, f))
    ensures WellFormed(HandleAmpZone(r, f)) && Grows(r, HandleAmpZone(r, f))
    ensures WellFormed(HandleSignalReport(r, f, choice)) && Grows(r, HandleSignalReport(r, f, choice))
  {
    hide OnBays;
    hide WellFormed;
    hide Grows;
    hide DecodeHidden;
    hide DecodeAmpZone;
    AttributesKeep(r);
  }

  lemma SinkReportKeeps(r: Reg, f: RawFrame)
    requires WellFormed(r) && f.Valid()
    ensures WellFormed(HandleMirror(r, f)) && Grows(r, HandleMirror(r, f))
    ensures WellFormed(HandleFilter(r, f)) && Grows(r, HandleFilter(r, f))
  {
    hide OnBays;
    hide WellFormed;
    hide Grows;
    hide Sink;
    AttributesKeep(r);
  }

  lemma RoutingKeeps(r: Reg, f: RawFrame)
    requires WellFormed(r) && f.Valid()
    ensures WellFormed(HandleRouting(r, f)) && Grows(r, HandleRouting(r, f))
  {
    var v, a := r.Resolve(f.RemoteId(), f.U16At(4)), r.Resolve(f.RemoteId(), f.U16At(7));
    OnBayKeeps(r, BayId(f.RemoteId(), if f.U16At(0).Some? then f.U16At(0).value else 0), [OpSelect(v, a)], Just(v) + Just(a));
  }

  ghost predicate ChoiceKnown(r: Reg, choice: Choice) {
    (choice.video.Some? ==> r.Knows(choice.video.value)) && (choice.audio.Some? ==> r.Knows(choice.audio.value))
  }

  lemma SelectKeeps(r: Reg, id: BayId, choice: Choice)
    requires WellFormed(r) && ChoiceKnown(r, choice)
    ensures var s := r.OnBay(id, [OpSelect(choice.video, choice.audio)]);
            WellFormed(s) && Grows(r, s)
  {
    hide OnBays;
    OnBayKeeps(r, id, [OpSelect(choice.video, choice.audio)], Just(choice.video) + Just(choice.audio));
  }

  lemma SourceSwitchKeeps(r: Reg, f: RawFrame, choice: Choice)
    requires WellFormed(r) && f.Valid() && (|f.Payload()| >= 24 ==> ChoiceKnown(r, choice))
    ensures WellFormed(HandleSourceSwitch(r, f, choice)) && Grows(r, HandleSourceSwitch(r, f, choice))
  {
    hide OnBays;
    var sink := Sink(r, f.UidOrZero(0));
    if sink.Some? && |f.Payload()| >= 24 {
      SelectKeeps(r, sink.value, choice);
    }
  }

  lemma ManualSwitchKeeps(r: Reg, f: RawFrame, choice: Choice)
    requires WellFormed(r) && f.Valid() && (|f.Payload()| >= 38 ==> ChoiceKnown(r, choice))
    ensures WellFormed(HandleManualSwitch(r, f, choice)) && Grows(r, HandleManualSwitch(r, f, choice))
  {
    hide OnBays;
    var route := DecodeManualSwitch(f);
    if route.Some? && route.value.0 in r.devices {
      var u := route.value.0;
      var s := r;
      if Sink(r, u).Some? {
        SelectKeeps(r, Sink(r, u).value, choice);
        s := r.OnBay(Sink(r, u).value, [OpSelect(choice.video, choice.audio)]);
      }
      assert DeviceOk(s, u);
      SameCoreSound(s.devices[u], s.devices[u].(sink := Some(route.value.1)));
      PutSameBays(s, s.devices[u].(sink := Some(route.value.1)));
    }
  }

  lemma ByModeKnown(d: Device, input: bool, number: nat)
    ensures d.ByMode(input, number).Some? ==> d.ByMode(input, number).value in d.bays
  {
  }

  /** The bays are those there were, leading to where they led. */
  ghost predicate SameRoutes(d: Device, e: Device) {
    e.uid == d.uid && e.bays.Keys == d.bays.Keys && forall p :: p in d.bays ==> RoutesFrom(d.bays[p], e.bays[p], {})
  }

  lemma SameRoutesOn(d: Device, e: Device, port: nat, g: Device)
    requires SameRoutes(d, e) && port in e.bays && OneBayWorked(e, g, port, {})
    ensures SameRoutes(d, g)
  {
  }

  lemma {:induction false} MappingsSound(d: Device, f: RawFrame, input: bool, first: nat, n: nat)
    requires Sound(d)
    ensures Sound(TakeMappings(d, f, input, first, n)) && SameRoutes(d, TakeMappings(d, f, input, first, n))
  {
    hide Device.ByMode;
    hide Device.OnBay;
    hide RawFrame.UidAt;
    hide Sound;
    if n > 0 {
      hide RoutesFrom;
      MappingsSound(d, f, input, first, n - 1);
      var e := TakeMappings(d, f, input, first, n - 1);
      ByModeKnown(e, input, first + n - 1);
      var mapped, port := f.UidAt(8 + 16 * (n - 1)), e.ByMode(input, first + n - 1);
      if mapped.Some? && port.Some? {
        OnBayWorked(e, port.value, OpV2ipUid(mapped.value), {});
        SameRoutesOn(d, e, port.value, e.OnBay(port.value, OpV2ipUid(mapped.value)));
      }
    }
  }

  lemma MappingKeeps(r: Reg, f: RawFrame)
    requires WellFormed(r) && f.Valid()
    ensures WellFormed(HandleBayMapping(r, f)) && Grows(r, HandleBayMapping(r, f))
  {
    if f.RemoteId() in r.devices && f.U16At(0).Some? && f.U16At(2).Some? {
      var d := r.devices[f.RemoteId()];
      assert DeviceOk(r, f.RemoteId());
      var e := TakeMappings(d, f, f.U16At(0).value % 2 == 1, f.U16At(2).value, f.U16At(0).value / 2);
      MappingsSound(d, f, f.U16At(0).value % 2 == 1, f.U16At(2).value, f.U16At(0).value / 2);
      forall p | p in e.bays
        ensures RoutesKnown(r.With(e), e.bays[p])
      {
        assert RoutesKnown(r, d.bays[p]);
      }
      PutDevice(r, e);
    }
  }

  lemma ChoiceIsKnown(r: Reg, f: RawFrame, choice: Choice)
    requires f.Valid() && MayChoose(r, f, choice)
    ensures f.Opcode() == OP_V2IP_SOURCE_SWITCH && |f.Payload()| >= 24 ==> ChoiceKnown(r, choice)
    ensures f.Opcode() == OP_V2IP_MANUAL_SRC_SWITCH && |f.Payload()| >= 38 ==> ChoiceKnown(r, choice)
  {
  }

  lemma HandleKeeps(r: Reg, f: RawFrame, now: int, choice: Choice)
    requires WellFormed(r) && f.Valid() && f.RemoteId() != r.me
    requires MayChoose(r, f, choice)
    ensures WellFormed(Handle(r, f, now, choice)) && Grows(r, Handle(r, f, now, choice))
  {
    hide WellFormed;
    hide Grows;
    hide HandleBayConfig;
    hide HandleSources;
    hide HandleDeviceConfig;
    hide HandleTiling;
    hide HandleHello;
    hide HandleLinks;
    hide HandleBayMapping;
    hide HandleManualSwitch;
    hide HandleConnect;
    hide HandlePower;
    hide HandleRouting;
    hide HandleVolumeSet;
    hide HandleVolumeMute;
    hide HandleBayHide;
    hide HandleSourceSwitch;
    hide HandleBayStatus;
    hide HandleMirror;
    hide HandleAmpZone;
    hide HandleFilter;
    hide HandleSignalReport;
    var op := f.Opcode();
    if op == OP_SYS_HELLO {
      HelloKeeps(r, f, now);
    } else if op == OP_SYS_BAY_CONFIG || op == OP_SYS_BAY_CONFIG_SECONDARY {
      BayConfigKeeps(r, f, now);
    } else if op == OP_SYS_LINKS {
      LinksKeeps(r, f);
    } else if op == OP_MX_ROUTE {
      RoutingKeeps(r, f);
    } else if op == OP_V2IP_SOURCE_SWITCH {
      ChoiceIsKnown(r, f, choice);
      SourceSwitchKeeps(r, f, choice);
    } else if op == OP_V2IP_MANUAL_SRC_SWITCH {
      ChoiceIsKnown(r, f, choice);
      ManualSwitchKeeps(r, f, choice);
    } else if op == OP_BAY_STATUS {
      BayStatusKeeps(r, f);
    } else if op == OP_V2IP_BAY_MAPPINGS {
      MappingKeeps(r, f);
    } else if op == OP_V2IP_TILING {
      TilingKeeps(r, f);
    } else if op == OP_SYS_BAY_V2IP_SOURCES || op == OP_V2IP_DEVICE_CFG {
      DeviceFieldsKeep(r, f);
    } else {
      ConnectionKeeps(r, f);
      SettingKeeps(r, f, choice);
      SinkReportKeeps(r, f);
      AttributesKeep(r);
    }
  }

  lemma TouchKeeps(r: Reg, u: uid, ts: int, now: int)
    requires WellFormed(r)
    ensures WellFormed(TouchSender(r, u, ts, now)) && Grows(r, TouchSender(r, u, ts, now))
  {
    if u in r.devices {
      assert DeviceOk(r, u);
      SameCoreSound(r.devices[u], r.devices[u].(lastPing := ts));
      CheckOnlineTracked(r.devices[u].(lastPing := ts), now);
      PutSameBays(r, r.devices[u].Touch(ts, now));
    }
  }

  // ---- runs ----

  /** A datagram is received; the probe ticks; a control call that went out stores what
      it asked of a bay. */
  datatype Step =
    | Datagram(data: bytes, ts: int, now: int, choice: Choice)
    | Ticked(clock: map<uid, int>)
    | Called(bay: BayId, op: Op)

  ghost predicate Enabled(r: Reg, step: Step) {
    match step
    case Datagram(data, _, _, choice) => var f := Parse(data); f.Some? ==> MayChoose(r, f.value, choice)
    case Ticked(clock) => r.devices.Keys <= clock.Keys
    case Called(id, op) => r.Knows(id) && !op.OpSelect?
  }

  ghost function Next(r: Reg, step: Step): Reg
    requires Enabled(r, step)
  {
    match step
    case Datagram(data, ts, now, choice) => Process(r, data, ts, now, choice)
    case Ticked(clock) => Probe(r, clock)
    case Called(id, op) => r.OnBay(id, [op])
  }

  /** The registry after a run of steps, none when one of them is not possible. */
  ghost function Run(me: uid, steps: seq<Step>): Option<Reg> {
    if steps == [] then Some(EmptyRegistry(me))
    else
      var r := Run(me, steps[..|steps| - 1]);
      if r.None? || !Enabled(r.value, steps[|steps| - 1]) then None else Some(Next(r.value, steps[|steps| - 1]))
  }

  lemma RunNext(me: uid, steps: seq<Step>, r: Reg, step: Step)
    requires Run(me, steps) == Some(r) && Enabled(r, step)
    ensures Run(me, steps + [step]) == Some(Next(r, step))
  {
    assert (steps + [step])[..|steps|] == steps;
  }

  lemma ProcessKeeps(r: Reg, f: RawFrame, ts: int, now: int, choice: Choice)
    requires WellFormed(r) && f.Valid() && Parse(f.data) == Some(f) && MayChoose(r, f, choice)
    ensures WellFormed(Process(r, f.data, ts, now, choice)) && Grows(r, Process(r, f.data, ts, now, choice))
  {
    hide Handle;
    hide TouchSender;
    if f.RemoteId() != r.me {
      HandleKeeps(r, f, now, choice);
      TouchKeeps(Handle(r, f, now, choice), f.RemoteId(), ts, now);
    }
  }

  lemma ProbeKeeps(r: Reg, clock: map<uid, int>)
    requires WellFormed(r) && r.devices.Keys <= clock.Keys
    ensures WellFormed(Probe(r, clock)) && Grows(r, Probe(r, clock))
  {
    hide Sound;
    hide Device.CheckOnline;
    hide Device.Complete;
    var s := Probe(r, clock);
    forall u | u in r.devices
      ensures s.devices[u].bays == r.devices[u].bays && s.devices[u].uid == u && Sound(s.devices[u])
    {
      assert DeviceOk(r, u);
      CheckOnlineSound(r.devices[u], clock[u]);
    }
    assert forall id :: s.Knows(id) <==> r.Knows(id);
    forall u | u in s.devices
      ensures DeviceOk(s, u)
    {
      assert DeviceOk(r, u);
      assert forall p :: p in r.devices[u].bays ==> RoutesKnown(r, r.devices[u].bays[p]);
    }
  }

  lemma NextKeeps(r: Reg, step: Step)
    requires WellFormed(r) && Enabled(r, step)
    ensures WellFormed(Next(r, step)) && Grows(r, Next(r, step))
  {
    match step
    case Datagram(data, ts, now, choice) =>
      if Parse(data).Some? {
        ProcessKeeps(r, Parse(data).value, ts, now, choice);
      }
    case Ticked(clock) => ProbeKeeps(r, clock);
    case Called(id, op) => OnBayKeeps(r, id, [op], {});
  }

  /** Over every run the registry stays well formed: every device is stored under its
      own uid and this client's is not among them, every bay under its own port, every
      source a bay has and every link's origin is a bay of the registry, every bay's
      log replays to what is cached, and every device's notices are in order. */
  lemma {:induction false} RegistryStaysWellFormed(me: uid, steps: seq<Step>)
    requires Run(me, steps).Some?
    ensures WellFormed(Run(me, steps).value) && Run(me, steps).value.me == me
  {
    if steps != [] {
      var front := steps[..|steps| - 1];
      RegistryStaysWellFormed(me, front);
      NextKeeps(Run(me, front).value, steps[|steps| - 1]);
    }
  }

  /** Devices and bays are only ever added. */
  lemma {:induction false} RegistryOnlyGrows(me: uid, steps: seq<Step>, n: nat)
    requires Run(me, steps).Some? && n <= |steps|
    ensures Run(me, steps[..n]).Some? && Grows(Run(me, steps[..n]).value, Run(me, steps).value)
  {
    if n == |steps| {
      assert steps[..n] == steps;
    } else {
      var front := steps[..|steps| - 1];
      RegistryOnlyGrows(me, front, n);
      assert front[..n] == steps[..n];
      RegistryStaysWellFormed(me, front);
      NextKeeps(Run(me, front).value, steps[|steps| - 1]);
    }
  }

  /** So over every run each bay's notices replay to its cached attributes, and those of
      a flag alternate starting with true. */
  lemma EveryBayReplays(me: uid, steps: seq<Step>, id: BayId, kind: Kind, flag: Flag, n: nat)
    requires Run(me, steps).Some? && Run(me, steps).value.Knows(id)
    ensures var b := Run(me, steps).value.BayAt(id);
            && b.id == id
            && Replays(Notified(b.log, kind), Initial(b.portName, kind), b.Read(kind))
            && (n < |Notified(b.log, State(flag))| ==> Notified(b.log, State(flag))[n] == Truth(n % 2 == 0))
  {
    var r := Run(me, steps).value;
    RegistryStaysWellFormed(me, steps);
    assert DeviceOk(r, id.device);
    var b := r.BayAt(id);
    assert FaithfulIn(b, kind);
    if n < |Notified(b.log, State(flag))| {
      FlagNoticesAlternate(b, flag, n);
    }
  }

  // ---- paging ----

  /** A frame whose payload is two pages one after the other, of whole records of size
      bytes in the first. */
  ghost predicate Pages(f: RawFrame, first: RawFrame, second: RawFrame, size: nat)
    requires size > 0 && f.Valid() && first.Valid() && second.Valid()
  {
    && f.RemoteId() == first.RemoteId() == second.RemoteId()
    && f.Payload() == first.Payload() + second.Payload() && WholeRecords(first.Payload(), size)
  }

  /** One bay-config frame leaves the registry as its two pages do. */
  lemma ConfigPagesCompose(r: Reg, f: RawFrame, first: RawFrame, second: RawFrame, now: int)
    requires f.Valid() && first.Valid() && second.Valid() && Pages(f, first, second, CONFIG_SIZE) && WellFormed(r)
    ensures HandleBayConfig(r, f, now) == HandleBayConfig(HandleBayConfig(r, first, now), second, now)
  {
    hide Device.TakeConfigPage;
    var u := f.RemoteId();
    if u in r.devices {
      assert DeviceOk(r, u);
      PagesCompose(r.devices[u], first.Payload(), second.Payload(), now, now, now);
      BayConfigKeeps(r, first, now);
      assert DeviceOk(HandleBayConfig(r, first, now), u);
      var d := r.devices[u].TakeConfigPage(first.Payload(), now);
      assert d.uid == u by { TakeConfigPageUid(r.devices[u], first.Payload(), now); }
      TakeConfigPageUid(d, second.Payload(), now);
      assert r.devices[u := d][u := d.TakeConfigPage(second.Payload(), now)]
          == r.devices[u := d.TakeConfigPage(second.Payload(), now)];
    }
  }

  lemma {:induction false} TakeLinksAppend(b: Book, d: Device, x: seq<bytes>, y: seq<bytes>)
    requires forall i :: 0 <= i < |x| ==> |x[i]| == LINK_SIZE
    requires forall i :: 0 <= i < |y| ==> |y[i]| == LINK_SIZE
    ensures TakeLinks(b, d, x + y) == TakeLinks(TakeLinks(b, d, x), d.LinksReceived(), y)
  {
    hide TakeLink;
    if y == [] {
      assert x + y == x;
    } else {
      TakeLinksAppend(b, d, x, y[..|y| - 1]);
      assert (x + y)[..|x + y| - 1] == x + y[..|y| - 1];
      TakeLinkAfterPage(TakeLinks(b, d, x + y[..|y| - 1]), d, y[|y| - 1]);
    }
  }

  /** The keys of a device's bays do not depend on whether its links have arrived. */
  lemma TakeLinkAfterPage(b: Book, d: Device, rec: bytes)
    requires |rec| == LINK_SIZE
    ensures TakeLink(b, d.LinksReceived(), rec) == TakeLink(b, d, rec)
  {
    var e, port: nat := d.LinksReceived(), rec[0];
    if port in d.bays {
      assert e.SourceOf(e.bays[port]) == d.SourceOf(d.bays[port]);
    }
  }

  /** One links frame leaves the registry as its two pages do, and the links it stores
      are those of its whole records. */
  lemma LinkPagesCompose(r: Reg, f: RawFrame, first: RawFrame, second: RawFrame)
    requires f.Valid() && first.Valid() && second.Valid() && Pages(f, first, second, LINK_SIZE) && WellFormed(r)
    ensures HandleLinks(r, f) == HandleLinks(HandleLinks(r, first), second)
    ensures |second.Payload()| < LINK_SIZE ==> HandleLinks(r, f) == HandleLinks(r, first)
  {
    hide TakeLink;
    var u := f.RemoteId();
    if u in r.devices {
      assert DeviceOk(r, u);
      var d := r.devices[u];
      var x, y := Records(first.Payload(), LINK_SIZE), Records(second.Payload(), LINK_SIZE);
      RecordsAppend(first.Payload(), second.Payload(), LINK_SIZE);
      TakeLinksAppend(r.book, d, x, y);
      var e := d.LinksReceived();
      assert e.LinksReceived() == e;
      assert r.devices[u := e][u := e] == r.devices[u := e];
    }
  }
}
