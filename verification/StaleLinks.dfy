/** A run of datagrams after which the two ends of a link disagree about it. */
module StaleLinks {
  import opened Bytes
  import opened Frames
  import opened Opcodes
  import opened Control
  import opened BayModel
  import opened DeviceModel
  import opened Links
  import opened Registry
  import opened Peers
  import opened LinkSymmetry

  predicate Label(text: bytes) { 0 < |text| <= 16 && Ascii(text) }

  // ---- what the devices announce ----

  function ConfigRecord(port: byte, name: bytes, features: u32): bytes {
    [port, 0, port, 0, 0] + Fixed(name, 16) + Zeros(32) + Wire32(0) + Wire32(features)
  }

  function LinkRecord(port: byte, serial: bytes, bay: bytes): bytes {
    [port, 0] + Fixed(serial, 16) + Fixed(bay, 16) + Wire32(0)
  }

  /** Sources for the inputs numbered from first on. */
  function MappingPayload(first: u16, sources: seq<uid>): bytes
    requires |sources| <= 2
  {
    Wire16(2 * |sources| + 1) + Wire16(first) + [0, 0, 0, 0]
    + (if |sources| > 0 then sources[0] else []) + if |sources| > 1 then sources[1] else []
  }

  lemma LabelSurvives(text: bytes)
    requires text == [] || Label(text)
    ensures |Fixed(text, 16)| == 16 && CStr(Fixed(text, 16)) == text
  {
    FixedFieldRoundTrip(text, 16);
  }

  lemma ConfigRecordReads(port: byte, name: bytes, features: u32)
    requires Label(name)
    ensures var rec := ConfigRecord(port, name, features);
            && |rec| == CONFIG_SIZE
            && ParseConfig(rec) == Config(port, port, 0, 0, 0, 0, name, [], [], 0, 0, features)
  {
    var rec := ConfigRecord(port, name, features);
    LabelSurvives(name);
    assert rec[5..21] == Fixed(name, 16);
    assert rec[21..53] == Zeros(32);
    assert rec[21..37][0] == 0 && rec[37..51][0] == 0 && rec[51] == 0 && rec[52] == 0;
    U32Slice(rec, 53, 0);
    U32Slice(rec, 57, features);
  }

  lemma LinkRecordReads(port: byte, serial: bytes, bay: bytes)
    requires (serial == [] || Label(serial)) && (bay == [] || Label(bay))
    ensures var rec := LinkRecord(port, serial, bay);
            && |rec| == LINK_SIZE && rec[0] == port
            && CStr(rec[2..18]) == serial && CStr(rec[18..34]) == bay && U32(rec, 34) == 0
  {
    var rec := LinkRecord(port, serial, bay);
    LabelSurvives(serial);
    LabelSurvives(bay);
    assert rec[2..18] == Fixed(serial, 16) && rec[18..34] == Fixed(bay, 16);
    U32Slice(rec, 34, 0);
  }

  // ---- one datagram at a time ----

  const NO_CHOICE: Choice := Choice(None, None, [])

  /** A datagram at time 0; what it says is all that matters here. */
  function From(sender: uid, opcode: u16, payload: bytes): Step {
    Datagram(Build(sender, opcode, 0, payload), 0, 0, NO_CHOICE)
  }

  predicate LooksUp(opcode: u16) { opcode == OP_V2IP_SOURCE_SWITCH || opcode == OP_V2IP_MANUAL_SRC_SWITCH }

  lemma Arrives(r: Reg, sender: uid, opcode: u16, payload: bytes)
    requires sender != r.me && |payload| < 0x1_0000 && !LooksUp(opcode)
    ensures var f, step := Sent(sender, opcode, 0, payload), From(sender, opcode, payload);
            && f.Valid() && f.Payload() == payload && f.RemoteId() == sender && f.Opcode() == opcode
            && Enabled(r, step) && Next(r, step) == TouchSender(Handle(r, f, 0, NO_CHOICE), sender, 0, 0)
  {
    hide Handle;
    hide TouchSender;
    FrameRoundTrip(sender, opcode, 0, payload);
  }

  /** A device heard of at time 0 as all of these are. */
  ghost predicate Idle(d: Device, u: uid, serial: bytes) {
    && d.uid == u && d.hello == Hello(0x22, [], serial, [], 0) && d.sources.None?
    && d.online && d.lastPing == 0
  }

  ghost predicate BayIs(b: Bay, id: BayId, name: bytes, features: u32, from: uid) {
    && b.id == id && b.portName == name && b.number == Some(id.port) && b.features == features && b.v2ipUid == from
  }

  lemma TouchedAtOnce(r: Reg, u: uid)
    requires u in r.devices && r.devices[u].uid == u && r.devices[u].online && r.devices[u].lastPing == 0
    ensures TouchSender(r, u, 0, 0) == r
  {
    assert r.devices[u := r.devices[u]] == r.devices;
  }

  lemma Dispatched(r: Reg, f: RawFrame)
    requires f.Valid()
    ensures f.Opcode() == OP_SYS_HELLO ==> Handle(r, f, 0, NO_CHOICE) == HandleHello(r, f, 0)
    ensures f.Opcode() == OP_SYS_BAY_CONFIG ==> Handle(r, f, 0, NO_CHOICE) == HandleBayConfig(r, f, 0)
    ensures f.Opcode() == OP_SYS_LINKS ==> Handle(r, f, 0, NO_CHOICE) == HandleLinks(r, f)
    ensures f.Opcode() == OP_V2IP_BAY_MAPPINGS ==> Handle(r, f, 0, NO_CHOICE) == HandleBayMapping(r, f)
  {
    hide HandleHello;
    hide HandleBayConfig;
    hide HandleLinks;
    hide HandleBayMapping;
    hide RawFrame.Opcode;
  }

  lemma FirstHello(r: Reg, f: RawFrame, h: Hello)
    requires f.Valid() && HelloOf(f) == h && f.RemoteId() !in r.devices
    ensures HandleHello(r, f, 0) == r.With(NewDevice(f.RemoteId(), h, 0))
  {
    hide HelloOf;
    assert NewDevice(f.RemoteId(), h, 0).ApplyHello(h, 0) == NewDevice(f.RemoteId(), h, 0);
  }

  lemma HelloArrives(r: Reg, u: uid, serial: bytes)
    requires u != r.me && u !in r.devices && Label(serial)
    ensures var step := From(u, OP_SYS_HELLO, HelloPayload(Hello(0x22, [], serial, [], 0)));
            Enabled(r, step) && Next(r, step) == r.With(NewDevice(u, Hello(0x22, [], serial, [], 0), 0))
  {
    hide Handle;
    hide HandleHello;
    hide TouchSender;
    hide HelloOf;
    hide Enabled;
    hide Next;
    hide Label;
    hide Fixed;
    hide CStr;
    var h := Hello(0x22, [], serial, [], 0);
    var f := Sent(u, OP_SYS_HELLO, 0, HelloPayload(h));
    HelloReads(u, OP_SYS_HELLO, 0, h);
    LabelSurvives(serial);
    LabelSurvives([]);
    Arrives(r, u, OP_SYS_HELLO, HelloPayload(h));
    Dispatched(r, f);
    FirstHello(r, f, h);
    TouchedAtOnce(r.With(NewDevice(u, h, 0)), u);
  }

  lemma ConfigKeepsSource(b: Bay, cfg: Config, onV2ip: bool, v: Option<BayId>, a: Option<BayId>)
    ensures b.ApplyConfig(cfg, onV2ip, v, a).v2ipUid == b.v2ipUid
  {
    hide Has;
    hide StatusPuts;
    SetAllPortName(b.Identify(cfg), StatusPuts(cfg.status));
  }

  lemma ConfigNumbers(b: Bay, cfg: Config, onV2ip: bool, v: Option<BayId>, a: Option<BayId>)
    requires b.number.None?
    ensures var c := b.ApplyConfig(cfg, onV2ip, v, a); c.number == Some(cfg.bay) && c.features == cfg.features
  {
    hide Has;
    hide StatusPuts;
    SetAllPortName(b.Identify(cfg), StatusPuts(cfg.status));
  }

  lemma NewBayIs(d: Device, cfg: Config)
    requires cfg.port !in d.bays && cfg.bay == cfg.port
    ensures BayIs(Configure(d, cfg), BayId(d.uid, cfg.port), cfg.bayName, cfg.features, ZERO_UID)
  {
    hide Bay.ApplyConfig;
    hide Faithful;
    var v, a := d.Resolve(cfg.videoSource, cfg.port), d.Resolve(cfg.audioSource, cfg.port);
    var was := New(d.uid, cfg);
    NewFaithful(d.uid, cfg);
    ConfigFaithful(was, cfg, d.IsV2ip(), v, a);
    ConfigKeepsSource(was, cfg, d.IsV2ip(), v, a);
    ConfigNumbers(was, cfg, d.IsV2ip(), v, a);
  }

  /** A new bay described at time 0. */
  lemma NewDescribed(d: Device, u: uid, serial: bytes, cfg: Config)
    requires Idle(d, u, serial) && cfg.port !in d.bays && cfg.bay == cfg.port
    ensures var e := d.ApplyConfig(cfg);
            && Idle(e, u, serial) && e.bays.Keys == d.bays.Keys + {cfg.port}
            && (forall p :: p in d.bays ==> e.bays[p] == d.bays[p])
            && BayIs(e.bays[cfg.port], BayId(u, cfg.port), cfg.bayName, cfg.features, ZERO_UID)
  {
    hide Device.ApplyConfig;
    hide Configure;
    hide Device.Complete;
    hide BayIs;
    ApplyConfigBody(d, cfg);
    NewBayIs(d, cfg);
  }

  /** A step that leaves one known device as e. */
  lemma Becomes(r: Reg, u: uid, opcode: u16, payload: bytes, e: Device)
    requires u != r.me && |payload| < 0x1_0000 && !LooksUp(opcode) && Sent(u, opcode, 0, payload).Valid()
    requires u in Handle(r, Sent(u, opcode, 0, payload), 0, NO_CHOICE).devices
    requires Handle(r, Sent(u, opcode, 0, payload), 0, NO_CHOICE).devices[u] == e
    requires e.uid == u && e.online && e.lastPing == 0
    ensures Enabled(r, From(u, opcode, payload))
    ensures Next(r, From(u, opcode, payload)) == Handle(r, Sent(u, opcode, 0, payload), 0, NO_CHOICE)
  {
    hide Handle;
    hide TouchSender;
    hide Enabled;
    hide Next;
    Arrives(r, u, opcode, payload);
    TouchedAtOnce(Handle(r, Sent(u, opcode, 0, payload), 0, NO_CHOICE), u);
  }

  lemma OneRecord(d: Device, rec: bytes)
    requires |rec| == CONFIG_SIZE
    ensures d.TakeConfigPage(rec, 0) == d.ApplyConfig(ParseConfig(rec)).(lastPing := 0)
  {
    hide Device.ApplyConfig;
    hide ParseConfig;
    WholeAppend([], rec, CONFIG_SIZE);
    assert [rec][..0] == [];
    assert d.ApplyConfigs([rec]) == d.ApplyConfig(ParseConfig(rec));
  }

  lemma TwoRecords(d: Device, first: bytes, second: bytes)
    requires |first| == |second| == CONFIG_SIZE
    ensures d.TakeConfigPage(first + second, 0)
         == d.ApplyConfig(ParseConfig(first)).ApplyConfig(ParseConfig(second)).(lastPing := 0)
  {
    hide Device.ApplyConfig;
    hide ParseConfig;
    WholeAppend([], first, CONFIG_SIZE);
    WholeAppend([], second, CONFIG_SIZE);
    assert [] + first == first;
    RecordsAppend(first, second, CONFIG_SIZE);
    assert [first] + [second] == [first, second] && [first, second][..1] == [first] && [first][..0] == [];
    assert d.ApplyConfigs([first]) == d.ApplyConfig(ParseConfig(first));
  }

  lemma PageArrives(r: Reg, u: uid, serial: bytes, page: bytes)
    requires u != r.me && u in r.devices && |page| < 0x1_0000 && Idle(r.devices[u].TakeConfigPage(page, 0), u, serial)
    ensures Enabled(r, From(u, OP_SYS_BAY_CONFIG, page))
    ensures Next(r, From(u, OP_SYS_BAY_CONFIG, page)) == r.With(r.devices[u].TakeConfigPage(page, 0))
  {
    hide Handle;
    hide Device.TakeConfigPage;
    hide Enabled;
    hide Next;
    var f := Sent(u, OP_SYS_BAY_CONFIG, 0, page);
    FrameRoundTrip(u, OP_SYS_BAY_CONFIG, 0, page);
    Dispatched(r, f);
    Becomes(r, u, OP_SYS_BAY_CONFIG, page, r.devices[u].TakeConfigPage(page, 0));
  }

  // ---- mappings ----

  /** Two inputs numbered as their ports. */
  ghost predicate TwoInputs(d: Device, names: (bytes, bytes), from: (uid, uid)) {
    && d.bays.Keys == {0, 1}
    && BayIs(d.bays[0], BayId(d.uid, 0), names.0, V2IP_SOURCE_REMOTE, from.0)
    && BayIs(d.bays[1], BayId(d.uid, 1), names.1, V2IP_SOURCE_REMOTE, from.1)
  }

  lemma NumberedAsPorts(d: Device, names: (bytes, bytes), from: (uid, uid), port: nat)
    requires TwoInputs(d, names, from) && port < 2
    ensures d.ByMode(true, port) == Some(port)
  {
    assert d.bays[0].IsInput() && !d.bays[0].IsOutput() && d.bays[1].IsInput() && !d.bays[1].IsOutput();
    assert d.Numbered(true, port) == {port};
  }

  lemma Mapped(d: Device, names: (bytes, bytes), from: (uid, uid), port: nat, source: uid)
    requires TwoInputs(d, names, from) && port < 2
    ensures var e := d.OnBay(port, OpV2ipUid(source));
            && TwoInputs(e, names, if port == 0 then (source, from.1) else (from.0, source))
            && e.uid == d.uid && e.hello == d.hello && e.sources == d.sources
            && e.online == d.online && e.lastPing == d.lastPing
  {
  }

  lemma MappingLayout(first: u16, sources: seq<uid>)
    requires 0 < |sources| <= 2
    ensures var p := MappingPayload(first, sources);
            && |p| == 8 + 16 * |sources| && U16(p, 0) == 2 * |sources| + 1 && U16(p, 2) == first
            && p[8..24] == sources[0] && (|sources| == 2 ==> p[24..40] == sources[1])
  {
    var p := MappingPayload(first, sources);
    assert p[..2] == Wire16(2 * |sources| + 1) && p[2..4] == Wire16(first);
    U16Slice(p, 0, 2 * |sources| + 1);
    U16Slice(p, 2, first);
  }

  lemma MappingReads(u: uid, first: u16, sources: seq<uid>)
    requires 0 < |sources| <= 2
    ensures var f := Sent(u, OP_V2IP_BAY_MAPPINGS, 0, MappingPayload(first, sources));
            && f.U16At(0) == Some(2 * |sources| + 1) && f.U16At(2) == Some(first)
            && f.UidAt(8) == Some(sources[0]) && (|sources| == 2 ==> f.UidAt(24) == Some(sources[1]))
  {
    hide MappingPayload;
    hide U16;
    hide RawFrame.U16At;
    hide RawFrame.UidAt;
    var p := MappingPayload(first, sources);
    MappingLayout(first, sources);
    AccessorsReadPayload(u, OP_V2IP_BAY_MAPPINGS, 0, p, 0);
    AccessorsReadPayload(u, OP_V2IP_BAY_MAPPINGS, 0, p, 2);
    AccessorsReadPayload(u, OP_V2IP_BAY_MAPPINGS, 0, p, 8);
    AccessorsReadPayload(u, OP_V2IP_BAY_MAPPINGS, 0, p, 24);
  }

  /** The inputs after a mapping that ends with the second of them. */
  lemma BothMapped(d: Device, f: RawFrame, names: (bytes, bytes), from: (uid, uid), sources: seq<uid>) returns (e: Device)
    requires TwoInputs(d, names, from) && 0 < |sources| <= 2
    requires f.UidAt(8) == Some(sources[0]) && (|sources| == 2 ==> f.UidAt(24) == Some(sources[1]))
    ensures e == TakeMappings(d, f, true, 2 - |sources|, |sources|)
    ensures TwoInputs(e, names, if |sources| == 1 then (from.0, sources[0]) else (sources[0], sources[1]))
    ensures e.uid == d.uid && e.hello == d.hello && e.sources == d.sources && e.online == d.online && e.lastPing == d.lastPing
  {
    hide TwoInputs;
    hide RawFrame.UidAt;
    hide Device.ByMode;
    hide Device.OnBay;
    var first := 2 - |sources|;
    NumberedAsPorts(d, names, from, first);
    assert TakeMappings(d, f, true, first, 0) == d;
    Mapped(d, names, from, first, sources[0]);
    e := d.OnBay(first, OpV2ipUid(sources[0])) by { ByModeKnown(d, true, first); }
    assert e == TakeMappings(d, f, true, first, 1);
    if |sources| == 2 {
      var half := e;
      NumberedAsPorts(half, names, (sources[0], from.1), 1);
      Mapped(half, names, (sources[0], from.1), 1, sources[1]);
      e := half.OnBay(1, OpV2ipUid(sources[1])) by { ByModeKnown(half, true, 1); }
      assert e == TakeMappings(d, f, true, first, 2);
    }
  }

  lemma MappingArrives(r: Reg, u: uid, serial: bytes, names: (bytes, bytes), from: (uid, uid), sources: seq<uid>)
    returns (e: Device)
    requires u != r.me && u in r.devices && Idle(r.devices[u], u, serial) && TwoInputs(r.devices[u], names, from)
    requires 0 < |sources| <= 2
    ensures var step := From(u, OP_V2IP_BAY_MAPPINGS, MappingPayload(2 - |sources|, sources));
            Enabled(r, step) && Next(r, step) == r.With(e)
    ensures Idle(e, u, serial)
    ensures TwoInputs(e, names, if |sources| == 1 then (from.0, sources[0]) else (sources[0], sources[1]))
  {
    hide Handle;
    hide Enabled;
    hide Next;
    hide TwoInputs;
    hide TakeMappings;
    hide RawFrame.U16At;
    hide RawFrame.UidAt;
    var payload := MappingPayload(2 - |sources|, sources);
    var f := Sent(u, OP_V2IP_BAY_MAPPINGS, 0, payload);
    FrameRoundTrip(u, OP_V2IP_BAY_MAPPINGS, 0, payload);
    MappingReads(u, 2 - |sources|, sources);
    Dispatched(r, f);
    e := BothMapped(r.devices[u], f, names, from, sources);
    Becomes(r, u, OP_V2IP_BAY_MAPPINGS, payload, e);
  }

  // ---- links ----

  lemma LinkArrives(r: Reg, u: uid, serial: bytes, port: byte, to: bytes, bay: bytes)
    requires u != r.me && u in r.devices && Idle(r.devices[u], u, serial) && port as nat in r.devices[u].bays
    requires (to == [] || Label(to)) && (bay == [] || Label(bay))
    ensures var d, step := r.devices[u], From(u, OP_SYS_LINKS, LinkRecord(port, to, bay));
            && Enabled(r, step)
            && Next(r, step)
               == r.(book := r.book.Update(d.KeyOf(d.bays[port as nat]), Link(BayId(u, port), to, bay, 0)))
                  .With(d.LinksReceived())
    ensures Idle(r.devices[u].LinksReceived(), u, serial)
  {
    hide Handle;
    hide Enabled;
    hide Next;
    hide Label;
    hide Fixed;
    hide CStr;
    hide Device.KeyOf;
    hide Device.Complete;
    hide Book.Update;
    var d, rec := r.devices[u], LinkRecord(port, to, bay);
    var f := Sent(u, OP_SYS_LINKS, 0, rec);
    LinkRecordReads(port, to, bay);
    FrameRoundTrip(u, OP_SYS_LINKS, 0, rec);
    Dispatched(r, f);
    WholeAppend([], rec, LINK_SIZE);
    OneLink(r.book, d, rec);
    Becomes(r, u, OP_SYS_LINKS, rec, d.LinksReceived());
  }

  lemma OneLink(b: Book, d: Device, rec: bytes)
    requires |rec| == LINK_SIZE
    ensures TakeLinks(b, d, [rec]) == TakeLink(b, d, rec)
  {
    hide TakeLink;
    assert [rec][..0] == [];
  }

  // ---- the run ----

  /** Two devices: a box with two inputs, mapped to two sources, and an amplifier. named
      is the input the amplifier links its speaker to. */
  datatype Setup = Setup(me: uid, box: uid, amp: uid, source: uid, otherSource: uid, boxSerial: bytes, ampSerial: bytes,
                         input: bytes, otherInput: bytes, speaker: bytes, named: bytes)
  {
    predicate Proper() {
      && me != box && me != amp && box != amp && source != otherSource && source != amp && otherSource != amp
      && !Empty(source) && !Empty(otherSource)
      && Label(boxSerial) && Label(ampSerial) && boxSerial != ampSerial
      && Label(input) && Label(otherInput) && Label(speaker) && input != otherInput
      && (named == input || named == otherInput)
    }

    function Names(): (bytes, bytes) { (input, otherInput) }

    /** Both devices say hello and describe their bays. The second input is mapped to the
        first source and links to the speaker; then the first input takes that source
        over, and the speaker links to an input. */
    function Steps(): seq<Step> {
      [From(box, OP_SYS_HELLO, HelloPayload(Hello(0x22, [], boxSerial, [], 0))),
       From(amp, OP_SYS_HELLO, HelloPayload(Hello(0x22, [], ampSerial, [], 0))),
       From(box, OP_SYS_BAY_CONFIG,
            ConfigRecord(0, input, V2IP_SOURCE_REMOTE) + ConfigRecord(1, otherInput, V2IP_SOURCE_REMOTE)),
       From(amp, OP_SYS_BAY_CONFIG, ConfigRecord(0, speaker, AUDIO_ANA_OUT)),
       From(box, OP_V2IP_BAY_MAPPINGS, MappingPayload(1, [source])),
       From(box, OP_SYS_LINKS, LinkRecord(1, ampSerial, speaker)),
       From(box, OP_V2IP_BAY_MAPPINGS, MappingPayload(0, [source, otherSource])),
       From(amp, OP_SYS_LINKS, LinkRecord(0, boxSerial, named))]
    }

    function OldLink(): Link { Link(BayId(box, 1), ampSerial, speaker, 0) }

    function AmpLink(): Link { Link(BayId(amp, 0), boxSerial, named, 0) }
  }

  ghost predicate Boxed(d: Device, s: Setup, from: (uid, uid)) {
    Idle(d, s.box, s.boxSerial) && TwoInputs(d, s.Names(), from)
  }

  ghost predicate Amped(d: Device, s: Setup) {
    && Idle(d, s.amp, s.ampSerial) && d.bays.Keys == {0}
    && BayIs(d.bays[0], BayId(s.amp, 0), s.speaker, AUDIO_ANA_OUT, ZERO_UID)
  }

  ghost predicate Stage(r: Reg, s: Setup, from: (uid, uid), b: Book) {
    && r.me == s.me && r.devices.Keys == {s.box, s.amp} && r.book == b
    && Boxed(r.devices[s.box], s, from) && Amped(r.devices[s.amp], s)
  }

  lemma BoxDescribed(d: Device, s: Setup)
    requires s.Proper() && Idle(d, s.box, s.boxSerial) && d.bays == map[]
    ensures var page := ConfigRecord(0, s.input, V2IP_SOURCE_REMOTE) + ConfigRecord(1, s.otherInput, V2IP_SOURCE_REMOTE);
            |page| < 0x1_0000 && Boxed(d.TakeConfigPage(page, 0), s, (ZERO_UID, ZERO_UID))
  {
    hide Device.ApplyConfig;
    hide ConfigRecord;
    hide Device.TakeConfigPage;
    hide Label;
    var first, second := ConfigRecord(0, s.input, V2IP_SOURCE_REMOTE), ConfigRecord(1, s.otherInput, V2IP_SOURCE_REMOTE);
    ConfigRecordReads(0, s.input, V2IP_SOURCE_REMOTE);
    ConfigRecordReads(1, s.otherInput, V2IP_SOURCE_REMOTE);
    TwoRecords(d, first, second);
    NewDescribed(d, s.box, s.boxSerial, ParseConfig(first));
    NewDescribed(d.ApplyConfig(ParseConfig(first)), s.box, s.boxSerial, ParseConfig(second));
  }

  lemma AmpDescribed(d: Device, s: Setup)
    requires s.Proper() && Idle(d, s.amp, s.ampSerial) && d.bays == map[]
    ensures var page := ConfigRecord(0, s.speaker, AUDIO_ANA_OUT);
            |page| < 0x1_0000 && Amped(d.TakeConfigPage(page, 0), s)
  {
    hide Device.ApplyConfig;
    hide ConfigRecord;
    hide Device.TakeConfigPage;
    hide Label;
    var rec := ConfigRecord(0, s.speaker, AUDIO_ANA_OUT);
    ConfigRecordReads(0, s.speaker, AUDIO_ANA_OUT);
    OneRecord(d, rec);
    NewDescribed(d, s.amp, s.ampSerial, ParseConfig(rec));
  }

  /** The key of an input is the source it is mapped to, and its own when to none. */
  lemma InputKey(d: Device, names: (bytes, bytes), from: (uid, uid), port: nat)
    requires TwoInputs(d, names, from) && d.sources.None? && port < 2
    ensures d.KeyOf(d.bays[port])
         == var u := if port == 0 then from.0 else from.1; if Empty(u) then BayId(d.uid, port) else BayId(u, 0)
  {
  }

  lemma SpeakerKey(d: Device, s: Setup)
    requires Amped(d, s)
    ensures d.KeyOf(d.bays[0]) == BayId(s.amp, 0)
  {
  }

  lemma Announced(s: Setup) returns (r: Reg)
    requires s.Proper()
    ensures Run(s.me, s.Steps()[..4]) == Some(r) && Stage(r, s, (ZERO_UID, ZERO_UID), EMPTY_BOOK)
  {
    hide Enabled;
    hide Next;
    hide Run;
    hide From;
    hide Label;
    hide HelloPayload;
    hide ConfigRecord;
    hide MappingPayload;
    hide LinkRecord;
    hide Device.TakeConfigPage;
    var steps, r0 := s.Steps(), EmptyRegistry(s.me);
    RunOfNothing(s.me);
    assert steps[..0] == [];
    HelloArrives(r0, s.box, s.boxSerial);
    Ran(s.me, steps, 0, r0);
    var r1 := Next(r0, steps[0]);
    HelloArrives(r1, s.amp, s.ampSerial);
    Ran(s.me, steps, 1, r1);
    var r2 := Next(r1, steps[1]);
    BoxDescribed(r2.devices[s.box], s);
    PageArrives(r2, s.box, s.boxSerial,
                ConfigRecord(0, s.input, V2IP_SOURCE_REMOTE) + ConfigRecord(1, s.otherInput, V2IP_SOURCE_REMOTE));
    Ran(s.me, steps, 2, r2);
    var r3 := Next(r2, steps[2]);
    AmpDescribed(r3.devices[s.amp], s);
    PageArrives(r3, s.amp, s.ampSerial, ConfigRecord(0, s.speaker, AUDIO_ANA_OUT));
    Ran(s.me, steps, 3, r3);
    r := Next(r3, steps[3]);
  }

  lemma RunOfNothing(me: uid)
    ensures Run(me, []) == Some(EmptyRegistry(me))
  {
  }

  lemma Ran(me: uid, steps: seq<Step>, n: nat, r: Reg)
    requires n < |steps| && Run(me, steps[..n]) == Some(r) && Enabled(r, steps[n])
    ensures Run(me, steps[..n + 1]) == Some(Next(r, steps[n]))
  {
    hide Enabled;
    hide Next;
    RunNext(me, steps[..n], r, steps[n]);
    assert steps[..n] + [steps[n]] == steps[..n + 1];
  }

  lemma BoxLinks(r: Reg, s: Setup, from: (uid, uid), port: byte, to: bytes, bay: bytes) returns (t: Reg)
    requires s.Proper() && Stage(r, s, from, r.book) && port < 2
    requires (to == [] || Label(to)) && (bay == [] || Label(bay))
    ensures var step := From(s.box, OP_SYS_LINKS, LinkRecord(port, to, bay)); Enabled(r, step) && t == Next(r, step)
    ensures var u := if port == 0 then from.0 else from.1;
            var key := if Empty(u) then BayId(s.box, port) else BayId(u, 0);
            Stage(t, s, from, r.book.Update(key, Link(BayId(s.box, port), to, bay, 0)))
  {
    hide Enabled;
    hide Next;
    hide From;
    hide Label;
    hide LinkRecord;
    hide Device.KeyOf;
    hide Device.Complete;
    hide Book.Update;
    LinkArrives(r, s.box, s.boxSerial, port, to, bay);
    InputKey(r.devices[s.box], s.Names(), from, port);
    t := Next(r, From(s.box, OP_SYS_LINKS, LinkRecord(port, to, bay)));
  }

  lemma AmpLinks(r: Reg, s: Setup, from: (uid, uid)) returns (t: Reg)
    requires s.Proper() && Stage(r, s, from, r.book)
    ensures var step := From(s.amp, OP_SYS_LINKS, LinkRecord(0, s.boxSerial, s.named)); Enabled(r, step) && t == Next(r, step)
    ensures Stage(t, s, from, r.book.Update(BayId(s.amp, 0), s.AmpLink()))
  {
    hide Enabled;
    hide Next;
    hide From;
    hide Label;
    hide LinkRecord;
    hide Device.KeyOf;
    hide Device.Complete;
    hide Book.Update;
    LinkArrives(r, s.amp, s.ampSerial, 0, s.boxSerial, s.named);
    SpeakerKey(r.devices[s.amp], s);
    t := Next(r, From(s.amp, OP_SYS_LINKS, LinkRecord(0, s.boxSerial, s.named)));
  }

  lemma BoxMapped(r: Reg, s: Setup, from: (uid, uid), sources: seq<uid>) returns (t: Reg)
    requires s.Proper() && Stage(r, s, from, r.book) && 0 < |sources| <= 2
    ensures var step := From(s.box, OP_V2IP_BAY_MAPPINGS, MappingPayload(2 - |sources|, sources));
            Enabled(r, step) && t == Next(r, step)
    ensures Stage(t, s, if |sources| == 1 then (from.0, sources[0]) else (sources[0], sources[1]), r.book)
  {
    hide Enabled;
    hide Next;
    hide From;
    hide Label;
    hide MappingPayload;
    hide TwoInputs;
    var e := MappingArrives(r, s.box, s.boxSerial, s.Names(), from, sources);
    t := Next(r, From(s.box, OP_V2IP_BAY_MAPPINGS, MappingPayload(2 - |sources|, sources)));
  }

  /** The book of the run, and the run itself. */
  function StaleBook(s: Setup): Book {
    EMPTY_BOOK.Update(BayId(s.source, 0), s.OldLink()).Update(BayId(s.amp, 0), s.AmpLink())
  }

  lemma StaleRun(s: Setup) returns (r: Reg)
    requires s.Proper()
    ensures Run(s.me, s.Steps()) == Some(r) && Stage(r, s, (s.source, s.otherSource), StaleBook(s))
  {
    hide Enabled;
    hide Next;
    hide Run;
    hide From;
    hide Label;
    hide HelloPayload;
    hide ConfigRecord;
    hide MappingPayload;
    hide LinkRecord;
    hide Boxed;
    hide Amped;
    hide Book.Update;
    var steps := s.Steps();
    var r4 := Announced(s);
    var r5 := BoxMapped(r4, s, (ZERO_UID, ZERO_UID), [s.source]);
    Ran(s.me, steps, 4, r4);
    var r6 := BoxLinks(r5, s, (ZERO_UID, s.source), 1, s.ampSerial, s.speaker);
    Ran(s.me, steps, 5, r5);
    var r7 := BoxMapped(r6, s, (ZERO_UID, s.source), [s.source, s.otherSource]);
    Ran(s.me, steps, 6, r6);
    r := AmpLinks(r7, s, (s.source, s.otherSource));
    Ran(s.me, steps, 7, r7);
    assert steps[..8] == steps;
  }

  // ---- what the run leads to ----

  lemma StaleKeys(r: Reg, s: Setup)
    requires s.Proper() && Stage(r, s, (s.source, s.otherSource), StaleBook(s))
    ensures forall id :: r.Knows(id) <==> id in {BayId(s.box, 0), BayId(s.box, 1), BayId(s.amp, 0)}
    ensures KeyAt(r, BayId(s.box, 0)) == BayId(s.source, 0)
    ensures KeyAt(r, BayId(s.box, 1)) == BayId(s.otherSource, 0)
    ensures KeyAt(r, BayId(s.amp, 0)) == BayId(s.amp, 0)
  {
    hide Device.KeyOf;
    InputKey(r.devices[s.box], s.Names(), (s.source, s.otherSource), 0);
    InputKey(r.devices[s.box], s.Names(), (s.source, s.otherSource), 1);
    SpeakerKey(r.devices[s.amp], s);
  }

  lemma StaleDistinct(r: Reg, s: Setup)
    requires s.Proper() && Stage(r, s, (s.source, s.otherSource), StaleBook(s))
    ensures LinkSymmetry.Distinct(r)
  {
    hide KeyAt;
    StaleKeys(r, s);
  }

  lemma StaleStores(s: Setup)
    requires s.Proper()
    ensures StaleBook(s).links == map[BayId(s.source, 0) := s.OldLink(), BayId(s.amp, 0) := s.AmpLink()]
  {
  }

  /** The connected link in question, and the bay at its other end. */
  function LinkKey(s: Setup): BayId { if s.named == s.input then BayId(s.amp, 0) else BayId(s.source, 0) }

  function FarBay(s: Setup): BayId { if s.named == s.input then BayId(s.box, 0) else BayId(s.amp, 0) }

  /** A link that is connected while the one at its other end is not. */
  ghost predicate OneSided(r: Reg, l: Link, id: BayId) {
    r.Knows(l.origin) && ConnectedAt(r, l, id) && r.Knows(OtherEnd(r, l, id).origin) && !Connected(r, OtherEnd(r, l, id))
  }

  lemma StaleEnds(r: Reg, s: Setup)
    requires s.Proper() && Stage(r, s, (s.source, s.otherSource), StaleBook(s)) && BookOk(r)
    ensures LinkKey(s) in r.book.links && OneSided(r, r.book.links[LinkKey(s)], FarBay(s))
  {
    StaleDistinct(r, s);
    StaleKeys(r, s);
    StaleStores(s);
    hide KeyAt;
    hide LinkSymmetry.Distinct;
    hide StaleBook;
    var l := r.book.links[LinkKey(s)];
    EndIsNamed(r, l, FarBay(s));
    assert ConnectedAt(r, l, FarBay(s));
    ConnectedBack(r, l, FarBay(s));
  }

  /** Every one of these runs ends with distinct names throughout and a connected link
      whose other end is not connected. Where the speaker's link names the input that
      now holds the source, it is the speaker's own: the link stored under that source
      was made by the other input. Where it names that other input, it is the link this
      one made: its present key leads nowhere. */
  lemma StaleKeyBreaksSymmetry(s: Setup)
    requires s.Proper()
    ensures Run(s.me, s.Steps()).Some?
    ensures var r := Run(s.me, s.Steps()).value;
            && WellFormed(r) && LinkSymmetry.Distinct(r)
            && LinkKey(s) in r.book.links && OneSided(r, r.book.links[LinkKey(s)], FarBay(s))
  {
    hide Setup.Steps;
    hide Run;
    hide LinkSymmetry.Distinct;
    hide OneSided;
    hide Stage;
    var r := StaleRun(s);
    RegistryStaysWellFormed(s.me, s.Steps());
    StaleDistinct(r, s);
    StaleEnds(r, s);
  }

  /** When the first input then takes its link away, it is the one told that the second
      one's link is gone. */
  lemma StaleKeyUnlinksAnother(s: Setup)
    requires s.Proper()
    ensures var run := Run(s.me, s.Steps() + [From(s.box, OP_SYS_LINKS, LinkRecord(0, [], []))]);
            run.Some? && !SameBays(run.value.book.log)
  {
    hide Setup.Steps;
    hide Run;
    hide From;
    hide LinkRecord;
    hide Boxed;
    hide Amped;
    hide Enabled;
    hide Next;
    var r := StaleRun(s);
    var t := BoxLinks(r, s, (s.source, s.otherSource), 0, [], []);
    RunNext(s.me, s.Steps(), r, From(s.box, OP_SYS_LINKS, LinkRecord(0, [], [])));
    RegistryStaysWellFormed(s.me, s.Steps());
    var w := Write(BayId(s.source, 0), Link(BayId(s.box, 0), [], [], 0));
    StaleStores(s);
    hide StaleBook;
    UpdateSameBays(r.book, w);
    assert Overtakes(r.book, w);
  }

  /** Such setups exist, with the speaker linked to either input. */
  lemma SetupExists(first: bool)
    ensures exists s: Setup :: s.Proper() && (s.named == s.input <==> first)
  {
    var one: uid := [1, 0, 0, 0, 0, 0, 0, 0, 0, 0, 0, 0, 0, 0, 0, 0];
    var two: uid := [2, 0, 0, 0, 0, 0, 0, 0, 0, 0, 0, 0, 0, 0, 0, 0];
    var three: uid := [3, 0, 0, 0, 0, 0, 0, 0, 0, 0, 0, 0, 0, 0, 0, 0];
    var four: uid := [4, 0, 0, 0, 0, 0, 0, 0, 0, 0, 0, 0, 0, 0, 0, 0];
    assert one[0] == 1 && two[0] == 2 && three[0] == 3 && four[0] == 4 && ZERO_UID[0] == 0;
    var s := Setup(ZERO_UID, one, two, three, four, [98], [97], [121], [122], [120], if first then [121] else [122]);
    assert [98][0] != [97][0] && [121][0] != [122][0];
    assert s.Proper() && (s.named == s.input <==> first);
  }
}
