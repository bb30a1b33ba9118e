/** The cached state of one bay. Every attribute change goes through a setter that
    stores the value and notifies when what a reader sees has changed; log is what
    the bay has notified so far. */
module BayModel {
  import opened Bytes
  import opened Control

  const HDMI_OUT: nat := 0x1
  const HDMI_IN: nat := 0x2
  const AUDIO_DIG_OUT: nat := 0x4
  const AUDIO_DIG_IN: nat := 0x8
  const AUDIO_ANA_OUT: nat := 0x10
  const AUDIO_ANA_IN: nat := 0x20
  const IR_IN: nat := 0x40
  const IR_OUT: nat := 0x80
  const AUDIO_AMP_OUT: nat := 0x100
  const RC_OUT: nat := 0x200
  const RC_IN: nat := 0x400
  const V2IP_SOURCE_REMOTE: nat := 0x2000
  const V2IP_SINK_REMOTE: nat := 0x4000
  const V2IP_SOURCE_LOCAL: nat := 0x8000
  const V2IP_SINK_LOCAL: nat := 0x1_0000

  const STATUS_FAULT: nat := 0x1
  const STATUS_HIDDEN: nat := 0x2
  const STATUS_POWERED: nat := 0x4
  const STATUS_SIGNAL: nat := 0x8
  const STATUS_HPD: nat := 0x10
  const STATUS_HDBT: nat := 0x40
  const STATUS_CEC: nat := 0x80
  const STATUS_POWERED_ON: nat := 0x100
  const STATUS_POWERED_OFF: nat := 0x200
  const STATUS_ARC_HDMI: nat := 0x400
  const STATUS_ARC_OPTICAL: nat := 0x800
  const STATUS_ARC_ANALOG: nat := 0x1000
  const STATUS_DECODER_OFF: nat := 0x4000
  const STATUS_ENCODER_OFF: nat := 0x8000

  datatype Flag = Faulty | Hidden | Poe | Hdbt | Hpd | Cec | Signal | EncoderOff | DecoderOff

  datatype PowerStatus = PowerUnknown | PowerOn | PowerOff

  datatype ArcStatus = ArcNone | ArcHdmi | ArcOptical | ArcAnalog

  /** The attributes whose changes are notified with their new value. */
  datatype Kind = Name | State(flag: Flag) | SignalType | Arc | Power | Mirror | Filter | Amp | Level | RcType | Edid

  datatype Value =
    | Text(text: bytes)
    | Truth(on: bool)
    | ArcIs(arc: ArcStatus)
    | PowerIs(power: PowerStatus)
    | MirrorIs(master: Option<BayId>)
    | FilterIs(devices: seq<uid>)
    | AmpIs(zone: Option<AmpZone>)
    | LevelIs(volume: Option<Volume>)
    | CodeIs(code: Option<int>)

  /** One notice. A bay's specific callback, the generic one and the registered ones
      are queued together and are one notice here. */
  datatype Event = Changed(kind: Kind, value: Value) | Routed(audio: bool, source: BayId) | Registered

  const UNKNOWN_SIGNAL: bytes := [0x75, 0x6E, 0x6B, 0x6E, 0x6F, 0x77, 0x6E] // "unknown"

  datatype Put = Put(kind: Kind, value: Value)

  /** attrs holds the attributes that have been set. */
  datatype Bay = Bay(
    id: BayId, portName: bytes, number: Option<nat>, features: u32, status: u32, signalMode: u16,
    video: Option<BayId>, audio: Option<BayId>, v2ipUid: uid,
    attrs: map<Kind, Value>, log: seq<Event>)
  {
    predicate IsV2ipSource() { Has(features, V2IP_SOURCE_LOCAL) || Has(features, V2IP_SOURCE_REMOTE) }

    predicate IsV2ipSink() { Has(features, V2IP_SINK_LOCAL) || Has(features, V2IP_SINK_REMOTE) }

    predicate IsLocal() { !(Has(features, V2IP_SINK_REMOTE) || Has(features, V2IP_SOURCE_REMOTE)) }

    predicate IsInput() {
      Has(features, HDMI_IN) || Has(features, AUDIO_DIG_IN) || Has(features, AUDIO_ANA_IN) || IsV2ipSource()
    }

    predicate IsOutput() {
      Has(features, HDMI_OUT) || Has(features, AUDIO_AMP_OUT) || Has(features, AUDIO_DIG_OUT)
      || Has(features, AUDIO_ANA_OUT) || IsV2ipSink()
    }

    predicate IsHdmiInput() { (Has(features, HDMI_IN) || Has(features, HDMI_OUT)) && IsInput() }

    predicate HasVolumeControl() {
      Has(features, AUDIO_ANA_OUT) || Has(features, AUDIO_AMP_OUT) || Has(features, AUDIO_ANA_IN) || Has(features, AUDIO_DIG_IN)
    }

    /** What a reader sees of an attribute, with the default it has before it is set. */
    function Read(kind: Kind): Value { if kind in attrs then attrs[kind] else Initial(portName, kind) }

    predicate On(flag: Flag) { Read(State(flag)) == Truth(true) }

    /** The volume a reader sees of a bay that keeps one itself. */
    function ShownVolume(): Option<int> {
      var v := Read(Level);
      if HasVolumeControl() && v.LevelIs? && v.volume.Some? then Some(v.volume.value.Combined()) else None
    }

    function AudioSource(): Option<BayId> { if audio.None? then video else audio }

    /** Stores a value, and notifies it when it is not what a reader saw before. */
    function Set(kind: Kind, value: Value): Bay {
      this.(attrs := attrs[kind := value], log := log + if Read(kind) == value then [] else [Changed(kind, value)])
    }

    function SetAll(puts: seq<Put>): Bay {
      if puts == [] then this
      else SetAll(puts[..|puts| - 1]).Set(puts[|puts| - 1].kind, puts[|puts| - 1].value)
    }

    /** Only bays with volume control keep a volume; what a request leaves unknown stays. */
    function SetVolume(v: Volume): Bay {
      if !HasVolumeControl() then this else Set(Level, LevelIs(Some(Combine(Read(Level), v))))
    }

    function SetRcType(code: int): Bay { if IsHdmiInput() then Set(RcType, CodeIs(Some(code))) else this }

    function SetEdid(code: int): Bay { if IsHdmiInput() then Set(Edid, CodeIs(Some(code))) else this }

    /** Clearing a route notifies nothing. */
    function SetVideoSource(src: Option<BayId>): Bay {
      if !IsOutput() then this
      else if src.None? then this.(video := None)
      else if video == src then this
      else this.(video := src, log := log + [Routed(false, src.value)])
    }

    /** Notified when the source a reader sees changes, which is the video source
        while no audio source is set. */
    function SetAudioSource(src: Option<BayId>): Bay {
      if !IsOutput() then this
      else if src.None? then this.(audio := None)
      else this.(audio := src, log := log + if AudioSource() == src then [] else [Routed(true, src.value)])
    }

    function ApplySelected(v: Option<BayId>, a: Option<BayId>): Bay {
      var b := if v.Some? then SetVideoSource(v) else this;
      if a.Some? then b.SetAudioSource(a) else b
    }

    function ApplyStatus(data: u32): Bay { SetAll(StatusPuts(data)) }

    function Identify(cfg: Config): Bay {
      this.(features := cfg.features, status := cfg.status, number := if number.None? then Some(cfg.bay) else number)
      .Set(Name, Text(cfg.userName))
    }

    function TakeStatus(cfg: Config): Bay { ApplyStatus(cfg.status).(signalMode := cfg.signalMode) }

    /** A V2IP device's descriptor names the signal only while there is none. */
    function TakeSignalType(cfg: Config, onV2ip: bool): Bay {
      if Has(cfg.status, STATUS_SIGNAL) && onV2ip then this else Set(SignalType, Text(cfg.signalType))
    }

    function TakeSources(cfg: Config, v: Option<BayId>, a: Option<BayId>): Bay {
      if IsOutput() then SetVideoSource(v).SetAudioSource(a) else SetRcType(cfg.rcType).SetEdid(cfg.edidProfile)
    }

    /** A descriptor; v and a are the bays its source ports resolve to. */
    function ApplyConfig(cfg: Config, onV2ip: bool, v: Option<BayId>, a: Option<BayId>): Bay {
      Identify(cfg).TakeStatus(cfg).TakeSignalType(cfg, onV2ip).TakeSources(cfg, v, a)
    }
  }

  function Combine(cached: Value, v: Volume): Volume {
    if cached.LevelIs? && cached.volume.Some? then cached.volume.value.Update(v) else v
  }

  /** What an attribute reads before it is set. */
  function Initial(portName: bytes, kind: Kind): Value {
    match kind
    case Name => Text(portName)
    case State(_) => Truth(false)
    case SignalType => Text(UNKNOWN_SIGNAL)
    case Arc => ArcIs(ArcNone)
    case Power => PowerIs(PowerUnknown)
    case Mirror => MirrorIs(None)
    case Filter => FilterIs([])
    case Amp => AmpIs(None)
    case Level => LevelIs(None)
    case RcType => CodeIs(None)
    case Edid => CodeIs(None)
  }

  /** The attributes a status word sets, in order. */
  function StatusPuts(data: u32): seq<Put> {
    [Put(State(Faulty), Truth(Has(data, STATUS_FAULT))),
     Put(State(Hidden), Truth(Has(data, STATUS_HIDDEN))),
     Put(State(Poe), Truth(Has(data, STATUS_POWERED))),
     Put(State(Hdbt), Truth(Has(data, STATUS_HDBT))),
     Put(State(Hpd), Truth(Has(data, STATUS_HPD))),
     Put(State(Cec), Truth(Has(data, STATUS_CEC))),
     Put(State(Signal), Truth(Has(data, STATUS_SIGNAL))),
     Put(State(EncoderOff), Truth(Has(data, STATUS_ENCODER_OFF))),
     Put(State(DecoderOff), Truth(Has(data, STATUS_DECODER_OFF))),
     Put(Power, PowerIs(PowerFrom(data))),
     Put(Arc, ArcIs(ArcFrom(data)))]
  }

  /** Power is only known of a bay with a CEC device. */
  function PowerFrom(data: u32): PowerStatus {
    if !Has(data, STATUS_CEC) then PowerUnknown
    else if Has(data, STATUS_POWERED_ON) then PowerOn
    else if Has(data, STATUS_POWERED_OFF) then PowerOff
    else PowerUnknown
  }

  function ArcFrom(data: u32): ArcStatus {
    if Has(data, STATUS_ARC_HDMI) then ArcHdmi
    else if Has(data, STATUS_ARC_OPTICAL) then ArcOptical
    else if Has(data, STATUS_ARC_ANALOG) then ArcAnalog
    else ArcNone
  }

  /** What a bay is, by its feature bits. */
  lemma Roles(b: Bay)
    ensures b.IsInput() <==>
              Has(b.features, 0x2) || Has(b.features, 0x8) || Has(b.features, 0x20) || Has(b.features, 0x2000)
              || Has(b.features, 0x8000)
    ensures b.IsOutput() <==>
              Has(b.features, 0x1) || Has(b.features, 0x4) || Has(b.features, 0x10) || Has(b.features, 0x100)
              || Has(b.features, 0x4000) || Has(b.features, 0x1_0000)
    ensures b.IsHdmiInput() <==> b.IsInput() && (Has(b.features, 0x1) || Has(b.features, 0x2))
    ensures b.HasVolumeControl() <==>
              Has(b.features, 0x8) || Has(b.features, 0x10) || Has(b.features, 0x20) || Has(b.features, 0x100)
    ensures b.IsV2ipSource() <==> Has(b.features, 0x2000) || Has(b.features, 0x8000)
    ensures b.IsLocal() <==> !Has(b.features, 0x2000) && !Has(b.features, 0x4000)
  {
    hide Has;
  }

  /** Before anything is set of a bay its name is that of its port, no flag is on, its signal is
      unknown and nothing else is known of it. */
  lemma NothingKnown(b: Bay, flag: Flag)
    requires b.attrs == map[]
    ensures b.Read(Name) == Text(b.portName) && !b.On(flag) && b.Read(SignalType) == Text([117, 110, 107, 110, 111, 119, 110])
    ensures b.Read(Arc) == ArcIs(ArcNone) && b.Read(Power) == PowerIs(PowerUnknown) && b.Read(Mirror) == MirrorIs(None)
    ensures b.Read(Filter) == FilterIs([]) && b.Read(Amp) == AmpIs(None) && b.Read(Level) == LevelIs(None)
    ensures b.Read(RcType) == CodeIs(None) && b.Read(Edid) == CodeIs(None)
  {
  }

  /** An output loses a route without a word; no other bay has one to lose. */
  lemma ClearingIsSilent(b: Bay)
    ensures var v, a := b.SetVideoSource(None), b.SetAudioSource(None);
            && v == b.(video := v.video) && a == b.(audio := a.audio)
            && v.video == (if b.IsOutput() then None else b.video) && a.audio == (if b.IsOutput() then None else b.audio)
  {
  }

  // ---- the 61-byte descriptor ----

  const CONFIG_SIZE: nat := 61

  datatype Config = Config(port: nat, bay: nat, videoSource: nat, audioSource: nat, edidProfile: nat, rcType: nat,
                           bayName: bytes, userName: bytes, signalType: bytes, signalMode: u16,
                           status: u32, features: u32)

  /** Bytes 3 and 4 are the sources of an output, and of an input the EDID profile
      with the remote-control type above it. */
  function ParseConfig(p: bytes): Config
    requires |p| == CONFIG_SIZE
  {
    Config(p[0], p[2], p[3], p[4], 0x100 * (p[4] as int % 16) + p[3], p[4] / 16,
           CStr(p[5..21]), CStr(p[21..37]), CStr(p[37..51]), U16(p, 51), U32(p, 53), U32(p, 57))
  }

  function New(device: uid, cfg: Config): Bay {
    Bay(BayId(device, cfg.port), cfg.bayName, None, cfg.features, cfg.status, 0, None, None, ZERO_UID, map[], [])
  }

  /** Registering a bay is notified as well. */
  function Register(b: Bay): Bay { b.(log := b.log + [Registered]) }

  // ---- replaying the log ----

  /** The values notified for one attribute, oldest first. */
  function Notified(log: seq<Event>, kind: Kind): seq<Value> {
    if log == [] then []
    else
      var e := log[|log| - 1];
      Notified(log[..|log| - 1], kind) + if e.Changed? && e.kind == kind then [e.value] else []
  }

  function Previous(vs: seq<Value>, initial: Value, n: nat): Value
    requires n <= |vs|
  {
    if n == 0 then initial else vs[n - 1]
  }

  /** Replaying the notices gives what is cached, and no notice repeats the one before
      it. */
  ghost predicate Replays(vs: seq<Value>, initial: Value, cached: Value) {
    && cached == Previous(vs, initial, |vs|)
    && (forall n :: 0 <= n < |vs| ==> vs[n] != Previous(vs, initial, n))
    && (initial.Truth? ==> forall n :: 0 <= n < |vs| ==> vs[n].Truth?)
  }

  ghost predicate FaithfulIn(b: Bay, kind: Kind) {
    Replays(Notified(b.log, kind), Initial(b.portName, kind), b.Read(kind))
  }

  ghost predicate Faithful(b: Bay) { forall kind :: FaithfulIn(b, kind) }

  lemma NotifiedNext(log: seq<Event>, e: Event, kind: Kind)
    ensures Notified(log + [e], kind) == Notified(log, kind) + if e.Changed? && e.kind == kind then [e.value] else []
  {
    assert (log + [e])[..|log|] == log;
  }

  lemma ReplaysNext(vs: seq<Value>, initial: Value, cached: Value, v: Value)
    requires Replays(vs, initial, cached) && v != cached && (initial.Truth? ==> v.Truth?)
    ensures Replays(vs + [v], initial, v)
  {
    var ws := vs + [v];
    forall n | 0 <= n < |ws|
      ensures ws[n] != Previous(ws, initial, n)
    {
      assert Previous(ws, initial, n) == Previous(vs, initial, n);
    }
  }

  lemma SetEffect(b: Bay, kind: Kind, value: Value, k: Kind)
    ensures var c := b.Set(kind, value);
            && c.portName == b.portName && c.Read(k) == (if k == kind then value else b.Read(k))
            && c.log == (if b.Read(kind) == value then b.log else b.log + [Changed(kind, value)])
  {
  }

  lemma OnlyFlagsAreTruths(portName: bytes, kind: Kind)
    ensures Initial(portName, kind).Truth? ==> kind.State?
  {
  }

  lemma SetReplays(b: Bay, kind: Kind, value: Value, k: Kind)
    requires FaithfulIn(b, k) && (kind.State? ==> value.Truth?)
    ensures FaithfulIn(b.Set(kind, value), k)
  {
    hide Bay.Set;
    hide Bay.Read;
    hide Initial;
    hide Notified;
    hide Replays;
    SetEffect(b, kind, value, k);
    OnlyFlagsAreTruths(b.portName, k);
    if b.Read(kind) != value {
      NotifiedNext(b.log, Changed(kind, value), k);
      if k == kind {
        ReplaysNext(Notified(b.log, k), Initial(b.portName, k), b.Read(k), value);
      } else {
        assert Notified(b.log, k) + [] == Notified(b.log, k);
      }
    }
  }

  /** What setting an attribute leaves alone: the bay's identity, features, number and
      routes, and what has been notified already. */
  ghost predicate Kept(b: Bay, after: Bay) {
    && after.id == b.id && after.portName == b.portName && after.features == b.features && after.number == b.number
    && after.video == b.video && after.audio == b.audio && b.log <= after.log
  }

  lemma SetFaithful(b: Bay, kind: Kind, value: Value)
    requires Faithful(b) && (kind.State? ==> value.Truth?)
    ensures Faithful(b.Set(kind, value)) && Kept(b, b.Set(kind, value))
  {
    forall k
      ensures FaithfulIn(b.Set(kind, value), k)
    {
      SetReplays(b, kind, value, k);
    }
  }

  lemma {:induction false} SetAllFaithful(b: Bay, puts: seq<Put>)
    requires Faithful(b) && forall i :: 0 <= i < |puts| && puts[i].kind.State? ==> puts[i].value.Truth?
    ensures Faithful(b.SetAll(puts)) && Kept(b, b.SetAll(puts))
  {
    if puts != [] {
      var front, last := puts[..|puts| - 1], puts[|puts| - 1];
      SetAllFaithful(b, front);
      SetFaithful(b.SetAll(front), last.kind, last.value);
    }
  }

  lemma SilentFaithful(b: Bay, after: Bay)
    requires Faithful(b) && after.portName == b.portName && after.attrs == b.attrs
    requires after.log == b.log || exists e: Event :: !e.Changed? && after.log == b.log + [e]
    ensures Faithful(after)
  {
    forall k
      ensures FaithfulIn(after, k)
    {
      assert FaithfulIn(b, k);
      assert after.Read(k) == b.Read(k);
      if after.log != b.log {
        var e: Event :| !e.Changed? && after.log == b.log + [e];
        NotifiedNext(b.log, e, k);
        assert Notified(after.log, k) == Notified(b.log, k);
      }
    }
  }

  // ---- every operation keeps it ----

  /** A route leads to where it led before or to a bay it was given. */
  ghost predicate RoutesFrom(b: Bay, after: Bay, sources: set<BayId>) {
    && after.id == b.id && after.portName == b.portName && b.log <= after.log
    && (after.video.Some? && after.video != b.video ==> after.video.value in sources)
    && (after.audio.Some? && after.audio != b.audio ==> after.audio.value in sources)
  }

  function Just(ref: Option<BayId>): set<BayId> { if ref.None? then {} else {ref.value} }

  lemma VideoFaithful(b: Bay, src: Option<BayId>)
    requires Faithful(b)
    ensures Faithful(b.SetVideoSource(src)) && RoutesFrom(b, b.SetVideoSource(src), Just(src))
    ensures b.SetVideoSource(src).number == b.number
  {
    var c := b.SetVideoSource(src);
    assert c.log != b.log ==> c.log == b.log + [Routed(false, src.value)];
    SilentFaithful(b, c);
  }

  lemma AudioFaithful(b: Bay, src: Option<BayId>)
    requires Faithful(b)
    ensures Faithful(b.SetAudioSource(src)) && RoutesFrom(b, b.SetAudioSource(src), Just(src))
    ensures b.SetAudioSource(src).number == b.number
  {
    var c := b.SetAudioSource(src);
    assert c.log != b.log ==> c.log == b.log + [Routed(true, src.value)];
    SilentFaithful(b, c);
  }

  lemma SelectedFaithful(b: Bay, v: Option<BayId>, a: Option<BayId>)
    requires Faithful(b)
    ensures Faithful(b.ApplySelected(v, a)) && RoutesFrom(b, b.ApplySelected(v, a), Just(v) + Just(a))
    ensures b.ApplySelected(v, a).number == b.number
  {
    VideoFaithful(b, v);
    AudioFaithful(if v.Some? then b.SetVideoSource(v) else b, a);
  }

  lemma IdentifyFaithful(b: Bay, cfg: Config)
    requires Faithful(b)
    ensures Faithful(b.Identify(cfg)) && RoutesFrom(b, b.Identify(cfg), {}) && b.Identify(cfg).number.Some?
  {
    var c := b.(features := cfg.features, status := cfg.status, number := if b.number.None? then Some(cfg.bay) else b.number);
    SilentFaithful(b, c);
    SetFaithful(c, Name, Text(cfg.userName));
  }

  lemma TakeStatusFaithful(b: Bay, cfg: Config)
    requires Faithful(b)
    ensures Faithful(b.TakeStatus(cfg)) && Kept(b, b.TakeStatus(cfg))
  {
    SetAllFaithful(b, StatusPuts(cfg.status));
    SilentFaithful(b.ApplyStatus(cfg.status), b.TakeStatus(cfg));
  }

  lemma TakeSourcesFaithful(b: Bay, cfg: Config, v: Option<BayId>, a: Option<BayId>)
    requires Faithful(b)
    ensures Faithful(b.TakeSources(cfg, v, a)) && RoutesFrom(b, b.TakeSources(cfg, v, a), Just(v) + Just(a))
    ensures b.TakeSources(cfg, v, a).number == b.number
  {
    if b.IsOutput() {
      VideoFaithful(b, v);
      AudioFaithful(b.SetVideoSource(v), a);
    } else if b.IsHdmiInput() {
      SetFaithful(b, RcType, CodeIs(Some(cfg.rcType)));
      SetFaithful(b.SetRcType(cfg.rcType), Edid, CodeIs(Some(cfg.edidProfile)));
    }
  }

  lemma ConfigFaithful(b: Bay, cfg: Config, onV2ip: bool, v: Option<BayId>, a: Option<BayId>)
    requires Faithful(b)
    ensures var c := b.ApplyConfig(cfg, onV2ip, v, a);
            Faithful(c) && RoutesFrom(b, c, Just(v) + Just(a)) && c.number.Some?
  {
    IdentifyFaithful(b, cfg);
    var b1 := b.Identify(cfg);
    TakeStatusFaithful(b1, cfg);
    var b2 := b1.TakeStatus(cfg);
    SetFaithful(b2, SignalType, Text(cfg.signalType));
    TakeSourcesFaithful(b2.TakeSignalType(cfg, onV2ip), cfg, v, a);
  }

  lemma NewFaithful(device: uid, cfg: Config)
    ensures Faithful(New(device, cfg))
  {
  }

  lemma RegisterFaithful(b: Bay)
    requires Faithful(b)
    ensures Faithful(Register(b)) && Kept(b, Register(b))
  {
    SilentFaithful(b, Register(b));
  }

  /** Everything that happens to a registered bay apart from a new descriptor. */
  datatype Op =
    | OpName(name: bytes)
    | OpFlag(flag: Flag, on: bool)
    | OpSignalType(text: bytes)
    | OpPower(power: PowerStatus)
    | OpMirror(master: Option<BayId>)
    | OpFilter(devices: seq<uid>)
    | OpAmp(zone: AmpZone)
    | OpVolume(volume: Volume)
    | OpEdid(code: int)
    | OpSelect(video: Option<BayId>, audio: Option<BayId>)
    | OpFeatures(features: u32)
    | OpStatus(data: u32)
    | OpV2ipUid(source: uid)

  function Apply(b: Bay, op: Op): Bay {
    match op
    case OpName(name) => b.Set(Name, Text(name))
    case OpFlag(flag, on) => b.Set(State(flag), Truth(on))
    case OpSignalType(text) => b.Set(SignalType, Text(text))
    case OpPower(p) => b.Set(Power, PowerIs(p))
    case OpMirror(m) => b.Set(Mirror, MirrorIs(m))
    case OpFilter(ds) => b.Set(Filter, FilterIs(ds))
    case OpAmp(z) => b.Set(Amp, AmpIs(Some(z)))
    case OpVolume(v) => b.SetVolume(v)
    case OpEdid(c) => b.SetEdid(c)
    case OpSelect(v, a) => b.ApplySelected(v, a)
    case OpFeatures(mask) => b.(features := mask)
    case OpStatus(data) => b.ApplyStatus(data)
    case OpV2ipUid(u) => b.(v2ipUid := u)
  }

  function Sources(op: Op): set<BayId> { if op.OpSelect? then Just(op.video) + Just(op.audio) else {} }

  lemma ApplyFaithful(b: Bay, op: Op)
    requires Faithful(b)
    ensures Faithful(Apply(b, op)) && RoutesFrom(b, Apply(b, op), Sources(op)) && Apply(b, op).number == b.number
  {
    match op
    case OpName(name) => SetFaithful(b, Name, Text(name));
    case OpFlag(flag, on) => SetFaithful(b, State(flag), Truth(on));
    case OpSignalType(text) => SetFaithful(b, SignalType, Text(text));
    case OpPower(p) => SetFaithful(b, Power, PowerIs(p));
    case OpMirror(m) => SetFaithful(b, Mirror, MirrorIs(m));
    case OpFilter(ds) => SetFaithful(b, Filter, FilterIs(ds));
    case OpAmp(z) => SetFaithful(b, Amp, AmpIs(Some(z)));
    case OpVolume(v) => SetFaithful(b, Level, LevelIs(Some(Combine(b.Read(Level), v))));
    case OpEdid(c) => SetFaithful(b, Edid, CodeIs(Some(c)));
    case OpSelect(v, a) => SelectedFaithful(b, v, a);
    case OpStatus(data) => SetAllFaithful(b, StatusPuts(data));
    case OpFeatures(_) => SilentFaithful(b, Apply(b, op));
    case OpV2ipUid(_) => SilentFaithful(b, Apply(b, op));
  }

  // ---- what the log says ----

  datatype Change = Descriptor(cfg: Config, onV2ip: bool, video: Option<BayId>, audio: Option<BayId>) | Operation(op: Op)

  function After(b: Bay, changes: seq<Change>): Bay {
    if changes == [] then b
    else
      var last := |changes| - 1;
      match changes[last]
      case Descriptor(cfg, onV2ip, v, a) => After(b, changes[..last]).ApplyConfig(cfg, onV2ip, v, a)
      case Operation(op) => Apply(After(b, changes[..last]), op)
  }

  /** Over any sequence of operations and descriptors on a bay, replaying its log gives
      what it has cached, attribute by attribute, and no notice repeats the value of
      the one before it. */
  lemma {:induction false} LogReplays(device: uid, cfg: Config, changes: seq<Change>)
    ensures Faithful(After(New(device, cfg), changes))
  {
    if changes == [] {
      NewFaithful(device, cfg);
    } else {
      var last := |changes| - 1;
      LogReplays(device, cfg, changes[..last]);
      var b := After(New(device, cfg), changes[..last]);
      match changes[last]
      case Descriptor(c, onV2ip, v, a) => ConfigFaithful(b, c, onV2ip, v, a);
      case Operation(op) => ApplyFaithful(b, op);
    }
  }

  lemma {:induction false} Alternate(vs: seq<Value>, cached: Value, n: nat)
    requires Replays(vs, Truth(false), cached) && n <= |vs|
    ensures Previous(vs, Truth(false), n) == Truth(n % 2 == 1)
  {
    if n > 0 {
      Alternate(vs, cached, n - 1);
      assert vs[n - 1] != Previous(vs, Truth(false), n - 1) && vs[n - 1].Truth?;
    }
  }

  /** A flag's notices alternate strictly, starting with true, and the cached flag is
      set exactly when there has been an odd number of them. */
  lemma FlagNoticesAlternate(b: Bay, flag: Flag, n: nat)
    requires Faithful(b) && n < |Notified(b.log, State(flag))|
    ensures Notified(b.log, State(flag))[n] == Truth(n % 2 == 0)
    ensures b.On(flag) <==> |Notified(b.log, State(flag))| % 2 == 1
  {
    var vs := Notified(b.log, State(flag));
    assert FaithfulIn(b, State(flag));
    Alternate(vs, b.Read(State(flag)), n + 1);
    Alternate(vs, b.Read(State(flag)), |vs|);
  }

  // ---- what a descriptor leaves cached ----

  ghost predicate Distinct(puts: seq<Put>) { forall i, j :: 0 <= i < j < |puts| ==> puts[i].kind != puts[j].kind }

  ghost predicate Holds(b: Bay, p: Put) { p.kind in b.attrs && b.attrs[p.kind] == p.value }

  ghost predicate HoldsAll(b: Bay, puts: seq<Put>) { forall i :: 0 <= i < |puts| ==> Holds(b, puts[i]) }

  ghost predicate Sets(puts: seq<Put>, kind: Kind) { exists i :: 0 <= i < |puts| && puts[i].kind == kind }

  lemma {:induction false} SetAllHolds(b: Bay, puts: seq<Put>)
    requires Distinct(puts)
    ensures HoldsAll(b.SetAll(puts), puts)
    ensures forall kind :: !Sets(puts, kind) ==>
              && (kind in b.SetAll(puts).attrs <==> kind in b.attrs)
              && (kind in b.attrs ==> b.SetAll(puts).attrs[kind] == b.attrs[kind])
  {
    if puts != [] {
      var front, last := puts[..|puts| - 1], puts[|puts| - 1];
      SetAllHolds(b, front);
      var c := b.SetAll(puts);
      forall i | 0 <= i < |puts|
        ensures Holds(c, puts[i])
      {
        assert i < |front| ==> Holds(b.SetAll(front), front[i]);
      }
      forall kind | !Sets(puts, kind)
        ensures !Sets(front, kind) && kind != last.kind
      {
        assert puts[|puts| - 1].kind != kind;
        assert forall i :: 0 <= i < |front| ==> front[i] == puts[i];
      }
    }
  }

  lemma {:induction false} SetAllSilent(b: Bay, puts: seq<Put>)
    requires HoldsAll(b, puts)
    ensures b.SetAll(puts) == b
  {
    if puts != [] {
      var front, last := puts[..|puts| - 1], puts[|puts| - 1];
      assert forall i :: 0 <= i < |front| ==> front[i] == puts[i];
      SetAllSilent(b, front);
      SetSilent(b, last);
    }
  }

  lemma SetSilent(b: Bay, p: Put)
    requires Holds(b, p)
    ensures b.Set(p.kind, p.value) == b
  {
    assert b.attrs[p.kind := p.value] == b.attrs;
  }

  lemma StatusDistinct(data: u32)
    ensures Distinct(StatusPuts(data))
  {
    hide Has;
    hide PowerFrom;
    hide ArcFrom;
  }

  lemma StatusSetsOnly(data: u32, kind: Kind)
    requires Sets(StatusPuts(data), kind)
    ensures kind.State? || kind.Power? || kind.Arc?
  {
    hide Has;
    hide PowerFrom;
    hide ArcFrom;
    var ps := StatusPuts(data);
    var i :| 0 <= i < |ps| && ps[i].kind == kind;
    assert i == 0 || i == 1 || i == 2 || i == 3 || i == 4 || i == 5 || i == 6 || i == 7 || i == 8 || i == 9 || i == 10;
  }

  /** Where a status word sets an attribute. */
  function StatusIndex(kind: Kind): nat
    requires kind.State? || kind.Power? || kind.Arc?
  {
    match kind
    case State(Faulty) => 0
    case State(Hidden) => 1
    case State(Poe) => 2
    case State(Hdbt) => 3
    case State(Hpd) => 4
    case State(Cec) => 5
    case State(Signal) => 6
    case State(EncoderOff) => 7
    case State(DecoderOff) => 8
    case Power => 9
    case Arc => 10
  }

  lemma StatusSets(data: u32, kind: Kind)
    requires kind.State? || kind.Power? || kind.Arc?
    ensures StatusIndex(kind) < |StatusPuts(data)| && StatusPuts(data)[StatusIndex(kind)].kind == kind
  {
    hide Has;
    hide PowerFrom;
    hide ArcFrom;
  }

  lemma StatusKinds(data: u32)
    ensures Distinct(StatusPuts(data))
    ensures forall kind :: Sets(StatusPuts(data), kind) <==> kind.State? || kind.Power? || kind.Arc?
  {
    hide StatusPuts;
    hide Distinct;
    StatusDistinct(data);
    forall kind
      ensures Sets(StatusPuts(data), kind) <==> kind.State? || kind.Power? || kind.Arc?
    {
      if Sets(StatusPuts(data), kind) {
        StatusSetsOnly(data, kind);
      } else if kind.State? || kind.Power? || kind.Arc? {
        StatusSets(data, kind);
      }
    }
  }

  lemma StatusReads(b: Bay, data: u32, kind: Kind)
    ensures var c := b.ApplyStatus(data);
            if kind.State? || kind.Power? || kind.Arc?
            then StatusIndex(kind) < |StatusPuts(data)| && c.Read(kind) == StatusPuts(data)[StatusIndex(kind)].value
            else c.Read(kind) == b.Read(kind)
  {
    hide StatusPuts;
    var ps, c := StatusPuts(data), b.ApplyStatus(data);
    StatusKinds(data);
    SetAllHolds(b, ps);
    SetAllPortName(b, ps);
    if kind.State? || kind.Power? || kind.Arc? {
      StatusSets(data, kind);
      assert Holds(c, ps[StatusIndex(kind)]);
    } else {
      assert !Sets(ps, kind);
    }
  }

  /** Every flag is what its bit of the status word says, power is known only with a CEC
      device, and the first return channel bit wins. */
  ghost predicate Shows(c: Bay, data: u32) {
    && (c.On(Faulty) <==> Has(data, 0x1)) && (c.On(Hidden) <==> Has(data, 0x2)) && (c.On(Poe) <==> Has(data, 0x4))
    && (c.On(Signal) <==> Has(data, 0x8)) && (c.On(Hpd) <==> Has(data, 0x10)) && (c.On(Hdbt) <==> Has(data, 0x40))
    && (c.On(Cec) <==> Has(data, 0x80))
    && (c.On(DecoderOff) <==> Has(data, 0x4000)) && (c.On(EncoderOff) <==> Has(data, 0x8000))
    && c.Read(Power) == PowerIs(if Has(data, 0x80) && Has(data, 0x100) then PowerOn
                                else if Has(data, 0x80) && Has(data, 0x200) then PowerOff
                                else PowerUnknown)
    && (c.Read(Arc) == ArcIs(ArcHdmi) <==> Has(data, 0x400))
    && (c.Read(Arc) == ArcIs(ArcOptical) <==> !Has(data, 0x400) && Has(data, 0x800))
    && (c.Read(Arc) == ArcIs(ArcAnalog) <==> !Has(data, 0x400) && !Has(data, 0x800) && Has(data, 0x1000))
    && (c.Read(Arc) == ArcIs(ArcNone) <==> !Has(data, 0x400) && !Has(data, 0x800) && !Has(data, 0x1000))
  }

  /** After a status word a bay shows it, and nothing else has changed. */
  lemma StatusIsCached(b: Bay, data: u32)
    ensures var c := b.ApplyStatus(data);
            && Shows(c, data)
            && c == b.(attrs := c.attrs, log := c.log)
            && (forall kind: Kind :: !kind.State? && !kind.Power? && !kind.Arc? ==> c.Read(kind) == b.Read(kind))
  {
    hide Bay.ApplyStatus;
    hide Bay.Read;
    hide Shows;
    StatusFrame(b, data);
    StatusShown(b, data);
    forall kind: Kind | !kind.State? && !kind.Power? && !kind.Arc?
      ensures b.ApplyStatus(data).Read(kind) == b.Read(kind)
    {
      StatusReads(b, data, kind);
    }
  }

  lemma StatusFrame(b: Bay, data: u32)
    ensures var c := b.ApplyStatus(data); c == b.(attrs := c.attrs, log := c.log)
  {
    hide StatusPuts;
    SetAllPortName(b, StatusPuts(data));
  }

  lemma StatusShown(b: Bay, data: u32)
    ensures Shows(b.ApplyStatus(data), data)
  {
    hide Has;
    hide Bay.Read;
    hide Bay.ApplyStatus;
    StatusReads(b, data, State(Faulty));
    StatusReads(b, data, State(Hidden));
    StatusReads(b, data, State(Poe));
    StatusReads(b, data, State(Hdbt));
    StatusReads(b, data, State(Hpd));
    StatusReads(b, data, State(Cec));
    StatusReads(b, data, State(Signal));
    StatusReads(b, data, State(EncoderOff));
    StatusReads(b, data, State(DecoderOff));
    StatusReads(b, data, Power);
    StatusReads(b, data, Arc);
  }

  lemma {:induction false} SetAllPortName(b: Bay, puts: seq<Put>)
    ensures b.SetAll(puts) == b.(attrs := b.SetAll(puts).attrs, log := b.SetAll(puts).log)
  {
    if puts != [] {
      SetAllPortName(b, puts[..|puts| - 1]);
    }
  }

  /** What a descriptor leaves cached, so that it need not be taken again. */
  ghost predicate Settled(b: Bay, cfg: Config, onV2ip: bool, v: Option<BayId>, a: Option<BayId>) {
    && b.features == cfg.features && b.status == cfg.status && b.number.Some? && b.signalMode == cfg.signalMode
    && Holds(b, Put(Name, Text(cfg.userName)))
    && HoldsAll(b, StatusPuts(cfg.status))
    && ((Has(cfg.status, STATUS_SIGNAL) && onV2ip) || Holds(b, Put(SignalType, Text(cfg.signalType))))
    && (b.IsOutput() ==> b.video == v && b.audio == a)
    && (!b.IsOutput() && b.IsHdmiInput() ==>
          Holds(b, Put(RcType, CodeIs(Some(cfg.rcType)))) && Holds(b, Put(Edid, CodeIs(Some(cfg.edidProfile)))))
  }

  lemma SetHolds(b: Bay, p: Put, q: Put)
    ensures Holds(b.Set(p.kind, p.value), p)
    ensures q.kind != p.kind && Holds(b, q) ==> Holds(b.Set(p.kind, p.value), q)
  {
  }

  lemma TakeStatusSettles(b: Bay, cfg: Config, name: Put)
    requires name.kind == Name && Holds(b, name)
    ensures var c := b.TakeStatus(cfg);
            && HoldsAll(c, StatusPuts(cfg.status)) && Holds(c, name) && c.signalMode == cfg.signalMode
            && c == b.(attrs := c.attrs, log := c.log, signalMode := cfg.signalMode)
  {
    hide Has;
    var ps := StatusPuts(cfg.status);
    StatusKinds(cfg.status);
    SetAllHolds(b, ps);
    SetAllPortName(b, ps);
    hide StatusPuts;
    assert !Sets(ps, Name);
    forall i | 0 <= i < |ps|
      ensures Holds(b.TakeStatus(cfg), ps[i])
    {
      assert Holds(b.ApplyStatus(cfg.status), ps[i]);
    }
  }

  /** Attributes a status word does not set are left as it found them. */
  lemma HoldsThrough(b: Bay, p: Put, puts: seq<Put>)
    requires HoldsAll(b, puts) && !Sets(puts, p.kind)
    ensures HoldsAll(b.Set(p.kind, p.value), puts)
  {
    forall i | 0 <= i < |puts|
      ensures Holds(b.Set(p.kind, p.value), puts[i])
    {
      SetHolds(b, p, puts[i]);
    }
  }

  lemma TakeSignalTypeSettles(b: Bay, cfg: Config, onV2ip: bool, name: Put)
    requires name.kind == Name && Holds(b, name) && HoldsAll(b, StatusPuts(cfg.status))
    ensures var c := b.TakeSignalType(cfg, onV2ip);
            && HoldsAll(c, StatusPuts(cfg.status)) && Holds(c, name)
            && ((Has(cfg.status, STATUS_SIGNAL) && onV2ip) || Holds(c, Put(SignalType, Text(cfg.signalType))))
            && c == b.(attrs := c.attrs, log := c.log)
  {
    StatusKinds(cfg.status);
    hide StatusPuts;
    hide Has;
    SetHolds(b, Put(SignalType, Text(cfg.signalType)), name);
    HoldsThrough(b, Put(SignalType, Text(cfg.signalType)), StatusPuts(cfg.status));
  }

  lemma TakeSourcesSettles(b: Bay, cfg: Config, onV2ip: bool, v: Option<BayId>, a: Option<BayId>)
    requires b.features == cfg.features && b.status == cfg.status && b.number.Some? && b.signalMode == cfg.signalMode
    requires Holds(b, Put(Name, Text(cfg.userName))) && HoldsAll(b, StatusPuts(cfg.status))
    requires (Has(cfg.status, STATUS_SIGNAL) && onV2ip) || Holds(b, Put(SignalType, Text(cfg.signalType)))
    ensures Settled(b.TakeSources(cfg, v, a), cfg, onV2ip, v, a)
  {
    StatusKinds(cfg.status);
    hide StatusPuts;
    hide Has;
    if b.IsOutput() {
      SameAttrsHold(b, b.TakeSources(cfg, v, a), StatusPuts(cfg.status));
    } else if b.IsHdmiInput() {
      var rc, edid := Put(RcType, CodeIs(Some(cfg.rcType))), Put(Edid, CodeIs(Some(cfg.edidProfile)));
      var c := b.SetRcType(cfg.rcType);
      HoldsThrough(b, rc, StatusPuts(cfg.status));
      HoldsThrough(c, edid, StatusPuts(cfg.status));
    }
  }

  lemma SameAttrsHold(b: Bay, c: Bay, puts: seq<Put>)
    requires HoldsAll(b, puts) && c.attrs == b.attrs
    ensures HoldsAll(c, puts)
  {
    forall i | 0 <= i < |puts|
      ensures Holds(c, puts[i])
    {
      assert Holds(b, puts[i]);
    }
  }

  lemma ConfigSettles(b: Bay, cfg: Config, onV2ip: bool, v: Option<BayId>, a: Option<BayId>)
    ensures Settled(b.ApplyConfig(cfg, onV2ip, v, a), cfg, onV2ip, v, a)
  {
    hide Has;
    hide StatusPuts;
    hide Bay.TakeStatus;
    hide Bay.TakeSignalType;
    hide Bay.TakeSources;
    var name := Put(Name, Text(cfg.userName));
    var b1 := b.Identify(cfg);
    TakeStatusSettles(b1, cfg, name);
    TakeSignalTypeSettles(b1.TakeStatus(cfg), cfg, onV2ip, name);
    TakeSourcesSettles(b1.TakeStatus(cfg).TakeSignalType(cfg, onV2ip), cfg, onV2ip, v, a);
  }

  /** Taking a descriptor leaves cached exactly what it says, attribute by attribute, and
      taking the same one again changes nothing and notifies nothing. */
  lemma DuplicateDescriptorIsSilent(b: Bay, cfg: Config, onV2ip: bool, v: Option<BayId>, a: Option<BayId>)
    ensures var c := b.ApplyConfig(cfg, onV2ip, v, a);
            Settled(c, cfg, onV2ip, v, a) && c.ApplyConfig(cfg, onV2ip, v, a) == c
  {
    ConfigSettles(b, cfg, onV2ip, v, a);
    SettledIsSilent(b.ApplyConfig(cfg, onV2ip, v, a), cfg, onV2ip, v, a);
  }

  lemma SettledIsSilent(c: Bay, cfg: Config, onV2ip: bool, v: Option<BayId>, a: Option<BayId>)
    requires Settled(c, cfg, onV2ip, v, a)
    ensures c.ApplyConfig(cfg, onV2ip, v, a) == c
  {
    hide Has;
    hide StatusPuts;
    hide Bay.Set;
    SetSilent(c, Put(Name, Text(cfg.userName)));
    assert c.Identify(cfg) == c;
    SetAllSilent(c, StatusPuts(cfg.status));
    assert c.TakeStatus(cfg) == c;
    if !(Has(cfg.status, STATUS_SIGNAL) && onV2ip) {
      SetSilent(c, Put(SignalType, Text(cfg.signalType)));
    }
    assert c.TakeSignalType(cfg, onV2ip) == c;
    SourcesSilent(c, cfg, onV2ip, v, a);
  }

  lemma SourcesSilent(c: Bay, cfg: Config, onV2ip: bool, v: Option<BayId>, a: Option<BayId>)
    requires Settled(c, cfg, onV2ip, v, a)
    ensures c.TakeSources(cfg, v, a) == c
  {
    hide Has;
    hide StatusPuts;
    hide Bay.Set;
    if !c.IsOutput() && c.IsHdmiInput() {
      SetSilent(c, Put(RcType, CodeIs(Some(cfg.rcType))));
      SetSilent(c, Put(Edid, CodeIs(Some(cfg.edidProfile))));
    } else if c.IsOutput() {
      assert c.SetVideoSource(v) == c;
      assert c.log + [] == c.log;
    }
  }
}
