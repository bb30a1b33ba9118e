/** The cached state of one device: its bays, whether it is online, and whether its
    configuration has arrived. notices is what has been notified for the device and
    its bays so far, in order. */
module DeviceModel {
  import opened Bytes
  import opened V2ipConfig
  import opened Control
  import opened BayModel

  const FEATURE_V2IP_SOURCE: nat := 0x8
  const FEATURE_V2IP_SINK: nat := 0x10
  const FEATURE_VIDEO_ROUTING: nat := 0x20
  const FEATURE_AUDIO_ROUTING: nat := 0x40
  const FEATURE_VOLUME_CONTROL: nat := 0x80

  const ONLINE_PROTOCOL: nat := 0x20
  const SHORT_LIMIT: int := 15_000_000_000
  const LONG_LIMIT: int := 120_000_000_000

  /** The fields of an advertisement that count as a change. */
  datatype Hello = Hello(protocol: u16, name: bytes, serial: bytes, version: bytes, features: u32)

  datatype StreamSources = StreamSources(source: uid, video: StreamSource, audio: StreamSource, anc: StreamSource)

  datatype Tiling = Tiling(target: uid, posX: u16, posY: u16, width: u16, height: u16)

  datatype Notice = OfBay(port: nat, event: Event) | HelloChanged | OnlineIs(up: bool) | Configured | TilingIs(tiling: Tiling)

  ghost predicate IsLeast(p: nat, s: set<nat>) { p in s && forall q :: q in s ==> p <= q }

  lemma {:induction false} LeastExists(s: set<nat>)
    requires s != {}
    ensures exists p :: IsLeast(p, s)
    decreases |s|
  {
    var x :| x in s;
    var rest := s - {x};
    assert forall q :: q in s ==> q == x || q in rest;
    if rest == {} {
      assert IsLeast(x, s);
    } else {
      LeastExists(rest);
      var p :| IsLeast(p, rest);
      assert IsLeast(if x <= p then x else p, s);
    }
  }

  /** The least of a set of port numbers. */
  ghost function Least(s: set<nat>): (r: Option<nat>)
    ensures r.None? <==> s == {}
    ensures r.Some? ==> IsLeast(r.value, s)
  {
    if s == {} then None
    else
      LeastExists(s);
      var p :| IsLeast(p, s);
      Some(p)
  }

  function Told(port: nat, events: seq<Event>): seq<Notice> {
    seq(|events|, i requires 0 <= i < |events| => OfBay(port, events[i]))
  }

  datatype Device = Device(
    uid: uid, hello: Hello, bays: map<nat, Bay>, online: bool, haveConfig: bool, lastPing: int, linkConfig: bool,
    sources: Option<seq<StreamSources>>, details: Option<Details>, sink: Option<SinkRoute>, tiling: Option<Tiling>,
    notices: seq<Notice>)
  {
    predicate IsV2ip() { Has(hello.features, FEATURE_V2IP_SINK) || Has(hello.features, FEATURE_V2IP_SOURCE) }

    predicate IsVideoMatrix() { Has(hello.features, FEATURE_VIDEO_ROUTING) }

    predicate IsAudioMatrix() { Has(hello.features, FEATURE_AUDIO_ROUTING) && !IsVideoMatrix() }

    predicate IsAmp() { Has(hello.features, FEATURE_VOLUME_CONTROL) && IsAudioMatrix() }

    function Serial(): bytes { if hello.serial == [] then UNKNOWN_SERIAL else hello.serial }

    // ---- queries over the bays ----

    function Inputs(): set<nat> { set p | p in bays && bays[p].IsInput() }

    function VisibleInputs(): set<nat> { set p | p in bays && bays[p].IsInput() && !bays[p].On(Hidden) }

    function Outputs(): set<nat> { set p | p in bays && bays[p].IsOutput() }

    /** The bays of a mode with the given number; an output is one even when it is an
        input as well. */
    function Numbered(input: bool, number: nat): set<nat> {
      set p | p in bays && bays[p].number == Some(number)
              && (if input then bays[p].IsInput() && !bays[p].IsOutput() else bays[p].IsOutput())
    }

    function Named(name: bytes): set<nat> { set p | p in bays && bays[p].portName == name }

    ghost function FirstInput(): Option<nat> { Least(Inputs()) }

    ghost function FirstOutput(): Option<nat> { Least(Outputs()) }

    ghost function ByMode(input: bool, number: nat): Option<nat> { Least(Numbered(input, number)) }

    ghost function ByName(name: bytes): Option<nat> { Least(Named(name)) }

    ghost predicate HasLocalSource() { FirstInput().Some? && bays[FirstInput().value].IsLocal() }

    /** The stream addresses of an input; remote inputs are numbered from 1 on a device
        without a local one. */
    ghost function SourceOf(b: Bay): Option<StreamSources> {
      if !b.IsInput() || !IsV2ip() || sources.None? then None
      else
        var number := if b.number.None? then 0 else b.number.value;
        var i := number - if HasLocalSource() then 0 else 1;
        if 0 <= i < |sources.value| then Some(sources.value[i]) else None
    }

    /** The identifier of a bay across devices: a V2IP source is known by the device it
        comes from. */
    ghost function KeyOf(b: Bay): BayId {
      var stream := SourceOf(b);
      if b.IsV2ipSource() && stream.Some? && !Empty(stream.value.source) then BayId(stream.value.source, 0)
      else if b.IsV2ipSource() && !Empty(b.v2ipUid) then BayId(b.v2ipUid, 0)
      else BayId(uid, b.id.port)
    }

    // ---- completeness ----

    predicate HasBays() { |bays| >= |VisibleInputs()| + |Outputs()| }

    predicate NeedsLinks() { (IsAmp() || IsVideoMatrix() || IsAudioMatrix() || IsV2ip()) && !linkConfig }

    predicate Complete() { HasBays() && !(IsV2ip() && sources.None?) && !NeedsLinks() }

    predicate Alive(now: int) {
      now - lastPing < if hello.protocol >= ONLINE_PROTOCOL then SHORT_LIMIT else LONG_LIMIT
    }

    // ---- changes ----

    function CheckComplete(): Device {
      if Complete() && !haveConfig then this.(haveConfig := true, notices := notices + [Configured]) else this
    }

    /** Going offline forgets that the configuration was complete. */
    function CheckOnline(now: int): Device {
      if Alive(now) == online then this
      else this.(online := Alive(now), haveConfig := Alive(now) && haveConfig, notices := notices + [OnlineIs(Alive(now))])
    }

    function Touch(ts: int, now: int): Device { this.(lastPing := ts).CheckOnline(now) }

    function ApplyHello(h: Hello, now: int): Device {
      this.(hello := h, lastPing := now, notices := notices + if hello == h then [] else [HelloChanged])
    }

    /** Stores a bay, passing on what it has notified since it was last stored. */
    function WithBay(port: nat, b: Bay): Device {
      var known := if port in bays then |bays[port].log| else 0;
      this.(bays := bays[port := b], notices := notices + Told(port, if known <= |b.log| then b.log[known..] else []))
    }

    function OnBay(port: nat, op: Op): Device
      requires port in bays
    {
      WithBay(port, Apply(bays[port], op))
    }

    function Resolve(port: nat, newPort: nat): Option<BayId> {
      if port in bays || port == newPort then Some(BayId(uid, port)) else None
    }

    /** One descriptor; a bay seen for the first time is registered, which may complete
        the configuration. */
    function ApplyConfig(cfg: Config): Device {
      var isNew := cfg.port !in bays;
      var b := (if isNew then New(uid, cfg) else bays[cfg.port])
               .ApplyConfig(cfg, IsV2ip(), Resolve(cfg.videoSource, cfg.port), Resolve(cfg.audioSource, cfg.port));
      if isNew then WithBay(cfg.port, Register(b)).CheckComplete() else WithBay(cfg.port, b)
    }

    function ApplyConfigs(recs: seq<bytes>): Device
      requires forall i :: 0 <= i < |recs| ==> |recs[i]| == CONFIG_SIZE
    {
      if recs == [] then this
      else ApplyConfigs(recs[..|recs| - 1]).ApplyConfig(ParseConfig(recs[|recs| - 1]))
    }

    /** A page of descriptors; now is the clock as the last of them is applied. */
    function TakeConfigPage(p: bytes, now: int): Device {
      var recs := Records(p, CONFIG_SIZE);
      if recs == [] then this else ApplyConfigs(recs).(lastPing := now)
    }

    function LinksReceived(): Device { this.(linkConfig := true).CheckComplete() }

    function SetTiling(t: Tiling): Device {
      this.(tiling := Some(t), notices := notices + if tiling == Some(t) then [] else [TilingIs(t)])
    }

    function TakeDetails(p: bytes): Device { this.(details := Receive(details, p)) }
  }

  /** A device is complete once it has as many bays as inputs that are not hidden and outputs
      together, its sources if it is a V2IP device, and its links if it routes anything. */
  lemma CompleteMeans(d: Device)
    ensures var mask := d.hello.features;
            var inputs := set p | p in d.bays && d.bays[p].IsInput() && !d.bays[p].On(Hidden);
            var outputs := set p | p in d.bays && d.bays[p].IsOutput();
            d.Complete() <==>
              && |d.bays| >= |inputs| + |outputs|
              && (Has(mask, 0x8) || Has(mask, 0x10) ==> d.sources.Some?)
              && (Has(mask, 0x8) || Has(mask, 0x10) || Has(mask, 0x20) || Has(mask, 0x40) ==> d.linkConfig)
  {
    hide Has;
    hide Bay.IsInput;
    hide Bay.IsOutput;
    hide Bay.On;
    assert d.VisibleInputs() == set p | p in d.bays && d.bays[p].IsInput() && !d.bays[p].On(Hidden);
    assert d.Outputs() == set p | p in d.bays && d.bays[p].IsOutput();
  }

  /** An input of a V2IP device finds its source by its number, counted from 0 on a device whose
      first input is its own and from 1 on one that only has remote ones. */
  lemma SourceMeans(d: Device, b: Bay, first: nat)
    requires IsLeast(first, d.Inputs())
    ensures var number := if b.number.Some? then b.number.value else 0;
            var own := !Has(d.bays[first].features, 0x2000) && !Has(d.bays[first].features, 0x4000);
            var i := if own then number else number - 1;
            d.SourceOf(b)
            == if b.IsInput() && (Has(d.hello.features, 0x8) || Has(d.hello.features, 0x10)) && d.sources.Some?
                  && 0 <= i < |d.sources.value|
               then Some(d.sources.value[i]) else None
  {
    hide Has;
    assert d.FirstInput() == Some(first);
  }

  /** A V2IP source goes by the device it comes from, as advertised or else as mapped; any other
      bay by its own device and port. */
  lemma KeyMeans(d: Device, b: Bay)
    ensures var stream, source := d.SourceOf(b), Has(b.features, 0x2000) || Has(b.features, 0x8000);
            var advertised := stream.Some? && stream.value.source != ZERO_UID;
            && (source && advertised ==> d.KeyOf(b) == BayId(stream.value.source, 0))
            && (source && !advertised && b.v2ipUid != ZERO_UID ==> d.KeyOf(b) == BayId(b.v2ipUid, 0))
            && (!source || (!advertised && b.v2ipUid == ZERO_UID) ==> d.KeyOf(b) == BayId(d.uid, b.id.port))
  {
    hide Has;
    hide Device.SourceOf;
  }

  const UNKNOWN_SERIAL: bytes := [0x55, 0x6E, 0x6B, 0x6E, 0x6F, 0x77, 0x6E] // "Unknown"

  function NewDevice(u: uid, h: Hello, now: int): Device {
    Device(u, h, map[], true, false, now, false, None, None, None, None, [])
  }

  // ---- the V2IP device configuration ----

  function TilingAt(p: bytes, i: nat, target: uid): Tiling
    requires i + 8 <= |p|
  {
    Tiling(target, U16(p, i), U16(p, i + 2), U16(p, i + 4), U16(p, i + 6))
  }

  /** A tiling block counts only when its uid is set. */
  function TakeTiling(d: Device, p: bytes): Device {
    if |p| >= 88 && !Empty(p[64..80]) then d.SetTiling(TilingAt(p, 80, p[64..80])) else d
  }

  /** A sink block counts whenever it is there. */
  function TakeSink(d: Device, p: bytes): Device {
    if |p| < 120 then d
    else d.(sink := Some(SinkRoute(ParseStream(p, 88), ParseStream(p, 96), ParseStream(p, 104), Some(ParseFormat(p, 112)))))
  }

  function TakeDeviceConfig(d: Device, p: bytes): Device {
    if |p| < 61 then d else TakeSink(TakeTiling(d.TakeDetails(p), p), p)
  }

  // ---- what the notices say about being online and configured ----

  /** Whether the device is online after these notices; it starts out so. */
  function OnlineAfter(ns: seq<Notice>): bool {
    if ns == [] then true
    else if ns[|ns| - 1].OnlineIs? then ns[|ns| - 1].up
    else OnlineAfter(ns[..|ns| - 1])
  }

  /** Whether the configuration has been complete since the device was last offline. */
  function ConfiguredAfter(ns: seq<Notice>): bool {
    if ns == [] then false
    else if ns[|ns| - 1].Configured? then true
    else if ns[|ns| - 1] == OnlineIs(false) then false
    else ConfiguredAfter(ns[..|ns| - 1])
  }

  /** An online notice is a change, and a configuration is completed once. */
  ghost predicate Fits(ns: seq<Notice>, n: Notice) {
    && (n.OnlineIs? ==> n.up != OnlineAfter(ns))
    && (n.Configured? ==> !ConfiguredAfter(ns))
  }

  ghost predicate Orderly(ns: seq<Notice>) { forall i :: 0 <= i < |ns| ==> Fits(ns[..i], ns[i]) }

  ghost predicate Tracked(d: Device) {
    Orderly(d.notices) && d.online == OnlineAfter(d.notices) && d.haveConfig == ConfiguredAfter(d.notices)
  }

  lemma NoticeNext(ns: seq<Notice>, n: Notice)
    ensures OnlineAfter(ns + [n]) == if n.OnlineIs? then n.up else OnlineAfter(ns)
    ensures ConfiguredAfter(ns + [n]) == (n.Configured? || (n != OnlineIs(false) && ConfiguredAfter(ns)))
    ensures Orderly(ns) && Fits(ns, n) ==> Orderly(ns + [n])
  {
    assert (ns + [n])[..|ns|] == ns;
    if Orderly(ns) && Fits(ns, n) {
      forall i | 0 <= i < |ns| + 1
        ensures Fits((ns + [n])[..i], (ns + [n])[i])
      {
        assert i < |ns| ==> (ns + [n])[..i] == ns[..i];
      }
    }
  }

  /** Notices of bays, advertisements and tilings say nothing about either. */
  lemma {:induction false} OtherNotices(ns: seq<Notice>, more: seq<Notice>)
    requires Orderly(ns)
    requires forall i :: 0 <= i < |more| ==> !more[i].OnlineIs? && !more[i].Configured?
    ensures Orderly(ns + more) && OnlineAfter(ns + more) == OnlineAfter(ns) && ConfiguredAfter(ns + more) == ConfiguredAfter(ns)
  {
    if more == [] {
      assert ns + more == ns;
    } else {
      var front, last := more[..|more| - 1], more[|more| - 1];
      OtherNotices(ns, front);
      NoticeNext(ns + front, last);
      assert ns + more == ns + front + [last];
    }
  }

  // ---- every operation keeps it ----

  lemma CheckCompleteTracked(d: Device)
    requires Tracked(d)
    ensures Tracked(d.CheckComplete())
  {
    NoticeNext(d.notices, Configured);
  }

  lemma CheckOnlineTracked(d: Device, now: int)
    requires Tracked(d)
    ensures Tracked(d.CheckOnline(now))
  {
    NoticeNext(d.notices, OnlineIs(d.Alive(now)));
  }

  lemma HelloTracked(d: Device, h: Hello, now: int)
    requires Tracked(d)
    ensures Tracked(d.ApplyHello(h, now))
  {
    OtherNotices(d.notices, if d.hello == h then [] else [HelloChanged]);
  }

  lemma TilingTracked(d: Device, t: Tiling)
    requires Tracked(d)
    ensures Tracked(d.SetTiling(t))
  {
    OtherNotices(d.notices, if d.tiling == Some(t) then [] else [TilingIs(t)]);
  }

  lemma WithBayTracked(d: Device, port: nat, b: Bay)
    requires Tracked(d)
    ensures Tracked(d.WithBay(port, b))
  {
    var known := if port in d.bays then |d.bays[port].log| else 0;
    OtherNotices(d.notices, Told(port, if known <= |b.log| then b.log[known..] else []));
  }

  /** What a device is made of: bays stored under their own port, numbered, and
      faithful to their logs. */
  ghost predicate Shaped(d: Device) {
    forall p :: p in d.bays ==> d.bays[p].id == BayId(d.uid, p) && d.bays[p].number.Some? && Faithful(d.bays[p])
  }

  ghost predicate Sound(d: Device) { Tracked(d) && Shaped(d) }

  lemma WithBaySound(d: Device, port: nat, b: Bay)
    requires Sound(d) && b.id == BayId(d.uid, port) && b.number.Some? && Faithful(b)
    ensures Sound(d.WithBay(port, b))
  {
    WithBayTracked(d, port, b);
  }

  lemma OnBaySound(d: Device, port: nat, op: Op)
    requires Sound(d) && port in d.bays
    ensures Sound(d.OnBay(port, op))
  {
    ApplyFaithful(d.bays[port], op);
    WithBaySound(d, port, Apply(d.bays[port], op));
  }

  /** The bay a descriptor is applied to, and its state after. */
  function Before(d: Device, cfg: Config): Bay { if cfg.port in d.bays then d.bays[cfg.port] else New(d.uid, cfg) }

  function Configure(d: Device, cfg: Config): Bay {
    var b := Before(d, cfg).ApplyConfig(cfg, d.IsV2ip(),
                                        d.Resolve(cfg.videoSource, cfg.port), d.Resolve(cfg.audioSource, cfg.port));
    if cfg.port in d.bays then b else Register(b)
  }

  lemma ApplyConfigBody(d: Device, cfg: Config)
    ensures var c := d.WithBay(cfg.port, Configure(d, cfg));
            d.ApplyConfig(cfg) == if cfg.port in d.bays then c else c.CheckComplete()
  {
  }

  lemma ApplyConfigStores(d: Device, cfg: Config)
    ensures d.ApplyConfig(cfg).bays == d.bays[cfg.port := Configure(d, cfg)] && d.ApplyConfig(cfg).uid == d.uid
  {
    hide Device.ApplyConfig;
    hide Configure;
    ApplyConfigBody(d, cfg);
  }

  lemma ConfigureFaithful(d: Device, cfg: Config)
    requires Sound(d)
    ensures var b := Configure(d, cfg);
            && Faithful(b) && b.id == BayId(d.uid, cfg.port) && b.number.Some?
            && RoutesFrom(Before(d, cfg), b,
                          Just(d.Resolve(cfg.videoSource, cfg.port)) + Just(d.Resolve(cfg.audioSource, cfg.port)))
  {
    NewFaithful(d.uid, cfg);
    var v, a := d.Resolve(cfg.videoSource, cfg.port), d.Resolve(cfg.audioSource, cfg.port);
    ConfigFaithful(Before(d, cfg), cfg, d.IsV2ip(), v, a);
    RegisterFaithful(Before(d, cfg).ApplyConfig(cfg, d.IsV2ip(), v, a));
  }

  lemma ApplyConfigSound(d: Device, cfg: Config)
    requires Sound(d)
    ensures Sound(d.ApplyConfig(cfg))
  {
    ApplyConfigBody(d, cfg);
    ConfigureFaithful(d, cfg);
    WithBaySound(d, cfg.port, Configure(d, cfg));
    CheckCompleteTracked(d.WithBay(cfg.port, Configure(d, cfg)));
  }

  // ---- what is done to one device ----

  /** What a handler, the probe or a control call does to one device. */
  datatype Work =
    | Greet(hello: Hello, now: int)
    | Describe(cfg: Config, now: int)
    | Page(payload: bytes, now: int)
    | LinksDone
    | Touching(ts: int, now: int)
    | Probing(now: int)
    | Advertise(sources: Option<seq<StreamSources>>)
    | Configuring(payload: bytes)
    | Subscribe(sink: SinkRoute)
    | Tile(tiling: Tiling)
    | AtBay(port: nat, op: Op)

  /** The bay is there; otherwise nothing is done. */
  predicate Possible(d: Device, w: Work) { w.AtBay? ==> w.port in d.bays }

  function Done(d: Device, w: Work): Device {
    match w
    case Greet(h, now) => d.ApplyHello(h, now)
    case Describe(cfg, now) => d.(lastPing := now).ApplyConfig(cfg)
    case Page(p, now) => d.TakeConfigPage(p, now)
    case LinksDone => d.LinksReceived()
    case Touching(ts, now) => d.Touch(ts, now)
    case Probing(now) => d.CheckOnline(now)
    case Advertise(ss) => d.(sources := ss)
    case Configuring(p) => TakeDeviceConfig(d, p)
    case Subscribe(s) => d.(sink := Some(s))
    case Tile(t) => d.SetTiling(t)
    case AtBay(port, op) => if port in d.bays then d.OnBay(port, op) else d
  }

  function DoneAll(d: Device, ws: seq<Work>): Device {
    if ws == [] then d else Done(DoneAll(d, ws[..|ws| - 1]), ws[|ws| - 1])
  }

  lemma {:induction false} DoneAllAppend(d: Device, a: seq<Work>, b: seq<Work>)
    ensures DoneAll(d, a + b) == DoneAll(DoneAll(d, a), b)
  {
    hide Done;
    if b == [] {
      assert a + b == a;
    } else {
      DoneAllAppend(d, a, b[..|b| - 1]);
      assert (a + b)[..|a + b| - 1] == a + b[..|b| - 1];
    }
  }

  lemma DoneOne(d: Device, w: Work)
    ensures DoneAll(d, [w]) == Done(d, w)
  {
    hide Done;
    assert [w][..0] == [];
  }

  /** A page of descriptors as one piece of work after the other. */
  function Described(recs: seq<bytes>, now: int): seq<Work>
    requires forall i :: 0 <= i < |recs| ==> |recs[i]| == CONFIG_SIZE
  {
    if recs == [] then [] else Described(recs[..|recs| - 1], now) + [Describe(ParseConfig(recs[|recs| - 1]), now)]
  }

  lemma {:induction false} PageIsDescribed(d: Device, recs: seq<bytes>, now: int)
    requires forall i :: 0 <= i < |recs| ==> |recs[i]| == CONFIG_SIZE
    ensures DoneAll(d, Described(recs, now)) == if recs == [] then d else d.ApplyConfigs(recs).(lastPing := now)
    ensures Single(Described(recs, now))
  {
    hide Device.ApplyConfig;
    if recs != [] {
      var front, cfg := recs[..|recs| - 1], ParseConfig(recs[|recs| - 1]);
      PageIsDescribed(d, front, now);
      DoneAllAppend(d, Described(front, now), [Describe(cfg, now)]);
      DoneOne(DoneAll(d, Described(front, now)), Describe(cfg, now));
      ApplyConfigTimeless(d.ApplyConfigs(front), cfg, now);
      assert DoneAll(d, Described(front, now)).(lastPing := now) == d.ApplyConfigs(front).(lastPing := now);
    }
  }

  /** No pages among the work. */
  predicate Single(ws: seq<Work>) { forall i :: 0 <= i < |ws| ==> !ws[i].Page? }

  lemma TakeConfigPageUid(d: Device, p: bytes, now: int)
    ensures d.TakeConfigPage(p, now).uid == d.uid
  {
    ApplyConfigsUid(d, Records(p, CONFIG_SIZE));
  }

  lemma {:induction false} ApplyConfigsUid(d: Device, recs: seq<bytes>)
    requires forall i :: 0 <= i < |recs| ==> |recs[i]| == CONFIG_SIZE
    ensures d.ApplyConfigs(recs).uid == d.uid
  {
    hide Device.ApplyConfig;
    hide Configure;
    if recs != [] {
      ApplyConfigsUid(d, recs[..|recs| - 1]);
      ApplyConfigBody(d.ApplyConfigs(recs[..|recs| - 1]), ParseConfig(recs[|recs| - 1]));
    }
  }

  lemma DoneUid(d: Device, w: Work)
    ensures Done(d, w).uid == d.uid
  {
    if w.Page? {
      TakeConfigPageUid(d, w.payload, w.now);
    } else if w.Describe? {
      ApplyConfigStores(d.(lastPing := w.now), w.cfg);
    }
  }

  lemma ApplyConfigNotices(d: Device, cfg: Config)
    ensures d.notices <= d.ApplyConfig(cfg).notices
  {
    hide Device.ApplyConfig;
    hide Configure;
    ApplyConfigBody(d, cfg);
    NoticesGrow(d, cfg);
  }

  lemma NoticesGrow(d: Device, cfg: Config)
    ensures var c := d.WithBay(cfg.port, Configure(d, cfg));
            d.notices <= c.notices <= c.CheckComplete().notices
  {
    hide Configure;
  }

  lemma {:induction false} ConfigsNotices(d: Device, recs: seq<bytes>)
    requires forall i :: 0 <= i < |recs| ==> |recs[i]| == CONFIG_SIZE
    ensures d.notices <= d.ApplyConfigs(recs).notices
  {
    hide Device.ApplyConfig;
    if recs != [] {
      ConfigsNotices(d, recs[..|recs| - 1]);
      ApplyConfigNotices(d.ApplyConfigs(recs[..|recs| - 1]), ParseConfig(recs[|recs| - 1]));
    }
  }

  lemma DoneNotices(d: Device, w: Work)
    ensures d.notices <= Done(d, w).notices
  {
    hide Device.ApplyConfig;
    hide Apply;
    if w.Page? {
      ConfigsNotices(d, Records(w.payload, CONFIG_SIZE));
    } else if w.Describe? {
      ApplyConfigNotices(d.(lastPing := w.now), w.cfg);
    }
  }

  lemma {:induction false} DoneAllNotices(d: Device, ws: seq<Work>)
    ensures d.notices <= DoneAll(d, ws).notices
  {
    hide Done;
    if ws != [] {
      DoneAllNotices(d, ws[..|ws| - 1]);
      DoneNotices(DoneAll(d, ws[..|ws| - 1]), ws[|ws| - 1]);
    }
  }

  /** What soundness is about. */
  ghost predicate SameCore(d: Device, e: Device) {
    e.uid == d.uid && e.bays == d.bays && e.notices == d.notices && e.online == d.online && e.haveConfig == d.haveConfig
  }

  lemma SameCoreSound(d: Device, e: Device)
    requires Sound(d) && SameCore(d, e)
    ensures Sound(e)
  {
  }

  lemma SetTilingSound(d: Device, t: Tiling)
    requires Sound(d)
    ensures Sound(d.SetTiling(t)) && d.SetTiling(t).uid == d.uid && d.SetTiling(t).bays == d.bays
  {
    TilingTracked(d, t);
  }

  lemma TakeTilingSound(d: Device, p: bytes)
    requires Sound(d)
    ensures Sound(TakeTiling(d, p)) && TakeTiling(d, p).uid == d.uid && TakeTiling(d, p).bays == d.bays
  {
    hide TilingAt;
    hide Device.SetTiling;
    hide Sound;
    if |p| >= 88 {
      SetTilingSound(d, TilingAt(p, 80, p[64..80]));
    }
  }

  lemma TakeSinkSound(d: Device, p: bytes)
    requires Sound(d)
    ensures Sound(TakeSink(d, p)) && TakeSink(d, p).uid == d.uid && TakeSink(d, p).bays == d.bays
  {
    hide ParseStream;
    hide ParseFormat;
    SameCoreSound(d, TakeSink(d, p));
  }

  lemma DeviceConfigSound(d: Device, p: bytes)
    requires Sound(d)
    ensures var e := TakeDeviceConfig(d, p); Sound(e) && e.uid == d.uid && e.bays == d.bays
  {
    hide Receive;
    hide TakeTiling;
    hide TakeSink;
    SameCoreSound(d, d.TakeDetails(p));
    TakeTilingSound(d.TakeDetails(p), p);
    TakeSinkSound(TakeTiling(d.TakeDetails(p), p), p);
  }

  lemma CheckOnlineSound(d: Device, now: int)
    requires Sound(d)
    ensures var e := d.CheckOnline(now); Sound(e) && e.uid == d.uid && e.bays == d.bays
  {
    CheckOnlineTracked(d, now);
  }

  lemma {:induction false} ConfigsSound(d: Device, recs: seq<bytes>)
    requires Sound(d) && forall i :: 0 <= i < |recs| ==> |recs[i]| == CONFIG_SIZE
    ensures Sound(d.ApplyConfigs(recs))
  {
    hide Device.ApplyConfig;
    hide Sound;
    if recs != [] {
      ConfigsSound(d, recs[..|recs| - 1]);
      ApplyConfigSound(d.ApplyConfigs(recs[..|recs| - 1]), ParseConfig(recs[|recs| - 1]));
    }
  }

  lemma DoneSound(d: Device, w: Work)
    requires Sound(d)
    ensures Sound(Done(d, w))
  {
    hide TakeDeviceConfig;
    hide Device.ApplyConfig;
    hide Device.OnBay;
    hide Device.ApplyConfigs;
    hide Faithful;
    hide Orderly;
    match w
    case Greet(h, now) => HelloTracked(d, h, now);
    case Describe(cfg, now) => ApplyConfigSound(d.(lastPing := now), cfg);
    case Page(p, now) => ConfigsSound(d, Records(p, CONFIG_SIZE));
    case LinksDone => CheckCompleteTracked(d.(linkConfig := true));
    case Touching(ts, now) => CheckOnlineTracked(d.(lastPing := ts), now);
    case Probing(now) => CheckOnlineTracked(d, now);
    case Configuring(p) => DeviceConfigSound(d, p);
    case Tile(t) => TilingTracked(d, t);
    case AtBay(port, op) => if port in d.bays { OnBaySound(d, port, op); }
    case _ =>
  }

  lemma {:induction false} RunSound(u: uid, h: Hello, now: int, ws: seq<Work>)
    ensures Sound(DoneAll(NewDevice(u, h, now), ws))
  {
    hide Done;
    if ws != [] {
      RunSound(u, h, now, ws[..|ws| - 1]);
      DoneSound(DoneAll(NewDevice(u, h, now), ws[..|ws| - 1]), ws[|ws| - 1]);
    }
  }

  // ---- what the notices say ----

  function OnlineNotices(ns: seq<Notice>): seq<bool> {
    if ns == [] then []
    else OnlineNotices(ns[..|ns| - 1]) + if ns[|ns| - 1].OnlineIs? then [ns[|ns| - 1].up] else []
  }

  lemma {:induction false} OnlineNoticesAlternate(ns: seq<Notice>)
    requires Orderly(ns)
    ensures forall n :: 0 <= n < |OnlineNotices(ns)| ==> OnlineNotices(ns)[n] == (n % 2 == 1)
    ensures OnlineAfter(ns) == (|OnlineNotices(ns)| % 2 == 0)
  {
    if ns != [] {
      var front := ns[..|ns| - 1];
      assert forall i :: 0 <= i < |front| ==> front[..i] == ns[..i];
      OnlineNoticesAlternate(front);
      assert Fits(ns[..|ns| - 1], ns[|ns| - 1]);
    }
  }

  lemma {:induction false} StillConfigured(ns: seq<Notice>, i: nat, j: nat)
    requires i < j <= |ns| && ns[i].Configured?
    requires forall k :: i < k < j ==> ns[k] != OnlineIs(false)
    ensures ConfiguredAfter(ns[..j])
  {
    if j > i + 1 {
      StillConfigured(ns, i, j - 1);
      assert ns[..j][..j - 1] == ns[..j - 1];
    }
  }

  lemma OfflineBetween(ns: seq<Notice>, i: nat, j: nat)
    requires Orderly(ns) && i < j < |ns| && ns[i].Configured? && ns[j].Configured?
    ensures exists k :: i < k < j && ns[k] == OnlineIs(false)
  {
    assert Fits(ns[..j], ns[j]);
    if forall k :: i < k < j ==> ns[k] != OnlineIs(false) {
      StillConfigured(ns, i, j);
    }
  }

  /** What the notices of a device say of it: the online ones strictly alternate starting
      with offline, the stored flag is what the last of them said (online if there was
      none), and between two completed configurations it has been offline. */
  ghost predicate InOrder(d: Device) {
    && (forall n :: 0 <= n < |OnlineNotices(d.notices)| ==> OnlineNotices(d.notices)[n] == (n % 2 == 1))
    && d.online == (|OnlineNotices(d.notices)| % 2 == 0)
    && forall i, j :: ConfiguredTwice(d.notices, i, j) ==> OfflineWithin(d.notices, i, j)
  }

  predicate ConfiguredTwice(ns: seq<Notice>, i: int, j: int) { 0 <= i < j < |ns| && ns[i].Configured? && ns[j].Configured? }

  predicate OfflineWithin(ns: seq<Notice>, i: nat, j: nat)
    requires j <= |ns|
  {
    exists k :: i < k < j && ns[k] == OnlineIs(false)
  }

  lemma TrackedInOrder(d: Device)
    requires Tracked(d)
    ensures InOrder(d)
  {
    OnlineNoticesAlternate(d.notices);
    forall i, j | ConfiguredTwice(d.notices, i, j)
      ensures OfflineWithin(d.notices, i, j)
    {
      OfflineBetween(d.notices, i, j);
    }
  }

  /** Over any work done to a device from its first hello on, with any clock readings. */
  lemma OnlineAndConfigured(u: uid, h: Hello, now: int, ws: seq<Work>)
    ensures InOrder(DoneAll(NewDevice(u, h, now), ws))
  {
    RunSound(u, h, now, ws);
    TrackedInOrder(DoneAll(NewDevice(u, h, now), ws));
  }

  lemma WithBayNotices(d: Device, port: nat, b: Bay)
    ensures var ns := d.WithBay(port, b).notices;
            d.notices <= ns && forall k :: |d.notices| <= k < |ns| ==> ns[k].OfBay?
  {
  }

  lemma OnBayNotices(d: Device, port: nat, op: Op, i: nat)
    requires port in d.bays && |d.notices| <= i < |d.OnBay(port, op).notices|
    ensures d.OnBay(port, op).notices[i].OfBay?
  {
    hide Apply;
    WithBayNotices(d, port, Apply(d.bays[port], op));
  }

  lemma CheckCompleteNotifies(d: Device, c: Device, i: nat)
    requires d.notices <= c.notices && forall k :: |d.notices| <= k < |c.notices| ==> c.notices[k].OfBay?
    requires |d.notices| <= i < |c.CheckComplete().notices| && c.CheckComplete().notices[i].Configured?
    ensures c.CheckComplete().Complete() && |c.CheckComplete().notices| == i + 1
  {
  }

  lemma DescribedMeansComplete(d: Device, cfg: Config, i: nat)
    requires |d.notices| <= i < |d.ApplyConfig(cfg).notices| && d.ApplyConfig(cfg).notices[i].Configured?
    ensures d.ApplyConfig(cfg).Complete() && |d.ApplyConfig(cfg).notices| == i + 1
  {
    hide Device.ApplyConfig;
    hide Configure;
    ApplyConfigBody(d, cfg);
    WithBayNotices(d, cfg.port, Configure(d, cfg));
    if cfg.port !in d.bays {
      CheckCompleteNotifies(d, d.WithBay(cfg.port, Configure(d, cfg)), i);
    }
  }

  /** The links of a device complete it if nothing else is missing, which is notified once; so
      does a bay seen for the first time, and no other descriptor. */
  lemma CompletionIsTold(d: Device, cfg: Config)
    ensures var e := d.LinksReceived();
            && e.haveConfig == (d.haveConfig || e.Complete())
            && e.notices == d.notices + if e.haveConfig && !d.haveConfig then [Configured] else []
    ensures var c, e := d.WithBay(cfg.port, Configure(d, cfg)), d.ApplyConfig(cfg);
            && e.haveConfig == (d.haveConfig || (cfg.port !in d.bays && e.Complete()))
            && e.notices == c.notices + if e.haveConfig && !d.haveConfig then [Configured] else []
  {
    hide Device.ApplyConfig;
    hide Configure;
    ApplyConfigBody(d, cfg);
    SameCompleteness(d.WithBay(cfg.port, Configure(d, cfg)));
    SameCompleteness(d.(linkConfig := true));
  }

  lemma SameCompleteness(d: Device)
    ensures d.CheckComplete().Complete() == d.Complete()
  {
  }

  lemma DetailsNotices(d: Device, p: bytes)
    ensures var ns := TakeDeviceConfig(d, p).notices;
            forall k :: |d.notices| <= k < |ns| ==> ns[k].TilingIs?
  {
  }

  /** A piece of work that notifies a completed configuration leaves the device complete,
      with that notice its last. */
  lemma ConfiguredMeansComplete(d: Device, w: Work, i: nat)
    requires !w.Page?
    requires |d.notices| <= i < |Done(d, w).notices| && Done(d, w).notices[i].Configured?
    ensures Done(d, w).Complete() && |Done(d, w).notices| == i + 1
  {
    hide Device.ApplyConfig;
    hide Device.OnBay;
    hide TakeDeviceConfig;
    match w
    case Describe(cfg, now) => DescribedMeansComplete(d.(lastPing := now), cfg, i);
    case LinksDone => CheckCompleteNotifies(d, d.(linkConfig := true), i);
    case Configuring(p) => DetailsNotices(d, p);
    case AtBay(port, op) => if port in d.bays { OnBayNotices(d, port, op, i); }
    case _ =>
  }

  /** After the first n pieces of work the device was complete, and had just notified it
      as its notice i. */
  ghost predicate CompletedAt(d: Device, ws: seq<Work>, n: nat, i: nat)
    requires n <= |ws|
  {
    var m := DoneAll(d, ws[..n]);
    m.Complete() && |m.notices| == i + 1 && m.notices[i].Configured?
  }

  lemma {:induction false} ConfiguredAt(d: Device, ws: seq<Work>, i: nat) returns (n: nat)
    requires Single(ws)
    requires |d.notices| <= i < |DoneAll(d, ws).notices| && DoneAll(d, ws).notices[i].Configured?
    ensures n <= |ws| && CompletedAt(d, ws, n, i)
  {
    hide Done;
    hide Device.Complete;
    if ws == [] {
      assert false;
    } else {
      var front, w := ws[..|ws| - 1], ws[|ws| - 1];
      var m := DoneAll(d, front);
      DoneNotices(m, w);
      if i < |m.notices| {
        n := ConfiguredAt(d, front, i);
        assert ws[..n] == front[..n];
      } else {
        ConfiguredMeansComplete(m, w, i);
        n := |ws|;
        assert ws[..n] == ws;
      }
    }
  }

  // ---- paging ----

  lemma {:induction false} ApplyConfigsAppend(d: Device, a: seq<bytes>, b: seq<bytes>)
    requires forall i :: 0 <= i < |a| ==> |a[i]| == CONFIG_SIZE
    requires forall i :: 0 <= i < |b| ==> |b[i]| == CONFIG_SIZE
    ensures d.ApplyConfigs(a + b) == d.ApplyConfigs(a).ApplyConfigs(b)
  {
    hide Device.ApplyConfig;
    if b == [] {
      assert a + b == a;
    } else {
      var front := b[..|b| - 1];
      ApplyConfigsAppend(d, a, front);
      assert (a + b)[..|a + b| - 1] == a + front;
    }
  }

  /** Descriptors neither read nor change when the device was last heard. */
  lemma {:induction false} ApplyConfigsTimeless(d: Device, recs: seq<bytes>, t: int)
    requires forall i :: 0 <= i < |recs| ==> |recs[i]| == CONFIG_SIZE
    ensures d.(lastPing := t).ApplyConfigs(recs) == d.ApplyConfigs(recs).(lastPing := t)
  {
    hide Device.ApplyConfig;
    if recs != [] {
      ApplyConfigsTimeless(d, recs[..|recs| - 1], t);
      ApplyConfigTimeless(d.ApplyConfigs(recs[..|recs| - 1]), ParseConfig(recs[|recs| - 1]), t);
    }
  }

  lemma ApplyConfigTimeless(d: Device, cfg: Config, t: int)
    ensures d.(lastPing := t).ApplyConfig(cfg) == d.ApplyConfig(cfg).(lastPing := t)
  {
    hide Bay.ApplyConfig;
    hide New;
    var e := d.(lastPing := t);
    ApplyConfigBody(d, cfg);
    ApplyConfigBody(e, cfg);
    assert Configure(e, cfg) == Configure(d, cfg);
  }

  /** Paging is a homomorphism: a payload taken whole leaves the device, its bays,
      their routes and every notice as its two halves do one after the other, whatever
      the clock reads, and a trailing partial record is ignored. */
  lemma PagesCompose(d: Device, p: bytes, q: bytes, t0: int, t1: int, t2: int)
    requires WholeRecords(p, CONFIG_SIZE)
    ensures d.TakeConfigPage(p + q, t0).(lastPing := 0) == d.TakeConfigPage(p, t1).TakeConfigPage(q, t2).(lastPing := 0)
    ensures d.TakeConfigPage(p + q, t0) == d.TakeConfigPage(p, t0).TakeConfigPage(q, t0)
    ensures |q| < CONFIG_SIZE ==> d.TakeConfigPage(p + q, t0) == d.TakeConfigPage(p, t0)
  {
    RecordsAppend(p, q, CONFIG_SIZE);
    var a, b := Records(p, CONFIG_SIZE), Records(q, CONFIG_SIZE);
    ApplyConfigsAppend(d, a, b);
    ApplyConfigsTimeless(d.ApplyConfigs(a), b, t1);
    ApplyConfigsTimeless(d.ApplyConfigs(a), b, t0);
  }

  lemma ApplyConfigKeepsBays(d: Device, cfg: Config)
    ensures d.ApplyConfig(cfg).bays.Keys == d.bays.Keys + {cfg.port}
  {
    ApplyConfigBody(d, cfg);
  }

  lemma {:induction false} ApplyConfigsKeepsBays(d: Device, recs: seq<bytes>)
    requires forall i :: 0 <= i < |recs| ==> |recs[i]| == CONFIG_SIZE
    ensures d.bays.Keys <= d.ApplyConfigs(recs).bays.Keys
    ensures forall i :: 0 <= i < |recs| ==> ParseConfig(recs[i]).port in d.ApplyConfigs(recs).bays
  {
    hide Device.ApplyConfig;
    if recs != [] {
      var front := recs[..|recs| - 1];
      ApplyConfigsKeepsBays(d, front);
      ApplyConfigKeepsBays(d.ApplyConfigs(front), ParseConfig(recs[|recs| - 1]));
    }
  }

  /** No earlier page's bay is lost, and every descriptor's bay is there after it. */
  lemma PageKeepsBays(d: Device, p: bytes, now: int, i: nat)
    requires i < |Records(p, CONFIG_SIZE)|
    ensures d.bays.Keys <= d.TakeConfigPage(p, now).bays.Keys
    ensures ParseConfig(Records(p, CONFIG_SIZE)[i]).port in d.TakeConfigPage(p, now).bays
  {
    ApplyConfigsKeepsBays(d, Records(p, CONFIG_SIZE));
  }
}
