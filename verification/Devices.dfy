/** The device objects a client holds. */
module Devices {
  import opened Bytes
  import opened V2ipConfig
  import opened Control
  import opened BayModel
  import opened DeviceModel
  import opened Bays

  /** What a device has notified between two states of its notices. */
  function DeviceNews(u: uid, before: seq<Notice>, after: seq<Notice>): seq<Queued> {
    if |before| > |after| then []
    else seq(|after| - |before|, i requires 0 <= i < |after| - |before| => Queued(u, after[|before| + i]))
  }

  lemma NoDeviceNews(u: uid, ns: seq<Notice>)
    ensures DeviceNews(u, ns, ns) == []
  {
  }

  lemma DeviceNewsJoin(u: uid, a: seq<Notice>, b: seq<Notice>, c: seq<Notice>)
    requires a <= b <= c
    ensures DeviceNews(u, a, b) + DeviceNews(u, b, c) == DeviceNews(u, a, c)
  {
  }

  lemma BayNewsIsDeviceNews(u: uid, port: nat, ns: seq<Notice>, before: seq<Event>, after: seq<Event>)
    requires |before| <= |after|
    ensures DeviceNews(u, ns, ns + Told(port, after[|before|..])) == News(BayId(u, port), before, after)
  {
  }

  /** The least of a set of ports, whatever order they are looked at in. */
  method LeastOf(ports: set<nat>) returns (r: Option<nat>)
    ensures r == Least(ports)
  {
    var rest := ports;
    r := None;
    while rest != {}
      invariant rest <= ports
      invariant r.None? ==> rest == ports
      invariant r.Some? ==> r.value in ports && forall p :: p in ports && p !in rest ==> r.value <= p
      decreases |rest|
    {
      var p :| p in rest;
      if r.None? || p < r.value {
        r := Some(p);
      }
      rest := rest - {p};
    }
  }

  /** What a bay had notified when the device was d. */
  function LogIn(d: DeviceModel.Device, port: nat): seq<Event> { if port in d.bays then d.bays[port].log else [] }

  class Device {
    const uid: uid
    const queue: Callbacks

    var hello: Hello
    var bays: map<nat, Bays.Bay>
    var online: bool
    var haveConfig: bool
    var lastPing: int
    var linkConfigReceived: bool
    var v2ipSources: Option<seq<StreamSources>>
    var v2ipDetails: Option<Details>
    var v2ipSink: Option<SinkRoute>
    var tiling: Option<Tiling>

    ghost var notices: seq<Notice>

    ghost predicate Valid()
      reads this`bays, bays.Values
    {
      forall p :: p in bays ==> bays[p].id == BayId(uid, p) && bays[p].queue == queue && bays[p].Valid()
    }

    ghost function Models(): map<nat, BayModel.Bay>
      reads this`bays, bays.Values
    {
      map p | p in bays :: bays[p].model
    }

    /** The device as a value of the cached-state model. */
    ghost function View(): DeviceModel.Device
      reads this, bays.Values
    {
      DeviceModel.Device(uid, hello, Models(), online, haveConfig, lastPing, linkConfigReceived,
                         v2ipSources, v2ipDetails, v2ipSink, tiling, notices)
    }

    constructor (u: uid, h: Hello, now: int, queue: Callbacks)
      ensures Valid() && View() == NewDevice(u, h, now) && uid == u && this.queue == queue && bays == map[]
    {
      this.queue, uid, hello, bays := queue, u, h, map[];
      online, haveConfig, lastPing, linkConfigReceived := true, false, now, false;
      v2ipSources, v2ipDetails, v2ipSink, tiling := None, None, None, None;
      notices := [];
    }

    method Notify(n: Notice)
      modifies this`notices, queue
      ensures notices == old(notices) + [n]
      ensures queue.pending == old(queue.pending) + DeviceNews(uid, old(notices), notices)
    {
      queue.Emit(Queued(uid, n));
      notices := notices + [n];
    }

    // ---- queries ----

    predicate IsV2ip()
      reads this
      ensures IsV2ip() == View().IsV2ip()
    {
      Has(hello.features, FEATURE_V2IP_SINK) || Has(hello.features, FEATURE_V2IP_SOURCE)
    }

    predicate IsAudioRouter()
      reads this
      ensures IsAudioRouter() == (View().IsAmp() || View().IsVideoMatrix() || View().IsAudioMatrix())
    {
      var f := hello.features;
      || (Has(f, FEATURE_VOLUME_CONTROL) && Has(f, FEATURE_AUDIO_ROUTING) && !Has(f, FEATURE_VIDEO_ROUTING))
      || Has(f, FEATURE_VIDEO_ROUTING)
      || (Has(f, FEATURE_AUDIO_ROUTING) && !Has(f, FEATURE_VIDEO_ROUTING))
    }

    /** There are at least as many bays as visible inputs and outputs together. */
    predicate HasBays()
      requires Valid()
      reads this, bays.Values
      ensures HasBays() == View().HasBays()
    {
      var inputs := set p | p in bays && bays[p].IsInput() && !bays[p].IsHidden();
      var outputs := set p | p in bays && bays[p].IsOutput();
      assert inputs == View().VisibleInputs() && outputs == View().Outputs() && bays.Keys == View().bays.Keys;
      |bays.Keys| >= |inputs| + |outputs|
    }

    predicate ConfigurationComplete()
      requires Valid()
      reads this, bays.Values
      ensures ConfigurationComplete() == View().Complete()
    {
      HasBays() && !(IsV2ip() && v2ipSources.None?) && !((IsAudioRouter() || IsV2ip()) && !linkConfigReceived)
    }

    predicate OnlineNow(now: int)
      reads this
      ensures OnlineNow(now) == View().Alive(now)
    {
      var limit := if hello.protocol >= ONLINE_PROTOCOL then SHORT_LIMIT else LONG_LIMIT;
      now - lastPing < limit
    }

    method FirstInput() returns (port: Option<nat>)
      requires Valid()
      ensures port == View().FirstInput()
    {
      var ports := set p | p in bays && bays[p].IsInput();
      assert ports == View().Inputs();
      port := LeastOf(ports);
    }

    method FirstOutput() returns (port: Option<nat>)
      requires Valid()
      ensures port == View().FirstOutput()
    {
      var ports := set p | p in bays && bays[p].IsOutput();
      assert ports == View().Outputs();
      port := LeastOf(ports);
    }

    method ByMode(input: bool, number: nat) returns (port: Option<nat>)
      requires Valid()
      ensures port == View().ByMode(input, number)
    {
      var ports := set p | p in bays && bays[p].number == Some(number)
                           && (if input then bays[p].IsInput() && !bays[p].IsOutput() else bays[p].IsOutput());
      assert ports == View().Numbered(input, number);
      port := LeastOf(ports);
    }

    method SourceOf(port: nat) returns (s: Option<StreamSources>)
      requires Valid() && port in bays
      ensures s == View().SourceOf(View().bays[port])
    {
      if !bays[port].IsInput() || !IsV2ip() || v2ipSources.None? {
        return None;
      }
      var first := FirstInput();
      var offset := if first.Some? && bays[first.value].IsLocal() then 0 else 1;
      var i := (if bays[port].number.None? then 0 else bays[port].number.value) - offset;
      if i < 0 || i >= |v2ipSources.value| {
        return None;
      }
      s := Some(v2ipSources.value[i]);
    }

    method KeyOf(port: nat) returns (key: BayId)
      requires Valid() && port in bays
      ensures key == View().KeyOf(View().bays[port])
    {
      var b := bays[port];
      var stream := SourceOf(port);
      if Has(b.features, V2IP_SOURCE_LOCAL) || Has(b.features, V2IP_SOURCE_REMOTE) {
        var source := ZERO_UID;
        if stream.Some? && !Empty(stream.value.source) {
          source := stream.value.source;
        } else if !Empty(b.v2ipUid) {
          source := b.v2ipUid;
        }
        if !Empty(source) {
          return BayId(source, 0);
        }
      }
      key := BayId(uid, port);
    }

    // ---- changes ----

    method CheckConfigComplete()
      requires Valid()
      modifies this`haveConfig, this`notices, queue
      ensures Valid() && View() == old(View()).CheckComplete()
      ensures queue.pending == old(queue.pending) + DeviceNews(uid, old(notices), notices)
    {
      hide DeviceNews;
      hide Valid;
      hide Models;
      if ConfigurationComplete() && !haveConfig {
        haveConfig := true;
        Notify(Configured);
      } else {
        NoDeviceNews(uid, notices);
      }
    }

    method CheckOnline(now: int)
      requires Valid()
      modifies this`online, this`haveConfig, this`notices, queue
      ensures Valid() && View() == old(View()).CheckOnline(now)
      ensures queue.pending == old(queue.pending) + DeviceNews(uid, old(notices), notices)
    {
      hide DeviceNews;
      hide Valid;
      hide Models;
      var current := OnlineNow(now);
      if current != online {
        online := current;
        if !current {
          haveConfig := false;
        }
        Notify(OnlineIs(current));
      } else {
        NoDeviceNews(uid, notices);
      }
    }

    method Touch(ts: int, now: int)
      requires Valid()
      modifies this`lastPing, this`online, this`haveConfig, this`notices, queue
      ensures Valid() && View() == old(View()).Touch(ts, now)
      ensures queue.pending == old(queue.pending) + DeviceNews(uid, old(notices), notices)
    {
      hide DeviceNews;
      hide Valid;
      hide Models;
      lastPing := ts;
      CheckOnline(now);
    }

    method ApplyHello(h: Hello, now: int)
      requires Valid()
      modifies this`hello, this`lastPing, this`notices, queue
      ensures Valid() && View() == old(View()).ApplyHello(h, now)
      ensures queue.pending == old(queue.pending) + DeviceNews(uid, old(notices), notices)
    {
      hide DeviceNews;
      hide Valid;
      hide Models;
      lastPing := now;
      var changed := hello != h;
      hello := h;
      if changed {
        Notify(HelloChanged);
      } else {
        NoDeviceNews(uid, notices);
      }
    }

    method OnLinkConfigReceived()
      requires Valid()
      modifies this`linkConfigReceived, this`haveConfig, this`notices, queue
      ensures Valid() && View() == old(View()).LinksReceived()
      ensures queue.pending == old(queue.pending) + DeviceNews(uid, old(notices), notices)
    {
      hide DeviceNews;
      hide Valid;
      hide Models;
      linkConfigReceived := true;
      CheckConfigComplete();
    }

    method SetTiling(t: Tiling)
      requires Valid()
      modifies this`tiling, this`notices, queue
      ensures Valid() && View() == old(View()).SetTiling(t)
      ensures queue.pending == old(queue.pending) + DeviceNews(uid, old(notices), notices)
    {
      hide DeviceNews;
      hide Valid;
      hide Models;
      var changed := tiling != Some(t);
      tiling := Some(t);
      if changed {
        Notify(TilingIs(t));
      } else {
        NoDeviceNews(uid, notices);
      }
    }

    /** A device configuration: the details merge field by field, a window counts only
        with its uid set, a sink whenever it is there. */
    method TakeDeviceConfig(p: bytes)
      requires Valid()
      modifies this`v2ipDetails, this`tiling, this`v2ipSink, this`notices, queue
      ensures Valid() && View() == DeviceModel.TakeDeviceConfig(old(View()), p)
      ensures queue.pending == old(queue.pending) + DeviceNews(uid, old(notices), notices)
    {
      hide DeviceNews;
      hide Valid;
      hide Models;
      hide DecodeDetails;
      hide TilingAt;
      hide ParseStream;
      hide ParseFormat;
      NoDeviceNews(uid, notices);
      if |p| < 61 {
        return;
      }
      var details := DecodeDetails(p);
      if details.Some? {
        v2ipDetails := Some(details.value.Merge(v2ipDetails));
      }
      if |p| >= 88 {
        var target := p[64..80];
        if !Empty(target) {
          SetTiling(TilingAt(p, 80, target));
        }
      }
      if |p| >= 120 {
        v2ipSink := Some(SinkRoute(ParseStream(p, 88), ParseStream(p, 96), ParseStream(p, 104), Some(ParseFormat(p, 112))));
      }
    }

    // ---- bays ----

    lemma SamePorts()
      ensures bays.Keys == View().bays.Keys
    {
    }

    /** Passes on to the device's notices what a bay has notified since d. */
    ghost method Record(d: DeviceModel.Device, port: nat, q: seq<Queued>)
      requires port in bays && d.uid == uid && View() == d.(bays := d.bays[port := bays[port].model])
      requires LogIn(d, port) <= bays[port].model.log
      requires queue.pending == q + News(BayId(uid, port), LogIn(d, port), bays[port].model.log)
      modifies this`notices
      ensures View() == d.WithBay(port, bays[port].model)
      ensures queue.pending == q + DeviceNews(uid, d.notices, notices)
    {
      hide News;
      hide DeviceNews;
      hide Models;
      var before := LogIn(d, port);
      BayNewsIsDeviceNews(uid, port, notices, before, bays[port].model.log);
      notices := notices + Told(port, bays[port].model.log[|before|..]);
    }

    method OnBay(port: nat, op: Op)
      requires Valid() && port in bays
      modifies this`notices, bays[port], queue
      ensures Valid() && View() == old(View()).OnBay(port, op)
      ensures queue.pending == old(queue.pending) + DeviceNews(uid, old(notices), notices)
    {
      hide Apply;
      hide News;
      hide DeviceNews;
      hide Bays.Bay.Valid;
      hide DeviceModel.Device.WithBay;
      ghost var d := View();
      bays[port].Perform(op);
      ApplyLog(d.bays[port], op);
      assert Models() == d.bays[port := bays[port].model];
      Record(d, port, old(queue.pending));
    }

    function Resolve(port: nat): Option<BayId>
      reads this`bays
    {
      if port in bays then Some(BayId(uid, port)) else None
    }

    /** The bay of a descriptor, made when it is not there yet, and what its source
        ports lead to. */
    method BayFor(cfg: Config) returns (b: Bays.Bay, isNew: bool, video: Option<BayId>, audio: Option<BayId>)
      requires Valid()
      modifies this`bays
      ensures Valid() && bays == old(bays)[cfg.port := b] && Models() == old(Models())[cfg.port := b.model]
      ensures isNew == (cfg.port !in old(View()).bays)
      ensures video == old(View()).Resolve(cfg.videoSource, cfg.port) && audio == old(View()).Resolve(cfg.audioSource, cfg.port)
      ensures b.Valid() && b.queue == queue && b.id == BayId(uid, cfg.port)
      ensures b.model == Before(old(View()), cfg) && if cfg.port in old(bays) then b == old(bays)[cfg.port] else fresh(b)
    {
      hide Bays.Bay.Valid;
      isNew := cfg.port !in bays;
      if isNew {
        b := new Bays.Bay(uid, cfg, queue);
        bays := bays[cfg.port := b];
      } else {
        b := bays[cfg.port];
      }
      assert Models() == old(Models())[cfg.port := b.model];
      video, audio := Resolve(cfg.videoSource), Resolve(cfg.audioSource);
    }

    method DescribeBay(b: Bays.Bay, cfg: Config, onV2ip: bool, video: Option<BayId>, audio: Option<BayId>, isNew: bool)
      requires Valid() && cfg.port in bays && bays[cfg.port] == b
      modifies b, queue
      ensures Valid() && Models() == old(Models())[cfg.port := b.model] && old(b.model.log) <= b.model.log
      ensures var c := old(b.model).ApplyConfig(cfg, onV2ip, video, audio);
              b.model == if isNew then Register(c) else c
      ensures queue.pending == old(queue.pending) + News(BayId(uid, cfg.port), old(b.model.log), b.model.log)
    {
      hide News;
      hide Bays.Bay.Valid;
      hide BayModel.Bay.ApplyConfig;
      hide Register;
      b.Describe(cfg, onV2ip, video, audio, isNew);
    }

    method ConfigureBay(cfg: Config)
      requires Valid()
      modifies this`bays, bays.Values, queue
      ensures Valid() && cfg.port in bays && fresh(bays.Values - old(bays.Values))
      ensures Models() == old(Models())[cfg.port := bays[cfg.port].model]
      ensures bays[cfg.port].model == DeviceModel.Configure(old(View()), cfg)
      ensures LogIn(old(View()), cfg.port) <= bays[cfg.port].model.log
      ensures queue.pending
              == old(queue.pending) + News(BayId(uid, cfg.port), LogIn(old(View()), cfg.port), bays[cfg.port].model.log)
    {
      hide News;
      hide BayModel.Bay.ApplyConfig;
      hide DeviceModel.Configure;
      hide DeviceModel.Device.Resolve;
      hide Before;
      hide Has;
      hide Register;
      hide Valid;
      hide Models;
      ghost var d := View();
      var onV2ip := IsV2ip();
      var b, isNew, video, audio := BayFor(cfg);
      DescribeBay(b, cfg, onV2ip, video, audio, isNew);
      ConfigureBody(d, cfg);
      Overwritten(d.bays, cfg.port, Before(d, cfg), b.model);
    }

    method Configure(cfg: Config)
      requires Valid()
      modifies this`bays, this`notices, bays.Values, queue
      ensures Valid() && View() == old(View()).WithBay(cfg.port, DeviceModel.Configure(old(View()), cfg))
      ensures fresh(bays.Values - old(bays.Values))
      ensures queue.pending == old(queue.pending) + DeviceNews(uid, old(notices), notices)
    {
      hide News;
      hide DeviceNews;
      hide DeviceModel.Configure;
      hide DeviceModel.Device.WithBay;
      hide Valid;
      hide Models;
      ConfigureBay(cfg);
      Record(old(View()), cfg.port, old(queue.pending));
    }

    method ApplyBayConfig(cfg: Config, now: int)
      requires Valid()
      modifies this`lastPing, this`bays, this`haveConfig, this`notices, bays.Values, queue
      ensures Valid() && View() == old(View()).(lastPing := now).ApplyConfig(cfg)
      ensures fresh(bays.Values - old(bays.Values))
      ensures queue.pending == old(queue.pending) + DeviceNews(uid, old(notices), notices)
    {
      hide DeviceNews;
      hide DeviceModel.Configure;
      hide DeviceModel.Device.ApplyConfig;
      hide DeviceModel.Device.WithBay;
      hide DeviceModel.Device.CheckComplete;
      hide Valid;
      hide Models;
      lastPing := now;
      ghost var d := View();
      var isNew := cfg.port !in bays;
      SamePorts();
      Configure(cfg);
      ghost var stored := notices;
      if isNew {
        CheckConfigComplete();
      }
      ApplyConfigBody(d, cfg);
      NoticesGrow(d, cfg);
      DeviceNewsJoin(uid, old(notices), stored, notices);
      NoDeviceNews(uid, stored);
    }

    /** One page of descriptors: whole records in order, a shorter rest ignored. */
    method TakeConfigPage(p: bytes, now: int)
      requires Valid()
      modifies this`lastPing, this`bays, this`haveConfig, this`notices, bays.Values, queue
      ensures Valid() && View() == old(View()).TakeConfigPage(p, now)
      ensures fresh(bays.Values - old(bays.Values))
      ensures queue.pending == old(queue.pending) + DeviceNews(uid, old(notices), notices)
    {
      hide DeviceNews;
      hide Valid;
      hide Models;
      hide DeviceModel.Device.TakeConfigPage;
      hide DeviceModel.Device.ApplyConfig;
      ghost var d := View();
      var off := 0;
      EmptyPage(d, now);
      NoDeviceNews(uid, notices);
      while off + CONFIG_SIZE <= |p|
        invariant off <= |p| && WholeRecords(p[..off], CONFIG_SIZE)
        invariant Valid() && View() == d.TakeConfigPage(p[..off], now) && d.notices <= notices
        invariant fresh(bays.Values - old(bays.Values))
        invariant queue.pending == old(queue.pending) + DeviceNews(uid, d.notices, notices)
      {
        ghost var before := View();
        var rec := p[off..off + CONFIG_SIZE];
        PageStep(d, p[..off], rec, now);
        assert p[..off] + rec == p[..off + CONFIG_SIZE];
        ApplyConfigNotices(before.(lastPing := now), ParseConfig(rec));
        ApplyBayConfig(ParseConfig(rec), now);
        DeviceNewsJoin(uid, d.notices, before.notices, notices);
        off := off + CONFIG_SIZE;
      }
      PagesCompose(d, p[..off], p[off..], now, now, now);
      assert p[..off] + p[off..] == p;
    }

    method Perform(w: Work)
      requires Valid() && Possible(View(), w)
      modifies this, bays.Values, queue
      ensures Valid() && View() == Done(old(View()), w) && fresh(bays.Values - old(bays.Values))
      ensures queue.pending == old(queue.pending) + DeviceNews(uid, old(View()).notices, View().notices)
    {
      hide DeviceNews;
      hide Valid;
      hide Models;
      hide DeviceModel.Device.TakeConfigPage;
      hide DeviceModel.Device.ApplyConfig;
      hide DeviceModel.Device.OnBay;
      hide DeviceModel.Device.CheckOnline;
      hide DeviceModel.Device.Touch;
      hide DeviceModel.Device.ApplyHello;
      hide DeviceModel.Device.LinksReceived;
      hide DeviceModel.Device.SetTiling;
      hide DeviceModel.TakeDeviceConfig;
      SamePorts();
      NoDeviceNews(uid, notices);
      match w {
        case Greet(h, now) => ApplyHello(h, now);
        case Describe(cfg, now) => ApplyBayConfig(cfg, now);
        case Page(p, now) => TakeConfigPage(p, now);
        case LinksDone => OnLinkConfigReceived();
        case Touching(ts, now) => Touch(ts, now);
        case Probing(now) => CheckOnline(now);
        case Advertise(ss) => v2ipSources := ss;
        case Configuring(p) => TakeDeviceConfig(p);
        case Subscribe(s) => v2ipSink := Some(s);
        case Tile(t) => SetTiling(t);
        case AtBay(port, op) => OnBay(port, op);
      }
    }
  }

  lemma EmptyPage(d: DeviceModel.Device, now: int)
    ensures d.TakeConfigPage([], now) == d && forall p: bytes :: p[..0] == []
  {
  }

  lemma PageStep(d: DeviceModel.Device, p: bytes, rec: bytes, now: int)
    requires WholeRecords(p, CONFIG_SIZE) && |rec| == CONFIG_SIZE
    ensures WholeRecords(p + rec, CONFIG_SIZE)
    ensures d.TakeConfigPage(p, now).(lastPing := now).ApplyConfig(ParseConfig(rec)) == d.TakeConfigPage(p + rec, now)
  {
    hide DeviceModel.Device.ApplyConfig;
    WholeAppend(p, rec, CONFIG_SIZE);
    PagesCompose(d, p, rec, now, now, now);
    var e := d.TakeConfigPage(p, now);
    assert [rec][..0] == [];
    assert e.ApplyConfigs([rec]) == e.ApplyConfig(ParseConfig(rec));
    ApplyConfigTimeless(e, ParseConfig(rec), now);
  }

  lemma Overwritten<K, V>(m: map<K, V>, k: K, v: V, w: V)
    ensures m[k := v][k := w] == m[k := w]
  {
  }

  lemma ConfigureBody(d: DeviceModel.Device, cfg: Config)
    ensures DeviceModel.Configure(d, cfg)
            == var b := Before(d, cfg).ApplyConfig(cfg, d.IsV2ip(), d.Resolve(cfg.videoSource, cfg.port),
                                                   d.Resolve(cfg.audioSource, cfg.port));
               if cfg.port in d.bays then b else Register(b)
    ensures Before(d, cfg).log == LogIn(d, cfg.port)
  {
  }

  lemma ApplyLog(b: BayModel.Bay, op: Op)
    ensures b.log <= Apply(b, op).log
  {
    if op.OpStatus? {
      SetAllLog(b, StatusPuts(op.data));
    }
  }
}
