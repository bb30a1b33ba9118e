/** What the steps of a run do to each device: every step is work on the devices it
    changes, so what holds of all work on a device holds of every device of a run. */
module Histories {
  import opened Bytes
  import opened Frames
  import opened Opcodes
  import opened V2ipConfig
  import opened Control
  import opened BayModel
  import opened DeviceModel
  import opened Links
  import opened Registry

  /** e is what some work, piece by piece, makes of d. */
  ghost predicate Led(d: Device, e: Device) { exists ws :: Single(ws) && e == DoneAll(d, ws) }

  lemma LedByNothing(d: Device)
    ensures Led(d, d)
  {
    assert Single([]) && d == DoneAll(d, []);
  }

  lemma LedBy(d: Device, w: Work)
    ensures Led(d, Done(d, w))
  {
    hide Done;
    if w.Page? {
      var recs := Records(w.payload, CONFIG_SIZE);
      PageIsDescribed(d, recs, w.now);
      assert Done(d, w) == DoneAll(d, Described(recs, w.now)) by { PageIsDone(d, w); }
    } else {
      DoneOne(d, w);
      assert Single([w]);
    }
  }

  lemma PageIsDone(d: Device, w: Work)
    requires w.Page?
    ensures var recs := Records(w.payload, CONFIG_SIZE);
            Done(d, w) == if recs == [] then d else d.ApplyConfigs(recs).(lastPing := w.now)
  {
  }

  lemma LedOn(d: Device, e: Device, g: Device)
    requires Led(d, e) && Led(e, g)
    ensures Led(d, g)
  {
    hide DoneAll;
    var a :| Single(a) && e == DoneAll(d, a);
    var b :| Single(b) && g == DoneAll(e, b);
    DoneAllAppend(d, a, b);
    assert Single(a + b);
  }

  lemma LedOnBy(d: Device, e: Device, w: Work)
    requires Led(d, e)
    ensures Led(d, Done(e, w))
  {
    hide Led;
    LedBy(e, w);
    LedOn(d, e, Done(e, w));
  }

  /** What a step finds of a device: where it was, or newly made. */
  ghost predicate StartOf(r: Reg, u: uid, d: Device) {
    if u in r.devices then d == r.devices[u] else exists h, now :: d == NewDevice(u, h, now)
  }

  ghost predicate Comes(r: Reg, u: uid, e: Device) { exists d :: StartOf(r, u, d) && Led(d, e) }

  /** Every device of s is led there from where it was in r. */
  ghost predicate Leads(r: Reg, s: Reg) {
    r.devices.Keys <= s.devices.Keys && forall u :: u in s.devices ==> Comes(r, u, s.devices[u])
  }

  lemma LeadsNowhere(r: Reg)
    ensures Leads(r, r)
  {
    hide Led;
    forall u | u in r.devices
      ensures Comes(r, u, r.devices[u])
    {
      LedByNothing(r.devices[u]);
      assert StartOf(r, u, r.devices[u]);
    }
  }

  lemma LeadsOn(r: Reg, s: Reg, t: Reg)
    requires Leads(r, s) && Leads(s, t)
    ensures Leads(r, t)
  {
    hide Led;
    forall u | u in t.devices
      ensures Comes(r, u, t.devices[u])
    {
      assert Comes(s, u, t.devices[u]);
      var e :| StartOf(s, u, e) && Led(e, t.devices[u]);
      if u in s.devices {
        assert Comes(r, u, s.devices[u]);
        var d :| StartOf(r, u, d) && Led(d, s.devices[u]);
        LedOn(d, e, t.devices[u]);
      } else {
        assert StartOf(r, u, e);
      }
    }
  }

  lemma WithLeads(r: Reg, d: Device, e: Device)
    requires StartOf(r, e.uid, d) && Led(d, e)
    ensures Leads(r, r.With(e))
  {
    hide Led;
    LeadsNowhere(r);
  }

  lemma WorkLeads(r: Reg, u: uid, w: Work)
    requires u in r.devices && r.devices[u].uid == u
    ensures Leads(r, r.With(Done(r.devices[u], w)))
  {
    hide Done;
    hide Led;
    hide Leads;
    LedBy(r.devices[u], w);
    DoneUid(r.devices[u], w);
    WithLeads(r, r.devices[u], Done(r.devices[u], w));
  }

  lemma {:induction false} OnBaysLed(d: Device, port: nat, ops: seq<Op>)
    requires port in d.bays
    ensures Led(d, OnBays(d, port, ops)) && OnBays(d, port, ops).uid == d.uid
    decreases |ops|
  {
    hide Led;
    hide Apply;
    if ops == [] {
      LedByNothing(d);
    } else {
      var e := d.OnBay(port, ops[0]);
      LedBy(d, AtBay(port, ops[0]));
      OnBaysLed(e, port, ops[1..]);
      LedOn(d, e, OnBays(d, port, ops));
    }
  }

  ghost predicate Keyed(r: Reg) { forall u :: u in r.devices ==> r.devices[u].uid == u }

  lemma OnBayLeads(r: Reg, id: BayId, ops: seq<Op>)
    requires Keyed(r)
    ensures Leads(r, r.OnBay(id, ops))
  {
    hide Led;
    hide Leads;
    hide OnBays;
    if r.Knows(id) {
      OnBaysLed(r.devices[id.device], id.port, ops);
      WithLeads(r, r.devices[id.device], OnBays(r.devices[id.device], id.port, ops));
    } else {
      LeadsNowhere(r);
    }
  }

  lemma AttributesLead(r: Reg)
    requires Keyed(r)
    ensures Leads(r, r)
    ensures forall id, ops :: Leads(r, r.OnBay(id, ops))
  {
    hide Leads;
    LeadsNowhere(r);
    forall id, ops
      ensures Leads(r, r.OnBay(id, ops))
    {
      OnBayLeads(r, id, ops);
    }
  }

  lemma {:induction false} MappingsLed(d: Device, f: RawFrame, input: bool, first: nat, n: nat)
    ensures Led(d, TakeMappings(d, f, input, first, n)) && TakeMappings(d, f, input, first, n).uid == d.uid
  {
    hide Device.ByMode;
    hide Device.OnBay;
    hide RawFrame.UidAt;
    hide Led;
    if n == 0 {
      LedByNothing(d);
    } else {
      MappingsLed(d, f, input, first, n - 1);
      var e := TakeMappings(d, f, input, first, n - 1);
      ByModeKnown(e, input, first + n - 1);
      var mapped, port := f.UidAt(8 + 16 * (n - 1)), e.ByMode(input, first + n - 1);
      if mapped.Some? && port.Some? {
        LedOnBy(d, e, AtBay(port.value, OpV2ipUid(mapped.value)));
        DoneUid(e, AtBay(port.value, OpV2ipUid(mapped.value)));
      }
    }
  }

  // ---- handlers ----

  lemma DeviceFramesLead(r: Reg, f: RawFrame, now: int)
    requires Keyed(r) && f.Valid()
    ensures Leads(r, HandleBayConfig(r, f, now))
    ensures Leads(r, HandleSources(r, f))
    ensures Leads(r, HandleDeviceConfig(r, f))
    ensures Leads(r, HandleTiling(r, f))
  {
    hide Leads;
    hide Device.TakeConfigPage;
    hide TakeDeviceConfig;
    hide Device.SetTiling;
    hide DecodeSources;
    hide DecodeTiling;
    LeadsNowhere(r);
    var u, p := f.RemoteId(), f.Payload();
    if u in r.devices {
      WorkLeads(r, u, Page(p, now));
      WorkLeads(r, u, Advertise(DecodeSources(p)));
      WorkLeads(r, u, Configuring(p));
      var t := DecodeTiling(p);
      if t.Some? && t.value.target in r.devices {
        WorkLeads(r, t.value.target, Tile(t.value));
      }
    }
  }

  lemma HelloLeads(r: Reg, f: RawFrame, now: int)
    requires Keyed(r) && f.Valid()
    ensures Leads(r, HandleHello(r, f, now))
  {
    hide Leads;
    hide Led;
    var u, h := f.RemoteId(), HelloOf(f);
    if u in r.devices {
      WorkLeads(r, u, Greet(h, now));
    } else {
      var d := NewDevice(u, h, now);
      LedBy(d, Greet(h, now));
      WithLeads(r, d, d.ApplyHello(h, now));
    }
  }

  /** What leads a device there does not depend on the link book. */
  lemma SameDevicesLead(r: Reg, s: Reg, t: Reg)
    requires Leads(r, s) && t.devices == s.devices
    ensures Leads(r, t)
  {
    hide Comes;
  }

  lemma LinksLead(r: Reg, f: RawFrame)
    requires Keyed(r) && f.Valid()
    ensures Leads(r, HandleLinks(r, f))
  {
    hide Comes;
    hide Led;
    hide TakeLinks;
    var u := f.RemoteId();
    if u in r.devices {
      LedBy(r.devices[u], LinksDone);
      WithLeads(r, r.devices[u], r.devices[u].LinksReceived());
      SameDevicesLead(r, r.With(r.devices[u].LinksReceived()), HandleLinks(r, f));
    } else {
      LeadsNowhere(r);
    }
  }

  lemma MappingLeads(r: Reg, f: RawFrame)
    requires Keyed(r) && f.Valid()
    ensures Leads(r, HandleBayMapping(r, f))
  {
    hide Leads;
    hide Led;
    hide TakeMappings;
    LeadsNowhere(r);
    if f.RemoteId() in r.devices && f.U16At(0).Some? && f.U16At(2).Some? {
      var d, input, first, n := r.devices[f.RemoteId()], f.U16At(0).value % 2 == 1, f.U16At(2).value, f.U16At(0).value / 2;
      MappingsLed(d, f, input, first, n);
      WithLeads(r, d, TakeMappings(d, f, input, first, n));
    }
  }

  lemma ManualSwitchLeads(r: Reg, f: RawFrame, choice: Choice)
    requires Keyed(r) && f.Valid()
    ensures Leads(r, HandleManualSwitch(r, f, choice))
  {
    hide Leads;
    hide Led;
    hide OnBays;
    hide DecodeManualSwitch;
    LeadsNowhere(r);
    var route := DecodeManualSwitch(f);
    if route.Some? && route.value.0 in r.devices {
      var u, d := route.value.0, r.devices[route.value.0];
      var e := d;
      LedByNothing(d);
      if Sink(r, u).Some? {
        e := OnBays(d, Sink(r, u).value.port, [OpSelect(choice.video, choice.audio)]);
        OnBaysLed(d, Sink(r, u).value.port, [OpSelect(choice.video, choice.audio)]);
      }
      LedOnBy(d, e, Subscribe(route.value.1));
      WithLeads(r, d, e.(sink := Some(route.value.1)));
      assert r.devices[u := e][u := e.(sink := Some(route.value.1))] == r.devices[u := e.(sink := Some(route.value.1))];
    }
  }

  lemma BayFramesLead(r: Reg, f: RawFrame, choice: Choice)
    requires Keyed(r) && f.Valid()
    ensures Leads(r, HandleConnect(r, f)) && Leads(r, HandlePower(r, f)) && Leads(r, HandleRouting(r, f))
    ensures Leads(r, HandleVolumeSet(r, f)) && Leads(r, HandleVolumeMute(r, f)) && Leads(r, HandleBayHide(r, f))
    ensures Leads(r, HandleSourceSwitch(r, f, choice))
  {
    hide Leads;
    hide OnBays;
    hide DecodeVolumeSet;
    hide DecodeHidden;
    hide Sink;
    AttributesLead(r);
  }

  lemma ReportsLead(r: Reg, f: RawFrame, choice: Choice)
    requires Keyed(r) && f.Valid()
    ensures Leads(r, HandleBayStatus(r, f)) && Leads(r, HandleMirror(r, f)) && Leads(r, HandleAmpZone(r, f))
    ensures Leads(r, HandleFilter(r, f)) && Leads(r, HandleSignalReport(r, f, choice))
  {
    hide Leads;
    hide OnBays;
    hide StatusOps;
    hide DecodeAmpZone;
    hide DecodeFilter;
    hide Sink;
    AttributesLead(r);
  }

  lemma HandleLeads(r: Reg, f: RawFrame, now: int, choice: Choice)
    requires Keyed(r) && f.Valid()
    ensures Leads(r, Handle(r, f, now, choice))
  {
    hide Leads;
    hide HandleBayConfig;
    hide HandleSources;
    hide HandleDeviceConfig;
    hide HandleTiling;
    hide HandleHello;
    hide HandleLinks;
    hide HandleBayMapping;
    hide HandleManualSwitch;
    hide HandleConnect;
    hide HandlePower;
    hide HandleRouting;
    hide HandleVolumeSet;
    hide HandleVolumeMute;
    hide HandleBayHide;
    hide HandleSourceSwitch;
    hide HandleBayStatus;
    hide HandleMirror;
    hide HandleAmpZone;
    hide HandleFilter;
    hide HandleSignalReport;
    LeadsNowhere(r);
    HelloLeads(r, f, now);
    DeviceFramesLead(r, f, now);
    LinksLead(r, f);
    MappingLeads(r, f);
    ManualSwitchLeads(r, f, choice);
    BayFramesLead(r, f, choice);
    ReportsLead(r, f, choice);
  }

  // ---- steps ----

  lemma ProcessLeads(r: Reg, data: bytes, ts: int, now: int, choice: Choice)
    requires WellFormed(r) && (Parse(data).Some? ==> MayChoose(r, Parse(data).value, choice))
    ensures Leads(r, Process(r, data, ts, now, choice))
  {
    hide Leads;
    hide Handle;
    hide Device.Touch;
    LeadsNowhere(r);
    WellKeyed(r);
    var f := Parse(data);
    if f.Some? && f.value.RemoteId() != r.me {
      var s, u := Handle(r, f.value, now, choice), f.value.RemoteId();
      HandleLeads(r, f.value, now, choice);
      HandleKeeps(r, f.value, now, choice);
      WellKeyed(s);
      if u in s.devices {
        WorkLeads(s, u, Touching(ts, now));
        LeadsOn(r, s, s.With(s.devices[u].Touch(ts, now)));
      }
    }
  }

  lemma WellKeyed(r: Reg)
    requires WellFormed(r)
    ensures Keyed(r)
  {
    hide Sound;
    forall u | u in r.devices
      ensures r.devices[u].uid == u
    {
      assert DeviceOk(r, u);
    }
  }

  lemma ProbeLeads(r: Reg, clock: map<uid, int>)
    requires r.devices.Keys <= clock.Keys
    ensures Leads(r, Probe(r, clock))
  {
    hide Led;
    hide Device.CheckOnline;
    hide Device.Complete;
    LeadsNowhere(r);
    var s := Probe(r, clock);
    forall u | u in s.devices
      ensures Comes(r, u, s.devices[u])
    {
      assert Comes(r, u, r.devices[u]);
      LedBy(r.devices[u], Probing(clock[u]));
      assert StartOf(r, u, r.devices[u]);
    }
  }

  /** Every step of a run is work on the devices it changes. */
  lemma StepLeads(r: Reg, step: Step)
    requires WellFormed(r) && Enabled(r, step)
    ensures Leads(r, Next(r, step))
  {
    hide Leads;
    hide Process;
    hide Probe;
    hide MayChoose;
    match step
    case Datagram(data, ts, now, choice) => ProcessLeads(r, data, ts, now, choice);
    case Ticked(clock) => ProbeLeads(r, clock);
    case Called(id, op) =>
      WellKeyed(r);
      OnBayLeads(r, id, [op]);
  }

  /** So every device of a run is what some work makes of a newly made one. */
  lemma {:induction false} RunLeads(me: uid, steps: seq<Step>)
    requires Run(me, steps).Some?
    ensures Leads(EmptyRegistry(me), Run(me, steps).value)
  {
    hide Leads;
    hide Enabled;
    hide Next;
    if steps == [] {
      LeadsNowhere(EmptyRegistry(me));
    } else {
      var front, last := steps[..|steps| - 1], steps[|steps| - 1];
      RunLeads(me, front);
      RegistryStaysWellFormed(me, front);
      StepLeads(Run(me, front).value, last);
      LeadsOn(EmptyRegistry(me), Run(me, front).value, Next(Run(me, front).value, last));
    }
  }

  /** Over every run, with any clock readings, every device's online notices strictly
      alternate starting with offline, its stored flag is what the last of them said, and
      between two completed configurations it has been offline. */
  lemma EveryDeviceInOrder(me: uid, steps: seq<Step>, u: uid)
    requires Run(me, steps).Some? && u in Run(me, steps).value.devices
    ensures InOrder(Run(me, steps).value.devices[u])
  {
    hide InOrder;
    var e := Run(me, steps).value.devices[u];
    RunLeads(me, steps);
    assert Comes(EmptyRegistry(me), u, e);
    var d :| StartOf(EmptyRegistry(me), u, d) && Led(d, e);
    var h, now :| d == NewDevice(u, h, now);
    var ws :| Single(ws) && e == DoneAll(d, ws);
    OnlineAndConfigured(u, h, now, ws);
  }

  // ---- when a configuration is notified as complete ----

  /** On the way from d to e there was a moment the device was complete and had just
      notified it as its notice i. */
  ghost predicate CompletedBetween(d: Device, e: Device, i: nat) {
    exists ws, n: nat :: n <= |ws| && Single(ws) && e == DoneAll(d, ws) && CompletedAt(d, ws, n, i)
  }

  /** A step during which a device notified a completed configuration as its notice i,
      and was complete as it did. */
  ghost predicate CompletesIn(r: Reg, s: Reg, u: uid, i: nat) {
    u in s.devices && exists d :: StartOf(r, u, d) && |d.notices| <= i && CompletedBetween(d, s.devices[u], i)
  }

  lemma CompletedOnTheWay(d: Device, e: Device, i: nat)
    requires Led(d, e) && |d.notices| <= i < |e.notices| && e.notices[i].Configured?
    ensures CompletedBetween(d, e, i)
  {
    hide CompletedAt;
    hide DoneAll;
    var ws :| Single(ws) && e == DoneAll(d, ws);
    var n := ConfiguredAt(d, ws, i);
  }

  lemma StepNotices(r: Reg, s: Reg, u: uid)
    requires Leads(r, s) && u in r.devices
    ensures u in s.devices && r.devices[u].notices <= s.devices[u].notices
  {
    hide DoneAll;
    assert Comes(r, u, s.devices[u]);
    var d :| StartOf(r, u, d) && Led(d, s.devices[u]);
    var ws :| Single(ws) && s.devices[u] == DoneAll(d, ws);
    DoneAllNotices(d, ws);
  }

  /** Over every run, each completed configuration a device has notified was notified in
      a step of the run, at a moment the device was complete, and stays in its notices. */
  lemma {:induction false} ConfiguredWhenComplete(me: uid, steps: seq<Step>, u: uid, i: nat) returns (n: nat)
    requires Run(me, steps).Some? && u in Run(me, steps).value.devices
    requires i < |Run(me, steps).value.devices[u].notices| && Run(me, steps).value.devices[u].notices[i].Configured?
    ensures n < |steps| && Run(me, steps[..n]).Some? && Run(me, steps[..n + 1]).Some?
    ensures var s := Run(me, steps[..n + 1]).value;
            && CompletesIn(Run(me, steps[..n]).value, s, u, i)
            && u in s.devices && s.devices[u].notices <= Run(me, steps).value.devices[u].notices
  {
    hide Leads;
    hide CompletesIn;
    hide Enabled;
    hide Next;
    if steps == [] {
      assert false;
    } else {
      var front, last := steps[..|steps| - 1], steps[|steps| - 1];
      var r, s := Run(me, front).value, Run(me, steps).value;
      RegistryStaysWellFormed(me, front);
      StepLeads(r, last);
      if u in r.devices {
        StepNotices(r, s, u);
      }
      if u in r.devices && i < |r.devices[u].notices| {
        n := ConfiguredWhenComplete(me, front, u, i);
        assert front[..n] == steps[..n] && front[..n + 1] == steps[..n + 1];
      } else {
        n := |front|;
        CompletesHere(r, s, u, i);
        assert steps[..n + 1] == steps;
      }
    }
  }

  lemma CompletesHere(r: Reg, s: Reg, u: uid, i: nat)
    requires Leads(r, s) && u in s.devices && i < |s.devices[u].notices| && s.devices[u].notices[i].Configured?
    requires u in r.devices ==> |r.devices[u].notices| <= i
    ensures CompletesIn(r, s, u, i)
  {
    hide Led;
    hide CompletedBetween;
    assert Comes(r, u, s.devices[u]);
    var d :| StartOf(r, u, d) && Led(d, s.devices[u]);
    CompletedOnTheWay(d, s.devices[u], i);
  }

  // ---- what a device passes on of its bays ----

  /** What a device has notified of one bay. */
  function ToldOf(ns: seq<Notice>, port: nat): seq<Event> {
    if ns == [] then []
    else
      var n := ns[|ns| - 1];
      ToldOf(ns[..|ns| - 1], port) + if n.OfBay? && n.port == port then [n.event] else []
  }

  ghost predicate Tells(d: Device, port: nat) {
    ToldOf(d.notices, port) == if port in d.bays then d.bays[port].log else []
  }

  /** Of every bay exactly what the bay has noted, in order. */
  ghost predicate TellsAll(d: Device) { forall port :: Tells(d, port) }

  lemma ToldNext(ns: seq<Notice>, n: Notice, port: nat)
    ensures ToldOf(ns + [n], port) == ToldOf(ns, port) + if n.OfBay? && n.port == port then [n.event] else []
  {
    assert (ns + [n])[..|ns|] == ns;
  }

  lemma {:induction false} ToldAppend(ns: seq<Notice>, more: seq<Notice>, port: nat)
    ensures ToldOf(ns + more, port) == ToldOf(ns, port) + ToldOf(more, port)
  {
    if more == [] {
      assert ns + more == ns;
    } else {
      var front, last := more[..|more| - 1], more[|more| - 1];
      ToldAppend(ns, front, port);
      ToldNext(ns + front, last, port);
      ToldNext(front, last, port);
      assert ns + more == ns + front + [last] && more == front + [last];
    }
  }

  lemma {:induction false} ToldIs(at: nat, events: seq<Event>, port: nat)
    ensures ToldOf(Told(at, events), port) == if port == at then events else []
  {
    if events == [] {
      assert Told(at, events) == [];
    } else {
      var front, last := events[..|events| - 1], events[|events| - 1];
      ToldIs(at, front, port);
      assert Told(at, events) == Told(at, front) + [OfBay(at, last)];
      ToldNext(Told(at, front), OfBay(at, last), port);
      assert events == front + [last];
    }
  }

  /** Notices that are not of bays change nothing of this. */
  lemma {:induction false} OthersTold(more: seq<Notice>, port: nat)
    requires forall i :: 0 <= i < |more| ==> !more[i].OfBay?
    ensures ToldOf(more, port) == []
  {
    if more != [] {
      OthersTold(more[..|more| - 1], port);
    }
  }

  lemma WithBayTells(d: Device, at: nat, b: Bay)
    requires TellsAll(d) && (at in d.bays ==> d.bays[at].log <= b.log)
    ensures TellsAll(d.WithBay(at, b))
  {
    hide ToldOf;
    var known := if at in d.bays then |d.bays[at].log| else 0;
    forall port
      ensures Tells(d.WithBay(at, b), port)
    {
      assert Tells(d, port);
      ToldAppend(d.notices, Told(at, b.log[known..]), port);
      ToldIs(at, b.log[known..], port);
    }
  }

  /** The bays as they were, and only notices of other kinds added. */
  ghost predicate AddsOthers(d: Device, e: Device) {
    && e.bays == d.bays && d.notices <= e.notices
    && forall i :: |d.notices| <= i < |e.notices| ==> !e.notices[i].OfBay?
  }

  lemma AddsOthersTells(d: Device, e: Device)
    requires TellsAll(d) && AddsOthers(d, e)
    ensures TellsAll(e)
  {
    hide ToldOf;
    var more := e.notices[|d.notices|..];
    assert e.notices == d.notices + more;
    forall port
      ensures Tells(e, port)
    {
      assert Tells(d, port);
      ToldAppend(d.notices, more, port);
      OthersTold(more, port);
    }
  }

  lemma ConfigTells(d: Device, cfg: Config)
    requires TellsAll(d) && Sound(d)
    ensures TellsAll(d.ApplyConfig(cfg))
  {
    hide Device.ApplyConfig;
    hide Device.WithBay;
    hide Configure;
    hide TellsAll;
    hide Sound;
    ConfigureFaithful(d, cfg);
    ApplyConfigBody(d, cfg);
    BeforeLog(d, cfg);
    WithBayTells(d, cfg.port, Configure(d, cfg));
    var c := d.WithBay(cfg.port, Configure(d, cfg));
    AddsOthersTells(c, c.CheckComplete());
  }

  lemma BeforeLog(d: Device, cfg: Config)
    ensures cfg.port in d.bays ==> Before(d, cfg) == d.bays[cfg.port]
  {
  }

  lemma OnBayTells(d: Device, port: nat, op: Op)
    requires TellsAll(d) && Sound(d) && port in d.bays
    ensures TellsAll(d.OnBay(port, op))
  {
    hide Apply;
    hide Device.WithBay;
    hide TellsAll;
    hide Faithful;
    ApplyFaithful(d.bays[port], op);
    WithBayTells(d, port, Apply(d.bays[port], op));
  }

  lemma ConfigurationAdds(d: Device, p: bytes)
    ensures AddsOthers(d, TakeDeviceConfig(d, p))
  {
    hide TilingAt;
    hide ParseStream;
    hide ParseFormat;
    hide Receive;
  }

  lemma DoneTells(d: Device, w: Work)
    requires TellsAll(d) && Sound(d) && !w.Page?
    ensures TellsAll(Done(d, w))
  {
    hide TellsAll;
    hide Sound;
    hide Device.ApplyConfig;
    hide Device.OnBay;
    hide TakeDeviceConfig;
    match w
    case Describe(cfg, now) =>
      SameCoreSound(d, d.(lastPing := now));
      AddsOthersTells(d, d.(lastPing := now));
      ConfigTells(d.(lastPing := now), cfg);
    case AtBay(port, op) => if port in d.bays { OnBayTells(d, port, op); }
    case Configuring(p) =>
      ConfigurationAdds(d, p);
      AddsOthersTells(d, TakeDeviceConfig(d, p));
    case _ => AddsOthersTells(d, Done(d, w));
  }

  lemma {:induction false} WorkTells(u: uid, h: Hello, now: int, ws: seq<Work>)
    requires Single(ws)
    ensures TellsAll(DoneAll(NewDevice(u, h, now), ws))
  {
    hide TellsAll;
    hide Done;
    if ws == [] {
      NewTells(u, h, now);
    } else {
      var front := ws[..|ws| - 1];
      WorkTells(u, h, now, front);
      RunSound(u, h, now, front);
      DoneTells(DoneAll(NewDevice(u, h, now), front), ws[|ws| - 1]);
    }
  }

  lemma NewTells(u: uid, h: Hello, now: int)
    ensures TellsAll(NewDevice(u, h, now))
  {
    forall port
      ensures Tells(NewDevice(u, h, now), port)
    {
    }
  }

  /** Over every run each device has passed on of every bay exactly what the bay has noted, in
      order: nothing is lost, repeated or told of another bay. */
  lemma EveryBayIsTold(me: uid, steps: seq<Step>, id: BayId)
    requires Run(me, steps).Some? && Run(me, steps).value.Knows(id)
    ensures ToldOf(Run(me, steps).value.devices[id.device].notices, id.port) == Run(me, steps).value.BayAt(id).log
  {
    hide Run;
    var e := Run(me, steps).value.devices[id.device];
    RunLeads(me, steps);
    assert Comes(EmptyRegistry(me), id.device, e);
    var d :| StartOf(EmptyRegistry(me), id.device, d) && Led(d, e);
    var h, now :| d == NewDevice(id.device, h, now);
    var ws :| Single(ws) && e == DoneAll(d, ws);
    WorkTells(id.device, h, now, ws);
    assert Tells(e, id.port);
  }
}
