/** When a device is online, over runs of the registry: told from the datagrams it sent and the
    readings of the clock alone. Times are in nanoseconds. */
module OnlineRuns {
  import opened Bytes
  import opened Frames
  import opened Opcodes
  import opened V2ipConfig
  import opened Control
  import opened BayModel
  import opened DeviceModel
  import opened Links
  import opened Registry
  import opened Reports
  import opened Announcements

  // ---- what was heard ----

  /** When a device was last heard, and the version it announced last. */
  datatype Heard = Heard(at: int, protocol: nat)

  predicate From(step: Step, u: uid) {
    step.Datagram? && Parse(step.data).Some? && Parse(step.data).value.RemoteId() == u
  }

  /** A device is first heard by a hello; the version is the first number of its payload. */
  function Hear(before: Option<Heard>, step: Step, u: uid): Option<Heard> {
    if !From(step, u) then before
    else if Parse(step.data).value.Opcode() == 0 then
      Some(Heard(step.ts, if |step.data| >= 26 then Le(step.data[24..26]) else 0))
    else if before.None? then None
    else Some(Heard(step.ts, before.value.protocol))
  }

  function LastHeard(steps: seq<Step>, u: uid): Option<Heard> {
    if steps == [] then None else Hear(LastHeard(steps[..|steps| - 1], u), steps[|steps| - 1], u)
  }

  /** The silence a device is allowed: 15 s from version 0x20 on, 120 s before. */
  function Allowed(h: Heard): int { if h.protocol >= 0x20 then 15_000_000_000 else 120_000_000_000 }

  // ---- what one step does ----

  ghost predicate SameVitals(d: Device, e: Device) {
    e.hello == d.hello && e.lastPing == d.lastPing && e.online == d.online
  }

  ghost predicate KeepVitals(r: Reg, s: Reg) {
    s.devices.Keys == r.devices.Keys && forall u :: u in r.devices ==> SameVitals(r.devices[u], s.devices[u])
  }

  lemma {:induction false} OnBaysVitals(d: Device, port: nat, ops: seq<Op>)
    requires port in d.bays
    ensures SameVitals(d, OnBays(d, port, ops)) && OnBays(d, port, ops).uid == d.uid
    decreases |ops|
  {
    hide Apply;
    if ops != [] {
      OnBaysVitals(d.OnBay(port, ops[0]), port, ops[1..]);
    }
  }

  ghost predicate Keyed(r: Reg) { forall u :: u in r.devices ==> r.devices[u].uid == u }

  lemma OnBayVitals(r: Reg)
    requires Keyed(r)
    ensures KeepVitals(r, r) && forall id, ops :: KeepVitals(r, r.OnBay(id, ops)) && Keyed(r.OnBay(id, ops))
  {
    hide OnBays;
    forall id, ops
      ensures KeepVitals(r, r.OnBay(id, ops)) && Keyed(r.OnBay(id, ops))
    {
      if r.Knows(id) {
        OnBaysVitals(r.devices[id.device], id.port, ops);
      }
    }
  }

  lemma BayFramesVitals(r: Reg, f: RawFrame)
    requires f.Valid() && Keyed(r)
    ensures KeepVitals(r, HandleConnect(r, f)) && KeepVitals(r, HandlePower(r, f)) && KeepVitals(r, HandleRouting(r, f))
    ensures KeepVitals(r, HandleVolumeSet(r, f)) && KeepVitals(r, HandleVolumeMute(r, f)) && KeepVitals(r, HandleBayHide(r, f))
  {
    hide Reg.OnBay;
    hide KeepVitals;
    hide DecodeVolumeSet;
    hide DecodeHidden;
    OnBayVitals(r);
  }

  lemma ReportsVitals(r: Reg, f: RawFrame, choice: Choice)
    requires f.Valid() && Keyed(r)
    ensures KeepVitals(r, HandleBayStatus(r, f)) && KeepVitals(r, HandleMirror(r, f)) && KeepVitals(r, HandleAmpZone(r, f))
    ensures KeepVitals(r, HandleFilter(r, f)) && KeepVitals(r, HandleSignalReport(r, f, choice))
    ensures KeepVitals(r, HandleSourceSwitch(r, f, choice))
  {
    hide Reg.OnBay;
    hide KeepVitals;
    hide StatusOps;
    hide DecodeAmpZone;
    hide DecodeFilter;
    hide Sink;
    OnBayVitals(r);
  }

  lemma ManualVitals(r: Reg, f: RawFrame, choice: Choice)
    requires f.Valid() && Keyed(r)
    ensures KeepVitals(r, HandleManualSwitch(r, f, choice))
  {
    hide Reg.OnBay;
    hide DecodeManualSwitch;
    hide Sink;
    OnBayVitals(r);
  }

  lemma {:induction false} MappingsVitals(d: Device, f: RawFrame, input: bool, first: nat, n: nat)
    ensures var e := TakeMappings(d, f, input, first, n); SameVitals(d, e) && e.uid == d.uid
  {
    hide Device.ByMode;
    hide RawFrame.UidAt;
    hide Apply;
    if n > 0 {
      MappingsVitals(d, f, input, first, n - 1);
    }
  }

  lemma ConfigVitals(d: Device, p: bytes)
    ensures var e := TakeDeviceConfig(d, p); SameVitals(d, e) && e.uid == d.uid
  {
    hide ParseStream;
    hide ParseFormat;
    hide TilingAt;
    hide Receive;
  }

  lemma WithVitals(r: Reg, e: Device)
    requires e.uid in r.devices && SameVitals(r.devices[e.uid], e)
    ensures KeepVitals(r, r.With(e))
  {
  }

  lemma DeviceFramesVitals(r: Reg, f: RawFrame)
    requires f.Valid() && Keyed(r)
    ensures KeepVitals(r, HandleSources(r, f)) && KeepVitals(r, HandleDeviceConfig(r, f))
  {
    hide KeepVitals;
    hide RawFrame.Payload;
    hide RawFrame.RemoteId;
    hide DecodeSources;
    hide TakeDeviceConfig;
    OnBayVitals(r);
    if f.RemoteId() in r.devices {
      var d := r.devices[f.RemoteId()];
      ConfigVitals(d, f.Payload());
      WithVitals(r, TakeDeviceConfig(d, f.Payload()));
      WithVitals(r, d.(sources := DecodeSources(f.Payload())));
    }
  }

  lemma WindowVitals(r: Reg, f: RawFrame)
    requires f.Valid() && Keyed(r)
    ensures KeepVitals(r, HandleTiling(r, f))
  {
    hide KeepVitals;
    hide RawFrame.Payload;
    hide RawFrame.RemoteId;
    hide DecodeTiling;
    OnBayVitals(r);
    var t := DecodeTiling(f.Payload());
    if t.Some? && t.value.target in r.devices {
      WithVitals(r, r.devices[t.value.target].SetTiling(t.value));
    }
  }

  lemma MappingVitals(r: Reg, f: RawFrame)
    requires f.Valid() && Keyed(r)
    ensures KeepVitals(r, HandleBayMapping(r, f))
  {
    hide KeepVitals;
    hide RawFrame.U16At;
    hide RawFrame.RemoteId;
    hide TakeMappings;
    OnBayVitals(r);
    if f.RemoteId() in r.devices && f.U16At(0).Some? && f.U16At(2).Some? {
      var d, input, first, n := r.devices[f.RemoteId()], f.U16At(0).value % 2 == 1, f.U16At(2).value, f.U16At(0).value / 2;
      MappingsVitals(d, f, input, first, n);
      WithVitals(r, TakeMappings(d, f, input, first, n));
    }
  }

  lemma LinksVitals(r: Reg, f: RawFrame)
    requires f.Valid() && Keyed(r)
    ensures KeepVitals(r, HandleLinks(r, f))
  {
    hide TakeLinks;
    hide RawFrame.Payload;
    hide RawFrame.RemoteId;
    hide Device.Complete;
  }

  /** No frame but a hello and a page of descriptors concerns when a device was heard. */
  lemma HandleVitals(r: Reg, f: RawFrame, now: int, choice: Choice)
    requires f.Valid() && Keyed(r) && f.Opcode() !in {0x00, 0x02, 0x23}
    ensures KeepVitals(r, Handle(r, f, now, choice))
  {
    hide KeepVitals;
    hide Keyed;
    hide HandleHello;
    hide HandleBayConfig;
    hide HandleLinks;
    hide HandleConnect;
    hide HandlePower;
    hide HandleRouting;
    hide HandleVolumeSet;
    hide HandleVolumeMute;
    hide HandleSources;
    hide HandleSourceSwitch;
    hide HandleManualSwitch;
    hide HandleDeviceConfig;
    hide HandleBayHide;
    hide HandleBayStatus;
    hide HandleMirror;
    hide HandleBayMapping;
    hide HandleAmpZone;
    hide HandleFilter;
    hide HandleSignalReport;
    hide HandleTiling;
    OnBayVitals(r);
    BayFramesVitals(r, f);
    ReportsVitals(r, f, choice);
    ManualVitals(r, f, choice);
    DeviceFramesVitals(r, f);
    WindowVitals(r, f);
    MappingVitals(r, f);
    LinksVitals(r, f);
  }

  lemma {:induction false} ConfigsFacts(d: Device, recs: seq<bytes>)
    requires forall i :: 0 <= i < |recs| ==> |recs[i]| == CONFIG_SIZE
    ensures SameFacts(d, d.ApplyConfigs(recs))
  {
    hide Device.ApplyConfig;
    if recs != [] {
      ConfigsFacts(d, recs[..|recs| - 1]);
      ConfigFacts(d.ApplyConfigs(recs[..|recs| - 1]), ParseConfig(recs[|recs| - 1]));
    }
  }

  /** The version a frame announces. */
  function Version(f: RawFrame): nat { if |f.data| >= 26 then Le(f.data[24..26]) else 0 }

  /** A device of r is as it was when last heard. */
  ghost predicate StillHeard(r: Reg, s: Reg, u: uid) {
    (u in s.devices <==> u in r.devices) && (u in r.devices ==> SameVitals(r.devices[u], s.devices[u]))
  }

  lemma HelloVitals(r: Reg, f: RawFrame, now: int, u: uid)
    requires f.Valid() && Keyed(r)
    ensures var s := HandleHello(r, f, now);
            && (u != f.RemoteId() ==> StillHeard(r, s, u))
            && (u == f.RemoteId() ==> u in s.devices && s.devices[u].hello.protocol == Version(f))
  {
    hide Le;
    LeReads(f.data, 24);
  }

  lemma PageVitals(r: Reg, f: RawFrame, now: int, u: uid)
    requires f.Valid() && Keyed(r)
    ensures var s := HandleBayConfig(r, f, now);
            && (u != f.RemoteId() ==> StillHeard(r, s, u))
            && (u in s.devices <==> u in r.devices)
            && (u in r.devices ==> s.devices[u].hello.protocol == r.devices[u].hello.protocol)
  {
    hide RawFrame.Payload;
    hide RawFrame.RemoteId;
    hide Device.ApplyConfigs;
    if f.RemoteId() in r.devices {
      ConfigsFacts(r.devices[f.RemoteId()], Records(f.Payload(), CONFIG_SIZE));
    }
  }

  /** What the handler of a frame leaves of a device, which is then touched if it sent it. */
  lemma HandledVitals(r: Reg, f: RawFrame, now: int, choice: Choice, u: uid)
    requires f.Valid() && Keyed(r)
    ensures var m := Handle(r, f, now, choice);
            && (u != f.RemoteId() ==> StillHeard(r, m, u))
            && (u == f.RemoteId() ==>
                  && (u in m.devices <==> u in r.devices || f.Opcode() == 0)
                  && (u in m.devices ==>
                        m.devices[u].hello.protocol
                        == if f.Opcode() == 0 then Version(f) else r.devices[u].hello.protocol))
  {
    hide Handle;
    hide HandleHello;
    hide HandleBayConfig;
    hide Keyed;
    hide RawFrame.Opcode;
    hide RawFrame.RemoteId;
    hide Version;
    Dispatched(r, f, now, choice);
    if f.Opcode() == 0 {
      HelloVitals(r, f, now, u);
    } else if f.Opcode() == 0x02 || f.Opcode() == 0x23 {
      PageVitals(r, f, now, u);
    } else {
      HandleVitals(r, f, now, choice);
    }
  }

  /** A device of this version that is online at a reading of the clock. */
  predicate InTime(now: int, at: int, protocol: nat) { now - at < Allowed(Heard(at, protocol)) }

  lemma TouchVitals(r: Reg, v: uid, ts: int, now: int, u: uid)
    requires Keyed(r)
    ensures var s := TouchSender(r, v, ts, now);
            && (u in s.devices <==> u in r.devices)
            && (u in r.devices && u != v ==> s.devices[u] == r.devices[u])
            && (u in r.devices && u == v ==>
                  s.devices[u].hello == r.devices[u].hello && s.devices[u].lastPing == ts
                  && (s.devices[u].online <==> InTime(now, ts, r.devices[u].hello.protocol)))
  {
  }

  lemma ProcessVitals(r: Reg, f: RawFrame, ts: int, now: int, choice: Choice, u: uid)
    requires WellFormed(r) && f.Valid() && Parse(f.data) == Some(f) && MayChoose(r, f, choice) && u != r.me
    ensures var s := Process(r, f.data, ts, now, choice);
            && (u != f.RemoteId() ==> StillHeard(r, s, u))
            && (u == f.RemoteId() ==>
                  && (u in s.devices <==> u in r.devices || f.Opcode() == 0)
                  && (u in s.devices ==>
                        && s.devices[u].lastPing == ts
                        && s.devices[u].hello.protocol
                           == (if f.Opcode() == 0 then Version(f) else r.devices[u].hello.protocol)
                        && (s.devices[u].online <==> InTime(now, ts, s.devices[u].hello.protocol))))
  {
    hide Handle;
    hide TouchSender;
    hide WellFormed;
    hide Grows;
    hide RawFrame.Opcode;
    hide RawFrame.RemoteId;
    hide Version;
    hide InTime;
    KeyedWell(r);
    if f.RemoteId() != r.me {
      var m := Handle(r, f, now, choice);
      HandleKeeps(r, f, now, choice);
      KeyedWell(m);
      HandledVitals(r, f, now, choice, u);
      TouchVitals(m, f.RemoteId(), ts, now, u);
    }
  }

  lemma KeyedWell(r: Reg)
    requires WellFormed(r)
    ensures Keyed(r)
  {
    WellFormedKeyed(r);
  }

  // ---- over a run ----

  /** A device is known once it was heard, and kept with when that was and what it announced. */
  ghost predicate Tracks(r: Reg, u: uid, h: Option<Heard>) {
    && (u in r.devices <==> h.Some?)
    && (u in r.devices && h.Some? ==>
          r.devices[u].lastPing == h.value.at && r.devices[u].hello.protocol == h.value.protocol)
  }

  /** Some device is complete: only then does a tick of the probe check any. */
  ghost predicate Effective(r: Reg) { exists u :: u in r.devices && r.devices[u].Complete() }

  lemma TickVitals(r: Reg, clock: map<uid, int>, u: uid)
    requires r.devices.Keys <= clock.Keys
    ensures var s := Probe(r, clock);
            && (u in s.devices <==> u in r.devices)
            && (u in r.devices ==>
                  && s.devices[u].hello == r.devices[u].hello && s.devices[u].lastPing == r.devices[u].lastPing
                  && (if Effective(r)
                      then s.devices[u].online <==> InTime(clock[u], r.devices[u].lastPing, r.devices[u].hello.protocol)
                      else s.devices[u] == r.devices[u])
                  && s.devices[u].notices
                     == r.devices[u].notices
                        + if s.devices[u].online == r.devices[u].online then [] else [OnlineIs(s.devices[u].online)])
  {
    hide Device.Complete;
  }

  lemma CallVitals(r: Reg, id: BayId, op: Op)
    requires Keyed(r)
    ensures KeepVitals(r, r.OnBay(id, [op]))
  {
    hide Reg.OnBay;
    OnBayVitals(r);
  }

  lemma StepTracks(r: Reg, step: Step, u: uid, h: Option<Heard>)
    requires WellFormed(r) && Enabled(r, step) && u != r.me && Tracks(r, u, h)
    ensures Tracks(Next(r, step), u, Hear(h, step, u))
  {
    hide WellFormed;
    hide Process;
    hide Probe;
    hide Le;
    hide InTime;
    hide Effective;
    hide Reg.OnBay;
    hide RawFrame.Opcode;
    hide RawFrame.RemoteId;
    KeyedWell(r);
    match step
    case Datagram(data, ts, now, choice) =>
      if Parse(data).Some? {
        ProcessVitals(r, Parse(data).value, ts, now, choice, u);
      } else {
        NoFrame(r, data, ts, now, choice);
      }
    case Ticked(clock) => TickVitals(r, clock, u);
    case Called(id, op) => CallVitals(r, id, op);
  }

  lemma NoFrame(r: Reg, data: bytes, ts: int, now: int, choice: Choice)
    requires Parse(data).None?
    ensures Process(r, data, ts, now, choice) == r
  {
  }

  lemma {:induction false} RunTracks(me: uid, steps: seq<Step>, u: uid)
    requires Run(me, steps).Some? && u != me
    ensures Tracks(Run(me, steps).value, u, LastHeard(steps, u))
  {
    hide Hear;
    hide Enabled;
    hide Next;
    hide Tracks;
    if steps == [] {
      NothingHeard(me, u);
    } else {
      var front := steps[..|steps| - 1];
      RunTracks(me, front, u);
      RegistryStaysWellFormed(me, front);
      StepTracks(Run(me, front).value, steps[|steps| - 1], u, LastHeard(front, u));
    }
  }

  lemma NothingHeard(me: uid, u: uid)
    ensures Tracks(EmptyRegistry(me), u, None)
  {
  }

  /** After a tick that checks, a device is online exactly when less time than it is allowed has
      passed since it was last heard; the tick that finds it otherwise than it was queues that,
      and nothing else. A tick that does not check changes nothing. */
  lemma OnlineAfterTick(me: uid, steps: seq<Step>, clock: map<uid, int>, u: uid)
    requires Run(me, steps).Some? && Run(me, steps).value.devices.Keys <= clock.Keys
    requires u in Run(me, steps).value.devices
    ensures var r := Run(me, steps).value;
            var s := Probe(r, clock);
            var d, e := r.devices[u], s.devices[u];
            && Run(me, steps + [Ticked(clock)]) == Some(s) && u in s.devices && LastHeard(steps, u).Some?
            && (Effective(r) ==>
                  var h := LastHeard(steps, u).value;
                  e.online <==> clock[u] - h.at < if h.protocol >= 0x20 then 15_000_000_000 else 120_000_000_000)
            && (!Effective(r) ==> e == d)
            && e.notices == d.notices + if e.online == d.online then [] else [OnlineIs(e.online)]
  {
    hide Run;
    hide Probe;
    hide Effective;
    hide WellFormed;
    var r := Run(me, steps).value;
    RegistryStaysWellFormed(me, steps);
    Stranger(r, u);
    RunTracks(me, steps, u);
    TickVitals(r, clock, u);
    RunNext(me, steps, r, Ticked(clock));
  }

  /** After a datagram of its own a device is online exactly when that was handled in time. */
  lemma OnlineAfterFrame(me: uid, steps: seq<Step>, step: Step, u: uid)
    requires Run(me, steps).Some? && Enabled(Run(me, steps).value, step) && From(step, u) && u != me
    ensures var s, h := Next(Run(me, steps).value, step), LastHeard(steps + [step], u);
            && Run(me, steps + [step]) == Some(s) && (u in s.devices <==> h.Some?)
            && (u in s.devices ==>
                  && h.Some? && h.value.at == step.ts
                  && (s.devices[u].online
                      <==> step.now - step.ts < if h.value.protocol >= 0x20 then 15_000_000_000 else 120_000_000_000))
  {
    hide Run;
    hide Process;
    hide WellFormed;
    hide Hear;
    hide RawFrame.Opcode;
    hide RawFrame.RemoteId;
    hide Version;
    var r := Run(me, steps).value;
    RegistryStaysWellFormed(me, steps);
    RunNext(me, steps, r, step);
    RunTracks(me, steps + [step], u);
    ProcessVitals(r, Parse(step.data).value, step.ts, step.now, step.choice, u);
    assert (steps + [step])[..|steps|] == steps;
    HeardNow(LastHeard(steps, u), step, u);
  }

  lemma HeardNow(before: Option<Heard>, step: Step, u: uid)
    requires From(step, u)
    ensures Hear(before, step, u).Some? ==> Hear(before, step, u).value.at == step.ts
  {
  }

  // ---- how a device goes offline ----

  /** The step at k is not heard from the device, and is no tick that finds it silent. */
  ghost predicate Uneventful(me: uid, steps: seq<Step>, k: nat, u: uid, h: Heard)
    requires k < |steps|
  {
    && !From(steps[k], u)
    && (steps[k].Ticked? && u in steps[k].clock && Run(me, steps[..k]).Some? && Effective(Run(me, steps[..k]).value) ==>
          steps[k].clock[u] - h.at < Allowed(h))
  }

  /** Heard in time as h by the step at i, and nothing after it until the end of the run. */
  ghost predicate HeardLast(me: uid, steps: seq<Step>, i: nat, u: uid, h: Heard) {
    && i < |steps| && From(steps[i], u) && LastHeard(steps[..i + 1], u) == Some(h)
    && steps[i].now - steps[i].ts < Allowed(h)
    && forall k :: i < k < |steps| ==> Uneventful(me, steps, k, u, h)
  }

  lemma OnlineStep(r: Reg, step: Step, u: uid, h: Heard)
    requires WellFormed(r) && Enabled(r, step) && u != r.me && Tracks(r, u, Some(h)) && r.devices[u].online
    requires !From(step, u)
    requires step.Ticked? && u in step.clock && Effective(r) ==> step.clock[u] - h.at < Allowed(h)
    ensures u in Next(r, step).devices && Next(r, step).devices[u].online
  {
    hide WellFormed;
    hide Process;
    hide Probe;
    hide Effective;
    hide Reg.OnBay;
    hide RawFrame.RemoteId;
    hide RawFrame.Opcode;
    KeyedWell(r);
    match step
    case Datagram(data, ts, now, choice) =>
      if Parse(data).Some? {
        ProcessVitals(r, Parse(data).value, ts, now, choice, u);
      } else {
        NoFrame(r, data, ts, now, choice);
      }
    case Ticked(clock) => TickVitals(r, clock, u);
    case Called(id, op) => CallVitals(r, id, op);
  }

  lemma HeardFront(me: uid, steps: seq<Step>, i: nat, u: uid, h: Heard)
    requires HeardLast(me, steps, i, u, h) && i + 1 < |steps|
    ensures HeardLast(me, steps[..|steps| - 1], i, u, h)
  {
    hide Run;
    hide Effective;
    var front := steps[..|steps| - 1];
    assert front[..i + 1] == steps[..i + 1];
    forall k | i < k < |front|
      ensures Uneventful(me, front, k, u, h)
    {
      assert Uneventful(me, steps, k, u, h);
      assert front[..k] == steps[..k];
    }
  }

  /** Until a tick finds it silent, a device heard in time stays online. */
  lemma {:induction false} StaysOnline(me: uid, steps: seq<Step>, i: nat, u: uid, h: Heard)
    requires Run(me, steps).Some? && u != me && HeardLast(me, steps, i, u, h)
    ensures LastHeard(steps, u) == Some(h)
    ensures u in Run(me, steps).value.devices && Run(me, steps).value.devices[u].online
  {
    hide Enabled;
    hide Next;
    hide Hear;
    hide Effective;
    hide Tracks;
    hide HeardLast;
    LastOf(me, steps, i, u, h);
    var front, last := steps[..|steps| - 1], steps[|steps| - 1];
    RegistryStaysWellFormed(me, front);
    RunTracks(me, front, u);
    if i + 1 == |steps| {
      assert front + [last] == steps;
      OnlineAfterFrame(me, front, last, u);
      TrackedThere(me, steps, u);
    } else {
      HeardFront(me, steps, i, u, h);
      StaysOnline(me, front, i, u, h);
      Unheard(LastHeard(front, u), last, u);
      OnlineStep(Run(me, front).value, last, u, h);
    }
  }

  lemma LastOf(me: uid, steps: seq<Step>, i: nat, u: uid, h: Heard)
    requires HeardLast(me, steps, i, u, h)
    ensures i < |steps| && LastHeard(steps[..i + 1], u) == Some(h)
    ensures i + 1 == |steps| ==>
              && steps[..i + 1] == steps && From(steps[i], u) && steps[i].now - steps[i].ts < Allowed(h)
    ensures i + 1 < |steps| ==> Uneventful(me, steps, |steps| - 1, u, h)
  {
    hide Run;
  }

  lemma TrackedThere(me: uid, steps: seq<Step>, u: uid)
    requires Run(me, steps).Some? && u != me && LastHeard(steps, u).Some?
    ensures u in Run(me, steps).value.devices
  {
    RunTracks(me, steps, u);
  }

  lemma Unheard(before: Option<Heard>, step: Step, u: uid)
    requires !From(step, u)
    ensures Hear(before, step, u) == before
  {
  }

  /** So a device is told to be offline once, by the first tick that checks it when the silence
      it is allowed has passed since it was last heard. */
  lemma FirstSilentTick(me: uid, steps: seq<Step>, i: nat, clock: map<uid, int>, u: uid, h: Heard)
    requires Run(me, steps).Some? && u != me && HeardLast(me, steps, i, u, h)
    requires Run(me, steps).value.devices.Keys <= clock.Keys && Effective(Run(me, steps).value)
    requires u in clock && clock[u] - h.at >= Allowed(h)
    ensures var r := Run(me, steps).value;
            var s := Probe(r, clock);
            && Run(me, steps + [Ticked(clock)]) == Some(s)
            && u in r.devices && r.devices[u].online && u in s.devices && !s.devices[u].online
            && s.devices[u].notices == r.devices[u].notices + [OnlineIs(false)]
  {
    hide Run;
    hide Probe;
    hide Effective;
    hide HeardLast;
    hide LastHeard;
    StaysOnline(me, steps, i, u, h);
    OnlineAfterTick(me, steps, clock, u);
  }
}
