/** Runs after which the two ends of every link agree: those in which the key of a bay
    never moves while a link it made is stored under it. */
module LinkRuns {
  import opened Bytes
  import opened Frames
  import opened Opcodes
  import opened Control
  import opened BayModel
  import opened DeviceModel
  import opened Links
  import opened Registry
  import opened LinkSymmetry

  /** The link stored under a key was made by a bay that has that key. */
  ghost predicate CurrentAt(r: Reg, b: Book, key: BayId)
    requires key in b.links
  {
    r.Knows(b.links[key].origin) && KeyAt(r, b.links[key].origin) == key
  }

  ghost predicate Current(r: Reg, b: Book) { forall k :: k in b.links ==> CurrentAt(r, b, k) }

  /** The key of a bay is another one in s. */
  ghost predicate Moves(r: Reg, s: Reg, id: BayId) { r.Knows(id) && s.Knows(id) && KeyAt(s, id) != KeyAt(r, id) }

  /** That of a bay whose link is stored. */
  ghost predicate MovesLinked(r: Reg, s: Reg) { exists k :: k in r.book.links && Moves(r, s, r.book.links[k].origin) }

  // ---- what a step does to the book and to the keys ----

  lemma OnBayBook(r: Reg)
    ensures forall id, ops :: r.OnBay(id, ops).book == r.book
  {
    hide OnBays;
  }

  lemma BayFramesBook(r: Reg, f: RawFrame)
    requires f.Valid()
    ensures HandleConnect(r, f).book == HandlePower(r, f).book == HandleRouting(r, f).book == r.book
    ensures HandleVolumeSet(r, f).book == HandleVolumeMute(r, f).book == HandleBayHide(r, f).book == r.book
  {
    hide Reg.OnBay;
    hide DecodeVolumeSet;
    hide DecodeHidden;
    OnBayBook(r);
  }

  lemma SwitchesBook(r: Reg, f: RawFrame, choice: Choice)
    requires f.Valid()
    ensures HandleSourceSwitch(r, f, choice).book == HandleManualSwitch(r, f, choice).book == r.book
  {
    hide Reg.OnBay;
    hide DecodeManualSwitch;
    hide Sink;
    OnBayBook(r);
  }

  lemma ReportsBook(r: Reg, f: RawFrame, choice: Choice)
    requires f.Valid()
    ensures HandleBayStatus(r, f).book == HandleMirror(r, f).book == HandleAmpZone(r, f).book == r.book
    ensures HandleFilter(r, f).book == HandleSignalReport(r, f, choice).book == r.book
  {
    hide Reg.OnBay;
    hide StatusOps;
    hide DecodeAmpZone;
    hide DecodeFilter;
    hide Sink;
    OnBayBook(r);
  }

  lemma DeviceFramesBook(r: Reg, f: RawFrame, now: int)
    requires f.Valid()
    ensures HandleHello(r, f, now).book == HandleBayConfig(r, f, now).book == HandleSources(r, f).book == r.book
    ensures HandleDeviceConfig(r, f).book == HandleTiling(r, f).book == HandleBayMapping(r, f).book == r.book
  {
    hide HelloOf;
    hide Device.ApplyHello;
    hide Device.TakeConfigPage;
    hide TakeDeviceConfig;
    hide Device.SetTiling;
    hide DecodeSources;
    hide DecodeTiling;
    hide TakeMappings;
  }

  lemma HandleBook(r: Reg, f: RawFrame, now: int, choice: Choice)
    requires f.Valid() && f.Opcode() != OP_SYS_LINKS
    ensures Handle(r, f, now, choice).book == r.book
  {
    hide HandleBayConfig;
    hide HandleSources;
    hide HandleDeviceConfig;
    hide HandleTiling;
    hide HandleHello;
    hide HandleLinks;
    hide HandleBayMapping;
    hide HandleManualSwitch;
    hide HandleConnect;
    hide HandlePower;
    hide HandleRouting;
    hide HandleVolumeSet;
    hide HandleVolumeMute;
    hide HandleBayHide;
    hide HandleSourceSwitch;
    hide HandleBayStatus;
    hide HandleMirror;
    hide HandleAmpZone;
    hide HandleFilter;
    hide HandleSignalReport;
    BayFramesBook(r, f);
    SwitchesBook(r, f, choice);
    ReportsBook(r, f, choice);
    DeviceFramesBook(r, f, now);
  }

  /** What the keys of a device's bays are made of. */
  ghost predicate SameKeyParts(d: Device, e: Device) {
    e.uid == d.uid && e.hello == d.hello && e.bays == d.bays && e.sources == d.sources
  }

  lemma SameKeys(d: Device, e: Device, b: Bay)
    requires SameKeyParts(d, e)
    ensures e.KeyOf(b) == d.KeyOf(b)
  {
    assert e.SourceOf(b) == d.SourceOf(b);
  }

  /** Every device of r is in s, with what keys are made of. */
  ghost predicate KeepsKeys(r: Reg, s: Reg) {
    r.devices.Keys == s.devices.Keys && forall u :: u in r.devices ==> SameKeyParts(r.devices[u], s.devices[u])
  }

  lemma KeptKey(r: Reg, s: Reg, id: BayId)
    requires KeepsKeys(r, s) && r.Knows(id)
    ensures s.Knows(id) && KeyAt(s, id) == KeyAt(r, id)
  {
    SameKeys(r.devices[id.device], s.devices[id.device], r.BayAt(id));
  }

  lemma LinksKeepKeys(r: Reg, f: RawFrame)
    requires WellFormed(r) && f.Valid()
    ensures KeepsKeys(r, HandleLinks(r, f))
  {
    hide TakeLinks;
    hide Sound;
    hide Device.Complete;
    if f.RemoteId() in r.devices {
      assert DeviceOk(r, f.RemoteId());
    }
  }

  lemma TouchKeepsKeys(r: Reg, u: uid, ts: int, now: int)
    requires WellFormed(r)
    ensures KeepsKeys(r, TouchSender(r, u, ts, now)) && TouchSender(r, u, ts, now).book == r.book
  {
    hide Sound;
    if u in r.devices {
      assert DeviceOk(r, u);
    }
  }

  lemma LinkCurrent(r: Reg, b: Book, u: uid, rec: bytes)
    requires u in r.devices && r.devices[u].uid == u && |rec| == LINK_SIZE && Current(r, b)
    ensures Current(r, TakeLink(b, r.devices[u], rec))
  {
    hide Device.KeyOf;
    hide CStr;
    hide U32;
    var d, c := r.devices[u], TakeLink(b, r.devices[u], rec);
    forall k | k in c.links
      ensures CurrentAt(r, c, k)
    {
      assert k in b.links ==> CurrentAt(r, b, k);
    }
  }

  lemma {:induction false} LinksCurrent(r: Reg, b: Book, u: uid, recs: seq<bytes>)
    requires u in r.devices && r.devices[u].uid == u && Current(r, b)
    requires forall i :: 0 <= i < |recs| ==> |recs[i]| == LINK_SIZE
    ensures Current(r, TakeLinks(b, r.devices[u], recs))
  {
    hide Current;
    hide TakeLink;
    if recs != [] {
      LinksCurrent(r, b, u, recs[..|recs| - 1]);
      LinkCurrent(r, TakeLinks(b, r.devices[u], recs[..|recs| - 1]), u, recs[|recs| - 1]);
    }
  }

  lemma KeptCurrent(r: Reg, s: Reg, b: Book)
    requires KeepsKeys(r, s) && Current(r, b)
    ensures Current(s, b)
  {
    hide KeyAt;
    hide KeepsKeys;
    forall k | k in b.links
      ensures CurrentAt(s, b, k)
    {
      assert CurrentAt(r, b, k);
      KeptKey(r, s, b.links[k].origin);
    }
  }

  lemma KeptUnmoved(r: Reg, s: Reg)
    requires KeepsKeys(r, s)
    ensures !MovesLinked(r, s)
  {
    hide KeyAt;
    hide KeepsKeys;
    if k :| k in r.book.links && Moves(r, s, r.book.links[k].origin) {
      KeptKey(r, s, r.book.links[k].origin);
    }
  }

  lemma KeptOn(r: Reg, s: Reg, t: Reg)
    requires KeepsKeys(r, s) && KeepsKeys(s, t)
    ensures KeepsKeys(r, t)
  {
  }

  /** A links frame moves no key, and stores each link under the key its bay has. */
  lemma LinksStep(r: Reg, f: RawFrame, ts: int, now: int)
    requires WellFormed(r) && Current(r, r.book) && f.Valid()
    ensures var s := TouchSender(HandleLinks(r, f), f.RemoteId(), ts, now);
            Current(s, s.book) && !MovesLinked(r, s)
  {
    hide Current;
    hide KeepsKeys;
    hide MovesLinked;
    hide TakeLinks;
    hide TouchSender;
    hide Device.LinksReceived;
    var u, m := f.RemoteId(), HandleLinks(r, f);
    var s := TouchSender(m, u, ts, now);
    LinksKeep(r, f);
    LinksKeepKeys(r, f);
    TouchKeepsKeys(m, u, ts, now);
    KeptOn(r, m, s);
    KeptUnmoved(r, s);
    if u in r.devices {
      assert DeviceOk(r, u);
      LinksCurrent(r, r.book, u, Records(f.Payload(), LINK_SIZE));
    }
    KeptCurrent(r, s, m.book);
  }

  lemma LinksKeep(r: Reg, f: RawFrame)
    requires WellFormed(r) && f.Valid()
    ensures WellFormed(HandleLinks(r, f)) && Grows(r, HandleLinks(r, f))
  {
    LinksKeeps(r, f);
  }

  /** Where the book stays as it is, its keys stay current exactly when none moves. */
  lemma SameBookStep(r: Reg, s: Reg)
    requires Current(r, r.book) && s.book == r.book && Grows(r, s)
    ensures Current(s, s.book) <==> !MovesLinked(r, s)
  {
    hide KeyAt;
    forall k | k in r.book.links
      ensures CurrentAt(s, s.book, k) <==> !Moves(r, s, r.book.links[k].origin)
    {
      assert CurrentAt(r, r.book, k);
    }
  }

  lemma DatagramStep(r: Reg, f: RawFrame, ts: int, now: int, choice: Choice)
    requires WellFormed(r) && Current(r, r.book) && f.Valid() && Parse(f.data) == Some(f) && MayChoose(r, f, choice)
    ensures var s := Process(r, f.data, ts, now, choice); Current(s, s.book) <==> !MovesLinked(r, s)
  {
    hide Current;
    hide MovesLinked;
    hide Handle;
    hide TouchSender;
    hide WellFormed;
    hide Grows;
    var s := Process(r, f.data, ts, now, choice);
    ProcessKeeps(r, f, ts, now, choice);
    if f.RemoteId() == r.me {
      SameBookStep(r, s);
    } else if f.Opcode() == OP_SYS_LINKS {
      HandledLinks(r, f, now, choice);
      LinksStep(r, f, ts, now);
    } else {
      HandleBook(r, f, now, choice);
      HandleKeeps(r, f, now, choice);
      TouchKeepsKeys(Handle(r, f, now, choice), f.RemoteId(), ts, now);
      SameBookStep(r, s);
    }
  }

  lemma HandledLinks(r: Reg, f: RawFrame, now: int, choice: Choice)
    requires f.Valid() && f.Opcode() == OP_SYS_LINKS
    ensures Handle(r, f, now, choice) == HandleLinks(r, f)
  {
    hide HandleLinks;
  }

  lemma CurrentStep(r: Reg, step: Step)
    requires WellFormed(r) && Enabled(r, step) && Current(r, r.book)
    ensures Current(Next(r, step), Next(r, step).book) <==> !MovesLinked(r, Next(r, step))
  {
    hide Current;
    hide MovesLinked;
    hide WellFormed;
    hide Grows;
    hide Process;
    NextKeeps(r, step);
    match step
    case Datagram(data, ts, now, choice) =>
      if Parse(data).Some? {
        DatagramStep(r, Parse(data).value, ts, now, choice);
      } else {
        assert Next(r, step) == r by { NoFrame(r, data, ts, now, choice); }
        SameBookStep(r, r);
      }
    case Ticked(clock) => SameBookStep(r, Next(r, step));
    case Called(id, op) =>
      OnBayBook(r);
      SameBookStep(r, Next(r, step));
  }

  lemma NoFrame(r: Reg, data: bytes, ts: int, now: int, choice: Choice)
    requires Parse(data).None?
    ensures Process(r, data, ts, now, choice) == r
  {
  }

  // ---- runs ----

  ghost predicate CurrentAfter(me: uid, steps: seq<Step>) {
    Run(me, steps).Some? && Current(Run(me, steps).value, Run(me, steps).value.book)
  }

  /** The step at n moves the key of a bay whose link is stored. */
  ghost predicate MovesAt(me: uid, steps: seq<Step>, n: nat)
    requires n < |steps|
  {
    var r, s := Run(me, steps[..n]), Run(me, steps[..n + 1]);
    r.Some? && s.Some? && MovesLinked(r.value, s.value)
  }

  ghost predicate NoKeyMoves(me: uid, steps: seq<Step>) { forall n :: 0 <= n < |steps| ==> !MovesAt(me, steps, n) }

  ghost predicate AlwaysCurrent(me: uid, steps: seq<Step>) {
    forall n :: 0 <= n <= |steps| ==> CurrentAfter(me, steps[..n])
  }

  lemma NoKeyMovesSplits(me: uid, steps: seq<Step>)
    requires steps != []
    ensures NoKeyMoves(me, steps) <==> NoKeyMoves(me, steps[..|steps| - 1]) && !MovesAt(me, steps, |steps| - 1)
  {
    hide MovesLinked;
    hide Run;
    var k := |steps| - 1;
    forall n | 0 <= n < k
      ensures MovesAt(me, steps[..k], n) == MovesAt(me, steps, n)
    {
      assert steps[..k][..n] == steps[..n] && steps[..k][..n + 1] == steps[..n + 1];
    }
  }

  lemma AlwaysCurrentSplits(me: uid, steps: seq<Step>)
    requires steps != []
    ensures AlwaysCurrent(me, steps) <==> AlwaysCurrent(me, steps[..|steps| - 1]) && CurrentAfter(me, steps)
  {
    hide CurrentAfter;
    var k := |steps| - 1;
    assert steps[..k + 1] == steps;
    forall n | 0 <= n <= k
      ensures steps[..k][..n] == steps[..n]
    {
    }
    if AlwaysCurrent(me, steps) {
      assert CurrentAfter(me, steps[..k + 1]);
      forall n | 0 <= n <= k
        ensures CurrentAfter(me, steps[..k][..n])
      {
        assert CurrentAfter(me, steps[..n]);
      }
    }
    if AlwaysCurrent(me, steps[..k]) && CurrentAfter(me, steps) {
      forall n | 0 <= n <= |steps|
        ensures CurrentAfter(me, steps[..n])
      {
        assert n <= k ==> CurrentAfter(me, steps[..k][..n]);
      }
    }
  }

  lemma NowCurrent(me: uid, steps: seq<Step>)
    requires AlwaysCurrent(me, steps)
    ensures CurrentAfter(me, steps)
  {
    hide CurrentAfter;
    assert steps[..|steps|] == steps;
  }

  lemma StartCurrent(me: uid)
    ensures AlwaysCurrent(me, [])
  {
    assert CurrentAfter(me, []);
  }

  lemma LastStepCurrent(me: uid, steps: seq<Step>)
    requires steps != [] && Run(me, steps).Some? && CurrentAfter(me, steps[..|steps| - 1])
    ensures CurrentAfter(me, steps) <==> !MovesAt(me, steps, |steps| - 1)
  {
    hide Current;
    hide MovesLinked;
    hide Enabled;
    hide Next;
    var k := |steps| - 1;
    assert steps[..k + 1] == steps;
    RegistryStaysWellFormed(me, steps[..k]);
    CurrentStep(Run(me, steps[..k]).value, steps[k]);
  }

  /** All through a run every link is stored under the present key of the bay that made it
      exactly when no step of the run moves the key of a bay whose link is stored. */
  lemma {:induction false} KeysStayCurrent(me: uid, steps: seq<Step>)
    requires Run(me, steps).Some?
    ensures AlwaysCurrent(me, steps) <==> NoKeyMoves(me, steps)
  {
    hide CurrentAfter;
    hide MovesAt;
    hide AlwaysCurrent;
    hide Enabled;
    hide Next;
    if steps == [] {
      StartCurrent(me);
    } else {
      var front := steps[..|steps| - 1];
      KeysStayCurrent(me, front);
      NoKeyMovesSplits(me, steps);
      AlwaysCurrentSplits(me, steps);
      if AlwaysCurrent(me, front) {
        NowCurrent(me, front);
        LastStepCurrent(me, steps);
      }
    }
  }

  /** So over every run in which no such key moves, in a registry with distinct names: a
      connected link's other end is connected as well, and both compute the same mask. */
  lemma RunSymmetric(me: uid, steps: seq<Step>, key: BayId, id: BayId)
    requires Run(me, steps).Some? && NoKeyMoves(me, steps)
    requires LinkSymmetry.Distinct(Run(me, steps).value) && key in Run(me, steps).value.book.links
    requires Run(me, steps).value.Knows(Run(me, steps).value.book.links[key].origin)
    requires ConnectedAt(Run(me, steps).value, Run(me, steps).value.book.links[key], id)
    ensures var r := Run(me, steps).value;
            var l := r.book.links[key];
            var other := OtherEnd(r, l, id);
            && r.Knows(other.origin) && Connected(r, other)
            && FeatureMask(r, other, l.origin) == FeatureMask(r, l, id)
            && Carries(FeatureMask(r, l, id), r.BayAt(l.origin).features, r.BayAt(id).features)
  {
    hide Carries;
    hide KeyAt;
    hide LinkSymmetry.Distinct;
    hide NoKeyMoves;
    hide AlwaysCurrent;
    hide ConnectedAt;
    var r := Run(me, steps).value;
    KeysStayCurrent(me, steps);
    NowCurrent(me, steps);
    RegistryStaysWellFormed(me, steps);
    forall k | k in r.book.links
      ensures r.Knows(r.book.links[k].origin) && KeyAt(r, r.book.links[k].origin) == k
    {
      assert CurrentAt(r, r.book, k);
    }
    CurrentKeysSymmetric(r, key, id);
  }
}
