/** What the datagrams about devices leave cached, said of the bytes of their payloads. */
module Announcements {
  import opened Bytes
  import opened Frames
  import opened Opcodes
  import opened V2ipConfig
  import opened Control
  import opened BayModel
  import opened DeviceModel
  import opened Links
  import opened Registry
  import opened Reports

  /** No device, bay or link has come, gone or changed, apart from what is known of this
      device besides its bays. */
  ghost predicate OnlyFacts(r: Reg, s: Reg, u: uid) {
    && s.book == r.book && s.devices.Keys == r.devices.Keys
    && (forall v :: v in r.devices && v != u ==> SameFacts(r.devices[v], s.devices[v]))
    && (forall id :: s.Knows(id) <==> r.Knows(id))
    && (forall id :: r.Knows(id) ==> s.BayAt(id) == r.BayAt(id))
  }

  lemma WithFacts(r: Reg, e: Device)
    requires e.uid in r.devices && e.bays == r.devices[e.uid].bays
    requires forall v :: v in r.devices ==> r.devices[v].uid == v
    ensures OnlyFacts(r, r.With(e), e.uid)
  {
  }

  lemma FactsOn(r: Reg, m: Reg, s: Reg, u: uid)
    requires u in r.devices && OnlyFacts(r, m, u) && OnlyBays(m, s, {})
    ensures OnlyFacts(r, s, u) && SameFacts(m.devices[u], s.devices[u])
  {
  }

  /** A datagram whose handler leaves a device as e. */
  lemma Left(r: Reg, u: uid, opcode: u16, stamp: u16, p: bytes, ts: int, now: int, choice: Choice, v: uid, e: Device)
    requires WellFormed(r) && u != r.me && |p| < 0x1_0000 && Sent(u, opcode, stamp, p).Valid()
    requires Handle(r, Sent(u, opcode, stamp, p), now, choice) == r.With(e)
    requires v in r.devices && e.uid == v && e.bays == r.devices[v].bays
    ensures var s := Process(r, Build(u, opcode, stamp, p), ts, now, choice);
            OnlyFacts(r, s, v) && v in s.devices && SameFacts(e, s.devices[v])
  {
    hide Process;
    hide Handle;
    hide TouchSender;
    hide WellFormed;
    hide OnlyBays;
    hide OnlyFacts;
    hide SameFacts;
    hide Sent;
    var m := r.With(e);
    WellFormedKeyed(r);
    Arrives(r, u, opcode, stamp, p, ts, now, choice);
    WithFacts(r, e);
    TouchReports(m, u, ts, now);
    FactsOn(r, m, TouchSender(m, u, ts, now), v);
    StillThere(r, TouchSender(m, u, ts, now), v);
  }

  lemma StillThere(r: Reg, s: Reg, u: uid)
    requires u in r.devices && OnlyFacts(r, s, u)
    ensures u in s.devices
  {
  }

  // ---- stream addresses ----

  /** An address and the port after it. */
  ghost predicate StreamIn(p: bytes, i: nat, s: StreamSource)
    requires i + 6 <= |p|
  {
    s.ip == p[i..i + 4] && s.port == Le(p[i + 4..i + 6])
  }

  lemma StreamParsed(p: bytes, i: nat)
    requires i + 6 <= |p|
    ensures StreamIn(p, i, ParseStream(p, i))
  {
    LeReads(p, i + 4);
  }

  ghost predicate SourceIn(p: bytes, i: nat, s: StreamSources)
    requires i + 40 <= |p|
  {
    s.source == p[i..i + 16] && StreamIn(p, i + 16, s.video) && StreamIn(p, i + 24, s.audio) && StreamIn(p, i + 32, s.anc)
  }

  lemma Within(p: bytes, i: nat, n: nat, j: nat, k: nat)
    requires j <= k <= n && i + n <= |p|
    ensures p[i..i + n][j..k] == p[i + j..i + k]
  {
    var a, b := p[i..i + n][j..k], p[i + j..i + k];
    forall x | 0 <= x < |a|
      ensures a[x] == b[x]
    {
      assert a[x] == p[i..i + n][j + x];
    }
  }

  lemma StreamWithin(p: bytes, i: nat, j: nat, s: StreamSource)
    requires j + 6 <= 40 && i + 40 <= |p|
    ensures StreamIn(p[i..i + 40], j, s) ==> StreamIn(p, i + j, s)
  {
    hide Le;
    Within(p, i, 40, j, j + 4);
    Within(p, i, 40, j + 4, j + 6);
  }

  lemma SourceParsed(p: bytes, i: nat)
    requires i + 40 <= |p|
    ensures SourceIn(p, i, ParseSources(p[i..i + 40]))
  {
    hide StreamIn;
    hide ParseStream;
    var rec := p[i..i + 40];
    assert rec[..16] == p[i..i + 16];
    StreamParsed(rec, 16);
    StreamParsed(rec, 24);
    StreamParsed(rec, 32);
    StreamWithin(p, i, 16, ParseStream(rec, 16));
    StreamWithin(p, i, 24, ParseStream(rec, 24));
    StreamWithin(p, i, 32, ParseStream(rec, 32));
  }

  /** The sources a payload advertises, one for every 40 bytes. */
  ghost predicate SourcesIn(p: bytes, ss: seq<StreamSources>) {
    |ss| == |p| / 40 && forall i :: 0 <= i < |ss| ==> SourceIn(p, 40 * i, ss[i])
  }

  lemma SourcesDecoded(p: bytes)
    ensures |p| < 40 ==> DecodeSources(p).None?
    ensures |p| >= 40 ==> DecodeSources(p).Some? && SourcesIn(p, DecodeSources(p).value)
  {
    hide ParseSources;
    RecordCount(p, 40);
    if |p| >= 40 {
      var recs, ss := Records(p, 40), DecodeSources(p).value;
      forall i | 0 <= i < |ss|
        ensures SourceIn(p, 40 * i, ss[i])
      {
        RecordAt(p, 40, i);
        SourceParsed(p, 40 * i);
      }
    }
  }

  lemma SourcesHandled(r: Reg, u: uid, stamp: u16, p: bytes, now: int, choice: Choice)
    requires u in r.devices && |p| < 0x1_0000
    ensures var f := Sent(u, 0x26, stamp, p);
            f.Valid() && Handle(r, f, now, choice) == r.With(r.devices[u].(sources := DecodeSources(p)))
  {
    hide Handle;
    hide Sent;
    hide RawFrame.Payload;
    hide RawFrame.RemoteId;
    hide RawFrame.Opcode;
    hide RawFrame.Valid;
    hide DecodeSources;
    Received(u, 0x26, stamp, p);
    Dispatched(r, Sent(u, 0x26, stamp, p), now, choice);
  }

  /** A device's advertised sources are those of the last report, none where it has no whole
      record. */
  lemma SourcesReport(r: Reg, u: uid, stamp: u16, p: bytes, ts: int, now: int, choice: Choice)
    requires WellFormed(r) && u in r.devices && |p| < 0x1_0000
    ensures var s := Process(r, Build(u, 0x26, stamp, p), ts, now, choice);
            && OnlyFacts(r, s, u)
            && SameFacts(s.devices[u], r.devices[u].(sources := s.devices[u].sources))
            && (|p| < 40 ==> s.devices[u].sources.None?)
            && (|p| >= 40 ==> s.devices[u].sources.Some? && SourcesIn(p, s.devices[u].sources.value))
  {
    hide Process;
    hide Handle;
    hide WellFormed;
    hide OnlyFacts;
    hide DecodeSources;
    hide SourcesIn;
    hide Sent;
    SourcesHandled(r, u, stamp, p, now, choice);
    Stranger(r, u);
    WellFormedKeyed(r);
    SourcesDecoded(p);
    Left(r, u, 0x26, stamp, p, ts, now, choice, u, r.devices[u].(sources := DecodeSources(p)));
  }

  // ---- the V2IP device configuration ----

  /** The configuration at the head of a payload. */
  ghost predicate DetailsIn(p: bytes, d: Details)
    requires |p| >= 61
  {
    && StreamIn(p, 16, d.video) && StreamIn(p, 24, d.audio) && StreamIn(p, 32, d.anc) && StreamIn(p, 48, d.arc)
    && d.txRate == (if 5 <= p[40] <= 100 then Some(p[40]) else None)
    && d.dscp.video == (if p[41] >= 0x80 then Some(p[41] % 64) else None)
    && d.dscp.audio == (if p[42] >= 0x80 then Some(p[42] % 64) else None)
    && d.dscp.anc == (if p[43] >= 0x80 then Some(p[43] % 64) else None)
    && d.scaling.mode == Le(p[56..58]) && d.scaling.refresh == Le(p[58..60])
    && d.scaling.flags == (p[60] as bv8) & 0x83
  }

  lemma DetailsDecoded(p: bytes)
    requires |p| >= 61
    ensures DecodeDetails(p).Some? && DetailsIn(p, DecodeDetails(p).value)
  {
    hide StreamIn;
    hide ParseStream;
    hide U16;
    hide Le;
    StreamParsed(p, 16);
    StreamParsed(p, 24);
    StreamParsed(p, 32);
    StreamParsed(p, 48);
    LeReads(p, 56);
    LeReads(p, 58);
  }

  /** A stream that can be received: a host group address and a port. */
  predicate Usable(s: StreamSource) { |s.ip| == 4 && 224 <= s.ip[0] <= 239 && s.port != 0 }

  /** One configuration on top of what was cached: each group of fields counts only where it
      is carried, and what the flags say of scaling stays said. */
  ghost predicate Merged(was: Details, d: Details, now: Details) {
    && now.video == (if Usable(d.video) && Usable(d.anc) then d.video else was.video)
    && now.audio == (if Usable(d.video) && Usable(d.anc) then d.audio else was.audio)
    && now.anc == (if Usable(d.video) && Usable(d.anc) then d.anc else was.anc)
    && now.arc == (if Usable(d.arc) then d.arc else was.arc)
    && now.txRate == (if d.txRate.Some? then d.txRate else was.txRate)
    && now.dscp == (if d.dscp.video.Some? then d.dscp else was.dscp)
    && now.scaling.mode == (if d.scaling.flags & 0x01 != 0 then d.scaling.mode else was.scaling.mode)
    && now.scaling.refresh == (if d.scaling.flags & 0x01 != 0 then d.scaling.refresh else was.scaling.refresh)
    && (now.scaling.flags & 0x01 != 0 <==> d.scaling.flags & 0x01 != 0 || was.scaling.flags & 0x01 != 0)
    && (now.scaling.flags & 0x02 != 0 <==> d.scaling.flags & 0x02 != 0 || was.scaling.flags & 0x02 != 0)
    && (now.scaling.flags & 0x80 != 0
        <==> if d.scaling.flags & 0x02 != 0 then d.scaling.flags & 0x80 != 0 else was.scaling.flags & 0x80 != 0)
  }

  lemma MergedOnto(was: Details, d: Details)
    ensures Merged(was, d, d.MergeOnto(was))
  {
  }

  ghost predicate TilingIn(p: bytes, i: nat, t: Tiling)
    requires i + 8 <= |p|
  {
    && t.posX == Le(p[i..i + 2]) && t.posY == Le(p[i + 2..i + 4])
    && t.width == Le(p[i + 4..i + 6]) && t.height == Le(p[i + 6..i + 8])
  }

  lemma TilingParsed(p: bytes, i: nat, target: uid)
    requires i + 8 <= |p|
    ensures TilingIn(p, i, TilingAt(p, i, target)) && TilingAt(p, i, target).target == target
  {
    hide Le;
    hide U16;
    LeReads(p, i);
    LeReads(p, i + 2);
    LeReads(p, i + 4);
    LeReads(p, i + 6);
  }

  /** A subscription: three streams, and the audio format where there is one. */
  ghost predicate RouteIn(p: bytes, i: nat, withFormat: bool, route: SinkRoute)
    requires i + (if withFormat then 32 else 22) <= |p|
  {
    && StreamIn(p, i, route.video) && StreamIn(p, i + 8, route.audio) && StreamIn(p, i + 16, route.anc)
    && if withFormat
       then route.fmt.Some? && route.fmt.value.sampleRate == Le(p[i + 24..i + 28]) && route.fmt.value.channels == p[i + 28]
       else route.fmt.None?
  }

  lemma RouteParsed(p: bytes, i: nat, withFormat: bool)
    requires i + (if withFormat then 32 else 22) <= |p|
    ensures RouteIn(p, i, withFormat,
                    SinkRoute(ParseStream(p, i), ParseStream(p, i + 8), ParseStream(p, i + 16),
                              if withFormat then Some(ParseFormat(p, i + 24)) else None))
  {
    hide StreamIn;
    hide ParseStream;
    hide Le;
    hide U32;
    StreamParsed(p, i);
    StreamParsed(p, i + 8);
    StreamParsed(p, i + 16);
    LeReads(p, i + 24);
  }

  /** What a device configuration of at least 61 bytes leaves of a device. */
  ghost predicate ConfiguredBy(d: Device, e: Device, p: bytes)
    requires |p| >= 61
  {
    && SameFacts(e, d.(details := e.details, tiling := e.tiling, sink := e.sink))
    && (exists c :: DetailsIn(p, c) && e.details.Some?
                    && if d.details.None? then e.details.value == c else Merged(d.details.value, c, e.details.value))
    && (if |p| >= 88 && p[64..80] != ZERO_UID
        then e.tiling.Some? && e.tiling.value.target == p[64..80] && TilingIn(p, 80, e.tiling.value)
        else e.tiling == d.tiling)
    && (if |p| >= 120 then e.sink.Some? && RouteIn(p, 88, true, e.sink.value) else e.sink == d.sink)
  }

  lemma DetailsTaken(d: Device, p: bytes)
    requires |p| >= 61
    ensures var e := d.TakeDetails(p);
            && e == d.(details := e.details)
            && exists c :: DetailsIn(p, c) && e.details.Some?
                           && if d.details.None? then e.details.value == c else Merged(d.details.value, c, e.details.value)
  {
    hide DetailsIn;
    hide Merged;
    hide DecodeDetails;
    DetailsDecoded(p);
    if d.details.Some? {
      MergedOnto(d.details.value, DecodeDetails(p).value);
    }
  }

  lemma TilingTaken(d: Device, p: bytes)
    ensures var e := TakeTiling(d, p);
            && e == d.(tiling := e.tiling, notices := e.notices)
            && (if |p| >= 88 && p[64..80] != ZERO_UID
                then e.tiling.Some? && e.tiling.value.target == p[64..80] && TilingIn(p, 80, e.tiling.value)
                else e.tiling == d.tiling)
  {
    hide TilingIn;
    hide TilingAt;
    if |p| >= 88 {
      TilingParsed(p, 80, p[64..80]);
    }
  }

  lemma SinkTaken(d: Device, p: bytes)
    ensures var e := TakeSink(d, p);
            && e == d.(sink := e.sink)
            && (if |p| >= 120 then e.sink.Some? && RouteIn(p, 88, true, e.sink.value) else e.sink == d.sink)
  {
    hide RouteIn;
    hide ParseStream;
    hide ParseFormat;
    if |p| >= 120 {
      RouteParsed(p, 88, true);
    }
  }

  lemma ConfigurationTaken(d: Device, p: bytes)
    requires |p| >= 61
    ensures var e := TakeDeviceConfig(d, p); ConfiguredBy(d, e, p) && e.uid == d.uid && e.bays == d.bays
  {
    hide DetailsIn;
    hide Merged;
    hide TilingIn;
    hide RouteIn;
    hide TakeTiling;
    hide TakeSink;
    hide Device.TakeDetails;
    DetailsTaken(d, p);
    TilingTaken(d.TakeDetails(p), p);
    SinkTaken(TakeTiling(d.TakeDetails(p), p), p);
  }

  lemma ConfigurationHandled(r: Reg, u: uid, stamp: u16, p: bytes, now: int, choice: Choice)
    requires u in r.devices && |p| < 0x1_0000
    ensures var f := Sent(u, 0x3C, stamp, p);
            f.Valid() && Handle(r, f, now, choice) == r.With(TakeDeviceConfig(r.devices[u], p))
  {
    hide Handle;
    hide Sent;
    hide RawFrame.Payload;
    hide RawFrame.RemoteId;
    hide RawFrame.Opcode;
    hide RawFrame.Valid;
    hide TakeDeviceConfig;
    Received(u, 0x3C, stamp, p);
    Dispatched(r, Sent(u, 0x3C, stamp, p), now, choice);
  }

  /** A device configuration from a known device: the first is cached whole, a later one
      merged; a window counts only where its uid is there, a subscription wherever it fits. */
  lemma ConfigurationReport(r: Reg, u: uid, stamp: u16, p: bytes, ts: int, now: int, choice: Choice)
    requires WellFormed(r) && u in r.devices && 61 <= |p| < 0x1_0000
    ensures var s := Process(r, Build(u, 0x3C, stamp, p), ts, now, choice);
            OnlyFacts(r, s, u) && u in s.devices && ConfiguredBy(r.devices[u], s.devices[u], p)
  {
    hide Process;
    hide Handle;
    hide WellFormed;
    hide OnlyFacts;
    hide TakeDeviceConfig;
    hide DetailsIn;
    hide Merged;
    hide TilingIn;
    hide RouteIn;
    hide Sent;
    ConfigurationHandled(r, u, stamp, p, now, choice);
    ConfigurationTaken(r.devices[u], p);
    Stranger(r, u);
    WellFormedKeyed(r);
    Left(r, u, 0x3C, stamp, p, ts, now, choice, u, TakeDeviceConfig(r.devices[u], p));
  }

  /** A device configuration laid out on the wire. */
  function DetailsPayload(target: uid, video: StreamSource, audio: StreamSource, anc: StreamSource, rate: byte,
                          dscp: (byte, byte, byte), arc: StreamSource, mode: u16, refresh: u16, flags: byte): bytes {
    target + StreamWire(video) + StreamWire(audio) + StreamWire(anc) + [rate, dscp.0, dscp.1, dscp.2, 0, 0, 0, 0]
    + StreamWire(arc) + Wire16(mode) + Wire16(refresh) + [flags]
  }

  lemma DetailsLayout(target: uid, video: StreamSource, audio: StreamSource, anc: StreamSource, rate: byte,
                      dscp: (byte, byte, byte), arc: StreamSource, mode: u16, refresh: u16, flags: byte)
    requires |video.ip| == |audio.ip| == |anc.ip| == |arc.ip| == 4
    ensures var p := DetailsPayload(target, video, audio, anc, rate, dscp, arc, mode, refresh, flags);
            && |p| == 61 && p[16..24] == StreamWire(video) && p[24..32] == StreamWire(audio) && p[32..40] == StreamWire(anc)
            && p[40] == rate && p[41] == dscp.0 && p[42] == dscp.1 && p[43] == dscp.2 && p[48..56] == StreamWire(arc)
            && p[56..58] == Wire16(mode) && p[58..60] == Wire16(refresh) && p[60] == flags
  {
  }

  /** Everything in a configuration is read back as it was laid out: a rate where it is from 5
      to 100, a marking where its highest bit says so, and three of the flags. */
  lemma DetailsRoundTrip(target: uid, video: StreamSource, audio: StreamSource, anc: StreamSource, rate: byte,
                         dscp: (byte, byte, byte), arc: StreamSource, mode: u16, refresh: u16, flags: byte)
    requires |video.ip| == |audio.ip| == |anc.ip| == |arc.ip| == 4
    ensures DecodeDetails(DetailsPayload(target, video, audio, anc, rate, dscp, arc, mode, refresh, flags))
         == Some(Details(video, audio, anc, arc,
                         if 5 <= rate <= 100 then Some(rate) else None,
                         Dscp(if dscp.0 >= 0x80 then Some(dscp.0 % 64) else None,
                              if dscp.1 >= 0x80 then Some(dscp.1 % 64) else None,
                              if dscp.2 >= 0x80 then Some(dscp.2 % 64) else None),
                         Scaling(mode, refresh, (flags as bv8) & 0x83)))
  {
    hide DetailsPayload;
    hide StreamWire;
    hide ParseStream;
    hide U16;
    var p := DetailsPayload(target, video, audio, anc, rate, dscp, arc, mode, refresh, flags);
    DetailsLayout(target, video, audio, anc, rate, dscp, arc, mode, refresh, flags);
    StreamSlice(p, 16, video);
    StreamSlice(p, 24, audio);
    StreamSlice(p, 32, anc);
    StreamSlice(p, 48, arc);
    U16Slice(p, 56, mode);
    U16Slice(p, 58, refresh);
  }

  // ---- windows and subscriptions ----

  lemma WindowHandled(r: Reg, u: uid, stamp: u16, p: bytes, now: int, choice: Choice)
    requires u in r.devices && 24 <= |p| < 0x1_0000
    ensures var f := Sent(u, 0x40, stamp, p);
            && f.Valid()
            && Handle(r, f, now, choice)
               == if p[..16] in r.devices then r.With(r.devices[p[..16]].SetTiling(TilingAt(p, 16, p[..16]))) else r
  {
    hide Handle;
    hide Sent;
    hide RawFrame.Payload;
    hide RawFrame.RemoteId;
    hide RawFrame.Opcode;
    hide RawFrame.Valid;
    hide Device.SetTiling;
    Received(u, 0x40, stamp, p);
    Dispatched(r, Sent(u, 0x40, stamp, p), now, choice);
  }

  /** A window is stored of the device it is for, where that one is known. */
  lemma WindowReport(r: Reg, u: uid, stamp: u16, p: bytes, ts: int, now: int, choice: Choice)
    requires WellFormed(r) && u in r.devices && 24 <= |p| < 0x1_0000
    ensures var s, target := Process(r, Build(u, 0x40, stamp, p), ts, now, choice), p[..16];
            && (target !in r.devices ==> OnlyBays(r, s, {}))
            && (target in r.devices ==>
                  && OnlyFacts(r, s, target) && target in s.devices
                  && SameFacts(s.devices[target], r.devices[target].(tiling := s.devices[target].tiling))
                  && s.devices[target].tiling.Some? && s.devices[target].tiling.value.target == target
                  && TilingIn(p, 16, s.devices[target].tiling.value))
  {
    hide Process;
    hide Handle;
    hide WellFormed;
    hide OnlyFacts;
    hide Sent;
    hide OnlyBays;
    hide TilingIn;
    hide TilingAt;
    var target := p[..16];
    WindowHandled(r, u, stamp, p, now, choice);
    Stranger(r, u);
    WellFormedKeyed(r);
    TilingParsed(p, 16, target);
    if target in r.devices {
      Left(r, u, 0x40, stamp, p, ts, now, choice, target, r.devices[target].SetTiling(TilingAt(p, 16, target)));
    } else {
      Ignored(r, u, 0x40, stamp, p, ts, now, choice);
    }
  }

  lemma SubscriptionHandled(r: Reg, u: uid, stamp: u16, p: bytes, now: int, choice: Choice)
    requires 38 <= |p| < 0x1_0000 && p[..16] in r.devices
    ensures var f := Sent(u, 0x24, stamp, p);
            && f.Valid()
            && Handle(r, f, now, choice)
               == SwitchTo(r, p[..16], SinkRoute(ParseStream(p, 16), ParseStream(p, 24), ParseStream(p, 32),
                                                 if |p| >= 48 then Some(ParseFormat(p, 40)) else None), choice)
  {
    hide Handle;
    hide Sent;
    hide RawFrame.Payload;
    hide RawFrame.RemoteId;
    hide RawFrame.Opcode;
    hide RawFrame.Valid;
    hide RawFrame.UidOrZero;
    hide SwitchTo;
    hide ParseStream;
    hide ParseFormat;
    Received(u, 0x24, stamp, p);
    Dispatched(r, Sent(u, 0x24, stamp, p), now, choice);
    SentReads(u, 0x24, stamp, p);
  }

  /** The bay is shown and played what was found, as far as anything was. */
  ghost predicate RoutedTo(b: Bay, c: Bay, choice: Choice) {
    && c == b.(video := c.video, audio := c.audio, log := c.log)
    && c.video == (if choice.video.Some? then choice.video else b.video)
    && c.audio == (if choice.audio.Some? then choice.audio else b.audio)
  }

  /** Of all there is, only what a device subscribes to and the routes of its first output have
      changed. */
  ghost predicate Switched(r: Reg, s: Reg, u: uid, choice: Choice)
    requires u in r.devices
  {
    && s.book == r.book && s.devices.Keys == r.devices.Keys
    && (forall v :: v in r.devices && v != u ==> SameFacts(r.devices[v], s.devices[v]))
    && SameFacts(s.devices[u], r.devices[u].(sink := s.devices[u].sink))
    && (forall id :: s.Knows(id) <==> r.Knows(id))
    && forall id :: r.Knows(id) ==>
         if FirstOutputOf(r, u, id) then RoutedTo(r.BayAt(id), s.BayAt(id), choice) else s.BayAt(id) == r.BayAt(id)
  }

  lemma SwitchedOn(r: Reg, m: Reg, s: Reg, u: uid, choice: Choice)
    requires u in r.devices && Switched(r, m, u, choice) && OnlyBays(m, s, {})
    ensures Switched(r, s, u, choice) && s.devices[u].sink == m.devices[u].sink
  {
    hide FirstOutputOf;
    hide RoutedTo;
  }

  lemma OutputSwitched(r: Reg, u: uid, choice: Choice, id: BayId)
    requires u in r.devices && FirstOutputOf(r, u, id) && forall v :: v in r.devices ==> r.devices[v].uid == v
    ensures var s := r.OnBay(id, [OpSelect(choice.video, choice.audio)]);
            OnlyBays(r, s, {id}) && s.Knows(id) && RoutedTo(r.BayAt(id), s.BayAt(id), choice)
  {
    hide Reg.OnBay;
    hide OnlyBays;
    hide Apply;
    var op := OpSelect(choice.video, choice.audio);
    OnBayReports(r, id, [op]);
    KnownStill(r, r.OnBay(id, [op]), {id}, id);
    OneOp(r.BayAt(id), op);
    Selected(r.BayAt(id), choice.video, choice.audio);
  }

  lemma OutputMoved(r: Reg, s: Reg, u: uid, choice: Choice, id: BayId)
    requires u in r.devices && FirstOutputOf(r, u, id)
    requires OnlyBays(r, s, {id}) && s.Knows(id) && RoutedTo(r.BayAt(id), s.BayAt(id), choice)
    ensures Switched(r, s, u, choice)
  {
    hide RoutedTo;
    hide Bay.IsOutput;
  }

  lemma NothingMoved(r: Reg, u: uid, choice: Choice)
    requires u in r.devices && forall id :: !FirstOutputOf(r, u, id)
    ensures Switched(r, r, u, choice)
  {
    hide RoutedTo;
    hide FirstOutputOf;
  }

  lemma Subscribed(r: Reg, s: Reg, u: uid, route: SinkRoute, choice: Choice)
    requires u in r.devices && r.devices[u].uid == u && Switched(r, s, u, choice)
    ensures u in s.devices && Switched(r, s.With(s.devices[u].(sink := Some(route))), u, choice)
  {
    hide RoutedTo;
    hide FirstOutputOf;
  }

  lemma SwitchedTo(r: Reg, u: uid, route: SinkRoute, choice: Choice)
    requires u in r.devices && forall v :: v in r.devices ==> r.devices[v].uid == v
    ensures var s := SwitchTo(r, u, route, choice);
            Switched(r, s, u, choice) && u in s.devices && s.devices[u].sink == Some(route)
  {
    hide Sink;
    hide FirstOutputOf;
    hide RoutedTo;
    hide Reg.OnBay;
    hide Switched;
    hide OnlyBays;
    forall id
      ensures Sink(r, u) == Some(id) <==> FirstOutputOf(r, u, id)
    {
      SinkIsFirstOutput(r, u, id);
    }
    var m := r;
    if Sink(r, u).Some? {
      var id := Sink(r, u).value;
      m := r.OnBay(id, [OpSelect(choice.video, choice.audio)]);
      OutputSwitched(r, u, choice, id);
      OutputMoved(r, m, u, choice, id);
    } else {
      NothingMoved(r, u, choice);
    }
    SwitchedKeyed(r, m, u, choice);
    Subscribed(r, m, u, route, choice);
  }

  /** The device named is subscribed to the streams of the payload, and its first output routed
      to bays advertising the first two. */
  lemma SubscriptionReport(r: Reg, u: uid, stamp: u16, p: bytes, ts: int, now: int, choice: Choice)
    requires WellFormed(r) && u != r.me && 38 <= |p| < 0x1_0000 && p[..16] in r.devices
    requires Enabled(r, Datagram(Build(u, 0x24, stamp, p), ts, now, choice))
    ensures var s, target := Process(r, Build(u, 0x24, stamp, p), ts, now, choice), p[..16];
            && FindsVideo(r, p[16..20], choice.video) && FindsAudio(r, p[24..28], choice.audio)
            && Switched(r, s, target, choice)
            && s.devices[target].sink.Some?
            && if |p| >= 48 then RouteIn(p, 16, true, s.devices[target].sink.value)
               else RouteIn(p, 16, false, s.devices[target].sink.value)
  {
    hide Process;
    hide Handle;
    hide TouchSender;
    hide WellFormed;
    hide OnlyBays;
    hide Switched;
    hide SwitchTo;
    hide FindsVideo;
    hide FindsAudio;
    hide Enabled;
    hide RouteIn;
    hide ParseStream;
    hide ParseFormat;
    hide Sent;
    var target := p[..16];
    var route := SinkRoute(ParseStream(p, 16), ParseStream(p, 24), ParseStream(p, 32),
                           if |p| >= 48 then Some(ParseFormat(p, 40)) else None);
    var m := SwitchTo(r, target, route, choice);
    WellFormedKeyed(r);
    SubscriptionHandled(r, u, stamp, p, now, choice);
    SwitchedTo(r, target, route, choice);
    SwitchChoice(r, u, stamp, p, ts, now, choice);
    RouteParsed(p, 16, |p| >= 48);
    Arrives(r, u, 0x24, stamp, p, ts, now, choice);
    SwitchedKeyed(r, m, target, choice);
    TouchReports(m, u, ts, now);
    SwitchedOn(r, m, TouchSender(m, u, ts, now), target, choice);
  }

  lemma SwitchedKeyed(r: Reg, s: Reg, u: uid, choice: Choice)
    requires u in r.devices && Switched(r, s, u, choice) && forall v :: v in r.devices ==> r.devices[v].uid == v
    ensures forall v :: v in s.devices ==> s.devices[v].uid == v
    ensures u in s.devices
  {
  }

  // ---- hello ----

  /** An advertisement, as far as it reaches. */
  ghost predicate HelloIn(p: bytes, h: Hello) {
    && h.protocol == (if |p| >= 2 then Le(p[0..2]) else 0)
    && h.name == (if |p| >= 18 then CStr(p[2..18]) else [])
    && h.serial == (if |p| >= 34 then CStr(p[18..34]) else [])
    && h.version == (if |p| >= 50 then CStr(p[34..50]) else [])
    && h.features == (if |p| >= 54 then Le(p[50..54]) else 0)
  }

  lemma TextOrNone(u: uid, opcode: u16, stamp: u16, p: bytes, i: nat, n: nat)
    requires 0 < n
    ensures Sent(u, opcode, stamp, p).StrOrEmpty(i, n) == if i + n <= |p| then CStr(p[i..i + n]) else []
  {
    if i + n <= |p| {
      TextAt(u, opcode, stamp, p, i, n);
    } else {
      BuildLayout(u, opcode, stamp, p);
    }
  }

  lemma HelloHeard(u: uid, stamp: u16, p: bytes)
    requires |p| < 0x1_0000
    ensures Sent(u, 0x00, stamp, p).Valid() && HelloIn(p, HelloOf(Sent(u, 0x00, stamp, p)))
  {
    hide CStr;
    hide Le;
    hide Sent;
    hide RawFrame.U16At;
    hide RawFrame.U32At;
    hide RawFrame.StrOrEmpty;
    hide RawFrame.Valid;
    Received(u, 0x00, stamp, p);
    NumberAt(u, 0x00, stamp, p, 0);
    NumberAt(u, 0x00, stamp, p, 50);
    TextOrNone(u, 0x00, stamp, p, 2, 16);
    TextOrNone(u, 0x00, stamp, p, 18, 16);
    TextOrNone(u, 0x00, stamp, p, 34, 16);
  }

  /** A device is made on its first hello, with nothing known of it but what the hello says;
      on any later one all but that stays. A hello that differs is notified. */
  ghost predicate Greeted(r: Reg, s: Reg, u: uid, h: Hello) {
    && s.book == r.book && s.devices.Keys == r.devices.Keys + {u}
    && (forall v :: v in r.devices && v != u ==> s.devices[v] == r.devices[v])
    && s.devices[u].hello == h
    && (u in r.devices ==>
          && SameFacts(s.devices[u], r.devices[u].(hello := h)) && s.devices[u].bays == r.devices[u].bays
          && r.devices[u].notices + (if h == r.devices[u].hello then [] else [HelloChanged]) <= s.devices[u].notices)
    && (u !in r.devices ==>
          var e := s.devices[u];
          && e.uid == u && e.bays == map[] && !e.haveConfig && !e.linkConfig
          && e.sources.None? && e.details.None? && e.sink.None? && e.tiling.None?)
  }

  lemma HelloGreets(r: Reg, f: RawFrame, ts: int, now: int)
    requires f.Valid() && forall v :: v in r.devices ==> r.devices[v].uid == v
    ensures Greeted(r, TouchSender(HandleHello(r, f, now), f.RemoteId(), ts, now), f.RemoteId(), HelloOf(f))
  {
    hide HelloOf;
    hide RawFrame.RemoteId;
    hide RawFrame.Valid;
    hide Device.Alive;
  }

  lemma HelloReport(r: Reg, u: uid, stamp: u16, p: bytes, ts: int, now: int, choice: Choice)
    requires WellFormed(r) && u != r.me && |p| < 0x1_0000
    ensures var s := Process(r, Build(u, 0x00, stamp, p), ts, now, choice);
            exists h :: HelloIn(p, h) && Greeted(r, s, u, h)
  {
    hide Process;
    hide WellFormed;
    hide TouchSender;
    hide HandleHello;
    hide HelloOf;
    hide HelloIn;
    hide Greeted;
    hide Handle;
    hide Sent;
    hide RawFrame.Payload;
    hide RawFrame.RemoteId;
    hide RawFrame.Opcode;
    hide RawFrame.Valid;
    var f := Sent(u, 0x00, stamp, p);
    WellFormedKeyed(r);
    Received(u, 0x00, stamp, p);
    HelloHeard(u, stamp, p);
    Dispatched(r, f, now, choice);
    Arrives(r, u, 0x00, stamp, p, ts, now, choice);
    HelloGreets(r, f, ts, now);
  }

  // ---- links ----

  /** The link at the head of a payload. */
  ghost predicate LinkIn(p: bytes, origin: BayId, l: Link)
    requires |p| >= 38
  {
    l.origin == origin && l.serial == CStr(p[2..18]) && l.bay == CStr(p[18..34]) && l.features == Le(p[34..38])
  }

  /** An update is stored under its key alone, unless it says of the other end only what was
      stored already: the same device and the same features. */
  ghost predicate Stored(b: Book, c: Book, key: BayId, l: Link) {
    && c.links.Keys == b.links.Keys + {key}
    && (forall k :: k in b.links && k != key ==> c.links[k] == b.links[k])
    && c.links[key].serial == l.serial && c.links[key].features == l.features
    && (c.links[key] == l
        || (key in b.links && c.links[key] == b.links[key]
            && b.links[key].serial == l.serial && b.links[key].features == l.features))
  }

  lemma LinkStored(b: Book, d: Device, p: bytes)
    requires 38 <= |p| < 76
    ensures Records(p, 38) == [p[..38]]
    ensures var c := TakeLinks(b, d, [p[..38]]);
            if p[0] as nat in d.bays
            then exists l :: LinkIn(p, BayId(d.uid, p[0]), l) && Stored(b, c, d.KeyOf(d.bays[p[0] as nat]), l)
            else c == b
  {
    hide CStr;
    hide Le;
    hide U32;
    hide Device.KeyOf;
    var rec := p[..38];
    RecordsStep(p, 38);
    RecordsStep(p[38..], 38);
    var recs: seq<bytes> := [rec];
    assert recs + [] == recs && recs[..0] == [];
    assert rec[2..18] == p[2..18] && rec[18..34] == p[18..34];
    LeReads(rec, 34);
    assert rec[34..38] == p[34..38];
    if p[0] as nat in d.bays {
      var l := Link(BayId(d.uid, p[0]), CStr(rec[2..18]), CStr(rec[18..34]), U32(rec, 34));
      assert LinkIn(p, BayId(d.uid, p[0]), l);
      assert TakeLinks(b, d, recs) == TakeLink(TakeLinks(b, d, []), d, rec);
    }
  }

  lemma LinksHandled(r: Reg, u: uid, stamp: u16, p: bytes, now: int, choice: Choice)
    requires u in r.devices && |p| < 0x1_0000
    ensures var f, d := Sent(u, 0x03, stamp, p), r.devices[u];
            && f.Valid()
            && Handle(r, f, now, choice) == r.(book := TakeLinks(r.book, d, Records(p, 38))).With(d.LinksReceived())
  {
    hide Handle;
    hide Sent;
    hide RawFrame.Payload;
    hide RawFrame.RemoteId;
    hide RawFrame.Opcode;
    hide RawFrame.Valid;
    hide TakeLinks;
    hide Device.LinksReceived;
    Received(u, 0x03, stamp, p);
    Dispatched(r, Sent(u, 0x03, stamp, p), now, choice);
  }

  lemma LinksDone(d: Device)
    ensures var e := d.LinksReceived(); SameFacts(e, d.(linkConfig := true)) && e.bays == d.bays
  {
    hide Device.Complete;
  }

  /** A link of a bay the sender has is stored under the bay's key; the sender has its links. */
  lemma LinkReport(r: Reg, u: uid, stamp: u16, p: bytes, ts: int, now: int, choice: Choice)
    requires WellFormed(r) && u in r.devices && 38 <= |p| < 76
    ensures var s, id := Process(r, Build(u, 0x03, stamp, p), ts, now, choice), BayId(u, p[0]);
            && OnlyFacts(r.(book := s.book), s, u) && u in s.devices
            && SameFacts(s.devices[u], r.devices[u].(linkConfig := true))
            && (r.Knows(id) ==> exists l :: LinkIn(p, id, l) && Stored(r.book, s.book, r.devices[u].KeyOf(r.BayAt(id)), l))
            && (!r.Knows(id) ==> s.book == r.book)
  {
    hide Process;
    hide TouchSender;
    hide WellFormed;
    hide OnlyFacts;
    hide OnlyBays;
    hide LinkIn;
    hide Stored;
    hide TakeLinks;
    hide Device.LinksReceived;
    hide Device.KeyOf;
    hide Handle;
    hide Sent;
    var d := r.devices[u];
    var linked := r.(book := TakeLinks(r.book, d, Records(p, 38)));
    var m := linked.With(d.LinksReceived());
    Stranger(r, u);
    WellFormedKeyed(r);
    LinkStored(r.book, d, p);
    LinksHandled(r, u, stamp, p, now, choice);
    LinksDone(d);
    Arrives(r, u, 0x03, stamp, p, ts, now, choice);
    WithFacts(linked, d.LinksReceived());
    TouchReports(m, u, ts, now);
    FactsOn(linked, m, TouchSender(m, u, ts, now), u);
    StillThere(linked, TouchSender(m, u, ts, now), u);
    SameBook(linked, TouchSender(m, u, ts, now), u);
  }

  lemma SameBook(r: Reg, s: Reg, u: uid)
    requires OnlyFacts(r, s, u)
    ensures s.book == r.book
  {
  }

  // ---- descriptors ----

  /** The descriptor at the head of a payload. */
  ghost predicate DescriptorIn(p: bytes, cfg: Config)
    requires |p| >= 61
  {
    && cfg.port == p[0] && cfg.bay == p[2] && cfg.videoSource == p[3] && cfg.audioSource == p[4]
    && cfg.edidProfile == 0x100 * (p[4] as nat % 16) + p[3] && cfg.rcType == p[4] / 16
    && cfg.bayName == CStr(p[5..21]) && cfg.userName == CStr(p[21..37]) && cfg.signalType == CStr(p[37..51])
    && cfg.signalMode == Le(p[51..53]) && cfg.status == Le(p[53..57]) && cfg.features == Le(p[57..61])
  }

  lemma DescriptorParsed(p: bytes)
    requires 61 <= |p| < 122
    ensures Records(p, 61) == [p[..61]] && DescriptorIn(p, ParseConfig(p[..61]))
  {
    hide CStr;
    hide Le;
    hide U16;
    hide U32;
    var rec := p[..61];
    RecordsStep(p, 61);
    RecordsStep(p[61..], 61);
    var recs: seq<bytes> := [rec];
    assert recs + [] == recs;
    LeReads(rec, 51);
    LeReads(rec, 53);
    LeReads(rec, 57);
    assert rec[5..21] == p[5..21] && rec[21..37] == p[21..37] && rec[37..51] == p[37..51];
    assert rec[51..53] == p[51..53] && rec[53..57] == p[53..57] && rec[57..61] == p[57..61];
  }

  /** A source port, which may be the bay described. */
  function SourcePort(d: Device, cfg: Config, port: nat): Option<BayId> {
    if port in d.bays || port == cfg.port then Some(BayId(d.uid, port)) else None
  }

  /** A bay after its descriptor, made of it where the device had none at the port. */
  ghost predicate Described(d: Device, cfg: Config, c: Bay) {
    var known := cfg.port in d.bays;
    && c.id == (if known then d.bays[cfg.port].id else BayId(d.uid, cfg.port))
    && c.portName == (if known then d.bays[cfg.port].portName else cfg.bayName)
    && c.number == (if known && d.bays[cfg.port].number.Some? then d.bays[cfg.port].number else Some(cfg.bay))
    && c.features == cfg.features && c.status == cfg.status && c.signalMode == cfg.signalMode
    && c.Read(Name) == Text(cfg.userName)
    && Shows(c, cfg.status)
    && (!(Has(cfg.status, 0x8) && (Has(d.hello.features, 0x8) || Has(d.hello.features, 0x10))) ==>
          c.Read(SignalType) == Text(cfg.signalType))
    && (Has(cfg.status, 0x8) && (Has(d.hello.features, 0x8) || Has(d.hello.features, 0x10)) && known ==>
          c.Read(SignalType) == d.bays[cfg.port].Read(SignalType))
    && (c.IsOutput() ==>
          c.video == SourcePort(d, cfg, cfg.videoSource) && c.audio == SourcePort(d, cfg, cfg.audioSource))
    && (!c.IsOutput() && known ==> c.video == d.bays[cfg.port].video && c.audio == d.bays[cfg.port].audio)
    && (!c.IsOutput() && c.IsHdmiInput() ==>
          c.Read(RcType) == CodeIs(Some(cfg.rcType)) && c.Read(Edid) == CodeIs(Some(cfg.edidProfile)))
  }

  ghost predicate SameBay(b: Bay, c: Bay) { c.id == b.id && c.portName == b.portName }

  lemma StatusKeeps(b: Bay, cfg: Config)
    ensures var c := b.TakeStatus(cfg);
            && SameBay(b, c) && c.number == b.number && c.features == b.features && c.video == b.video && c.audio == b.audio
            && c.Read(SignalType) == b.Read(SignalType)
  {
    hide Has;
    hide Bay.ApplyStatus;
    hide Shows;
    StatusIsCached(b, cfg.status);
  }

  lemma SignalTypeKeeps(b: Bay, cfg: Config, onV2ip: bool)
    ensures var c := b.TakeSignalType(cfg, onV2ip);
            && SameBay(b, c) && c.number == b.number && c.features == b.features && c.video == b.video && c.audio == b.audio
            && (Has(cfg.status, 0x8) && onV2ip ==> c == b)
  {
    hide Has;
  }

  lemma SourcesKeep(b: Bay, cfg: Config, v: Option<BayId>, a: Option<BayId>)
    ensures var c := b.TakeSources(cfg, v, a);
            && SameBay(b, c) && c.number == b.number && c.features == b.features
            && (!b.IsOutput() ==> c.video == b.video && c.audio == b.audio)
            && c.Read(SignalType) == b.Read(SignalType)
  {
    hide Bay.IsOutput;
    hide Bay.IsHdmiInput;
  }

  lemma ConfigKeeps(b: Bay, cfg: Config, onV2ip: bool, v: Option<BayId>, a: Option<BayId>)
    ensures var c := b.ApplyConfig(cfg, onV2ip, v, a);
            && SameBay(b, c) && c.features == cfg.features
            && c.number == (if b.number.Some? then b.number else Some(cfg.bay))
            && (!c.IsOutput() ==> c.video == b.video && c.audio == b.audio)
            && (Has(cfg.status, 0x8) && onV2ip ==> c.Read(SignalType) == b.Read(SignalType))
  {
    hide Has;
    hide Bay.TakeStatus;
    hide Bay.TakeSignalType;
    hide Bay.TakeSources;
    var b1 := b.Identify(cfg);
    var b2 := b1.TakeStatus(cfg);
    var b3 := b2.TakeSignalType(cfg, onV2ip);
    StatusKeeps(b1, cfg);
    SignalTypeKeeps(b2, cfg, onV2ip);
    SourcesKeep(b3, cfg, v, a);
    SameOutput(b3, b3.TakeSources(cfg, v, a));
  }

  lemma SameOutput(b: Bay, c: Bay)
    requires c.features == b.features
    ensures c.IsOutput() == b.IsOutput()
  {
    hide Has;
  }

  lemma SettledShows(c: Bay, cfg: Config, onV2ip: bool, v: Option<BayId>, a: Option<BayId>)
    requires Settled(c, cfg, onV2ip, v, a)
    ensures Shows(c, cfg.status)
  {
    hide Has;
    hide StatusPuts;
    hide Shows;
    SetAllSilent(c, StatusPuts(cfg.status));
    StatusIsCached(c, cfg.status);
  }

  lemma ConfigureDescribes(d: Device, cfg: Config)
    ensures Described(d, cfg, Configure(d, cfg))
  {
    hide Bay.ApplyConfig;
    hide Has;
    hide StatusPuts;
    hide HoldsAll;
    hide Shows;
    hide Bay.IsOutput;
    hide Bay.IsHdmiInput;
    var was, v, a := Before(d, cfg), SourcePort(d, cfg, cfg.videoSource), SourcePort(d, cfg, cfg.audioSource);
    var c := was.ApplyConfig(cfg, d.IsV2ip(), v, a);
    ConfigSettles(was, cfg, d.IsV2ip(), v, a);
    SettledShows(c, cfg, d.IsV2ip(), v, a);
    ConfigKeeps(was, cfg, d.IsV2ip(), v, a);
    RegisterShows(c, cfg.status);
  }

  lemma RegisterShows(b: Bay, data: u32)
    ensures Shows(b, data) ==> Shows(Register(b), data)
    ensures Register(b).IsOutput() == b.IsOutput() && Register(b).IsHdmiInput() == b.IsHdmiInput()
    ensures forall kind :: Register(b).Read(kind) == b.Read(kind)
  {
    hide Has;
  }

  // ---- a page with one descriptor ----

  lemma DescriptorHandled(r: Reg, u: uid, opcode: u16, stamp: u16, p: bytes, now: int, choice: Choice)
    requires u in r.devices && 61 <= |p| < 122 && opcode in {0x02, 0x23}
    ensures var f := Sent(u, opcode, stamp, p);
            && f.Valid()
            && Handle(r, f, now, choice) == r.With(r.devices[u].ApplyConfig(ParseConfig(p[..61])).(lastPing := now))
  {
    hide Handle;
    hide Sent;
    hide RawFrame.Payload;
    hide RawFrame.RemoteId;
    hide RawFrame.Opcode;
    hide RawFrame.Valid;
    hide Device.ApplyConfig;
    hide ParseConfig;
    Received(u, opcode, stamp, p);
    Dispatched(r, Sent(u, opcode, stamp, p), now, choice);
    DescriptorParsed(p);
    var d, recs := r.devices[u], [p[..61]];
    assert recs[..0] == [];
    assert d.ApplyConfigs(recs[..0]) == d;
    assert d.ApplyConfigs(recs) == d.ApplyConfig(ParseConfig(p[..61]));
  }

  /** Of all there is, only one bay has been described. */
  ghost predicate OneDescribed(r: Reg, s: Reg, u: uid, cfg: Config)
    requires u in r.devices
  {
    var id := BayId(u, cfg.port);
    && s.book == r.book && s.devices.Keys == r.devices.Keys
    && (forall v :: v in r.devices ==> SameFacts(r.devices[v], s.devices[v]))
    && (forall other :: s.Knows(other) <==> r.Knows(other) || other == id)
    && (forall other :: r.Knows(other) && other != id ==> s.BayAt(other) == r.BayAt(other))
    && Described(r.devices[u], cfg, s.BayAt(id))
  }

  lemma ConfigFacts(d: Device, cfg: Config)
    ensures SameFacts(d, d.ApplyConfig(cfg)) && d.ApplyConfig(cfg).bays == d.bays[cfg.port := Configure(d, cfg)]
  {
    hide Device.ApplyConfig;
    hide Configure;
    hide Device.Complete;
    ApplyConfigBody(d, cfg);
  }

  lemma DescribedWith(r: Reg, e: Device, cfg: Config)
    requires forall v :: v in r.devices ==> r.devices[v].uid == v
    requires e.uid in r.devices && SameFacts(r.devices[e.uid], e)
    requires e.bays == r.devices[e.uid].bays[cfg.port := Configure(r.devices[e.uid], cfg)]
    ensures OneDescribed(r, r.With(e), e.uid, cfg)
  {
    hide Described;
    hide Configure;
    ConfigureDescribes(r.devices[e.uid], cfg);
  }

  lemma DescribedOn(r: Reg, m: Reg, s: Reg, u: uid, cfg: Config)
    requires u in r.devices && OneDescribed(r, m, u, cfg) && OnlyBays(m, s, {})
    ensures OneDescribed(r, s, u, cfg)
  {
    hide Described;
  }

  /** A descriptor from a known device is kept of one bay of it. */
  lemma DescriptorReport(r: Reg, u: uid, opcode: u16, stamp: u16, p: bytes, ts: int, now: int, choice: Choice)
    requires WellFormed(r) && u in r.devices && 61 <= |p| < 122 && opcode in {0x02, 0x23}
    ensures var s := Process(r, Build(u, opcode, stamp, p), ts, now, choice);
            exists cfg :: DescriptorIn(p, cfg) && OneDescribed(r, s, u, cfg)
  {
    hide Process;
    hide Handle;
    hide TouchSender;
    hide WellFormed;
    hide OnlyBays;
    hide OneDescribed;
    hide DescriptorIn;
    hide Device.ApplyConfig;
    hide Configure;
    hide ParseConfig;
    hide Sent;
    var cfg := ParseConfig(p[..61]);
    var e := r.devices[u].ApplyConfig(cfg).(lastPing := now);
    Stranger(r, u);
    WellFormedKeyed(r);
    DescriptorParsed(p);
    DescriptorHandled(r, u, opcode, stamp, p, now, choice);
    Arrives(r, u, opcode, stamp, p, ts, now, choice);
    ConfigFacts(r.devices[u], cfg);
    DescribedWith(r, e, cfg);
    WithKeyed(r, e);
    TouchReports(r.With(e), u, ts, now);
    DescribedOn(r, r.With(e), TouchSender(r.With(e), u, ts, now), u, cfg);
  }

  lemma WithKeyed(r: Reg, e: Device)
    requires forall v :: v in r.devices ==> r.devices[v].uid == v
    ensures forall v :: v in r.With(e).devices ==> r.With(e).devices[v].uid == v
  {
  }
}
