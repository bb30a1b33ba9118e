/** The bay objects a client holds and the callback queue. A bay's fields change in
    place while the lock is held; it keeps a value of the cached-state model that they
    show, and every notice of its log goes to the queue. */
module Bays {
  import opened Bytes
  import opened Control
  import opened BayModel
  import opened DeviceModel

  datatype Queued = Queued(device: uid, notice: Notice)

  /** The pending callbacks. */
  class Callbacks {
    var pending: seq<Queued>

    constructor ()
      ensures pending == []
    {
      pending := [];
    }

    method Emit(q: Queued)
      modifies this
      ensures pending == old(pending) + [q]
    {
      pending := pending + [q];
    }

    /** What is taken off when the lock is released. */
    method Take() returns (batch: seq<Queued>)
      modifies this
      ensures batch == old(pending) && pending == []
    {
      batch := pending;
      pending := [];
    }
  }

  /** What a bay has notified between two states of its log. */
  function News(id: BayId, before: seq<Event>, after: seq<Event>): seq<Queued> {
    if |before| > |after| then []
    else seq(|after| - |before|, i requires 0 <= i < |after| - |before| => Queued(id.device, OfBay(id.port, after[|before| + i])))
  }

  lemma NewsJoin(id: BayId, a: seq<Event>, b: seq<Event>, c: seq<Event>)
    requires a <= b <= c
    ensures News(id, a, b) + News(id, b, c) == News(id, a, c)
  {
  }

  lemma NewsOne(id: BayId, log: seq<Event>, changed: bool, e: Event)
    ensures News(id, log, log + if changed then [e] else []) == if changed then [Queued(id.device, OfBay(id.port, e))] else []
  {
  }

  lemma NoNews(id: BayId, log: seq<Event>)
    ensures News(id, log, log) == []
  {
  }

  /** The fields behind the attributes of a bay, as they are at one time. */
  datatype Fields = Fields(
    userName: Option<bytes>, flags: map<Flag, bool>, signalType: Option<bytes>, arc: ArcStatus, power: Option<PowerStatus>,
    mirror: Option<BayId>, filtered: seq<uid>, amp: Option<AmpZone>, volume: Option<Volume>,
    rcType: Option<int>, edid: Option<int>)
  {
    /** What the field behind an attribute reads as. */
    function Field(portName: bytes, kind: Kind): Value {
      match kind
      case Name => Text(if userName.None? then portName else userName.value)
      case State(flag) => Truth(flag in flags && flags[flag])
      case SignalType => Text(if signalType.None? then UNKNOWN_SIGNAL else signalType.value)
      case Arc => ArcIs(arc)
      case Power => PowerIs(if power.None? then PowerUnknown else power.value)
      case Mirror => MirrorIs(mirror)
      case Filter => FilterIs(filtered)
      case Amp => AmpIs(amp)
      case Level => LevelIs(volume)
      case RcType => CodeIs(rcType)
      case Edid => CodeIs(edid)
    }
  }

  lemma FlagStored(m: BayModel.Bay, f: Fields, flag: Flag, on: bool)
    requires Shown(m, f)
    ensures var g := f.(flags := f.flags[flag := on]); var n := m.Set(State(flag), Truth(on));
            && Shown(n, g) && SameBay(m, n)
            && News(m.id, m.log, n.log) == if (flag in f.flags && f.flags[flag]) == on then []
                                           else [Queued(m.id.device, OfBay(m.id.port, Changed(State(flag), Truth(on))))]
  {
    hide Shown;
    var g := f.(flags := f.flags[flag := on]);
    FieldStored(m, f, g, State(flag), Truth(on));
  }

  ghost predicate ShownIn(m: BayModel.Bay, f: Fields, kind: Kind) { m.Read(kind) == f.Field(m.portName, kind) }

  ghost predicate Shown(m: BayModel.Bay, f: Fields) { forall kind :: ShownIn(m, f, kind) }

  /** Everything but the attributes is as it was. */
  predicate SameBay(m: BayModel.Bay, n: BayModel.Bay) { n == m.(attrs := n.attrs, log := n.log) }

  /** One field and its value in the model have changed together. */
  lemma FieldStored(m: BayModel.Bay, f: Fields, g: Fields, kind: Kind, value: Value)
    requires Shown(m, f) && g.Field(m.portName, kind) == value
    requires forall k :: k != kind ==> g.Field(m.portName, k) == f.Field(m.portName, k)
    ensures Shown(m.Set(kind, value), g)
    ensures SameBay(m, m.Set(kind, value))
    ensures News(m.id, m.log, m.Set(kind, value).log)
            == if f.Field(m.portName, kind) == value then [] else [Queued(m.id.device, OfBay(m.id.port, Changed(kind, value)))]
  {
    assert ShownIn(m, f, kind);
    forall k
      ensures ShownIn(m.Set(kind, value), g, k)
    {
      assert ShownIn(m, f, k);
    }
    NewsOne(m.id, m.log, m.Read(kind) != value, Changed(kind, value));
  }

  lemma AttrsShown(m: BayModel.Bay, n: BayModel.Bay, f: Fields)
    requires Shown(m, f) && n.attrs == m.attrs && n.portName == m.portName
    ensures Shown(n, f)
  {
    forall k
      ensures ShownIn(n, f, k)
    {
      assert ShownIn(m, f, k);
    }
  }

  /** Takes over what other knows, and reports whether that changed anything. */
  method UpdateVolume(v: Volume, other: Volume) returns (w: Volume, changed: bool)
    ensures w == v.Update(other) && (changed <==> w != v)
  {
    w, changed := v, false;
    if other.left >= 0 {
      changed := changed || w.left != other.left;
      w := w.(left := other.left);
    }
    if other.right >= 0 {
      changed := changed || w.right != other.right;
      w := w.(right := other.right);
    }
    if other.mutedLeft.Some? {
      changed := changed || w.mutedLeft.None? || w.mutedLeft.value != other.mutedLeft.value;
      w := w.(mutedLeft := other.mutedLeft);
    }
    if other.mutedRight.Some? {
      changed := changed || w.mutedRight.None? || w.mutedRight.value != other.mutedRight.value;
      w := w.(mutedRight := other.mutedRight);
    }
  }

  lemma SetAllNext(m: BayModel.Bay, puts: seq<Put>, p: Put)
    ensures m.SetAll(puts + [p]) == m.SetAll(puts).Set(p.kind, p.value)
  {
    assert (puts + [p])[..|puts|] == puts;
  }

  /** A status word as the single changes it makes. */
  lemma StatusUnrolled(m: BayModel.Bay, data: u32)
    ensures m.ApplyStatus(data)
            == m.Set(State(Faulty), Truth(Has(data, STATUS_FAULT)))
               .Set(State(Hidden), Truth(Has(data, STATUS_HIDDEN)))
               .Set(State(Poe), Truth(Has(data, STATUS_POWERED)))
               .Set(State(Hdbt), Truth(Has(data, STATUS_HDBT)))
               .Set(State(Hpd), Truth(Has(data, STATUS_HPD)))
               .Set(State(Cec), Truth(Has(data, STATUS_CEC)))
               .Set(State(Signal), Truth(Has(data, STATUS_SIGNAL)))
               .Set(State(EncoderOff), Truth(Has(data, STATUS_ENCODER_OFF)))
               .Set(State(DecoderOff), Truth(Has(data, STATUS_DECODER_OFF)))
               .Set(Power, PowerIs(PowerFrom(data)))
               .Set(Arc, ArcIs(ArcFrom(data)))
  {
    hide BayModel.Bay.Set;
    hide Has;
    hide PowerFrom;
    hide ArcFrom;
    var ps := StatusPuts(data);
    assert m.SetAll(ps[..0]) == m;
    StatusPrefix(m, ps, 0);
    StatusPrefix(m, ps, 1);
    StatusPrefix(m, ps, 2);
    StatusPrefix(m, ps, 3);
    StatusPrefix(m, ps, 4);
    StatusPrefix(m, ps, 5);
    StatusPrefix(m, ps, 6);
    StatusPrefix(m, ps, 7);
    StatusPrefix(m, ps, 8);
    StatusPrefix(m, ps, 9);
    StatusPrefix(m, ps, 10);
    assert ps[..11] == ps;
  }

  lemma StatusPrefix(m: BayModel.Bay, ps: seq<Put>, i: nat)
    requires i < |ps|
    ensures m.SetAll(ps[..i + 1]) == m.SetAll(ps[..i]).Set(ps[i].kind, ps[i].value)
  {
    assert ps[..i + 1] == ps[..i] + [ps[i]];
    SetAllNext(m, ps[..i], ps[i]);
  }

  lemma {:induction false} SetAllLog(m: BayModel.Bay, puts: seq<Put>)
    ensures m.log <= m.SetAll(puts).log
  {
    if puts != [] {
      SetAllLog(m, puts[..|puts| - 1]);
    }
  }

  lemma LogsGrow(m: BayModel.Bay, cfg: Config)
    ensures m.log <= m.Identify(cfg).log && m.log <= m.TakeStatus(cfg).log
    ensures forall onV2ip :: m.log <= m.TakeSignalType(cfg, onV2ip).log
    ensures forall v, a :: m.log <= m.TakeSources(cfg, v, a).log
  {
    hide Has;
    hide StatusPuts;
    SetAllLog(m, StatusPuts(cfg.status));
  }

  lemma ConfigLogsGrow(m: BayModel.Bay, cfg: Config, onV2ip: bool, v: Option<BayId>, a: Option<BayId>)
    ensures var m1 := m.Identify(cfg);
            var m2 := m1.TakeStatus(cfg).TakeSignalType(cfg, onV2ip);
            m.log <= m1.log <= m2.log <= m2.TakeSources(cfg, v, a).log
  {
    hide BayModel.Bay.Identify;
    hide BayModel.Bay.TakeStatus;
    hide BayModel.Bay.TakeSignalType;
    hide BayModel.Bay.TakeSources;
    LogsGrow(m, cfg);
    LogsGrow(m.Identify(cfg), cfg);
    LogsGrow(m.Identify(cfg).TakeStatus(cfg), cfg);
    LogsGrow(m.Identify(cfg).TakeStatus(cfg).TakeSignalType(cfg, onV2ip), cfg);
  }

  lemma ConfigLog(b: BayModel.Bay, cfg: Config, onV2ip: bool, v: Option<BayId>, a: Option<BayId>)
    ensures b.log <= b.ApplyConfig(cfg, onV2ip, v, a).log
  {
    hide BayModel.Bay.Identify;
    hide BayModel.Bay.TakeStatus;
    hide BayModel.Bay.TakeSignalType;
    hide BayModel.Bay.TakeSources;
    ConfigLogsGrow(b, cfg, onV2ip, v, a);
  }

  /** An input or output of a device. Routes are held by device and port. */
  class Bay {
    const id: BayId
    const portName: bytes
    const queue: Callbacks

    var userName: Option<bytes>
    var features: u32
    var statusMask: u32
    var number: Option<nat>
    var videoSource: Option<BayId>
    var audioSource: Option<BayId>
    var powerStatus: Option<PowerStatus>
    var flags: map<Flag, bool>
    var signalType: Option<bytes>
    var signalMode: u16
    var filtered: seq<uid>
    var arc: ArcStatus
    var audioVolume: Option<Volume>
    var rcType: Option<int>
    var edidProfile: Option<int>
    var v2ipUid: uid
    var mirror: Option<BayId>
    var ampSettings: Option<AmpZone>

    ghost var model: BayModel.Bay

    ghost function Now(): Fields
      reads this
    {
      Fields(userName, flags, signalType, arc, powerStatus, mirror, filtered, ampSettings, audioVolume, rcType, edidProfile)
    }

    /** The fields show the model. */
    ghost predicate Valid()
      reads this
    {
      && model.id == id && model.portName == portName && model.number == number
      && model.features == features && model.status == statusMask && model.signalMode == signalMode
      && model.video == videoSource && model.audio == audioSource && model.v2ipUid == v2ipUid
      && Shown(model, Now())
    }

    constructor (device: uid, cfg: Config, queue: Callbacks)
      ensures Valid() && model == New(device, cfg) && this.queue == queue && id == BayId(device, cfg.port)
    {
      this.queue := queue;
      id, portName, number := BayId(device, cfg.port), cfg.bayName, None;
      features, statusMask, signalMode := cfg.features, cfg.status, 0;
      videoSource, audioSource, v2ipUid := None, None, ZERO_UID;
      userName, powerStatus, signalType, audioVolume, rcType, edidProfile := None, None, None, None, None, None;
      flags, filtered, arc, mirror, ampSettings := map[], [], ArcNone, None, None;
      model := New(device, cfg);
    }

    /** Queues a notice of this bay, or nothing when there is none. */
    method Notify(changed: bool, e: Event)
      modifies queue
      ensures queue.pending == old(queue.pending) + if changed then [Queued(id.device, OfBay(id.port, e))] else []
    {
      if changed {
        queue.Emit(Queued(id.device, OfBay(id.port, e)));
      }
    }

    method SetUserName(name: bytes)
      requires Valid()
      modifies this, queue
      ensures Valid() && model == old(model).Set(Name, Text(name))
      ensures queue.pending == old(queue.pending) + News(id, old(model).log, model.log)
    {
      hide Shown;
      hide News;
      hide BayModel.Bay.Set;
      var previous := if userName.None? then portName else userName.value;
      userName := Some(name);
      Notify(name != previous, Changed(Name, Text(name)));
      FieldStored(model, old(Now()), Now(), Name, Text(name));
      model := model.Set(Name, Text(name));
    }

    /** riseFall is there for flags that must not be notified while false; a change
        always has true on one side, so it changes nothing. */
    method SetFlag(flag: Flag, on: bool, riseFall: bool)
      requires Valid()
      modifies this, queue
      ensures Valid() && model == old(model).Set(State(flag), Truth(on))
      ensures queue.pending == old(queue.pending) + News(id, old(model).log, model.log)
    {
      hide Shown;
      hide News;
      hide BayModel.Bay.Set;
      var previous := flag in flags && flags[flag];
      flags := flags[flag := on];
      Notify(previous != on && (!riseFall || previous || on), Changed(State(flag), Truth(on)));
      FlagStored(model, old(Now()), flag, on);
      model := model.Set(State(flag), Truth(on));
    }

    method SetSignalType(text: bytes)
      requires Valid()
      modifies this, queue
      ensures Valid() && model == old(model).Set(SignalType, Text(text))
      ensures queue.pending == old(queue.pending) + News(id, old(model).log, model.log)
    {
      hide Shown;
      hide News;
      hide BayModel.Bay.Set;
      var previous := if signalType.None? then UNKNOWN_SIGNAL else signalType.value;
      signalType := Some(text);
      Notify(previous != text, Changed(SignalType, Text(text)));
      FieldStored(model, old(Now()), Now(), SignalType, Text(text));
      model := model.Set(SignalType, Text(text));
    }

    method SetFiltered(devices: seq<uid>)
      requires Valid()
      modifies this, queue
      ensures Valid() && model == old(model).Set(Filter, FilterIs(devices))
      ensures queue.pending == old(queue.pending) + News(id, old(model).log, model.log)
    {
      hide Shown;
      hide News;
      hide BayModel.Bay.Set;
      var changed := |devices| != |filtered|;
      var i := 0;
      while !changed && i < |devices|
        invariant changed || (|devices| == |filtered| && i <= |devices| && devices[..i] == filtered[..i])
        invariant changed ==> devices != filtered
        decreases |devices| - i, !changed
      {
        if devices[i] != filtered[i] {
          changed := true;
        } else {
          i := i + 1;
        }
      }
      assert !changed ==> devices == filtered;
      filtered := devices;
      Notify(changed, Changed(Filter, FilterIs(devices)));
      FieldStored(model, old(Now()), Now(), Filter, FilterIs(devices));
      model := model.Set(Filter, FilterIs(devices));
    }

    method SetArc(status: ArcStatus)
      requires Valid()
      modifies this, queue
      ensures Valid() && model == old(model).Set(Arc, ArcIs(status))
      ensures queue.pending == old(queue.pending) + News(id, old(model).log, model.log)
    {
      hide Shown;
      hide News;
      hide BayModel.Bay.Set;
      var changed := arc != status;
      if changed {
        arc := status;
      }
      Notify(changed, Changed(Arc, ArcIs(status)));
      FieldStored(model, old(Now()), Now(), Arc, ArcIs(status));
      model := model.Set(Arc, ArcIs(status));
    }

    method SetPower(status: PowerStatus)
      requires Valid()
      modifies this, queue
      ensures Valid() && model == old(model).Set(Power, PowerIs(status))
      ensures queue.pending == old(queue.pending) + News(id, old(model).log, model.log)
    {
      hide Shown;
      hide News;
      hide BayModel.Bay.Set;
      var previous := if powerStatus.None? then PowerUnknown else powerStatus.value;
      powerStatus := Some(status);
      Notify(status != previous, Changed(Power, PowerIs(status)));
      FieldStored(model, old(Now()), Now(), Power, PowerIs(status));
      model := model.Set(Power, PowerIs(status));
    }

    method SetMirroring(master: Option<BayId>)
      requires Valid()
      modifies this, queue
      ensures Valid() && model == old(model).Set(Mirror, MirrorIs(master))
      ensures queue.pending == old(queue.pending) + News(id, old(model).log, model.log)
    {
      hide Shown;
      hide News;
      hide BayModel.Bay.Set;
      var changed := mirror != master;
      if changed {
        mirror := master;
      }
      Notify(changed, Changed(Mirror, MirrorIs(master)));
      FieldStored(model, old(Now()), Now(), Mirror, MirrorIs(master));
      model := model.Set(Mirror, MirrorIs(master));
    }

    method SetAmpSettings(zone: AmpZone)
      requires Valid()
      modifies this, queue
      ensures Valid() && model == old(model).Set(Amp, AmpIs(Some(zone)))
      ensures queue.pending == old(queue.pending) + News(id, old(model).log, model.log)
    {
      hide Shown;
      hide News;
      hide BayModel.Bay.Set;
      var changed := ampSettings != Some(zone);
      ampSettings := Some(zone);
      Notify(changed, Changed(Amp, AmpIs(Some(zone))));
      FieldStored(model, old(Now()), Now(), Amp, AmpIs(Some(zone)));
      model := model.Set(Amp, AmpIs(Some(zone)));
    }

    predicate IsInput()
      reads this
      ensures Valid() ==> IsInput() == model.IsInput()
    {
      Has(features, HDMI_IN) || Has(features, AUDIO_DIG_IN) || Has(features, AUDIO_ANA_IN)
      || Has(features, V2IP_SOURCE_LOCAL) || Has(features, V2IP_SOURCE_REMOTE)
    }

    predicate IsHdmiInput()
      reads this
      ensures Valid() ==> IsHdmiInput() == model.IsHdmiInput()
    {
      (Has(features, HDMI_IN) || Has(features, HDMI_OUT)) && IsInput()
    }

    predicate IsLocal()
      reads this
      ensures Valid() ==> IsLocal() == model.IsLocal()
    {
      !(Has(features, V2IP_SINK_REMOTE) || Has(features, V2IP_SOURCE_REMOTE))
    }

    predicate IsHidden()
      reads this
      ensures Valid() ==> IsHidden() == model.On(Hidden)
    {
      assert Valid() ==> ShownIn(model, Now(), State(Hidden));
      Hidden in flags && flags[Hidden]
    }

    predicate IsOutput()
      reads this
      ensures Valid() ==> IsOutput() == model.IsOutput()
    {
      Has(features, HDMI_OUT) || Has(features, AUDIO_AMP_OUT) || Has(features, AUDIO_DIG_OUT)
      || Has(features, AUDIO_ANA_OUT) || Has(features, V2IP_SINK_LOCAL) || Has(features, V2IP_SINK_REMOTE)
    }

    predicate HasVolumeControl()
      reads this
      ensures Valid() ==> HasVolumeControl() == model.HasVolumeControl()
    {
      Has(features, AUDIO_ANA_OUT) || Has(features, AUDIO_AMP_OUT) || Has(features, AUDIO_ANA_IN) || Has(features, AUDIO_DIG_IN)
    }

    method SetEdidProfile(code: int)
      requires Valid()
      modifies this, queue
      ensures Valid() && model == old(model).SetEdid(code)
      ensures queue.pending == old(queue.pending) + News(id, old(model).log, model.log)
    {
      hide Shown;
      hide News;
      hide BayModel.Bay.Set;
      hide Has;
      if !IsHdmiInput() {
        NoNews(id, model.log);
        return;
      }
      var changed := edidProfile.None? || edidProfile.value != code;
      edidProfile := Some(code);
      Notify(changed, Changed(Edid, CodeIs(Some(code))));
      FieldStored(model, old(Now()), Now(), Edid, CodeIs(Some(code)));
      model := model.Set(Edid, CodeIs(Some(code)));
    }

    method SetRcType(code: int)
      requires Valid()
      modifies this, queue
      ensures Valid() && model == old(model).SetRcType(code)
      ensures queue.pending == old(queue.pending) + News(id, old(model).log, model.log)
    {
      hide Shown;
      hide News;
      hide BayModel.Bay.Set;
      hide Has;
      if !IsHdmiInput() {
        NoNews(id, model.log);
        return;
      }
      var changed := rcType.None? || rcType.value != code;
      rcType := Some(code);
      Notify(changed, Changed(RcType, CodeIs(Some(code))));
      FieldStored(model, old(Now()), Now(), RcType, CodeIs(Some(code)));
      model := model.Set(RcType, CodeIs(Some(code)));
    }

    method NextVolume(other: Volume) returns (next: Volume, changed: bool)
      ensures next == Combine(LevelIs(audioVolume), other) && changed == (audioVolume != Some(next))
    {
      next, changed := other, true;
      if audioVolume.Some? {
        next, changed := UpdateVolume(audioVolume.value, other);
      }
    }

    lemma VolumeShown()
      requires Valid()
      ensures model.Read(Level) == LevelIs(audioVolume)
    {
      assert ShownIn(model, Now(), Level);
    }

    method SetVolumeStatus(other: Volume)
      requires Valid()
      modifies this, queue
      ensures Valid() && model == old(model).SetVolume(other)
      ensures queue.pending == old(queue.pending) + News(id, old(model).log, model.log)
    {
      hide News;
      hide Has;
      hide BayModel.Bay.Set;
      hide BayModel.Bay.Read;
      hide Shown;
      hide Combine;
      if !HasVolumeControl() {
        NoNews(id, model.log);
        return;
      }
      VolumeShown();
      var next, changed := NextVolume(other);
      audioVolume := Some(next);
      Notify(changed, Changed(Level, LevelIs(Some(next))));
      FieldStored(model, old(Now()), Now(), Level, LevelIs(Some(next)));
      model := model.Set(Level, LevelIs(Some(next)));
    }

    /** Clearing a route queues nothing. */
    method SetVideoSource(src: Option<BayId>)
      requires Valid()
      modifies this, queue
      ensures Valid() && model == old(model).SetVideoSource(src)
      ensures queue.pending == old(queue.pending) + News(id, old(model).log, model.log)
    {
      hide Shown;
      NoNews(id, model.log);
      if !IsOutput() {
        return;
      }
      model := model.SetVideoSource(src);
      AttrsShown(old(model), model, Now());
      if src.None? {
        videoSource := None;
        return;
      }
      if videoSource.None? || src != videoSource {
        videoSource := src;
        Notify(true, Routed(false, src.value));
        NewsOne(id, old(model).log, true, Routed(false, src.value));
      }
    }

    function AudioSource(): Option<BayId>
      reads this
    {
      if audioSource.None? then videoSource else audioSource
    }

    method SetAudioSource(src: Option<BayId>)
      requires Valid()
      modifies this, queue
      ensures Valid() && model == old(model).SetAudioSource(src)
      ensures queue.pending == old(queue.pending) + News(id, old(model).log, model.log)
    {
      hide Shown;
      NoNews(id, model.log);
      if !IsOutput() {
        return;
      }
      model := model.SetAudioSource(src);
      AttrsShown(old(model), model, Now());
      if src.None? {
        audioSource := None;
        return;
      }
      var previous := AudioSource();
      if audioSource.None? || src != audioSource {
        audioSource := src;
      }
      var changed := previous != AudioSource();
      Notify(changed, Routed(true, src.value));
      NewsOne(id, old(model).log, changed, Routed(true, src.value));
    }

    method ApplySelected(video: Option<BayId>, audio: Option<BayId>)
      requires Valid()
      modifies this, queue
      ensures Valid() && model == old(model).ApplySelected(video, audio)
      ensures queue.pending == old(queue.pending) + News(id, old(model).log, model.log)
    {
      hide Valid;
      hide News;
      NoNews(id, model.log);
      if video.Some? {
        SetVideoSource(video);
      }
      ghost var middle := model;
      NoNews(id, model.log);
      if audio.Some? {
        SetAudioSource(audio);
      }
      NewsJoin(id, old(model).log, middle.log, model.log);
    }

    /** One flag of a status word; q is what was pending when the bay's log was that
        of m. */
    method SetStatusFlag(flag: Flag, on: bool, riseFall: bool, ghost m: BayModel.Bay, ghost q: seq<Queued>)
      requires Valid() && m.log <= model.log && queue.pending == q + News(id, m.log, model.log)
      modifies this, queue
      ensures Valid() && model == old(model).Set(State(flag), Truth(on))
      ensures m.log <= model.log && queue.pending == q + News(id, m.log, model.log)
    {
      hide Valid;
      hide News;
      SetFlag(flag, on, riseFall);
      NewsJoin(id, m.log, old(model).log, model.log);
    }

    method ApplyBayStatus(data: u32)
      requires Valid()
      modifies this, queue
      ensures Valid() && model == old(model).ApplyStatus(data)
      ensures queue.pending == old(queue.pending) + News(id, old(model).log, model.log)
    {
      hide Valid;
      hide News;
      hide Has;
      hide BayModel.Bay.Set;
      hide BayModel.Bay.ApplyStatus;
      ghost var m, q := model, queue.pending;
      NoNews(id, m.log);
      SetStatusFlag(Faulty, Has(data, STATUS_FAULT), true, m, q);
      SetStatusFlag(Hidden, Has(data, STATUS_HIDDEN), true, m, q);
      SetStatusFlag(Poe, Has(data, STATUS_POWERED), false, m, q);
      SetStatusFlag(Hdbt, Has(data, STATUS_HDBT), false, m, q);
      SetStatusFlag(Hpd, Has(data, STATUS_HPD), false, m, q);
      SetStatusFlag(Cec, Has(data, STATUS_CEC), false, m, q);
      SetStatusFlag(Signal, Has(data, STATUS_SIGNAL), false, m, q);
      SetStatusFlag(EncoderOff, Has(data, STATUS_ENCODER_OFF), false, m, q);
      SetStatusFlag(DecoderOff, Has(data, STATUS_DECODER_OFF), false, m, q);
      ApplyPowerAndArc(data, m, q);
      StatusUnrolled(m, data);
    }

    method ApplyPower(data: u32)
      requires Valid()
      modifies this, queue
      ensures Valid() && model == old(model).Set(Power, PowerIs(PowerFrom(data)))
      ensures queue.pending == old(queue.pending) + News(id, old(model).log, model.log)
    {
      hide Valid;
      hide News;
      hide Has;
      hide BayModel.Bay.Set;
      if !Has(data, STATUS_CEC) {
        SetPower(PowerUnknown);
      } else if Has(data, STATUS_POWERED_ON) {
        SetPower(PowerOn);
      } else if Has(data, STATUS_POWERED_OFF) {
        SetPower(PowerOff);
      } else {
        SetPower(PowerUnknown);
      }
    }

    method ApplyArc(data: u32)
      requires Valid()
      modifies this, queue
      ensures Valid() && model == old(model).Set(Arc, ArcIs(ArcFrom(data)))
      ensures queue.pending == old(queue.pending) + News(id, old(model).log, model.log)
    {
      hide Valid;
      hide News;
      hide Has;
      hide BayModel.Bay.Set;
      if Has(data, STATUS_ARC_HDMI) {
        SetArc(ArcHdmi);
      } else if Has(data, STATUS_ARC_OPTICAL) {
        SetArc(ArcOptical);
      } else if Has(data, STATUS_ARC_ANALOG) {
        SetArc(ArcAnalog);
      } else {
        SetArc(ArcNone);
      }
    }

    method ApplyPowerAndArc(data: u32, ghost m: BayModel.Bay, ghost q: seq<Queued>)
      requires Valid() && m.log <= model.log && queue.pending == q + News(id, m.log, model.log)
      modifies this, queue
      ensures Valid() && model == old(model).Set(Power, PowerIs(PowerFrom(data))).Set(Arc, ArcIs(ArcFrom(data)))
      ensures queue.pending == q + News(id, m.log, model.log)
    {
      hide Valid;
      hide News;
      hide PowerFrom;
      hide ArcFrom;
      ApplyPower(data);
      ghost var powered := model;
      NewsJoin(id, m.log, old(model).log, powered.log);
      ApplyArc(data);
      NewsJoin(id, m.log, powered.log, model.log);
    }

    /** The name, number, features and status word of a descriptor. */
    method Identify(cfg: Config)
      requires Valid()
      modifies this, queue
      ensures Valid() && model == old(model).Identify(cfg)
      ensures queue.pending == old(queue.pending) + News(id, old(model).log, model.log)
    {
      hide News;
      hide BayModel.Bay.Set;
      hide Shown;
      features := cfg.features;
      statusMask := cfg.status;
      if number.None? {
        number := Some(cfg.bay);
      }
      model := model.(features := cfg.features, status := cfg.status, number := number);
      AttrsShown(old(model), model, Now());
      SetUserName(cfg.userName);
    }

    method TakeStatus(cfg: Config, onV2ip: bool)
      requires Valid()
      modifies this, queue
      ensures Valid() && model == old(model).TakeStatus(cfg).TakeSignalType(cfg, onV2ip)
      ensures queue.pending == old(queue.pending) + News(id, old(model).log, model.log)
    {
      hide News;
      hide Has;
      hide BayModel.Bay.Set;
      hide BayModel.Bay.ApplyStatus;
      hide Shown;
      ApplyBayStatus(cfg.status);
      ghost var applied := model;
      signalMode := cfg.signalMode;
      model := model.(signalMode := cfg.signalMode);
      AttrsShown(applied, model, Now());
      NoNews(id, model.log);
      ghost var moded := model;
      if !Has(cfg.status, STATUS_SIGNAL) || !onV2ip {
        SetSignalType(cfg.signalType);
      }
      assert moded == old(model).TakeStatus(cfg) && model == moded.TakeSignalType(cfg, onV2ip);
      LogsGrow(old(model), cfg);
      LogsGrow(moded, cfg);
      NewsJoin(id, old(model).log, moded.log, model.log);
    }

    method TakeSources(cfg: Config, video: Option<BayId>, audio: Option<BayId>)
      requires Valid()
      modifies this, queue
      ensures Valid() && model == old(model).TakeSources(cfg, video, audio)
      ensures queue.pending == old(queue.pending) + News(id, old(model).log, model.log)
    {
      hide News;
      hide Has;
      hide Shown;
      if IsOutput() {
        SetVideoSource(video);
        ghost var middle := model;
        SetAudioSource(audio);
        NewsJoin(id, old(model).log, middle.log, model.log);
      } else {
        SetRcType(cfg.rcType);
        ghost var middle := model;
        SetEdidProfile(cfg.edidProfile);
        NewsJoin(id, old(model).log, middle.log, model.log);
      }
    }

    /** A descriptor; the device passes on whether it is a V2IP one and the bays the
        source ports of the descriptor lead to. */
    method ApplyBayConfig(cfg: Config, onV2ip: bool, video: Option<BayId>, audio: Option<BayId>)
      requires Valid()
      modifies this, queue
      ensures Valid() && model == old(model).ApplyConfig(cfg, onV2ip, video, audio)
      ensures queue.pending == old(queue.pending) + News(id, old(model).log, model.log)
    {
      hide News;
      hide Valid;
      hide BayModel.Bay.Identify;
      hide BayModel.Bay.TakeStatus;
      hide BayModel.Bay.TakeSignalType;
      hide BayModel.Bay.TakeSources;
      Identify(cfg);
      ghost var m1 := model;
      TakeStatus(cfg, onV2ip);
      ghost var m2 := model;
      TakeSources(cfg, video, audio);
      ConfigLogsGrow(old(model), cfg, onV2ip, video, audio);
      NewsJoin(id, old(model).log, m1.log, m2.log);
      NewsJoin(id, old(model).log, m2.log, model.log);
    }

    method SetFeatures(mask: u32)
      requires Valid()
      modifies this
      ensures Valid() && model == old(model).(features := mask)
    {
      hide Shown;
      features := mask;
      model := model.(features := mask);
      AttrsShown(old(model), model, Now());
    }

    method SetV2ipUid(source: uid)
      requires Valid()
      modifies this
      ensures Valid() && model == old(model).(v2ipUid := source)
    {
      hide Shown;
      v2ipUid := source;
      model := model.(v2ipUid := source);
      AttrsShown(old(model), model, Now());
    }

    /** One operation on the bay, as handlers and control calls ask for it. */
    method Perform(op: Op)
      requires Valid()
      modifies this, queue
      ensures Valid() && model == Apply(old(model), op)
      ensures queue.pending == old(queue.pending) + News(id, old(model).log, model.log)
    {
      hide News;
      hide Valid;
      hide BayModel.Bay.Set;
      hide BayModel.Bay.SetVolume;
      hide BayModel.Bay.SetEdid;
      hide BayModel.Bay.ApplySelected;
      hide BayModel.Bay.ApplyStatus;
      NoNews(id, model.log);
      match op {
        case OpName(name) => SetUserName(name);
        case OpFlag(flag, on) => SetFlag(flag, on, flag == Faulty || flag == Hidden);
        case OpSignalType(text) => SetSignalType(text);
        case OpPower(p) => SetPower(p);
        case OpMirror(master) => SetMirroring(master);
        case OpFilter(devices) => SetFiltered(devices);
        case OpAmp(zone) => SetAmpSettings(zone);
        case OpVolume(v) => SetVolumeStatus(v);
        case OpEdid(code) => SetEdidProfile(code);
        case OpSelect(video, audio) => ApplySelected(video, audio);
        case OpStatus(data) => ApplyBayStatus(data);
        case OpFeatures(mask) => SetFeatures(mask);
        case OpV2ipUid(source) => SetV2ipUid(source);
      }
    }

    /** Notifies that the bay is there. */
    method NotifyRegistered()
      requires Valid()
      modifies this, queue
      ensures Valid() && model == Register(old(model))
      ensures queue.pending == old(queue.pending) + News(id, old(model).log, model.log)
    {
      hide News;
      hide Shown;
      Notify(true, Registered);
      NewsOne(id, model.log, true, Registered);
      model := Register(model);
      AttrsShown(old(model), model, Now());
    }

    /** A descriptor for a bay that is new or already known. */
    method Describe(cfg: Config, onV2ip: bool, video: Option<BayId>, audio: Option<BayId>, isNew: bool)
      requires Valid()
      modifies this, queue
      ensures Valid()
      ensures var b := old(model).ApplyConfig(cfg, onV2ip, video, audio); model == if isNew then Register(b) else b
      ensures queue.pending == old(queue.pending) + News(id, old(model).log, model.log) && old(model).log <= model.log
    {
      hide News;
      hide Valid;
      hide BayModel.Bay.ApplyConfig;
      ApplyBayConfig(cfg, onV2ip, video, audio);
      ghost var configured := model;
      NoNews(id, configured.log);
      if isNew {
        NotifyRegistered();
      }
      ConfigLog(old(model), cfg, onV2ip, video, audio);
      NewsJoin(id, old(model).log, configured.log, model.log);
    }
  }
}
