/** The V2IP device configuration and its incremental merge: every field group is
    written only behind its own validity marker. */
module V2ipConfig {
  import opened Bytes

  /** An IPv4 address and port; ip holds the four address bytes in network order. */
  datatype StreamSource = StreamSource(ip: seq<byte>, port: u16) {
    /** A host group address (class D, section 4 of RFC 1112) with a non-zero port. */
    predicate Valid() { |ip| == 4 && 224 <= ip[0] <= 239 && port != 0 }
  }

  datatype Dscp = Dscp(video: Option<byte>, audio: Option<byte>, anc: Option<byte>)

  const MODE_VALID: bv8 := 0x01
  const OPTIONS_VALID: bv8 := 0x02
  const AUTO_SCALING: bv8 := 0x80
  const DEFINED: bv8 := MODE_VALID | OPTIONS_VALID | AUTO_SCALING

  datatype Scaling = Scaling(mode: u16, refresh: u16, flags: bv8) {
    predicate ModeValid() { flags & MODE_VALID != 0 }
    predicate OptionsValid() { flags & OPTIONS_VALID != 0 }
    predicate Auto() { flags & AUTO_SCALING != 0 }

    function Merge(previous: Scaling): Scaling {
      var moded := if ModeValid()
                   then Scaling(mode, refresh, previous.flags | MODE_VALID)
                   else previous;
      if OptionsValid()
      then moded.(flags := (moded.flags & !AUTO_SCALING) | OPTIONS_VALID | (flags & AUTO_SCALING))
      else moded
    }
  }

  datatype Details = Details(video: StreamSource, audio: StreamSource, anc: StreamSource, arc: StreamSource,
                             txRate: Option<byte>, dscp: Dscp, scaling: Scaling) {
    /** Video and ancillary must be usable; audio is carried with them. */
    predicate SourceValid() { video.Valid() && anc.Valid() }

    function MergeOnto(previous: Details): Details {
      var s := if SourceValid() then this else this.(video := previous.video, audio := previous.audio, anc := previous.anc);
      s.(arc := if arc.Valid() then arc else previous.arc,
         txRate := if txRate.None? then previous.txRate else txRate,
         dscp := if dscp.video.None? then previous.dscp else dscp,
         scaling := scaling.Merge(previous.scaling))
    }

    /** The first configuration is taken whole. */
    function Merge(previous: Option<Details>): Details {
      if previous.None? then this else MergeOnto(previous.value)
    }
  }

  // ---- decoding ----

  const DSCP_SET: nat := 0x80
  const RATE_MIN: nat := 5
  const RATE_MAX: nat := 100

  function ParseDscp(raw: byte): Option<byte> {
    if !Has(raw, DSCP_SET) then None else Some(raw % 64)
  }

  function ParseStream(p: bytes, i: nat): StreamSource
    requires i + 6 <= |p|
  {
    StreamSource(p[i..i + 4], U16(p, i + 4))
  }

  /** A device-config payload; none when it is shorter than the fixed 61 bytes. */
  function DecodeDetails(p: bytes): Option<Details> {
    if |p| < 61 then None
    else Some(Details(
           ParseStream(p, 16), ParseStream(p, 24), ParseStream(p, 32), ParseStream(p, 48),
           if RATE_MIN <= p[40] <= RATE_MAX then Some(p[40]) else None,
           Dscp(ParseDscp(p[41]), ParseDscp(p[42]), ParseDscp(p[43])),
           Scaling(U16(p, 56), U16(p, 58), (p[60] as bv8) & DEFINED)))
  }

  function Receive(cached: Option<Details>, payload: bytes): Option<Details> {
    var d := DecodeDetails(payload);
    if d.None? then cached else Some(d.value.Merge(cached))
  }

  /** What a device caches after the given payloads, in order of arrival. */
  function Cache(cached: Option<Details>, payloads: seq<bytes>): Option<Details> {
    if payloads == [] then cached
    else Receive(Cache(cached, payloads[..|payloads| - 1]), payloads[|payloads| - 1])
  }

  /** The configurations among the payloads that are long enough to be one. */
  function Decoded(payloads: seq<bytes>): seq<Details> {
    if payloads == [] then []
    else
      var d := DecodeDetails(payloads[|payloads| - 1]);
      Decoded(payloads[..|payloads| - 1]) + if d.None? then [] else [d.value]
  }

  // ---- the merge as an operation on (earlier, later) ----

  lemma ScalingMergeAssociative(a: Scaling, b: Scaling, c: Scaling)
    ensures c.Merge(b.Merge(a)) == c.Merge(b).Merge(a)
  {
    if c.ModeValid() {
      assert c.Merge(b).ModeValid();
    } else {
      assert c.Merge(b).ModeValid() == b.ModeValid();
    }
    if c.OptionsValid() {
      assert c.Merge(b).OptionsValid();
    } else {
      assert c.Merge(b).OptionsValid() == b.OptionsValid();
    }
  }

  lemma ScalingMergeIdempotent(a: Scaling, b: Scaling)
    ensures b.Merge(b.Merge(a)) == b.Merge(a)
  {
  }

  lemma MergeAssociative(a: Details, b: Details, c: Details)
    ensures c.MergeOnto(b.MergeOnto(a)) == c.MergeOnto(b).MergeOnto(a)
  {
    ScalingMergeAssociative(a.scaling, b.scaling, c.scaling);
  }

  /** Receiving the same configuration twice in a row changes nothing the second time. */
  lemma MergeIdempotent(a: Option<Details>, b: Details)
    ensures b.Merge(Some(b.Merge(a))) == b.Merge(a)
  {
    ScalingMergeIdempotent(if a.None? then b.scaling else a.value.scaling, b.scaling);
  }

  lemma {:induction false} CacheSplits(cached: Option<Details>, a: seq<bytes>, b: seq<bytes>)
    ensures Cache(cached, a + b) == Cache(Cache(cached, a), b)
  {
    if b == [] {
      assert a + b == a;
    } else {
      assert (a + b)[..|a + b| - 1] == a + b[..|b| - 1];
      CacheSplits(cached, a, b[..|b| - 1]);
    }
  }

  /** A chunk of the run can be merged on its own first and onto the cache after. */
  lemma {:induction false} ChunkMerges(cached: Option<Details>, chunk: seq<bytes>)
    ensures Cache(cached, chunk) == match Cache(None, chunk)
                                    case None => cached
                                    case Some(summary) => Some(summary.Merge(cached))
  {
    if chunk != [] {
      var front := chunk[..|chunk| - 1];
      ChunkMerges(cached, front);
      var d := DecodeDetails(chunk[|chunk| - 1]);
      if d.Some? && Cache(None, front).Some? && cached.Some? {
        MergeAssociative(cached.value, Cache(None, front).value, d.value);
      }
    }
  }

  /** Delivering a payload twice in a row leaves the cache as one delivery does. */
  lemma DuplicateDelivery(cached: Option<Details>, run: seq<bytes>, p: bytes, rest: seq<bytes>)
    ensures Cache(cached, run + [p, p] + rest) == Cache(cached, run + [p] + rest)
  {
    CacheSplits(cached, run + [p, p], rest);
    CacheSplits(cached, run + [p], rest);
    var c := Cache(cached, run);
    CacheSplits(cached, run, [p]);
    CacheSplits(cached, run + [p], [p]);
    assert run + [p, p] == run + [p] + [p];
    var d := DecodeDetails(p);
    if d.Some? {
      MergeIdempotent(c, d.value);
    }
  }

  // ---- the last valid write per field group ----

  /** The groups of fields that share a validity marker. */
  datatype Group = Source | Arc | Rate | Marking | Mode | Options

  predicate Carries(d: Details, g: Group) {
    match g
    case Source => d.SourceValid()
    case Arc => d.arc.Valid()
    case Rate => d.txRate.Some?
    case Marking => d.dscp.video.Some?
    case Mode => d.scaling.ModeValid()
    case Options => d.scaling.OptionsValid()
  }

  /** The last configuration that carries the group, or the first one received. */
  function LastWrite(fs: seq<Details>, g: Group): (d: Details)
    requires fs != []
    ensures exists i :: 0 <= i < |fs| && d == fs[i] && (Carries(d, g) || i == 0)
                        && forall k :: i < k < |fs| ==> !Carries(fs[k], g)
  {
    var n := |fs| - 1;
    if n == 0 || Carries(fs[n], g) then fs[n] else LastWrite(fs[..n], g)
  }

  /** None of the flag bits 2..6, which no one defines. */
  predicate Clean(d: Details) { d.scaling.flags & !DEFINED == 0 }

  function BitIf(b: bool, bit: bv8): bv8 { if b then bit else 0 }

  /** Each field group from the last configuration that carries it validly, else
      from the first one received. */
  function Declared(fs: seq<Details>): Details
    requires fs != []
  {
    var source, moded := LastWrite(fs, Source), LastWrite(fs, Mode);
    Details(source.video, source.audio, source.anc,
            LastWrite(fs, Arc).arc, LastWrite(fs, Rate).txRate, LastWrite(fs, Marking).dscp,
            Scaling(moded.scaling.mode, moded.scaling.refresh,
                    BitIf(Carries(moded, Mode), MODE_VALID)
                    | BitIf(Carries(LastWrite(fs, Options), Options), OPTIONS_VALID)
                    | BitIf(LastWrite(fs, Options).scaling.Auto(), AUTO_SCALING)))
  }

  lemma LastWriteStep(fs: seq<Details>, d: Details, g: Group)
    requires fs != []
    ensures LastWrite(fs + [d], g) == if Carries(d, g) then d else LastWrite(fs, g)
  {
    assert (fs + [d])[..|fs|] == fs;
  }

  lemma DeclaredStep(fs: seq<Details>, d: Details)
    requires fs != []
    requires Clean(d)
    ensures Declared(fs + [d]) == d.MergeOnto(Declared(fs))
  {
    LastWriteStep(fs, d, Source);
    LastWriteStep(fs, d, Arc);
    LastWriteStep(fs, d, Rate);
    LastWriteStep(fs, d, Marking);
    LastWriteStep(fs, d, Mode);
    LastWriteStep(fs, d, Options);
  }

  lemma DeclaredNext(fs: seq<Details>, d: Details)
    requires Clean(d)
    ensures d.Merge(if fs == [] then None else Some(Declared(fs))) == Declared(fs + [d])
    ensures Clean(Declared(fs + [d]))
  {
    if fs != [] {
      DeclaredStep(fs, d);
    }
  }

  lemma DecodedClean(p: bytes)
    ensures DecodeDetails(p).Some? ==> Clean(DecodeDetails(p).value)
  {
  }

  ghost predicate CachesDeclared(cached: Option<Details>, fs: seq<Details>) {
    cached == (if fs == [] then None else Some(Declared(fs)))
    && (fs != [] ==> Clean(Declared(fs)))
  }

  /** The incrementally merged cache is the declared one, over every history, and
      none of the undefined flag bits ever reaches it. */
  lemma {:induction false} CacheIsLastValidWrite(payloads: seq<bytes>)
    ensures CachesDeclared(Cache(None, payloads), Decoded(payloads))
  {
    if payloads != [] {
      var front, p := payloads[..|payloads| - 1], payloads[|payloads| - 1];
      CacheIsLastValidWrite(front);
      DecodedClean(p);
      var d := DecodeDetails(p);
      assert Cache(None, payloads) == Receive(Cache(None, front), p);
      if d.Some? {
        assert Decoded(payloads) == Decoded(front) + [d.value];
        DeclaredNext(Decoded(front), d.value);
      } else {
        assert Decoded(payloads) == Decoded(front);
      }
    }
  }
}
