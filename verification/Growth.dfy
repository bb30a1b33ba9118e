/** Payloads grow at their end over protocol versions: what a shorter payload already
    yields, a longer one with the same beginning and the same stamp yields as well. */
module Growth {
  import opened Bytes
  import opened Frames
  import opened V2ipConfig
  import opened Control
  import opened DeviceModel
  import opened Registry

  // ---- statistics ----

  const TX_SIZE: nat := 20
  const RX_SIZE: nat := 44
  const STATS_SIZE: nat := 128
  const DETAIL_SIZE: nat := 24
  const DETAIL_PROTOCOL: nat := 0x29

  datatype TxStats = TxStats(video: u32, audio: u32, anc: u32, streamDown: u32, overflow: u32)

  datatype RxStats = RxStats(videoTotal: u32, videoDropped: u32, videoSeqErrors: u32, wdtTimeout: u32,
                             audioTotal: u32, audioDropped: u32, audioSeqErrors: u32,
                             ancTotal: u32, ancDropped: u32, ancSeqErrors: u32, decoderState: byte)

  datatype DecoderDetail = DecoderDetail(reason: byte, blocking: bool, width: u16, height: u16, format: u16,
                                         updates: u16, flags: u32, blockedCount: u32)

  /** detail is absent while the decoder has never answered, reported or not. */
  datatype Stats = Stats(tx: TxStats, txPerMinute: TxStats, rx: RxStats, rxPerMinute: RxStats,
                         reported: bool, detail: Option<DecoderDetail>)

  function ParseTx(p: bytes, i: nat): TxStats
    requires i + TX_SIZE <= |p|
  {
    TxStats(U32(p, i), U32(p, i + 4), U32(p, i + 8), U32(p, i + 12), U32(p, i + 16))
  }

  function ParseRx(p: bytes, i: nat): RxStats
    requires i + RX_SIZE <= |p|
  {
    RxStats(U32(p, i), U32(p, i + 4), U32(p, i + 8), U32(p, i + 12), U32(p, i + 16), U32(p, i + 20), U32(p, i + 24),
            U32(p, i + 28), U32(p, i + 32), U32(p, i + 36), p[i + 40])
  }

  /** Byte 3 is reserved and the last four are padding. */
  function ParseDetail(p: bytes, i: nat): Option<DecoderDetail>
    requires i + DETAIL_SIZE <= |p|
  {
    if p[i] == 0 then None
    else Some(DecoderDetail(p[i + 1], p[i + 2] != 0, U16(p, i + 4), U16(p, i + 6), U16(p, i + 8), U16(p, i + 10),
                            U32(p, i + 12), U32(p, i + 16)))
  }

  /** The decoder block counts by the stamp and the length together. */
  predicate HasDetail(stamp: u16, length: nat) { stamp >= DETAIL_PROTOCOL && length >= STATS_SIZE + DETAIL_SIZE }

  /** A report; the request of the same opcode is far shorter and is none. */
  function DecodeStats(stamp: u16, p: bytes): Option<Stats> {
    if |p| < STATS_SIZE then None
    else
      var detailed := HasDetail(stamp, |p|);
      Some(Stats(ParseTx(p, 0), ParseTx(p, TX_SIZE), ParseRx(p, 2 * TX_SIZE), ParseRx(p, 2 * TX_SIZE + RX_SIZE),
                 detailed, if detailed then ParseDetail(p, STATS_SIZE) else None))
  }

  /** The counters as they are sent, in order. */
  function TxWire(t: TxStats): bytes {
    Wire32(t.video) + Wire32(t.audio) + Wire32(t.anc) + Wire32(t.streamDown) + Wire32(t.overflow)
  }

  function RxWire(r: RxStats): bytes {
    Wire32(r.videoTotal) + Wire32(r.videoDropped) + Wire32(r.videoSeqErrors) + Wire32(r.wdtTimeout)
    + Wire32(r.audioTotal) + Wire32(r.audioDropped) + Wire32(r.audioSeqErrors)
    + Wire32(r.ancTotal) + Wire32(r.ancDropped) + Wire32(r.ancSeqErrors) + [r.decoderState, 0, 0, 0]
  }

  function DetailWire(d: DecoderDetail): bytes {
    [1, d.reason, if d.blocking then 1 else 0, 0] + Wire16(d.width) + Wire16(d.height) + Wire16(d.format)
    + Wire16(d.updates) + Wire32(d.flags) + Wire32(d.blockedCount) + [0, 0, 0, 0]
  }

  lemma TxReads(p: bytes, i: nat, t: TxStats)
    requires i + 20 <= |p| && p[i..i + 20] == TxWire(t)
    ensures ParseTx(p, i) == t
  {
    hide U32;
    WordIn(p, i, TxWire(t), 0, t.video);
    WordIn(p, i, TxWire(t), 4, t.audio);
    WordIn(p, i, TxWire(t), 8, t.anc);
    WordIn(p, i, TxWire(t), 12, t.streamDown);
    WordIn(p, i, TxWire(t), 16, t.overflow);
  }

  /** A word of a block that lies at i. */
  lemma WordIn(p: bytes, i: nat, block: bytes, j: nat, v: u32)
    requires j + 4 <= |block| && i + |block| <= |p| && p[i..i + |block|] == block && block[j..j + 4] == Wire32(v)
    ensures U32(p, i + j) == v
  {
    Wire32Reads(v);
    forall k | 0 <= k < 4
      ensures p[i + j + k] == Wire32(v)[k]
    {
      assert p[i + j + k] == block[j + k] == block[j..j + 4][k];
    }
  }

  lemma HalfIn(p: bytes, i: nat, block: bytes, j: nat, v: u16)
    requires j + 2 <= |block| && i + |block| <= |p| && p[i..i + |block|] == block && block[j..j + 2] == Wire16(v)
    ensures U16(p, i + j) == v
  {
    assert p[i + j] == block[j] == block[j..j + 2][0] && p[i + j + 1] == block[j + 1] == block[j..j + 2][1];
  }

  lemma RxReads(p: bytes, i: nat, r: RxStats)
    requires i + 44 <= |p| && p[i..i + 44] == RxWire(r)
    ensures ParseRx(p, i) == r
  {
    hide U32;
    RxHead(r);
    RxTail(r);
    hide RxWire;
    WordIn(p, i, RxWire(r), 0, r.videoTotal);
    WordIn(p, i, RxWire(r), 4, r.videoDropped);
    WordIn(p, i, RxWire(r), 8, r.videoSeqErrors);
    WordIn(p, i, RxWire(r), 12, r.wdtTimeout);
    WordIn(p, i, RxWire(r), 16, r.audioTotal);
    WordIn(p, i, RxWire(r), 20, r.audioDropped);
    WordIn(p, i, RxWire(r), 24, r.audioSeqErrors);
    WordIn(p, i, RxWire(r), 28, r.ancTotal);
    WordIn(p, i, RxWire(r), 32, r.ancDropped);
    WordIn(p, i, RxWire(r), 36, r.ancSeqErrors);
    assert p[i + 40] == p[i..i + 44][40];
  }

  lemma RxHead(r: RxStats)
    ensures var w := RxWire(r);
            && |w| == 44 && w[0..4] == Wire32(r.videoTotal) && w[4..8] == Wire32(r.videoDropped)
            && w[8..12] == Wire32(r.videoSeqErrors) && w[12..16] == Wire32(r.wdtTimeout) && w[16..20] == Wire32(r.audioTotal)
  {
  }

  lemma RxTail(r: RxStats)
    ensures var w := RxWire(r);
            && |w| == 44 && w[20..24] == Wire32(r.audioDropped) && w[24..28] == Wire32(r.audioSeqErrors)
            && w[28..32] == Wire32(r.ancTotal) && w[32..36] == Wire32(r.ancDropped) && w[36..40] == Wire32(r.ancSeqErrors)
            && w[40] == r.decoderState
  {
  }

  lemma DetailReads(p: bytes, i: nat, d: DecoderDetail)
    requires i + 24 <= |p| && p[i..i + 24] == DetailWire(d)
    ensures ParseDetail(p, i) == Some(d)
  {
    hide U16;
    hide U32;
    var w := DetailWire(d);
    assert w[4..6] == Wire16(d.width) && w[6..8] == Wire16(d.height) && w[8..10] == Wire16(d.format);
    assert w[10..12] == Wire16(d.updates) && w[12..16] == Wire32(d.flags) && w[16..20] == Wire32(d.blockedCount);
    HalfIn(p, i, w, 4, d.width);
    HalfIn(p, i, w, 6, d.height);
    HalfIn(p, i, w, 8, d.format);
    HalfIn(p, i, w, 10, d.updates);
    WordIn(p, i, w, 12, d.flags);
    WordIn(p, i, w, 16, d.blockedCount);
    assert p[i] == w[0] && p[i + 1] == w[1] && p[i + 2] == w[2];
  }

  function StatsWire(tx: TxStats, txRate: TxStats, rx: RxStats, rxRate: RxStats, detail: Option<DecoderDetail>): bytes {
    TxWire(tx) + TxWire(txRate) + RxWire(rx) + RxWire(rxRate) + if detail.None? then [] else DetailWire(detail.value)
  }

  lemma StatsLayout(tx: TxStats, txRate: TxStats, rx: RxStats, rxRate: RxStats, detail: Option<DecoderDetail>)
    ensures var p := StatsWire(tx, txRate, rx, rxRate, detail);
            && |p| == (if detail.None? then 128 else 152)
            && p[0..20] == TxWire(tx) && p[20..40] == TxWire(txRate) && p[40..84] == RxWire(rx) && p[84..128] == RxWire(rxRate)
            && (detail.Some? ==> p[128..152] == DetailWire(detail.value))
  {
    assert |TxWire(tx)| == |TxWire(txRate)| == 20;
    RxHead(rx);
    RxHead(rxRate);
    hide TxWire;
    hide RxWire;
    assert detail.Some? ==> |DetailWire(detail.value)| == 24;
    hide DetailWire;
  }

  /** Every counter of a report is read back in its own place, the decoder's reading behind
      a stamp of at least 0x29 alone. */
  lemma StatsRoundTrip(stamp: u16, tx: TxStats, txRate: TxStats, rx: RxStats, rxRate: RxStats, detail: Option<DecoderDetail>)
    ensures DecodeStats(stamp, StatsWire(tx, txRate, rx, rxRate, detail))
         == Some(Stats(tx, txRate, rx, rxRate, stamp >= 0x29 && detail.Some?, if stamp >= 0x29 then detail else None))
  {
    hide StatsWire;
    hide TxWire;
    hide RxWire;
    hide DetailWire;
    hide ParseTx;
    hide ParseRx;
    hide ParseDetail;
    var p := StatsWire(tx, txRate, rx, rxRate, detail);
    StatsLayout(tx, txRate, rx, rxRate, detail);
    TxReads(p, 0, tx);
    TxReads(p, 20, txRate);
    RxReads(p, 40, rx);
    RxReads(p, 84, rxRate);
    if detail.Some? {
      DetailReads(p, 128, detail.value);
    }
  }

  // ---- video wall ----

  datatype VideoWall = VideoWall(target: uid, posX: u16, posY: u16, width: u16, height: u16, rasterW: u16, rasterH: u16, op: byte)

  function DecodeVideoWall(p: bytes): Option<VideoWall> {
    if |p| < 32 then None
    else Some(VideoWall(p[..16], U16(p, 16), U16(p, 18), U16(p, 20), U16(p, 22), U16(p, 24), U16(p, 26), p[28]))
  }

  function VideoWallWire(w: VideoWall): bytes {
    w.target + Wire16(w.posX) + Wire16(w.posY) + Wire16(w.width) + Wire16(w.height) + Wire16(w.rasterW) + Wire16(w.rasterH)
    + [w.op, 0, 0, 0]
  }

  lemma HalfAt(p: bytes, i: nat, v: u16)
    requires i + 2 <= |p| && p[i..i + 2] == Wire16(v)
    ensures U16(p, i) == v
  {
    U16Slice(p, i, v);
  }

  lemma VideoWallLayout(w: VideoWall)
    ensures var p := VideoWallWire(w);
            && |p| == 32 && p[..16] == w.target && p[16..18] == Wire16(w.posX) && p[18..20] == Wire16(w.posY)
            && p[20..22] == Wire16(w.width) && p[22..24] == Wire16(w.height)
            && p[24..26] == Wire16(w.rasterW) && p[26..28] == Wire16(w.rasterH) && p[28] == w.op
  {
  }

  lemma VideoWallRoundTrip(w: VideoWall)
    ensures DecodeVideoWall(VideoWallWire(w)) == Some(w)
  {
    hide VideoWallWire;
    hide U16;
    var p := VideoWallWire(w);
    VideoWallLayout(w);
    HalfAt(p, 16, w.posX);
    HalfAt(p, 18, w.posY);
    HalfAt(p, 20, w.width);
    HalfAt(p, 22, w.height);
    HalfAt(p, 24, w.rasterW);
    HalfAt(p, 26, w.rasterH);
  }

  // ---- growth ----

  lemma WordsStay(p: bytes, x: bytes, i: nat)
    ensures i + 2 <= |p| ==> U16(p + x, i) == U16(p, i)
    ensures i + 4 <= |p| ==> U32(p + x, i) == U32(p, i)
    ensures i + 6 <= |p| ==> ParseStream(p + x, i) == ParseStream(p, i)
  {
    if i + 6 <= |p| {
      assert (p + x)[i..i + 4] == p[i..i + 4];
    }
  }

  lemma TxStays(p: bytes, x: bytes, i: nat)
    requires i + TX_SIZE <= |p|
    ensures ParseTx(p + x, i) == ParseTx(p, i)
  {
  }

  lemma RxStays(p: bytes, x: bytes, i: nat)
    requires i + RX_SIZE <= |p|
    ensures ParseRx(p + x, i) == ParseRx(p, i)
  {
  }

  lemma DetailStays(p: bytes, x: bytes, i: nat)
    requires i + DETAIL_SIZE <= |p|
    ensures ParseDetail(p + x, i) == ParseDetail(p, i)
  {
  }

  /** Appending bytes to an accepted statistics report changes no counter; the decoder
      block it carried stays as it was, and one newly appears exactly when the report
      was too short for it and no longer is, behind a stamp that has it. */
  lemma StatsGrow(stamp: u16, p: bytes, x: bytes)
    requires DecodeStats(stamp, p).Some?
    ensures DecodeStats(stamp, p + x).Some?
    ensures var a, b := DecodeStats(stamp, p).value, DecodeStats(stamp, p + x).value;
            && b == a.(reported := b.reported, detail := b.detail)
            && (a.reported ==> b == a)
            && (b.reported && !a.reported <==> stamp >= DETAIL_PROTOCOL && |p| < STATS_SIZE + DETAIL_SIZE <= |p + x|)
  {
    TxStays(p, x, 0);
    TxStays(p, x, TX_SIZE);
    RxStays(p, x, 2 * TX_SIZE);
    RxStays(p, x, 2 * TX_SIZE + RX_SIZE);
    if |p| >= STATS_SIZE + DETAIL_SIZE {
      DetailStays(p, x, STATS_SIZE);
    }
  }

  lemma AmpZoneGrows(p: bytes, x: bytes)
    requires |p| >= AMP_ZONE_SIZE
    ensures ParseAmpZone(p + x) == ParseAmpZone(p) && U16(p + x, 16) == U16(p, 16) && (p + x)[..16] == p[..16]
  {
    WordsStay(p, x, 24);
    WordsStay(p, x, 28);
    WordsStay(p, x, 40);
    assert (p + x)[44..49] == p[44..49] && (p + x)[49..54] == p[49..54];
  }

  lemma WindowsGrow(p: bytes, x: bytes)
    ensures DecodeTiling(p).Some? ==> DecodeTiling(p + x) == DecodeTiling(p)
    ensures DecodeVideoWall(p).Some? ==> DecodeVideoWall(p + x) == DecodeVideoWall(p)
  {
    if |p| >= 24 {
      assert (p + x)[..16] == p[..16];
    }
  }

  /** The filter list keeps what it had and grows by whole uids, exactly as many as the
      payload now has room for. */
  lemma FilterGrows(p: bytes, x: bytes)
    requires DecodeFilter(p).Some?
    ensures DecodeFilter(p + x).Some?
    ensures DecodeFilter(p).value <= DecodeFilter(p + x).value
    ensures |DecodeFilter(p + x).value| == (|p + x| - 16) / 16
  {
    assert (p + x)[16..] == p[16..] + x;
    RecordsPrefix(p[16..], x);
    RecordCount((p + x)[16..], 16);
  }

  lemma {:induction false} RecordsPrefix(p: bytes, x: bytes)
    ensures Records(p, 16) <= Records(p + x, 16)
  {
    if |p| >= 16 {
      RecordsPrefix(p[16..], x);
      assert (p + x)[..16] == p[..16] && (p + x)[16..] == p[16..] + x;
    }
  }

  lemma DetailsGrow(p: bytes, x: bytes)
    requires |p| >= 61
    ensures DecodeDetails(p + x) == DecodeDetails(p)
  {
    WordsStay(p, x, 16);
    WordsStay(p, x, 24);
    WordsStay(p, x, 32);
    WordsStay(p, x, 48);
    WordsStay(p, x, 56);
    WordsStay(p, x, 58);
  }

  lemma TilingBlockGrows(d: Device, p: bytes, x: bytes)
    requires |p| >= 88
    ensures TakeTiling(d, p + x) == TakeTiling(d, p)
  {
    assert (p + x)[64..80] == p[64..80];
    WordsStay(p, x, 80);
    WordsStay(p, x, 82);
    WordsStay(p, x, 84);
    WordsStay(p, x, 86);
  }

  lemma SinkBlockGrows(d: Device, p: bytes, x: bytes)
    requires |p| >= 120
    ensures TakeSink(d, p + x) == TakeSink(d, p)
  {
    WordsStay(p, x, 88);
    WordsStay(p, x, 96);
    WordsStay(p, x, 104);
    WordsStay(p, x, 112);
  }

  /** What an accepted device configuration leaves behind it leaves when it is longer:
      the merged details always, the window and the sink as soon as their blocks were
      already whole. */
  lemma DeviceConfigGrows(d: Device, p: bytes, x: bytes)
    requires |p| >= 61
    ensures TakeDeviceConfig(d, p + x).details == TakeDeviceConfig(d, p).details
    ensures |p| >= 88 ==> TakeDeviceConfig(d, p + x).tiling == TakeDeviceConfig(d, p).tiling
                          && TakeDeviceConfig(d, p + x).notices == TakeDeviceConfig(d, p).notices
    ensures |p| >= 120 ==> TakeDeviceConfig(d, p + x) == TakeDeviceConfig(d, p)
  {
    hide DecodeDetails;
    hide TilingAt;
    DetailsGrow(p, x);
    var e := d.TakeDetails(p);
    assert d.TakeDetails(p + x) == e;
    if |p| >= 88 {
      TilingBlockGrows(e, p, x);
    }
    if |p| >= 120 {
      SinkBlockGrows(TakeTiling(e, p), p, x);
    }
  }
}
