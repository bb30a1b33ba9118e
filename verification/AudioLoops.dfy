/** Audio endpoint reports, as frames, that cannot be taken: following them down the
    child lists never returns. */
module AudioLoops {
  import opened Bytes
  import opened Frames
  import opened Opcodes
  import opened Control
  import opened AudioGraph
  import opened AudioTree

  datatype Entry = Entry(id: byte, kind: byte, value: byte)

  const ENTRY_SIZE: nat := 16

  function EntryBytes(e: Entry): bytes { [e.id, e.kind] + Zeros(6) + [e.value] + Zeros(7) }

  function Listing(entries: seq<Entry>): bytes {
    if entries == [] then [] else Listing(entries[..|entries| - 1]) + EntryBytes(entries[|entries| - 1])
  }

  function ReportPayload(entries: seq<Entry>): bytes { Zeros(28) + Wire16(|entries|) + Zeros(6) + Listing(entries) }

  /** A features report of these entries, as a device sends it. */
  function Report(sender: uid, entries: seq<Entry>): RawFrame {
    Sent(sender, OP_V2IP_AUDIO, ProtocolFor(OP_V2IP_AUDIO), ReportPayload(entries))
  }

  /** It is handed to the audio handler, as a features report of its sender. */
  lemma ReportArrives(sender: uid, entries: seq<Entry>)
    requires 0 < |entries| < 0x1_0000
    ensures var f := Report(sender, entries);
            && Parse(f.data) == Some(f) && f.Valid() && f.RemoteId() == sender
            && f.Opcode() == OP_V2IP_AUDIO && f.U16At(0) == Some(AUDIO_OP_FEATURES)
  {
    var p := ReportPayload(entries);
    FrameRoundTrip(sender, OP_V2IP_AUDIO, ProtocolFor(OP_V2IP_AUDIO), p);
    AccessorsReadPayload(sender, OP_V2IP_AUDIO, ProtocolFor(OP_V2IP_AUDIO), p, 0);
    assert p[0] == 0 && p[1] == 0;
  }

  lemma {:induction false} ListingAt(entries: seq<Entry>, x: nat)
    requires x < |entries|
    ensures |Listing(entries)| == ENTRY_SIZE * |entries|
    ensures Listing(entries)[ENTRY_SIZE * x..ENTRY_SIZE * (x + 1)] == EntryBytes(entries[x])
  {
    var n := |entries| - 1;
    var front := Listing(entries[..n]);
    if n > 0 {
      ListingAt(entries[..n], if x < n then x else 0);
    }
    assert |front| == ENTRY_SIZE * n;
    if x < n {
      assert Listing(entries)[ENTRY_SIZE * x..ENTRY_SIZE * (x + 1)] == front[ENTRY_SIZE * x..ENTRY_SIZE * (x + 1)];
    } else {
      assert Listing(entries)[ENTRY_SIZE * x..] == EntryBytes(entries[x]);
    }
  }

  lemma EntryInPayload(entries: seq<Entry>, x: nat)
    requires x < |entries| < 0x1_0000
    ensures var p, base := ReportPayload(entries), EntryBase(x);
            && base + ENTRY_SIZE <= |p| && p[base..base + ENTRY_SIZE] == EntryBytes(entries[x]) && U16(p, 28) == |entries|
  {
    var p, list := ReportPayload(entries), Listing(entries);
    ListingAt(entries, x);
    hide Listing;
    assert p[36..] == list;
    assert p[36 + ENTRY_SIZE * x..36 + ENTRY_SIZE * (x + 1)] == p[36..][ENTRY_SIZE * x..ENTRY_SIZE * (x + 1)];
    assert p[28..30] == Wire16(|entries|);
    U16Slice(p, 28, |entries|);
  }

  lemma EntryFields(entries: seq<Entry>, x: nat)
    requires x < |entries| < 0x1_0000
    ensures var p, base := ReportPayload(entries), EntryBase(x);
            && base + ENTRY_SIZE <= |p| && U16(p, 28) == |entries|
            && p[base] == entries[x].id && p[base + 1] == entries[x].kind && p[base + 8] == entries[x].value
            && U32(p, base + 8) == entries[x].value
  {
    hide ReportPayload;
    hide U16;
    var p, base := ReportPayload(entries), EntryBase(x);
    EntryInPayload(entries, x);
    var e := p[base..base + ENTRY_SIZE];
    assert p[base] == e[0] && p[base + 1] == e[1] && p[base + 8] == e[8] && p[base + 9] == e[9];
    assert p[base + 10] == e[10] && p[base + 11] == e[11];
  }

  lemma EntryReads(sender: uid, entries: seq<Entry>, x: nat)
    requires x < |entries| < 0x1_0000
    ensures var f := Report(sender, entries);
            && EntryCount(f) == |entries|
            && f.U8At(EntryBase(x)) == Some(entries[x].id) && f.U8At(EntryBase(x) + 1) == Some(entries[x].kind)
            && f.U8At(EntryBase(x) + 8) == Some(entries[x].value) && f.U32At(EntryBase(x) + 8) == Some(entries[x].value as int)
  {
    hide ReportPayload;
    hide U16;
    hide U32;
    hide RawFrame.U8At;
    hide RawFrame.U16At;
    hide RawFrame.U32At;
    var p, base := ReportPayload(entries), EntryBase(x);
    EntryFields(entries, x);
    AccessorsReadPayload(sender, OP_V2IP_AUDIO, ProtocolFor(OP_V2IP_AUDIO), p, 28);
    AccessorsReadPayload(sender, OP_V2IP_AUDIO, ProtocolFor(OP_V2IP_AUDIO), p, base);
    AccessorsReadPayload(sender, OP_V2IP_AUDIO, ProtocolFor(OP_V2IP_AUDIO), p, base + 1);
    AccessorsReadPayload(sender, OP_V2IP_AUDIO, ProtocolFor(OP_V2IP_AUDIO), p, base + 8);
  }

  // ---- a transmitter's report ----

  /** An output, an endpoint below it, and a second entry that puts that one below itself: an
      entry of kind 1 is an endpoint with its features, one of kind 5 names its parent. */
  const LOOPING: seq<Entry> :=
    [Entry(1, 1, 2), Entry(2, 1, 0), Entry(2, 5, 1), Entry(2, 5, 2)]

  lemma LoopingFeatures(sender: uid)
    ensures var f := Report(sender, LOOPING); TreeFeatures(f) == map[1 := FEATURE_OUTPUT, 2 := 0] && TreeOrder(f) == [1, 2]
  {
    hide RawFrame.U8At;
    hide RawFrame.U32At;
    hide Report;
    var f := Report(sender, LOOPING);
    EntryReads(sender, LOOPING, 0);
    EntryReads(sender, LOOPING, 1);
    EntryReads(sender, LOOPING, 2);
    EntryReads(sender, LOOPING, 3);
    assert FeaturesOf(f, 0) == map[];
    assert OrderOf(f, 0) == [];
    assert FeaturesOf(f, 1) == map[1 := FEATURE_OUTPUT];
    assert OrderOf(f, 1) == [1];
    assert FeaturesOf(f, 2) == map[1 := FEATURE_OUTPUT, 2 := 0];
    assert OrderOf(f, 2) == [1, 2];
    assert FeaturesOf(f, 3) == FeaturesOf(f, 2);
    assert OrderOf(f, 3) == OrderOf(f, 2);
    assert FeaturesOf(f, 4) == FeaturesOf(f, 3);
    assert OrderOf(f, 4) == OrderOf(f, 3);
  }

  lemma LoopingEdges(sender: uid)
    ensures TreeEdges(Report(sender, LOOPING)) == [Edge(2, 1), Edge(2, 2)]
  {
    hide RawFrame.U8At;
    hide RawFrame.U32At;
    hide Report;
    var f := Report(sender, LOOPING);
    LoopingFeatures(sender);
    hide FeaturesOf;
    var ids := Ids(f);
    EntryReads(sender, LOOPING, 0);
    EntryReads(sender, LOOPING, 1);
    EntryReads(sender, LOOPING, 2);
    EntryReads(sender, LOOPING, 3);
    assert EdgesOf(f, ids, 0) == [];
    assert EdgesOf(f, ids, 1) == [];
    assert EdgesOf(f, ids, 2) == [];
    assert EdgesOf(f, ids, 3) == [Edge(2, 1)];
    assert EdgesOf(f, ids, 4) == [Edge(2, 1), Edge(2, 2)];
  }

  /** No transmitter with an input can take this report. */
  lemma LoopingReport(sender: uid, input: BayId, output: Option<BayId>)
    ensures TreeRoot(Report(sender, LOOPING), FEATURE_OUTPUT) == Some(1)
    ensures !Walks(Report(sender, LOOPING), Transmitter(Some(input), output))
  {
    hide Report;
    hide FeaturesOf;
    hide OrderOf;
    hide EdgesOf;
    var f, es := Report(sender, LOOPING), [Edge(2, 1), Edge(2, 2)];
    LoopingFeatures(sender);
    LoopingEdges(sender);
    TwoParentsCanLoop();
    OrderListed(f, EntryCount(f));
    assert [1, 2][..1] == [1];
    assert FirstRoot(TreeFeatures(f), es, [1], FEATURE_OUTPUT) == Some(1) by { assert [1][..0] == []; }
  }

  // ---- an amplifier's report ----

  /** One endpoint, put below itself. */
  const SELF: seq<Entry> := [Entry(1, 1, 1), Entry(1, 5, 1)]

  lemma SelfEdges(sender: uid)
    ensures Ids(Report(sender, SELF)) == {1} && TreeEdges(Report(sender, SELF)) == [Edge(1, 1)]
  {
    hide RawFrame.U8At;
    hide RawFrame.U32At;
    hide Report;
    var f := Report(sender, SELF);
    EntryReads(sender, SELF, 0);
    EntryReads(sender, SELF, 1);
    assert FeaturesOf(f, 0) == map[];
    assert FeaturesOf(f, 1) == map[1 := FEATURE_INPUT];
    assert FeaturesOf(f, 2) == FeaturesOf(f, 1);
    var ids := Ids(f);
    assert EdgesOf(f, ids, 0) == [];
    assert EdgesOf(f, ids, 1) == [];
    assert EdgesOf(f, ids, 2) == [Edge(1, 1)];
  }

  /** Each endpoint has at most one parent entry, and still no amplifier with a bay for
      this one can take the report, while every transmitter can. */
  lemma SelfReport(sender: uid, own: map<nat, BayId>, input: Option<BayId>, output: Option<BayId>)
    requires 1 in own
    ensures AtMostOneParent(TreeEdges(Report(sender, SELF)))
    ensures !Walks(Report(sender, SELF), Amplifier(own)) && Walks(Report(sender, SELF), Transmitter(input, output))
  {
    hide Report;
    hide FeaturesOf;
    hide OrderOf;
    hide EdgesOf;
    hide Returns;
    hide Wired;
    SelfEdges(sender);
    SelfParentLoops(1);
    OneParentReport(Report(sender, SELF), input, output, 1);
  }
}
