/** The network-port status report. Two layouts share protocol stamp 0x22, have the
    same length, and are told apart only by where their zero bytes fall. */
module Network {
  import opened Bytes

  datatype LinkErrors = LinkErrors(mask: byte)

  datatype Cable = Cable(polarity: bool, pair: byte, skew: u32, length: u32)

  /** Absent values are none: a port without uplink has no address at all. */
  datatype PortStatus = PortStatus(port: nat, name: bytes, speed: nat, fullDuplex: bool,
                                   mac: Option<bytes>, ip: Option<bytes>, querier: Option<bytes>,
                                   errors: Option<LinkErrors>, vct: Option<seq<bool>>, cables: Option<seq<Cable>>)

  datatype Layout = Early | Late

  function NameOffset(l: Layout): nat { if l.Late? then 4 else 2 }
  function MacOffset(l: Layout): nat { if l.Late? then 21 else 19 }

  function PortOf(l: Layout, d: bytes): nat
    requires |d| >= 39
  {
    if l.Late? then U16(d, 0) else d[0]
  }

  /** The features byte whose low bits carry the flags; the late field is a u16. */
  function FeaturesOf(l: Layout, d: bytes): byte
    requires |d| >= 39
  {
    if l.Late? then d[2] else d[1]
  }

  function VctStatus(v: byte): seq<bool> { [Has(v, 1), Has(v, 2), Has(v, 4), Has(v, 8)] }

  function CableAt(d: bytes, o: nat): Cable
    requires o + 12 <= |d|
  {
    Cable(d[o] == 1, d[o + 1], U32(d, o + 4), U32(d, o + 8))
  }

  /** The cable pairs at the given offsets, up to the first that does not fit. */
  function CablePairs(d: bytes, offsets: seq<nat>): seq<Cable> {
    if offsets == [] || offsets[0] + 12 > |d| then []
    else [CableAt(d, offsets[0])] + CablePairs(d, offsets[1..])
  }

  method ParseCablePairs(d: bytes, offsets: seq<nat>) returns (rv: seq<Cable>)
    ensures rv == CablePairs(d, offsets)
  {
    rv := [];
    for i := 0 to |offsets|
      invariant rv + CablePairs(d, offsets[i..]) == CablePairs(d, offsets)
    {
      if offsets[i] + 12 > |d| {
        break;
      }
      rv := rv + [CableAt(d, offsets[i])];
      assert offsets[i..][1..] == offsets[i + 1..];
    }
  }

  /** What a report says when it is read in the given layout. */
  function Read(l: Layout, d: bytes): PortStatus
    requires |d| >= 39
  {
    var features := FeaturesOf(l, d);
    var uplink := Has(features, 0x40);
    PortStatus(PortOf(l, d), CStr(d[NameOffset(l)..NameOffset(l) + 17]), d[38] % 8, Has(d[38], 8),
               if uplink then Some(d[MacOffset(l)..MacOffset(l) + 6]) else None,
               if uplink then Some(d[28..32]) else None,
               if uplink && Has(features, 8) then Some(d[32..36]) else None,
               if Has(features, 1) then Some(LinkErrors(d[36])) else None,
               if Has(features, 1) then Some(VctStatus(d[37])) else None,
               if Has(features, 2) then Some(CablePairs(d, [40, 52, 64, 76])) else None)
  }

  // ---- a report laid out on the wire ----

  /** The parts of a report that are there in either layout, cut where the layouts part. */
  datatype Parts = Parts(name: bytes, mac: bytes, ip: bytes, querier: bytes, errors: byte, vct: byte, link: byte,
                         cables: bytes)

  /** A report as a late sender lays it out, its port and features two bytes wide. */
  function LateReport(port: u16, features: u16, r: Parts): bytes {
    Wire16(port) + Wire16(features) + Fixed(r.name, 17) + r.mac + [0] + r.ip + r.querier + [r.errors, r.vct, r.link, 0]
    + r.cables
  }

  /** As an early one does, with one byte each and two of padding behind the hardware address. */
  function EarlyReport(port: byte, features: byte, r: Parts): bytes {
    [port, features] + Fixed(r.name, 17) + r.mac + [0, 0, 0] + r.ip + r.querier + [r.errors, r.vct, r.link, 0] + r.cables
  }

  /** What such a report says: an uplink has its addresses, a multicast querier where bit 3 says
      so, bit 0 brings the error counters and bit 1 the cables. */
  function Said(port: nat, features: byte, r: Parts, pairs: seq<Cable>): PortStatus {
    var uplink := features / 64 % 2 == 1;
    PortStatus(port, CStr(Fixed(r.name, 17)), r.link % 8, r.link / 8 % 2 == 1,
               if uplink then Some(r.mac) else None,
               if uplink then Some(r.ip) else None,
               if uplink && features / 8 % 2 == 1 then Some(r.querier) else None,
               if features % 2 == 1 then Some(LinkErrors(r.errors)) else None,
               if features % 2 == 1
               then Some([r.vct % 2 == 1, r.vct / 2 % 2 == 1, r.vct / 4 % 2 == 1, r.vct / 8 % 2 == 1]) else None,
               if features / 2 % 2 == 1 then Some(pairs) else None)
  }

  predicate Sized(r: Parts) { |r.mac| == 6 && |r.ip| == 4 && |r.querier| == 4 }

  lemma FixedSize(name: bytes)
    ensures |Fixed(name, 17)| == 17
  {
  }

  lemma LateLayout(port: u16, features: u16, r: Parts)
    requires Sized(r)
    ensures var d := LateReport(port, features, r);
            && |d| == 40 + |r.cables| && d[0..2] == Wire16(port) && d[2..4] == Wire16(features)
            && d[4..21] == Fixed(r.name, 17) && d[21..27] == r.mac && d[28..32] == r.ip && d[32..36] == r.querier
            && d[36] == r.errors && d[37] == r.vct && d[38] == r.link
  {
    FixedSize(r.name);
    hide Fixed;
  }

  lemma EarlyLayout(port: byte, features: byte, r: Parts)
    requires Sized(r)
    ensures var d := EarlyReport(port, features, r);
            && |d| == 40 + |r.cables| && d[0] == port && d[1] == features
            && d[2..19] == Fixed(r.name, 17) && d[19..25] == r.mac && d[28..32] == r.ip && d[32..36] == r.querier
            && d[36] == r.errors && d[37] == r.vct && d[38] == r.link
  {
    FixedSize(r.name);
    hide Fixed;
  }

  /** Read in its own layout a report says what was laid out in it. */
  lemma ReadsAsLaidOut(port: u16, features: u16, r: Parts)
    requires Sized(r)
    ensures var d := LateReport(port, features, r);
            |d| >= 39 && Read(Late, d) == Said(port, features % 256, r, CablePairs(d, [40, 52, 64, 76]))
    ensures port < 256 && features < 256 ==>
              var d := EarlyReport(port, features, r);
              |d| >= 39 && Read(Early, d) == Said(port, features, r, CablePairs(d, [40, 52, 64, 76]))
  {
    hide LateReport;
    hide EarlyReport;
    hide CStr;
    hide Fixed;
    hide CablePairs;
    LateLayout(port, features, r);
    var d := LateReport(port, features, r);
    U16From(d, port);
    assert d[2] == d[2..4][0];
    if port < 256 && features < 256 {
      EarlyLayout(port, features, r);
    }
  }

  function CableWire(c: Cable): bytes { [if c.polarity then 1 else 0, c.pair, 0, 0] + Wire32(c.skew) + Wire32(c.length) }

  lemma CableReads(d: bytes, o: nat, c: Cable)
    requires o + 12 <= |d| && d[o..o + 12] == CableWire(c)
    ensures CableAt(d, o) == c
  {
    Wire32Reads(c.skew);
    Wire32Reads(c.length);
    var w := CableWire(c);
    assert w[4..8] == Wire32(c.skew) && w[8..12] == Wire32(c.length);
    forall k | 0 <= k < 12
      ensures d[o + k] == w[k]
    {
      assert d[o..o + 12][k] == w[k];
    }
    forall k | 0 <= k < 4
      ensures d[o + 4 + k] == Wire32(c.skew)[k] && d[o + 8 + k] == Wire32(c.length)[k]
    {
      assert d[o + (4 + k)] == w[4 + k] == w[4..8][k] && d[o + (8 + k)] == w[8 + k] == w[8..12][k];
    }
  }

  /** Four cables behind the fixed part are read back. */
  lemma CablesReadBack(d: bytes, cs: (Cable, Cable, Cable, Cable), rest: bytes)
    requires |d| == 40
    ensures var p := d + CableWire(cs.0) + CableWire(cs.1) + CableWire(cs.2) + CableWire(cs.3) + rest;
            CablePairs(p, [40, 52, 64, 76]) == [cs.0, cs.1, cs.2, cs.3]
  {
    hide CableAt;
    var a, b, c, e := CableWire(cs.0), CableWire(cs.1), CableWire(cs.2), CableWire(cs.3);
    var p := d + a + b + c + e + rest;
    assert p[40..52] == a && p[52..64] == b && p[64..76] == c && p[76..88] == e;
    CableReads(p, 40, cs.0);
    CableReads(p, 52, cs.1);
    CableReads(p, 64, cs.2);
    CableReads(p, 76, cs.3);
    hide CableWire;
    assert [76][1..] == [] && [64, 76][1..] == [76] && [52, 64, 76][1..] == [64, 76] && [40, 52, 64, 76][1..] == [52, 64, 76];
    assert CablePairs(p, [76]) == [cs.3];
    assert CablePairs(p, [64, 76]) == [cs.2, cs.3];
    assert CablePairs(p, [52, 64, 76]) == [cs.1, cs.2, cs.3];
  }

  lemma U16From(d: bytes, v: u16)
    requires |d| >= 2 && d[0..2] == Wire16(v)
    ensures U16(d, 0) == v
  {
    assert d[0] == d[0..2][0] && d[1] == d[0..2][1];
  }

  // ---- which layout ----

  predicate LooksLate(d: bytes) { |d| < 4 || (d[1] == 0 && d[3] == 0) }

  /** parseNetworkStatus: the layout is chosen, then the fields filled in step by step. */
  method ParseNetworkStatus(d: bytes) returns (r: Option<PortStatus>)
    ensures r == if |d| < 39 then None else Some(Read(if LooksLate(d) then Late else Early, d))
  {
    if |d| < 39 {
      return None;
    }
    var late := LooksLate(d);
    var features := d[1];
    if late {
      features := d[2];
    }
    var nameOff, macOff, port: nat := 4, 21, U16(d, 0);
    if !late {
      nameOff, macOff, port := 2, 19, d[0];
    }
    var s := PortStatus(port, CStr(d[nameOff..nameOff + 17]), d[38] % 8, Has(d[38], 8),
                        None, None, None, None, None, None);
    if Has(features, 0x40) && |d| >= 32 {
      s := s.(mac := Some(d[macOff..macOff + 6]), ip := Some(d[28..32]));
      if Has(features, 8) && |d| >= 36 {
        s := s.(querier := Some(d[32..36]));
      }
    }
    if Has(features, 1) && |d| >= 38 {
      s := s.(errors := Some(LinkErrors(d[36])), vct := Some(VctStatus(d[37])));
    }
    if Has(features, 2) {
      var cables := ParseCablePairs(d, [40, 52, 64, 76]);
      s := s.(cables := Some(cables));
    }
    r := Some(s);
  }

  function Decode(d: bytes): PortStatus
    requires |d| >= 39
  {
    Read(if LooksLate(d) then Late else Early, d)
  }

  /** A late port number above 255 never survives. */
  lemma LateWidePortIsLost(d: bytes)
    requires |d| >= 39
    ensures U16(d, 0) >= 256 ==> Decode(d).port != Read(Late, d).port
  {
  }

  predicate SameCharacter(a: byte, b: byte) { a == b || (a > 0x7F && b > 0x7F) }

  /** A record in the early layout is taken for a late one when its features byte
      and its second name character are both zero. It then decodes correctly all the
      same only if nothing tells: its name is empty and the byte two further on ends
      the misplaced name as well, or its one-character name is repeated there and
      carries none of the three flag bits that make a field appear. */
  predicate EarlySurvives(d: bytes)
    requires |d| >= 39
  {
    || d[1] != 0
    || d[3] != 0
    || (d[2] == 0 && d[4] == 0)
    || (d[2] != 0 && SameCharacter(d[2], d[4]) && d[5] == 0
        && !Has(d[2], 0x40) && !Has(d[2], 1) && !Has(d[2], 2))
  }

  lemma CStrShort(b: bytes)
    requires |b| >= 2
    ensures b[0] == 0 ==> CStr(b) == []
    ensures b[0] != 0 && b[1] == 0 ==> CStr(b) == Printable(b[0])
  {
  }

  lemma CStrIsOneCharacter(b: bytes, c: byte)
    requires |b| >= 2 && c != 0
    ensures CStr(b) == Printable(c) <==> SameCharacter(c, b[0]) && b[1] == 0
  {
    if b[0] != 0 {
      var rest := CStr(b[1..]);
      assert CStr(b) == Printable(b[0]) + rest;
      if b[1] != 0 {
        assert rest == Printable(b[1]) + CStr(b[1..][1..]);
        assert |CStr(b)| > |Printable(b[0])|;
      } else {
        assert rest == [];
        if CStr(b) == Printable(c) {
          assert CStr(b)[0] == Printable(c)[0];
          assert Printable(b[0]) == Printable(c);
        }
      }
    }
  }

  /** A record in the late layout keeps its values when port and features are below 256.
      With wider features it is taken for an early one, and nothing tells only if no low
      flag bit makes a field appear and both readings of the name come to the same text:
      both empty, or both unterminated and repeating with period two. */
  predicate LateSurvives(d: bytes)
    requires |d| >= 39
  {
    U16(d, 0) < 256
    && (|| U16(d, 2) < 256
        || (d[2] == 0 && d[4] == 0)
        || (!Has(d[2], 0x40) && !Has(d[2], 1) && !Has(d[2], 2) && Repeats(d[2..21])))
  }

  /** No NUL before the last two bytes, and each byte two further on as well. */
  predicate Repeats(b: bytes) { forall k :: 0 <= k < |b| - 2 ==> RepeatsAt(b, k) }

  predicate RepeatsAt(b: bytes, k: nat)
    requires k + 2 < |b|
  {
    b[k] != 0 && SameCharacter(b[k], b[k + 2])
  }

  lemma RepeatsOn(b: bytes)
    requires |b| > 2
    ensures Repeats(b) <==> RepeatsAt(b, 0) && Repeats(b[1..])
  {
    forall k | 0 < k < |b| - 2
      ensures RepeatsAt(b, k) == RepeatsAt(b[1..], k - 1)
    {
    }
    if RepeatsAt(b, 0) && Repeats(b[1..]) {
      forall k | 0 <= k < |b| - 2
        ensures RepeatsAt(b, k)
      {
        assert k > 0 ==> RepeatsAt(b[1..], k - 1);
      }
    }
    if Repeats(b) {
      forall k | 0 <= k < |b[1..]| - 2
        ensures RepeatsAt(b[1..], k)
      {
        assert RepeatsAt(b, k + 1);
      }
    }
  }

  lemma RepeatsWithoutNul(b: bytes)
    requires |b| >= 4 && 0 in b
    ensures !Repeats(b)
  {
    var k :| 0 <= k < |b| && b[k] == 0;
    var i := if k < 2 then k else k - 2;
    assert !RepeatsAt(b, i);
  }

  lemma CStrStep(b: bytes)
    requires b != []
    ensures CStr(b) == if b[0] == 0 then [] else Printable(b[0]) + CStr(b[1..])
  {
  }

  /** Equal texts start alike and go on alike. */
  lemma EqualTexts(a: bytes, b: bytes)
    requires a != [] && b != [] && a[0] != 0
    ensures CStr(a) == CStr(b) <==> b[0] != 0 && SameCharacter(a[0], b[0]) && CStr(a[1..]) == CStr(b[1..])
  {
    var p, x, y := Printable(a[0]), CStr(a[1..]), CStr(b[1..]);
    CStrStep(a);
    CStrStep(b);
    if CStr(a) == CStr(b) && b[0] != 0 {
      assert (p + x)[0] == p[0] && (Printable(b[0]) + y)[0] == Printable(b[0])[0];
      assert (p + x)[|p|..] == x && (p + y)[|p|..] == y;
    }
  }

  /** A text that does not end at once equals itself read from two bytes further on
      exactly when it repeats to the end. */
  lemma {:induction false} ShiftedText(b: bytes)
    requires |b| >= 2
    requires |b| > 2 ==> b[0] != 0 && b[1] != 0
    ensures CStr(b[..|b| - 2]) == CStr(b[2..]) <==> Repeats(b)
  {
    if |b| > 2 {
      var a, c := b[..|b| - 2], b[2..];
      EqualTexts(a, c);
      assert a[1..] == b[1..][..|b| - 3] && c[1..] == b[1..][2..];
      if b[2] != 0 {
        ShiftedText(b[1..]);
      } else {
        assert !RepeatsAt(b, 0);
      }
      RepeatsOn(b);
    }
  }

  /** Read as an early one a report without features has no optional field. */
  lemma EarlyOrLate(d: bytes)
    requires |d| >= 39 && d[1] == 0
    ensures Read(Early, d) == Read(Late, d) <==>
              && !Has(d[2], 0x40) && !Has(d[2], 1) && !Has(d[2], 2)
              && CStr(d[2..19]) == CStr(d[4..21])
  {
    hide CStr;
    hide CablePairs;
    hide VctStatus;
  }

  /** A late report is decoded with all its own values exactly in these cases. */
  lemma LateIsRecognised(d: bytes)
    requires |d| >= 39
    ensures Decode(d) == Read(Late, d) <==> LateSurvives(d)
  {
    if d[1] != 0 {
      LateWidePortIsLost(d);
    } else if d[3] != 0 {
      EarlyOrLate(d);
      LateNames(d);
    }
  }

  /** Both readings of a name whose second character in the early one is not a NUL. */
  lemma LateNames(d: bytes)
    requires |d| >= 39 && d[1] == 0 && d[3] != 0
    ensures CStr(d[2..19]) == CStr(d[4..21]) <==> if d[2] == 0 then d[4] == 0 else Repeats(d[2..21])
    ensures d[2] == 0 ==> !Repeats(d[2..21])
  {
    hide CStr;
    hide Repeats;
    var early, late, both := d[2..19], d[4..21], d[2..21];
    assert early == both[..17] && late == both[2..] && both[0] == d[2] && both[1] == d[3];
    CStrStep(early);
    CStrStep(late);
    if d[2] == 0 {
      PrintableIsText(d[4]);
      RepeatsWithoutNul(both);
    } else {
      ShiftedText(both);
    }
  }

  lemma PrintableIsText(c: byte)
    ensures Printable(c) != []
  {
  }

  /** So a late report whose name is terminated keeps its values exactly when its port and
      features are below 256, or its features' low byte is zero and its name empty. */
  lemma LateTerminatedName(d: bytes)
    requires |d| >= 39 && 0 in d[4..21]
    ensures Decode(d) == Read(Late, d) <==> U16(d, 0) < 256 && (U16(d, 2) < 256 || (d[2] == 0 && d[4] == 0))
  {
    LateIsRecognised(d);
    var k :| 0 <= k < 17 && d[4..21][k] == 0;
    assert d[2..21][k + 2] == 0;
    RepeatsWithoutNul(d[2..21]);
  }

  /** The early layout is decoded with all its own values exactly in these cases. */
  lemma EarlyIsRecognised(d: bytes)
    requires |d| >= 39
    ensures Decode(d) == Read(Early, d) <==> EarlySurvives(d)
  {
    if d[1] == 0 && d[3] == 0 {
      var own, seen := d[2..19], d[4..21];
      assert seen[0] == d[4] && seen[1] == d[5] && own[0] == d[2] && own[1] == d[3];
      CStrShort(own);
      CStrShort(seen);
      if d[2] == 0 {
        if d[4] != 0 {
          assert CStr(seen) == Printable(d[4]) + CStr(seen[1..]);
        }
      } else {
        CStrIsOneCharacter(seen, d[2]);
      }
    }
  }

  /** So a record whose name field is NUL-padded survives exactly when its features
      byte or second name character is non-zero, or its name is empty. */
  lemma EarlyPaddedName(d: bytes)
    requires |d| >= 39
    requires forall i, j :: 2 <= i < j < 19 && d[i] == 0 ==> d[j] == 0
    ensures Decode(d) == Read(Early, d) <==> d[1] != 0 || d[3] != 0 || d[2] == 0
  {
    EarlyIsRecognised(d);
    assert d[3] == 0 ==> d[4] == 0;
    assert d[2] == 0 ==> d[4] == 0;
  }

  /** A one-character name on a port without features, as a concrete report. */
  lemma EarlyOneCharacterNameIsLost()
    ensures var d: bytes := [3, 0, 'A' as byte, 0] + Zeros(35);
            Decode(d) != Read(Early, d) && Decode(d).name == [] && Read(Early, d).name == ['A' as byte]
  {
    var d: bytes := [3, 0, 'A' as byte, 0] + Zeros(35);
    CStrShort(d[2..19]);
    CStrShort(d[4..21]);
  }
}
