/** Bytes, little-endian integers, single-bit flags and fixed-width text fields,
    as every MX Remote payload is made of them. */
module Bytes {
  type byte = b: int | 0 <= b < 256
  type bytes = seq<byte>
  type u16 = v: int | 0 <= v < 0x1_0000
  type u32 = v: int | 0 <= v < 0x1_0000_0000
  type uid = s: bytes | |s| == 16 witness ZERO_UID

  const ZERO_UID: bytes := [0, 0, 0, 0, 0, 0, 0, 0, 0, 0, 0, 0, 0, 0, 0, 0]

  datatype Option<+T> = None | Some(value: T)

  /** A bay by its device and port; also the key a bay's link is stored under. */
  datatype BayId = BayId(device: uid, port: nat)

  predicate Empty(u: uid) { u == ZERO_UID }

  // Go's byte(v), byte(v>>8), ...: the low bytes of v in two's complement. Dafny's
  // / and % round towards minus infinity for a positive divisor, as >> does.
  function Wire16(v: int): bytes { [v % 256, v / 0x100 % 256] }

  function Wire32(v: int): bytes {
    [v % 256, v / 0x100 % 256, v / 0x1_0000 % 256, v / 0x100_0000 % 256]
  }

  function U16(p: bytes, i: nat): u16
    requires i + 2 <= |p|
  {
    p[i] as int + 0x100 * (p[i + 1] as int)
  }

  function U32(p: bytes, i: nat): u32
    requires i + 4 <= |p|
  {
    p[i] as int + 0x100 * (p[i + 1] as int) + 0x1_0000 * (p[i + 2] as int) + 0x100_0000 * (p[i + 3] as int)
  }

  /** Whether the single-bit flag is set in mask. */
  predicate Has(mask: nat, flag: nat)
    requires flag > 0
  {
    mask / flag % 2 == 1
  }

  lemma Wire32Reads(v: u32)
    ensures U32(Wire32(v), 0) == v
  {
    var high1, high2, high3 := v / 0x100, v / 0x1_0000, v / 0x100_0000;
    assert high2 == high1 / 0x100 && high3 == high2 / 0x100 && high3 < 0x100;
    assert v == v % 0x100 + 0x100 * high1;
    assert high1 == high1 % 0x100 + 0x100 * high2 && high2 == high2 % 0x100 + 0x100 * high3;
  }

  lemma Carry(low: byte, high: nat)
    ensures (low + 0x100 * high) % 0x100 == low && (low + 0x100 * high) / 0x100 == high
  {
  }

  lemma BytesRead32(p: bytes)
    requires |p| == 4
    ensures Wire32(U32(p, 0)) == p
  {
    var high3: nat := p[3];
    var high2: nat := p[2] as int + 0x100 * high3;
    var high1: nat := p[1] as int + 0x100 * high2;
    var v: nat := U32(p, 0);
    assert v == p[0] + 0x100 * high1;
    Carry(p[0], high1);
    Carry(p[1], high2);
    Carry(p[2], high3);
    assert v / 0x1_0000 == v / 0x100 / 0x100 && v / 0x100_0000 == v / 0x100 / 0x100 / 0x100;
  }

  // ---- numbers as bytes ----

  /** The number these bytes stand for, the lowest first. */
  function Le(b: bytes): (n: nat)
    ensures |b| == 0 ==> n == 0
    ensures |b| == 1 ==> n < 0x100
    ensures |b| == 2 ==> n < 0x1_0000
    ensures |b| == 3 ==> n < 0x100_0000
    ensures |b| == 4 ==> n < 0x1_0000_0000
  {
    if b == [] then 0 else b[0] + 0x100 * Le(b[1..])
  }

  lemma LeNext(b: bytes)
    requires b != []
    ensures Le(b) == b[0] + 0x100 * Le(b[1..])
  {
  }

  lemma LeReads(p: bytes, i: nat)
    ensures i + 2 <= |p| ==> U16(p, i) == Le(p[i..i + 2])
    ensures i + 4 <= |p| ==> U32(p, i) == Le(p[i..i + 4])
  {
    hide Le;
    if i + 2 <= |p| {
      LeTail(p, i, 2);
      LeTail(p, i + 1, 1);
    }
    if i + 4 <= |p| {
      LeTail(p, i, 4);
      LeTail(p, i + 1, 3);
      LeTail(p, i + 2, 2);
      LeTail(p, i + 3, 1);
    }
  }

  lemma LeTail(p: bytes, i: nat, n: nat)
    requires 0 < n && i + n <= |p|
    ensures Le(p[i..i + n]) == p[i] + 0x100 * Le(p[i + 1..i + n])
    ensures n == 1 ==> Le(p[i..i + n]) == p[i]
  {
    LeNext(p[i..i + n]);
    assert p[i..i + n][1..] == p[i + 1..i + n];
  }

  // ---- records of one size ----

  /** The whole records of a payload, in order; a shorter rest is left out. */
  function Records(p: bytes, size: nat): (recs: seq<bytes>)
    requires size > 0
    ensures forall i :: 0 <= i < |recs| ==> |recs[i]| == size
  {
    if |p| < size then [] else [p[..size]] + Records(p[size..], size)
  }

  /** Whether a payload is a whole number of records. */
  predicate WholeRecords(p: bytes, size: nat)
    requires size > 0
  {
    p == [] || (|p| >= size && WholeRecords(p[size..], size))
  }

  lemma {:induction false} WholeAppend(p: bytes, rec: bytes, size: nat)
    requires size > 0 && WholeRecords(p, size) && |rec| == size
    ensures WholeRecords(p + rec, size)
    ensures Records(rec, size) == [rec]
  {
    assert rec[..size] == rec && rec[size..] == [];
    if p == [] {
      assert p + rec == rec;
    } else {
      WholeAppend(p[size..], rec, size);
      assert (p + rec)[size..] == p[size..] + rec;
    }
  }

  lemma RecordsStep(p: bytes, size: nat)
    requires size > 0
    ensures |p| >= size ==> Records(p, size) == [p[..size]] + Records(p[size..], size)
    ensures |p| < size ==> Records(p, size) == []
  {
  }

  /** Cutting after whole records cuts the records, and a short rest adds none. */
  lemma {:induction false} RecordsAppend(p: bytes, q: bytes, size: nat)
    requires size > 0 && WholeRecords(p, size)
    ensures Records(p + q, size) == Records(p, size) + Records(q, size)
    ensures |q| < size ==> Records(p + q, size) == Records(p, size)
  {
    hide Records;
    RecordsStep(p, size);
    RecordsStep(q, size);
    if p == [] {
      assert p + q == q;
    } else {
      RecordsAppend(p[size..], q, size);
      RecordsStep(p + q, size);
      assert (p + q)[..size] == p[..size] && (p + q)[size..] == p[size..] + q;
    }
  }

  lemma {:induction false} RecordCount(p: bytes, size: nat)
    requires size > 0
    ensures size * |Records(p, size)| <= |p| < size * |Records(p, size)| + size
  {
    hide Records;
    RecordsStep(p, size);
    if |p| >= size {
      var n := |Records(p[size..], size)|;
      RecordCount(p[size..], size);
      assert size * (n + 1) == size * n + size;
    }
  }

  /** The records lie one after the other. */
  lemma {:induction false} RecordAt(p: bytes, size: nat, i: nat)
    requires size > 0 && i < |Records(p, size)|
    ensures 0 <= size * i <= size * i + size <= |p| && Records(p, size)[i] == p[size * i..size * i + size]
  {
    hide Records;
    RecordsStep(p, size);
    if i > 0 {
      var before := size * (i - 1);
      RecordAt(p[size..], size, i - 1);
      assert size * i == before + size;
      assert p[size..][before..before + size] == p[size * i..size * i + size];
    }
  }

  // ---- fixed-width text ----

  const RUNE_ERROR: bytes := [0xEF, 0xBF, 0xBD]

  function Printable(c: byte): bytes { if c > 0x7F then RUNE_ERROR else [c] }

  /** The text a fixed-width field holds: everything before the first NUL, each
      byte above 0x7F replaced by U+FFFD. */
  function CStr(b: bytes): bytes {
    if b == [] || b[0] == 0 then [] else Printable(b[0]) + CStr(b[1..])
  }

  function Cut(value: bytes, size: nat): bytes { if |value| > size then value[..size] else value }

  function Zeros(n: nat): bytes { seq(n, _ => 0) }

  /** value as a NUL-padded field of size bytes. */
  function Fixed(value: bytes, size: nat): bytes { Cut(value, size) + Zeros(size - |Cut(value, size)|) }

  predicate Ascii(b: bytes) { forall i :: 0 <= i < |b| ==> 0 < b[i] < 0x80 }

  lemma {:induction false} CStrLength(b: bytes, pad: nat)
    requires forall i :: 0 <= i < |b| ==> b[i] != 0
    ensures |CStr(b + Zeros(pad))| >= |b|
    ensures |CStr(b + Zeros(pad))| == |b| ==> Ascii(b) && CStr(b + Zeros(pad)) == b
    ensures Ascii(b) ==> CStr(b + Zeros(pad)) == b
  {
    if b == [] {
    } else {
      CStrLength(b[1..], pad);
      assert (b + Zeros(pad))[1..] == b[1..] + Zeros(pad);
      assert Ascii(b) ==> Ascii(b[1..]);
      assert b == [b[0]] + b[1..];
      if |CStr(b + Zeros(pad))| == |b| {
        assert |CStr(b[1..] + Zeros(pad))| == |b| - 1 && b[0] < 0x80;
        assert forall i :: 0 < i < |b| ==> b[i] == b[1..][i - 1];
      }
    }
  }

  lemma {:induction false} CStrHasNoNul(b: bytes)
    ensures 0 !in CStr(b)
  {
    if b != [] && b[0] != 0 {
      CStrHasNoNul(b[1..]);
    }
  }

  /** A name survives its fixed-width field exactly when what fits of it is plain
      ASCII without a NUL. */
  lemma FixedFieldRoundTrip(value: bytes, size: nat)
    ensures CStr(Fixed(value, size)) == Cut(value, size) <==> Ascii(Cut(value, size))
  {
    var t := Cut(value, size);
    if 0 in t {
      CStrHasNoNul(Fixed(value, size));
    } else {
      CStrLength(t, size - |t|);
    }
  }

  method AppendFixedStr(dst: bytes, value: bytes, size: nat) returns (out: bytes)
    ensures out == dst + Fixed(value, size)
  {
    var b := value;
    if |b| > size {
      b := b[..size];
    }
    out := dst + b;
    var i := |b|;
    while i < size
      invariant |b| <= i <= size
      invariant out == dst + b + Zeros(i - |b|)
    {
      out := out + [0];
      i := i + 1;
    }
  }

  lemma {:induction false} CutAtNul(b: bytes, n: nat)
    requires n <= |b| && (n == |b| || b[n] == 0) && forall i :: 0 <= i < n ==> b[i] != 0
    ensures CStr(b) == CStr(b[..n])
  {
    if n > 0 {
      CutAtNul(b[1..], n - 1);
      assert b[..n][1..] == b[1..][..n - 1];
    }
  }

  method DecodeCStr(raw: bytes) returns (text: bytes)
    ensures text == CStr(raw)
    ensures 0 !in text
  {
    var n := 0;
    while n < |raw| && raw[n] != 0
      invariant n <= |raw| && forall i :: 0 <= i < n ==> raw[i] != 0
    {
      n := n + 1;
    }
    CutAtNul(raw, n);
    var b := raw[..n];
    text := [];
    assert b[0..] == b && b[n..] == [];
    for i := 0 to n
      invariant text + CStr(b[i..]) == CStr(b)
    {
      TextFrom(b, i, text);
      text := text + Printable(b[i]);
    }
    CStrHasNoNul(raw);
  }

  /** One more byte of a text without a NUL. */
  lemma TextFrom(b: bytes, i: nat, before: bytes)
    requires i < |b| && b[i] != 0
    ensures before + CStr(b[i..]) == before + Printable(b[i]) + CStr(b[i + 1..])
  {
    assert b[i..][1..] == b[i + 1..];
  }
}
