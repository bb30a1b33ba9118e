/** The dotted-hex form of a device uid: four little-endian 32-bit words, each
    printed as eight hex digits most significant byte first. */
module Uids {
  import opened Bytes

  function Digit(n: int): char
    requires 0 <= n < 16
  {
    if n < 10 then ('0' as int + n) as char else ('a' as int + n - 10) as char
  }

  function DigitValue(c: char): Option<nat> {
    if '0' <= c <= '9' then Some(c as int - '0' as int)
    else if 'a' <= c <= 'f' then Some(c as int - 'a' as int + 10)
    else if 'A' <= c <= 'F' then Some(c as int - 'A' as int + 10)
    else None
  }

  // ---- printing ----

  function HexByte(b: byte): string { [Digit(b / 16), Digit(b % 16)] }

  function PrintWord(w: bytes): string
    requires |w| == 4
  {
    HexByte(w[3]) + HexByte(w[2]) + HexByte(w[1]) + HexByte(w[0])
  }

  function Word(u: uid, i: nat): bytes
    requires i < 4
  {
    u[i * 4..i * 4 + 4]
  }

  function Print(u: uid): string {
    PrintWord(Word(u, 0)) + "." + PrintWord(Word(u, 1)) + "." + PrintWord(Word(u, 2)) + "." + PrintWord(Word(u, 3))
  }

  function PrintPrefix(u: uid, n: nat): string
    requires n <= 4
  {
    if n == 0 then ""
    else PrintPrefix(u, n - 1) + (if n > 1 then "." else "") + PrintWord(Word(u, n - 1))
  }

  const DIGITS: string := "0123456789abcdef"

  lemma WordPrinted(word: bytes, k: nat)
    requires |word| == 4 && k < 4
    ensures |PrintWord(word)| == 8 && |DIGITS| == 16
    ensures PrintWord(word)[2 * k] == DIGITS[word[3 - k] / 16] && PrintWord(word)[2 * k + 1] == DIGITS[word[3 - k] % 16]
  {
    DigitIs(word[3 - k] / 16);
    DigitIs(word[3 - k] % 16);
    assert PrintWord(word)[2 * k] == HexByte(word[3 - k])[0] && PrintWord(word)[2 * k + 1] == HexByte(word[3 - k])[1];
  }

  lemma JoinedAt(a: string, b: string, c: string, d: string, w: nat, i: nat)
    requires |a| == |b| == |c| == |d| == 8 && w < 4 && i < 8
    ensures var s := a + "." + b + "." + c + "." + d;
            && |s| == 35 && (w < 3 ==> s[9 * w + 8] == '.')
            && s[9 * w + i] == if w == 0 then a[i] else if w == 1 then b[i] else if w == 2 then c[i] else d[i]
  {
    if w == 0 {
    } else if w == 1 {
    } else if w == 2 {
    } else {
    }
  }

  lemma WordsPrinted(u: uid, w: nat, i: nat)
    requires w < 4 && i < 8
    ensures |Print(u)| == 35 && |PrintWord(Word(u, w))| == 8
    ensures Print(u)[9 * w + i] == PrintWord(Word(u, w))[i] && (w < 3 ==> Print(u)[9 * w + 8] == '.')
  {
    hide PrintWord;
    WordPrinted(Word(u, 0), 0);
    WordPrinted(Word(u, 1), 0);
    WordPrinted(Word(u, 2), 0);
    WordPrinted(Word(u, 3), 0);
    JoinedAt(PrintWord(Word(u, 0)), PrintWord(Word(u, 1)), PrintWord(Word(u, 2)), PrintWord(Word(u, 3)), w, i);
  }

  /** Each word starts every nine characters, its last byte first. */
  lemma PrintedAt(u: uid, w: nat, k: nat)
    requires w < 4 && k < 4
    ensures |Print(u)| == 35 && |DIGITS| == 16
    ensures Print(u)[9 * w + 2 * k] == DIGITS[u[4 * w + 3 - k] / 16]
    ensures Print(u)[9 * w + 2 * k + 1] == DIGITS[u[4 * w + 3 - k] % 16]
    ensures w < 3 ==> Print(u)[9 * w + 8] == '.'
  {
    hide Print;
    hide PrintWord;
    WordsPrinted(u, w, 2 * k);
    WordsPrinted(u, w, 2 * k + 1);
    WordPrinted(Word(u, w), k);
    assert Word(u, w)[3 - k] == u[4 * w + 3 - k];
  }

  lemma DigitIs(n: nat)
    requires n < 16
    ensures |DIGITS| == 16 && Digit(n) == DIGITS[n]
  {
  }

  method AppendWord(line: string, word: bytes) returns (s: string)
    requires |word| == 4
    ensures s == line + PrintWord(word)
  {
    s := line;
    var j := 3;
    while j >= 0
      invariant -1 <= j <= 3
      invariant s == line + HexBytesDown(word, j + 1)
    {
      s := s + HexByte(word[j]);
      j := j - 1;
    }
  }

  // The hex of word[3], ..., word[n].
  function HexBytesDown(word: bytes, n: nat): string
    requires |word| == 4 && n <= 4
    ensures n == 0 ==> HexBytesDown(word, n) == PrintWord(word)
    decreases 4 - n
  {
    if n == 4 then "" else HexBytesDown(word, n + 1) + HexByte(word[n])
  }

  method PrintUid(u: uid) returns (s: string)
    ensures s == Print(u)
  {
    s := "";
    for i := 0 to 4
      invariant s == PrintPrefix(u, i)
    {
      if i > 0 {
        s := s + ".";
      }
      s := AppendWord(s, u[i * 4..i * 4 + 4]);
    }
    PrintPrefixFour(u);
  }

  lemma PrintPrefixFour(u: uid)
    ensures PrintPrefix(u, 4) == Print(u)
  {
    assert PrintPrefix(u, 1) == PrintWord(Word(u, 0));
    assert PrintPrefix(u, 2) == PrintPrefix(u, 1) + "." + PrintWord(Word(u, 1));
    assert PrintPrefix(u, 3) == PrintPrefix(u, 2) + "." + PrintWord(Word(u, 2));
  }

  // ---- parsing ----

  /** The parts of s between its separators; one more than there are separators. */
  function Split(s: string, sep: char): (parts: seq<string>)
    ensures |parts| > 0
  {
    if s == "" then [""]
    else if s[0] == sep then [""] + Split(s[1..], sep)
    else
      var rest := Split(s[1..], sep);
      [[s[0]] + rest[0]] + rest[1..]
  }

  /** Reads the digits of s onto the value n, none at the first non-digit. */
  function HexFrom(n: nat, s: string): Option<nat>
    decreases |s|
  {
    if s == "" then Some(n)
    else if DigitValue(s[0]).None? then None
    else HexFrom(16 * n + DigitValue(s[0]).value, s[1..])
  }

  function HexValue(s: string): Option<nat> { if s == "" then None else HexFrom(0, s) }

  /** strconv.ParseUint(s, 16, 32). */
  function ParseWord(s: string): Option<u32> {
    var v := HexValue(s);
    if v.None? || v.value >= 0x1_0000_0000 then None else Some(v.value)
  }

  function WordsOf(s: string): Option<seq<u32>> {
    var parts := Split(s, '.');
    if |parts| < 4 then None
    else if exists i :: 0 <= i < 4 && ParseWord(parts[i]).None? then None
    else Some(seq(4, i requires 0 <= i < 4 => ParseWord(parts[i]).value))
  }

  function ParseUid(s: string): Option<uid> {
    var w := WordsOf(s);
    if w.None? then None
    else Some(Wire32(w.value[0]) + Wire32(w.value[1]) + Wire32(w.value[2]) + Wire32(w.value[3]))
  }

  method ParseDeviceUid(s: string) returns (r: Option<uid>)
    ensures r == ParseUid(s)
  {
    var parts := Split(s, '.');
    if |parts| < 4 {
      return None;
    }
    var out: bytes := [];
    for i := 0 to 4
      invariant |out| == 4 * i
      invariant forall k :: 0 <= k < i ==> ParseWord(parts[k]).Some? && out[4 * k..4 * k + 4] == Wire32(ParseWord(parts[k]).value)
    {
      var v := ParseWord(parts[i]);
      if v.None? {
        return None;
      }
      out := out + Wire32(v.value);
      assert forall k :: 0 <= k < i ==> out[4 * k..4 * k + 4] == out[..4 * i][4 * k..4 * k + 4];
    }
    assert out == out[0..4] + out[4..8] + out[8..12] + out[12..16];
    r := Some(out);
  }

  // ---- the two directions ----

  lemma DigitRoundTrip(n: int)
    requires 0 <= n < 16
    ensures DigitValue(Digit(n)) == Some(n) && LowerHex(Digit(n))
  {
  }

  predicate LowerHex(c: char) { '0' <= c <= '9' || 'a' <= c <= 'f' }

  // Two digits read as one byte.
  lemma HexFromPair(n: nat, s: string, b: byte)
    requires |s| >= 2
    requires DigitValue(s[0]) == Some(b / 16) && DigitValue(s[1]) == Some(b % 16)
    ensures HexFrom(n, s) == HexFrom(256 * n + b, s[2..])
  {
    assert s[1..][1..] == s[2..];
  }

  lemma HexValueOfBytes(s: string, w: bytes)
    requires |s| == 8 && |w| == 4
    requires DigitValue(s[0]) == Some(w[3] / 16) && DigitValue(s[1]) == Some(w[3] % 16)
    requires DigitValue(s[2]) == Some(w[2] / 16) && DigitValue(s[3]) == Some(w[2] % 16)
    requires DigitValue(s[4]) == Some(w[1] / 16) && DigitValue(s[5]) == Some(w[1] % 16)
    requires DigitValue(s[6]) == Some(w[0] / 16) && DigitValue(s[7]) == Some(w[0] % 16)
    ensures ParseWord(s) == Some(U32(w, 0))
  {
    HexFromPair(0, s, w[3]);
    var n1: nat := w[3];
    var n2: nat := 256 * n1 + w[2];
    var n3: nat := 256 * n2 + w[1];
    HexFromPair(n1, s[2..], w[2]);
    HexFromPair(n2, s[2..][2..], w[1]);
    HexFromPair(n3, s[2..][2..][2..], w[0]);
  }

  /** A printed word reads back as the little-endian value of its four bytes. */
  lemma WordRoundTrip(w: bytes)
    requires |w| == 4
    ensures ParseWord(PrintWord(w)) == Some(U32(w, 0))
    ensures CanonicalWord(PrintWord(w))
  {
    forall k | 0 <= k < 4
      ensures DigitValue(Digit(w[k] / 16)) == Some(w[k] / 16) && DigitValue(Digit(w[k] % 16)) == Some(w[k] % 16)
      ensures LowerHex(Digit(w[k] / 16)) && LowerHex(Digit(w[k] % 16))
    {
      DigitRoundTrip(w[k] / 16);
      DigitRoundTrip(w[k] % 16);
    }
    HexValueOfBytes(PrintWord(w), w);
  }

  lemma {:induction false} SplitAt(a: string, rest: string, sep: char)
    requires sep !in a
    ensures Split(a + [sep] + rest, sep) == [a] + Split(rest, sep)
  {
    var s := a + [sep] + rest;
    if a == "" {
      assert s[1..] == rest;
    } else {
      SplitAt(a[1..], rest, sep);
      assert s[1..] == a[1..] + [sep] + rest;
      assert [a[0]] + a[1..] == a;
    }
  }

  lemma {:induction false} SplitNone(a: string, sep: char)
    requires sep !in a
    ensures Split(a, sep) == [a]
  {
    if a != "" {
      SplitNone(a[1..], sep);
      assert [a[0]] + a[1..] == a;
    }
  }

  lemma JoinFour(a: string, b: string, c: string, d: string)
    ensures a + "." + b + "." + c + "." + d == a + ['.'] + (b + ['.'] + (c + ['.'] + d))
  {
  }

  lemma SplitFour(a: string, b: string, c: string, d: string)
    requires '.' !in a && '.' !in b && '.' !in c && '.' !in d
    ensures Split(a + "." + b + "." + c + "." + d, '.') == [a, b, c, d]
  {
    hide Split;
    JoinFour(a, b, c, d);
    SplitAt(a, b + ['.'] + (c + ['.'] + d), '.');
    SplitAt(b, c + ['.'] + d, '.');
    SplitAt(c, d, '.');
    SplitNone(d, '.');
  }

  lemma WordParses(u: uid, i: nat)
    requires i < 4
    ensures ParseWord(PrintWord(Word(u, i))).Some? && Wire32(ParseWord(PrintWord(Word(u, i))).value) == Word(u, i)
    ensures '.' !in PrintWord(Word(u, i))
  {
    WordRoundTrip(Word(u, i));
    BytesRead32(Word(u, i));
  }

  /** Printing then parsing any uid gives it back. */
  lemma PrintThenParse(u: uid)
    ensures ParseUid(Print(u)) == Some(u)
  {
    WordParses(u, 0);
    WordParses(u, 1);
    WordParses(u, 2);
    WordParses(u, 3);
    SplitFour(PrintWord(Word(u, 0)), PrintWord(Word(u, 1)), PrintWord(Word(u, 2)), PrintWord(Word(u, 3)));
    assert Word(u, 0) + Word(u, 1) + Word(u, 2) + Word(u, 3) == u;
  }

  predicate CanonicalWord(s: string) { |s| == 8 && forall i :: 0 <= i < 8 ==> LowerHex(s[i]) }

  /** Four dot-separated words of eight lower-case hex digits. */
  predicate Canonical(s: string) {
    && |s| == 35
    && s[8] == s[17] == s[26] == '.'
    && CanonicalWord(s[0..8]) && CanonicalWord(s[9..17]) && CanonicalWord(s[18..26]) && CanonicalWord(s[27..35])
  }

  function ByteOf(hi: char, lo: char): byte
    requires LowerHex(hi) && LowerHex(lo)
    ensures DigitValue(hi) == Some(ByteOf(hi, lo) / 16) && DigitValue(lo) == Some(ByteOf(hi, lo) % 16)
    ensures HexByte(ByteOf(hi, lo)) == [hi, lo]
  {
    16 * DigitValue(hi).value + DigitValue(lo).value
  }

  lemma CanonicalWordRoundTrip(s: string)
    requires CanonicalWord(s)
    ensures ParseWord(s).Some? && PrintWord(Wire32(ParseWord(s).value)) == s
    ensures '.' !in s
  {
    var w := [ByteOf(s[6], s[7]), ByteOf(s[4], s[5]), ByteOf(s[2], s[3]), ByteOf(s[0], s[1])];
    HexValueOfBytes(s, w);
    BytesRead32(w);
  }

  lemma PrintIsCanonical(u: uid)
    ensures Canonical(Print(u))
  {
    var a, b, c, d := PrintWord(Word(u, 0)), PrintWord(Word(u, 1)), PrintWord(Word(u, 2)), PrintWord(Word(u, 3));
    WordRoundTrip(Word(u, 0));
    WordRoundTrip(Word(u, 1));
    WordRoundTrip(Word(u, 2));
    WordRoundTrip(Word(u, 3));
    JoinIsCanonical(a, b, c, d);
  }

  lemma JoinIsCanonical(a: string, b: string, c: string, d: string)
    requires CanonicalWord(a) && CanonicalWord(b) && CanonicalWord(c) && CanonicalWord(d)
    ensures Canonical(a + "." + b + "." + c + "." + d)
  {
    var s := a + "." + b + "." + c + "." + d;
    assert s[0..8] == a && s[9..17] == b && s[18..26] == c && s[27..35] == d;
  }

  lemma PrintAssembled(a: bytes, b: bytes, c: bytes, d: bytes)
    requires |a| == |b| == |c| == |d| == 4
    ensures Print(a + b + c + d) == PrintWord(a) + "." + PrintWord(b) + "." + PrintWord(c) + "." + PrintWord(d)
  {
    var u := a + b + c + d;
    assert Word(u, 0) == a && Word(u, 1) == b && Word(u, 2) == c && Word(u, 3) == d;
  }

  lemma CanonicalJoins(s: string)
    requires Canonical(s)
    ensures s == s[0..8] + "." + s[9..17] + "." + s[18..26] + "." + s[27..35]
  {
  }

  lemma CanonicalWords(s: string)
    requires Canonical(s)
    ensures ParseWord(s[0..8]).Some? && ParseWord(s[9..17]).Some? && ParseWord(s[18..26]).Some? && ParseWord(s[27..35]).Some?
    ensures WordsOf(s).Some? && WordsOf(s).value == [ParseWord(s[0..8]).value, ParseWord(s[9..17]).value,
                                                     ParseWord(s[18..26]).value, ParseWord(s[27..35]).value]
  {
    CanonicalWordRoundTrip(s[0..8]);
    CanonicalWordRoundTrip(s[9..17]);
    CanonicalWordRoundTrip(s[18..26]);
    CanonicalWordRoundTrip(s[27..35]);
    SplitFour(s[0..8], s[9..17], s[18..26], s[27..35]);
    CanonicalJoins(s);
  }

  lemma CanonicalPrints(s: string)
    requires Canonical(s)
    ensures ParseUid(s).Some? && Print(ParseUid(s).value) == s
  {
    CanonicalWords(s);
    CanonicalWordRoundTrip(s[0..8]);
    CanonicalWordRoundTrip(s[9..17]);
    CanonicalWordRoundTrip(s[18..26]);
    CanonicalWordRoundTrip(s[27..35]);
    var a, b := Wire32(ParseWord(s[0..8]).value), Wire32(ParseWord(s[9..17]).value);
    var c, d := Wire32(ParseWord(s[18..26]).value), Wire32(ParseWord(s[27..35]).value);
    PrintAssembled(a, b, c, d);
    CanonicalJoins(s);
  }

  /** Parsing then printing a string gives it back exactly when it is canonical. */
  lemma ParseThenPrint(s: string)
    ensures ParseUid(s).Some? && Print(ParseUid(s).value) == s <==> Canonical(s)
  {
    if Canonical(s) {
      CanonicalPrints(s);
    } else if ParseUid(s).Some? {
      PrintIsCanonical(ParseUid(s).value);
    }
  }
}
