/** The super-block formats: what their bytes mean, and the loops that decode them. */
module KBlocks {
  newtype int8 = x: int | -0x80 <= x < 0x80
  newtype int16 = x: int | -0x8000 <= x < 0x8000
  newtype int32 = x: int | -0x8000_0000 <= x < 0x8000_0000

  const QK: nat := 256

  type Bytes = seq<bv8>

  datatype BlockQ2 = BlockQ2(scales: Bytes, qs: Bytes, d: real, dmin: real)
  datatype BlockQ3 = BlockQ3(hmask: Bytes, qs: Bytes, scales: Bytes, d: real)
  datatype BlockQ4 = BlockQ4(d: real, dmin: real, scales: Bytes, qs: Bytes)
  datatype BlockQ5 = BlockQ5(d: real, dmin: real, scales: Bytes, qh: Bytes, qs: Bytes)
  datatype BlockQ6 = BlockQ6(ql: Bytes, qh: Bytes, scales: seq<int8>, d: real)

  predicate Sized2(b: BlockQ2) { |b.scales| == 16 && |b.qs| == 64 }
  predicate Sized3(b: BlockQ3) { |b.hmask| == 32 && |b.qs| == 64 && |b.scales| == 12 }
  predicate Sized4(b: BlockQ4) { |b.scales| == 12 && |b.qs| == 128 }
  predicate Sized5(b: BlockQ5) { |b.scales| == 12 && |b.qh| == 32 && |b.qs| == 128 }
  predicate Sized6(b: BlockQ6) { |b.ql| == 128 && |b.qh| == 64 && |b.scales| == 16 }

  // ---------------------------------------------------------------- bits

  /** Bits `2 * j` and `2 * j + 1`. */
  function Crumb(b: bv8, j: nat): (r: bv8)
    requires j < 4
    ensures r < 4
  {
    (b >> (2 * j)) & 3
  }

  function Mask(k: nat): bv8
    requires k <= 8
  {
    (1 as bv8) << k
  }

  predicate Overlap(b: bv8, m: bv8) {
    b & m != 0
  }

  predicate Bit(b: bv8, k: nat)
    requires k <= 8
  {
    Overlap(b, Mask(k))
  }

  lemma NextMask(k: nat)
    requires k < 8
    ensures Mask(k) << 1 == Mask(k + 1)
    ensures k < 7 ==> Mask(k) << 2 == Mask(k + 2)
  {
    assert k == 0 || k == 1 || k == 2 || k == 3 || k == 4 || k == 5 || k == 6 || k == 7;
  }

  // ---------------------------------------------------------------- scales

  /** Six bits: a nibble of one byte, and above it a crumb of another. */
  function LowSix(b: bv8, t: bv8, j: nat): (r: bv8)
    requires j < 4
    ensures r < 64
  {
    (b & 0xF) | (Crumb(t, j) << 4)
  }

  function HighSix(b: bv8, t: bv8, j: nat): (r: bv8)
    requires j < 4
    ensures r < 64
  {
    (b >> 4) | (Crumb(t, j) << 4)
  }

  function Six1(b: bv8): (r: bv8)
    ensures r < 64
  {
    b & 63
  }

  /** Six-bit scale `j` of the three-bit format. */
  function Scale3(s: Bytes, j: nat): (r: bv8)
    requires |s| == 12 && j < 16
    ensures r < 64
  {
    if j < 8 then LowSix(s[j], s[8 + j % 4], j / 4) else HighSix(s[j - 8], s[8 + j % 4], j / 4)
  }

  /** Six-bit scale and min `j` of the four- and five-bit formats. */
  function ScaleMin4(s: Bytes, j: nat): (r: (bv8, bv8))
    requires |s| == 12 && j < 8
    ensures r.0 < 64 && r.1 < 64
  {
    if j < 4 then (Six1(s[j]), Six1(s[j + 4]))
    else (LowSix(s[j + 4], s[j - 4], 3), HighSix(s[j + 4], s[j], 3))
  }

  // ---------------------------------------------------------------- four bytes at a time

  /** Four bytes as one little-endian word, and back. */
  function Join(a: bv8, b: bv8, c: bv8, d: bv8): bv32 {
    (a as bv32) | ((b as bv32) << 8) | ((c as bv32) << 16) | ((d as bv32) << 24)
  }

  function Word(s: Bytes, at: nat): bv32
    requires at + 4 <= |s|
  {
    Join(s[at], s[at + 1], s[at + 2], s[at + 3])
  }

  function WordBytes(w: bv32): (r: Bytes)
    ensures |r| == 4
  {
    [(w & 0xFF) as bv8, ((w >> 8) & 0xFF) as bv8, ((w >> 16) & 0xFF) as bv8, (w >> 24) as bv8]
  }

  lemma WordOfBytes(a: bv8, b: bv8, c: bv8, d: bv8)
    ensures WordBytes(Join(a, b, c, d)) == [a, b, c, d]
  {
  }

  function Six1s(w: bv32): bv32 {
    w & 0x3f3f3f3f
  }

  lemma Six1sRaw(a: bv8, b: bv8, c: bv8, d: bv8)
    ensures Six1s(Join(a, b, c, d)) == Join(a & 63, b & 63, c & 63, d & 63)
  {
  }

  lemma Six1sJoined(a: bv8, b: bv8, c: bv8, d: bv8)
    ensures Six1s(Join(a, b, c, d)) == Join(Six1(a), Six1(b), Six1(c), Six1(d))
  {
    hide Six1s, Join;
    Six1sRaw(a, b, c, d);
  }

  function Lows(w: bv32): bv32 {
    w & 0x0f0f0f0f
  }

  lemma LowsJoined(a: bv8, b: bv8, c: bv8, d: bv8)
    ensures Lows(Join(a, b, c, d)) == Join(a & 0xF, b & 0xF, c & 0xF, d & 0xF)
  {
  }

  function Highs(w: bv32): bv32 {
    (w >> 4) & 0x0f0f0f0f
  }

  lemma HighsJoined(a: bv8, b: bv8, c: bv8, d: bv8)
    ensures Highs(Join(a, b, c, d)) == Join(a >> 4, b >> 4, c >> 4, d >> 4)
  {
  }

  function Crumbs(w: bv32, j: nat): bv32
    requires j < 4
  {
    (w >> (2 * j)) & 0x03030303
  }

  lemma Crumbs0Joined(a: bv8, b: bv8, c: bv8, d: bv8)
    ensures Crumbs(Join(a, b, c, d), 0) == Join(a & 3, b & 3, c & 3, d & 3)
  {
  }

  lemma Crumbs1Joined(a: bv8, b: bv8, c: bv8, d: bv8)
    ensures Crumbs(Join(a, b, c, d), 1) == Join((a >> 2) & 3, (b >> 2) & 3, (c >> 2) & 3, (d >> 2) & 3)
  {
  }

  lemma Crumbs2Joined(a: bv8, b: bv8, c: bv8, d: bv8)
    ensures Crumbs(Join(a, b, c, d), 2) == Join((a >> 4) & 3, (b >> 4) & 3, (c >> 4) & 3, (d >> 4) & 3)
  {
  }

  lemma Crumbs3Joined(a: bv8, b: bv8, c: bv8, d: bv8)
    ensures Crumbs(Join(a, b, c, d), 3) == Join(a >> 6, b >> 6, c >> 6, d >> 6)
  {
  }

  lemma CrumbAt(b: bv8)
    ensures Crumb(b, 0) == b & 3 && Crumb(b, 1) == (b >> 2) & 3 && Crumb(b, 2) == (b >> 4) & 3 && Crumb(b, 3) == b >> 6
  {
  }

  lemma CrumbsJoined(a: bv8, b: bv8, c: bv8, d: bv8, j: nat)
    requires j < 4
    ensures Crumbs(Join(a, b, c, d), j) == Join(Crumb(a, j), Crumb(b, j), Crumb(c, j), Crumb(d, j))
  {
    hide Crumbs, Join;
    CrumbAt(a); CrumbAt(b); CrumbAt(c); CrumbAt(d);
    if j == 0 {
      Crumbs0Joined(a, b, c, d);
    } else if j == 1 {
      Crumbs1Joined(a, b, c, d);
    } else if j == 2 {
      Crumbs2Joined(a, b, c, d);
    } else {
      Crumbs3Joined(a, b, c, d);
    }
  }

  function Sixes(low: bv32, high: bv32): bv32 {
    low | (high << 4)
  }

  lemma SixesJoined(a: bv8, b: bv8, c: bv8, d: bv8, a': bv8, b': bv8, c': bv8, d': bv8)
    requires a' < 4 && b' < 4 && c' < 4 && d' < 4
    ensures Sixes(Join(a, b, c, d), Join(a', b', c', d'))
      == Join(a | (a' << 4), b | (b' << 4), c | (c' << 4), d | (d' << 4))
  {
  }

  lemma LowSixJoined(a: bv8, b: bv8, c: bv8, d: bv8, a': bv8, b': bv8, c': bv8, d': bv8, j: nat)
    requires j < 4
    ensures Sixes(Lows(Join(a, b, c, d)), Crumbs(Join(a', b', c', d'), j))
         == Join(LowSix(a, a', j), LowSix(b, b', j), LowSix(c, c', j), LowSix(d, d', j))
  {
    hide Crumb, Crumbs, Lows, Join, Sixes;
    LowsJoined(a, b, c, d);
    CrumbsJoined(a', b', c', d', j);
    SixesJoined(a & 0xF, b & 0xF, c & 0xF, d & 0xF, Crumb(a', j), Crumb(b', j), Crumb(c', j), Crumb(d', j));
  }

  lemma LowSixes(s: Bytes, at: nat, top: nat, j: nat)
    requires at + 4 <= |s| && top + 4 <= |s| && j < 4
    ensures forall i :: 0 <= i < 4 ==>
      WordBytes(Sixes(Lows(Word(s, at)), Crumbs(Word(s, top), j)))[i] == LowSix(s[at + i], s[top + i], j)
  {
    hide Crumbs, Lows, LowSix, Join, WordBytes, Sixes;
    LowSixJoined(s[at], s[at + 1], s[at + 2], s[at + 3], s[top], s[top + 1], s[top + 2], s[top + 3], j);
    WordOfBytes(LowSix(s[at], s[top], j), LowSix(s[at + 1], s[top + 1], j), LowSix(s[at + 2], s[top + 2], j),
      LowSix(s[at + 3], s[top + 3], j));
  }

  lemma HighSixJoined(a: bv8, b: bv8, c: bv8, d: bv8, a': bv8, b': bv8, c': bv8, d': bv8, j: nat)
    requires j < 4
    ensures Sixes(Highs(Join(a, b, c, d)), Crumbs(Join(a', b', c', d'), j))
         == Join(HighSix(a, a', j), HighSix(b, b', j), HighSix(c, c', j), HighSix(d, d', j))
  {
    hide Crumb, Crumbs, Highs, Join, Sixes;
    HighsJoined(a, b, c, d);
    CrumbsJoined(a', b', c', d', j);
    SixesJoined(a >> 4, b >> 4, c >> 4, d >> 4, Crumb(a', j), Crumb(b', j), Crumb(c', j), Crumb(d', j));
  }

  lemma HighSixes(s: Bytes, at: nat, top: nat, j: nat)
    requires at + 4 <= |s| && top + 4 <= |s| && j < 4
    ensures forall i :: 0 <= i < 4 ==>
      WordBytes(Sixes(Highs(Word(s, at)), Crumbs(Word(s, top), j)))[i] == HighSix(s[at + i], s[top + i], j)
  {
    hide Crumbs, Highs, HighSix, Join, WordBytes, Sixes;
    HighSixJoined(s[at], s[at + 1], s[at + 2], s[at + 3], s[top], s[top + 1], s[top + 2], s[top + 3], j);
    WordOfBytes(HighSix(s[at], s[top], j), HighSix(s[at + 1], s[top + 1], j), HighSix(s[at + 2], s[top + 2], j),
      HighSix(s[at + 3], s[top + 3], j));
  }

  lemma WordSix1s(s: Bytes, at: nat)
    requires at + 4 <= |s|
    ensures forall i :: 0 <= i < 4 ==> WordBytes(Six1s(Word(s, at)))[i] == Six1(s[at + i])
  {
    hide Six1, Six1s, Join, WordBytes;
    Six1sJoined(s[at], s[at + 1], s[at + 2], s[at + 3]);
    WordOfBytes(Six1(s[at]), Six1(s[at + 1]), Six1(s[at + 2]), Six1(s[at + 3]));
  }

  /** All sixteen scales of the three-bit format, four at a time. */
  method UnpackScales3(s: Bytes) returns (r: Bytes)
    requires |s| == 12
    ensures |r| == 16 && forall j :: 0 <= j < 16 ==> r[j] == Scale3(s, j)
  {
    hide Crumb, Crumbs, Lows, Highs, LowSix, HighSix, Word, WordBytes, Sixes;
    var a0, a1, a2, a3 := Word(s, 0), Word(s, 4), Word(s, 8), 0;
    LowSixes(s, 0, 8, 0);
    LowSixes(s, 4, 8, 1);
    HighSixes(s, 0, 8, 2);
    HighSixes(s, 4, 8, 3);
    var tmp := a2;
    a2 := Sixes(Highs(a0), Crumbs(tmp, 2));
    a3 := Sixes(Highs(a1), Crumbs(tmp, 3));
    a0 := Sixes(Lows(a0), Crumbs(tmp, 0));
    a1 := Sixes(Lows(a1), Crumbs(tmp, 1));
    r := WordBytes(a0) + WordBytes(a1) + WordBytes(a2) + WordBytes(a3);
  }

  /** All eight scales and mins of the four- and five-bit formats, four at a time. */
  method UnpackScales4(s: Bytes) returns (scales: Bytes, mins: Bytes)
    requires |s| == 12
    ensures |scales| == |mins| == 8
    ensures forall j :: 0 <= j < 8 ==> (scales[j], mins[j]) == ScaleMin4(s, j)
  {
    hide Crumb, Crumbs, Lows, Highs, LowSix, HighSix, Word, WordBytes, Sixes, Six1, Six1s;
    var u0, u1, u2, u3 := Word(s, 0), Word(s, 4), Word(s, 8), 0;
    WordSix1s(s, 0);
    WordSix1s(s, 4);
    LowSixes(s, 8, 0, 3);
    HighSixes(s, 8, 4, 3);
    u3 := Sixes(Highs(u2), Crumbs(u1, 3));
    var uaux := Six1s(u1);
    u1 := Sixes(Lows(u2), Crumbs(u0, 3));
    u2 := uaux;
    u0 := Six1s(u0);
    scales := WordBytes(u0) + WordBytes(u1);
    mins := WordBytes(u2) + WordBytes(u3);
  }
}
