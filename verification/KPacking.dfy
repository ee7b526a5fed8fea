/** Packing levels and scales into the bytes of a super-block: decoding gives them back. */
module KPacking {
  import opened KBlocks
  import opened KMeaning

  /** Levels of one super-block, each below `bound`. */
  ghost predicate Levels(L: seq<bv8>, bound: bv8) {
    |L| == QK && forall e :: 0 <= e < QK ==> L[e] < bound
  }

  ghost predicate Below(s: seq<bv8>, n: nat, bound: bv8) {
    |s| == n && forall j :: 0 <= j < n ==> s[j] < bound
  }

  // ---------------------------------------------------------------- bits

  function FourCrumbs(a: bv8, b: bv8, c: bv8, d: bv8): bv8 {
    a | (b << 2) | (c << 4) | (d << 6)
  }

  lemma FourCrumbs0(a: bv8, b: bv8, c: bv8, d: bv8)
    requires a < 4 && b < 4 && c < 4 && d < 4
    ensures FourCrumbs(a, b, c, d) & 3 == a
  {
  }

  lemma FourCrumbs1(a: bv8, b: bv8, c: bv8, d: bv8)
    requires a < 4 && b < 4 && c < 4 && d < 4
    ensures (FourCrumbs(a, b, c, d) >> 2) & 3 == b
  {
  }

  lemma FourCrumbs2(a: bv8, b: bv8, c: bv8, d: bv8)
    requires a < 4 && b < 4 && c < 4 && d < 4
    ensures (FourCrumbs(a, b, c, d) >> 4) & 3 == c
  {
  }

  lemma FourCrumbs3(a: bv8, b: bv8, c: bv8, d: bv8)
    requires a < 4 && b < 4 && c < 4 && d < 4
    ensures FourCrumbs(a, b, c, d) >> 6 == d
  {
  }

  lemma CrumbsBack(a: bv8, b: bv8, c: bv8, d: bv8)
    requires a < 4 && b < 4 && c < 4 && d < 4
    ensures var q := FourCrumbs(a, b, c, d);
      Crumb(q, 0) == a && Crumb(q, 1) == b && Crumb(q, 2) == c && Crumb(q, 3) == d
  {
    hide FourCrumbs;
    FourCrumbs0(a, b, c, d);
    FourCrumbs1(a, b, c, d);
    FourCrumbs2(a, b, c, d);
    FourCrumbs3(a, b, c, d);
    CrumbAt(FourCrumbs(a, b, c, d));
  }

  function TwoNibbles(low: bv8, high: bv8): bv8 {
    low | (high << 4)
  }

  lemma LowBack(low: bv8, high: bv8)
    requires low < 16
    ensures TwoNibbles(low, high) & 0xF == low
  {
  }

  lemma HighBack(low: bv8, high: bv8)
    requires low < 16 && high < 16
    ensures TwoNibbles(low, high) >> 4 == high
  {
  }

  lemma NibblesBack(low: bv8, high: bv8)
    requires low < 16 && high < 16
    ensures LowInt(TwoNibbles(low, high)) == low as int && HighInt(TwoNibbles(low, high)) == high as int
  {
    hide TwoNibbles;
    LowBack(low, high);
    HighBack(low, high);
  }

  // ---------------------------------------------------------------- two bits

  /** Byte `i` holds its four levels. */
  ghost predicate HoldsFour(q: bv8, L: seq<bv8>, i: nat)
    requires |L| == QK && i < 64
  {
    var e := 128 * (i / 32) + i % 32;
    Crumb(q, 0) == L[e] && Crumb(q, 1) == L[e + 32] && Crumb(q, 2) == L[e + 64] && Crumb(q, 3) == L[e + 96]
  }

  lemma FourHeld(qs: Bytes, L: seq<bv8>, e: nat)
    requires |L| == QK && |qs| == 64 && e < QK && forall i :: 0 <= i < 64 ==> HoldsFour(qs[i], L, i)
    ensures CrumbInt(qs[32 * (e / 128) + e % 32], e % 128 / 32) == L[e] as int
  {
    hide Crumb;
    var n, j, l := e / 128, e % 128 / 32, e % 32;
    var i := 32 * n + l;
    assert i / 32 == n && i % 32 == l && e == 128 * n + 32 * j + l;
    assert HoldsFour(qs[i], L, i);
    assert j == 0 || j == 1 || j == 2 || j == 3;
  }

  method PackCrumbs(L: seq<bv8>) returns (qs: Bytes)
    requires Levels(L, 4)
    ensures |qs| == 64 && forall i :: 0 <= i < 64 ==> HoldsFour(qs[i], L, i)
  {
    hide FourCrumbs, Crumb;
    qs := [];
    for n := 0 to 2
      invariant |qs| == 32 * n && forall i :: 0 <= i < |qs| ==> HoldsFour(qs[i], L, i)
    {
      for l := 0 to 32
        invariant |qs| == 32 * n + l && forall i :: 0 <= i < |qs| ==> HoldsFour(qs[i], L, i)
      {
        var e := 128 * n + l;
        CrumbsBack(L[e], L[e + 32], L[e + 64], L[e + 96]);
        assert (32 * n + l) / 32 == n && (32 * n + l) % 32 == l;
        qs := qs + [FourCrumbs(L[e], L[e + 32], L[e + 64], L[e + 96])];
      }
    }
  }

  /** Two-bit levels with four-bit scales and mins come back. */
  method Pack2(L: seq<bv8>, ls: seq<bv8>, lm: seq<bv8>, d: real, dmin: real) returns (b: BlockQ2)
    requires Levels(L, 4) && Below(ls, 16, 16) && Below(lm, 16, 16)
    ensures Sized2(b) && b.d == d && b.dmin == dmin
    ensures forall e :: 0 <= e < QK ==> Meaning2(b).level[e] == L[e] as int
    ensures forall j :: 0 <= j < 16 ==> Meaning2(b).scale[j] == ls[j] as int && Meaning2(b).min[j] == lm[j] as int
  {
    hide HoldsFour, LowInt, HighInt, CrumbInt, TwoNibbles;
    var scales := ls;
    for j := 0 to 16
      invariant |scales| == 16 && (forall i :: j <= i < 16 ==> scales[i] == ls[i])
      invariant forall i :: 0 <= i < j ==> LowInt(scales[i]) == ls[i] as int && HighInt(scales[i]) == lm[i] as int
    {
      NibblesBack(ls[j], lm[j]);
      scales := scales[j := TwoNibbles(scales[j], lm[j])];
    }
    var qs := PackCrumbs(L);
    b := BlockQ2(scales, qs, d, dmin);
    forall e | 0 <= e < QK
      ensures Level2(b, e) == L[e] as int
    {
      FourHeld(qs, L, e);
    }
  }

  // ---------------------------------------------------------------- single bits

  function Union(h: bv8, m: bv8): bv8 {
    h | m
  }

  /** Adding a bit that is not there sets it and keeps the other seven. */
  lemma UnionOther(h: bv8, m: bv8, u: bv8)
    requires !Overlap(m, u)
    ensures Overlap(Union(h, m), u) <==> Overlap(h, u)
  {
  }

  lemma UnionSelf(h: bv8, m: bv8)
    requires m != 0
    ensures Overlap(Union(h, m), m)
  {
  }

  lemma MasksApart(k: nat, i: nat)
    requires k < 8 && i < 8
    ensures Mask(k) != 0 && (k != i ==> !Overlap(Mask(k), Mask(i)))
  {
    MaskValues();
    assert k == 0 || k == 1 || k == 2 || k == 3 || k == 4 || k == 5 || k == 6 || k == 7;
    assert i == 0 || i == 1 || i == 2 || i == 3 || i == 4 || i == 5 || i == 6 || i == 7;
  }

  lemma MaskValues()
    ensures Mask(0) == 1 && Mask(1) == 2 && Mask(2) == 4 && Mask(3) == 8 && Mask(4) == 16 && Mask(5) == 32
      && Mask(6) == 64 && Mask(7) == 128
  {
  }

  function WithBit(h: bv8, k: nat): bv8
    requires k < 8
  {
    Union(h, Mask(k))
  }

  lemma BitAfter(h: bv8, k: nat, i: nat)
    requires k < 8 && i < 8
    ensures Bit(WithBit(h, k), i) <==> i == k || Bit(h, i)
  {
    hide Mask, Overlap, Union;
    MasksApart(k, i);
    if i == k {
      UnionSelf(h, Mask(k));
    } else {
      UnionOther(h, Mask(k), Mask(i));
    }
  }

  lemma NoBits(k: nat)
    requires k < 8
    ensures !Bit(0, k)
  {
  }

  /** Bit `e / 32` of byte `e % 32` says whether `e` is marked. */
  ghost predicate Marked(h: Bytes, on: seq<bool>) {
    |on| == QK && |h| == 32 && forall e :: 0 <= e < QK ==> (Bit(h[e % 32], e / 32) <==> on[e])
  }

  lemma MarkOne(h: Bytes, on: seq<bool>, n: nat)
    requires n < QK && Marked(h, on)
    ensures Marked(h[n % 32 := WithBit(h[n % 32], n / 32)], on[n := true])
  {
    hide Bit, WithBit;
    var h' := h[n % 32 := WithBit(h[n % 32], n / 32)];
    forall e | 0 <= e < QK
      ensures Bit(h'[e % 32], e / 32) <==> on[n := true][e]
    {
      if e % 32 == n % 32 {
        BitAfter(h[n % 32], n / 32, e / 32);
      }
    }
  }

  method NoMarks() returns (h: Bytes, ghost on: seq<bool>)
    ensures Marked(h, on) && forall e :: 0 <= e < QK ==> !on[e]
  {
    hide Bit;
    h, on := seq(32, _ => 0), seq(QK, _ => false);
    forall e | 0 <= e < QK
      ensures !Bit(h[e % 32], e / 32)
    {
      NoBits(e / 32);
    }
  }

  /** The levels above three go to the mask, and lose four. */
  method SplitHigh(L: seq<bv8>) returns (hmask: Bytes, low: seq<bv8>)
    requires Levels(L, 8)
    ensures Levels(low, 4) && |hmask| == 32
    ensures forall e :: 0 <= e < QK ==> L[e] as int == low[e] as int + if Bit(hmask[e % 32], e / 32) then 4 else 0
  {
    hide Bit, Marked, WithBit;
    ghost var on: seq<bool>;
    hmask, on := NoMarks();
    MarkedSizes(hmask, on);
    low := L;
    var m, k: nat := 0, 0;
    for j := 0 to QK
      invariant m < 32 && j == 32 * k + m && |low| == QK && |hmask| == 32 && |on| == QK && Marked(hmask, on)
      invariant forall e :: 0 <= e < QK ==> (on[e] <==> e < j && L[e] > 3)
      invariant forall e :: 0 <= e < j ==> low[e] < 4 && L[e] as int == low[e] as int + if on[e] then 4 else 0
      invariant forall e :: j <= e < QK ==> low[e] == L[e]
    {
      LessFour(low[j]);
      if low[j] > 3 {
        MarkOne(hmask, on, j);
        on := on[j := true];
        hmask := hmask[m := WithBit(hmask[m], k)];
        low := low[j := low[j] - 4];
      }
      m := m + 1;
      if m == 32 {
        m, k := 0, k + 1;
      }
    }
    MarkedMeans(hmask, on);
  }

  lemma MarkedSizes(h: Bytes, on: seq<bool>)
    requires Marked(h, on)
    ensures |h| == 32 && |on| == QK
  {
  }

  lemma MarkedMeans(h: Bytes, on: seq<bool>)
    requires |h| == 32 && |on| == QK && Marked(h, on)
    ensures forall e :: 0 <= e < QK ==> (Bit(h[e % 32], e / 32) <==> on[e])
  {
  }

  lemma LessFour(q: bv8)
    requires q < 8
    ensures q > 3 ==> q - 4 < 4 && q as int == (q - 4) as int + 4
  {
  }

  // ---------------------------------------------------------------- six-bit scales

  function LowFour(x: bv8): (r: bv8)
    ensures r < 16
  {
    x & 0xF
  }

  function HighTwo(x: bv8): (r: bv8)
    requires x < 64
    ensures r < 4
  {
    x >> 4
  }

  lemma SixBackRaw(x: bv8)
    ensures (x & 0xF) | ((x >> 4) << 4) == x
  {
  }

  lemma SixBack(x: bv8, y: bv8, t: bv8, j: nat)
    requires x < 64 && y < 64 && j < 4
    ensures Crumb(t, j) == HighTwo(x) ==> LowSix(TwoNibbles(LowFour(x), LowFour(y)), t, j) == x
    ensures Crumb(t, j) == HighTwo(y) ==> HighSix(TwoNibbles(LowFour(x), LowFour(y)), t, j) == y
  {
    hide TwoNibbles, Crumb;
    SixBackRaw(x);
    SixBackRaw(y);
    LowBack(LowFour(x), LowFour(y));
    HighBack(LowFour(x), LowFour(y));
  }

  function PutCrumb(t: bv8, x: bv8, c: nat): bv8
    requires c < 4
  {
    t | (x << (2 * c))
  }

  lemma PutCrumb0(a: bv8)
    ensures PutCrumb(0, a, 0) == FourCrumbs(a, 0, 0, 0)
  {
  }

  lemma PutCrumb1(a: bv8, b: bv8)
    ensures PutCrumb(FourCrumbs(a, 0, 0, 0), b, 1) == FourCrumbs(a, b, 0, 0)
  {
  }

  lemma PutCrumb2(a: bv8, b: bv8, c: bv8)
    ensures PutCrumb(FourCrumbs(a, b, 0, 0), c, 2) == FourCrumbs(a, b, c, 0)
  {
  }

  lemma PutCrumb3(a: bv8, b: bv8, c: bv8, d: bv8)
    ensures PutCrumb(FourCrumbs(a, b, c, 0), d, 3) == FourCrumbs(a, b, c, d)
  {
  }

  lemma NoCrumbs()
    ensures FourCrumbs(0, 0, 0, 0) == 0
  {
  }

  /** The high crumbs of the scales `k`, `4 + k`, `8 + k` and `12 + k` among the first `n`. */
  function Tops(ls: seq<bv8>, k: nat, n: nat): bv8
    requires Below(ls, 16, 64) && k < 4
  {
    FourCrumbs(if k < n then HighTwo(ls[k]) else 0, if 4 + k < n then HighTwo(ls[4 + k]) else 0,
               if 8 + k < n then HighTwo(ls[8 + k]) else 0, if 12 + k < n then HighTwo(ls[12 + k]) else 0)
  }

  lemma TopsMore(ls: seq<bv8>, n: nat)
    requires Below(ls, 16, 64) && n < 16
    ensures Tops(ls, n % 4, n + 1) == PutCrumb(Tops(ls, n % 4, n), HighTwo(ls[n]), n / 4)
    ensures forall k :: 0 <= k < 4 && k != n % 4 ==> Tops(ls, k, n + 1) == Tops(ls, k, n)
  {
    hide FourCrumbs, PutCrumb, HighTwo;
    var k := n % 4;
    NoCrumbs();
    if n < 4 {
      PutCrumb0(HighTwo(ls[k]));
    } else if n < 8 {
      PutCrumb1(HighTwo(ls[k]), HighTwo(ls[4 + k]));
    } else if n < 12 {
      PutCrumb2(HighTwo(ls[k]), HighTwo(ls[4 + k]), HighTwo(ls[8 + k]));
    } else {
      PutCrumb3(HighTwo(ls[k]), HighTwo(ls[4 + k]), HighTwo(ls[8 + k]), HighTwo(ls[12 + k]));
    }
  }

  function NibblesBefore(ls: seq<bv8>, i: nat, n: nat): bv8
    requires Below(ls, 16, 64) && i < 8
  {
    if i + 8 < n then TwoNibbles(LowFour(ls[i]), LowFour(ls[i + 8])) else if i < n then LowFour(ls[i]) else 0
  }

  method PackScales3(ls: seq<bv8>) returns (s: Bytes)
    requires Below(ls, 16, 64)
    ensures |s| == 12 && forall j :: 0 <= j < 16 ==> Scale3(s, j) == ls[j]
  {
    hide FourCrumbs, PutCrumb, HighTwo, LowFour, TwoNibbles, Tops, Scale3;
    s := seq(12, _ => 0);
    NoTops(ls);
    for j := 0 to 16
      invariant |s| == 12 && forall i :: 8 <= i < 12 ==> s[i] == Tops(ls, i - 8, j)
      invariant forall i :: 0 <= i < 8 ==> s[i] == NibblesBefore(ls, i, j)
    {
      ghost var before := s;
      if j < 8 {
        s := s[j := LowFour(ls[j])];
      } else {
        s := s[j - 8 := TwoNibbles(s[j - 8], LowFour(ls[j]))];
      }
      TopsMore(ls, j);
      s := s[j % 4 + 8 := PutCrumb(s[j % 4 + 8], HighTwo(ls[j]), j / 4)];
      forall i | 0 <= i < 8
        ensures s[i] == NibblesBefore(ls, i, j + 1)
      {
        assert before[i] == NibblesBefore(ls, i, j);
      }
      forall i | 8 <= i < 12
        ensures s[i] == Tops(ls, i - 8, j + 1)
      {
        assert before[i] == Tops(ls, i - 8, j);
      }
    }
    forall j | 0 <= j < 16
      ensures Scale3(s, j) == ls[j]
    {
      ScaleBack3(s, ls, j);
    }
  }

  lemma NoTops(ls: seq<bv8>)
    requires Below(ls, 16, 64)
    ensures forall k :: 0 <= k < 4 ==> Tops(ls, k, 0) == 0
  {
    hide FourCrumbs;
    NoCrumbs();
  }

  lemma ScaleBack3(s: Bytes, ls: seq<bv8>, j: nat)
    requires Below(ls, 16, 64) && |s| == 12 && j < 16
    requires s[8 + j % 4] == Tops(ls, j % 4, 16) && s[j % 8] == TwoNibbles(LowFour(ls[j % 8]), LowFour(ls[j % 8 + 8]))
    ensures Scale3(s, j) == ls[j]
  {
    hide FourCrumbs, HighTwo, LowFour, TwoNibbles, Crumb, LowSix, HighSix;
    var k := j % 4;
    CrumbsBack(HighTwo(ls[k]), HighTwo(ls[4 + k]), HighTwo(ls[8 + k]), HighTwo(ls[12 + k]));
    SixBack(ls[j % 8], ls[j % 8 + 8], s[8 + k], j / 4);
    assert j == 4 * (j / 4) + k;
  }

  /** A six-bit number below the high crumb of another. */
  function UnderTop(a: bv8, x: bv8): bv8
    requires x < 64
  {
    a | (HighTwo(x) << 6)
  }

  lemma UnderTopSix(a: bv8, x: bv8)
    requires a < 64 && x < 64
    ensures UnderTop(a, x) & 63 == a
  {
  }

  lemma UnderTopCrumb(a: bv8, x: bv8)
    requires a < 64 && x < 64
    ensures UnderTop(a, x) >> 6 == x >> 4
  {
  }

  lemma UnderTopBack(a: bv8, x: bv8)
    requires a < 64 && x < 64
    ensures Six1(UnderTop(a, x)) == a && Crumb(UnderTop(a, x), 3) == HighTwo(x)
  {
    hide UnderTop;
    UnderTopSix(a, x);
    UnderTopCrumb(a, x);
    CrumbAt(UnderTop(a, x));
  }

  /** Byte `i` once the first `n` scales and mins are in. */
  function ScaleByte(ls: seq<bv8>, lm: seq<bv8>, i: nat, n: nat): bv8
    requires Below(ls, 8, 64) && Below(lm, 8, 64) && i < 12
  {
    if i < 4 then (if i + 4 < n then UnderTop(ls[i], ls[i + 4]) else if i < n then ls[i] else 0)
    else if i < 8 then (if i < n then UnderTop(lm[i - 4], lm[i]) else if i - 4 < n then lm[i - 4] else 0)
    else if i - 4 < n then TwoNibbles(LowFour(ls[i - 4]), LowFour(lm[i - 4])) else 0
  }

  method PackScales4(ls: seq<bv8>, lm: seq<bv8>) returns (s: Bytes)
    requires Below(ls, 8, 64) && Below(lm, 8, 64)
    ensures |s| == 12 && forall j :: 0 <= j < 8 ==> ScaleMin4(s, j) == (ls[j], lm[j])
  {
    hide UnderTop, HighTwo, LowFour, TwoNibbles, ScaleMin4;
    s := seq(12, _ => 0);
    for j := 0 to 8
      invariant |s| == 12
      invariant forall i :: 0 <= i < 12 ==> s[i] == ScaleByte(ls, lm, i, j)
    {
      ghost var before := s;
      if j < 4 {
        s := s[j := ls[j]];
        s := s[j + 4 := lm[j]];
      } else {
        s := s[j + 4 := TwoNibbles(LowFour(ls[j]), LowFour(lm[j]))];
        s := s[j - 4 := UnderTop(s[j - 4], ls[j])];
        s := s[j := UnderTop(s[j], lm[j])];
      }
      forall i | 0 <= i < 12
        ensures s[i] == ScaleByte(ls, lm, i, j + 1)
      {
        assert before[i] == ScaleByte(ls, lm, i, j);
      }
    }
    forall j | 0 <= j < 8
      ensures ScaleMin4(s, j) == (ls[j], lm[j])
    {
      ScaleBack4(s, ls, lm, j);
    }
  }

  lemma ScaleBack4(s: Bytes, ls: seq<bv8>, lm: seq<bv8>, j: nat)
    requires Below(ls, 8, 64) && Below(lm, 8, 64) && |s| == 12 && j < 8
    requires var i := j % 4;
      s[i] == UnderTop(ls[i], ls[i + 4]) && s[i + 4] == UnderTop(lm[i], lm[i + 4])
        && s[i + 8] == TwoNibbles(LowFour(ls[i + 4]), LowFour(lm[i + 4]))
    ensures ScaleMin4(s, j) == (ls[j], lm[j])
  {
    hide UnderTop, HighTwo, LowFour, TwoNibbles, Crumb, LowSix, HighSix, Six1;
    var i := j % 4;
    UnderTopBack(ls[i], ls[i + 4]);
    UnderTopBack(lm[i], lm[i + 4]);
    SixBack(ls[i + 4], lm[i + 4], s[i], 3);
    SixBack(ls[i + 4], lm[i + 4], s[i + 4], 3);
  }

  // ---------------------------------------------------------------- three to six bits

  /** Three-bit levels with six-bit scales come back, moved down by 4 and by 32. */
  method Pack3(L: seq<bv8>, ls: seq<bv8>, d: real) returns (b: BlockQ3)
    requires Levels(L, 8) && Below(ls, 16, 64)
    ensures Sized3(b) && b.d == d
    ensures forall e :: 0 <= e < QK ==> Meaning3(b).level[e] == L[e] as int - 4
    ensures forall j :: 0 <= j < 16 ==> Meaning3(b).scale[j] == SixInt(ls[j]) - 32
  {
    hide HoldsFour, CrumbInt, Bit, Scale3, SixInt, Levels;
    var scales := PackScales3(ls);
    var hmask, low := SplitHigh(L);
    var qs := PackCrumbs(low);
    b := BlockQ3(hmask, qs, scales, d);
    LevelCount(L, 8);
    LevelCount(low, 4);
    forall e | 0 <= e < QK
      ensures Level3(b, e) == L[e] as int - 4
    {
      FourHeld(qs, low, e);
    }
  }

  lemma LevelCount(L: seq<bv8>, bound: bv8)
    requires Levels(L, bound)
    ensures |L| == QK
  {
  }

  /** Byte `i` holds its two levels. */
  ghost predicate HoldsTwo(q: bv8, L: seq<bv8>, i: nat)
    requires |L| == QK && i < 128
  {
    var e := 64 * (i / 32) + i % 32;
    LowInt(q) == L[e] as int && HighInt(q) == L[e + 32] as int
  }

  lemma TwoHeld(qs: Bytes, L: seq<bv8>, e: nat)
    requires |L| == QK && |qs| == 128 && e < QK && forall i :: 0 <= i < 128 ==> HoldsTwo(qs[i], L, i)
    ensures Nibble(qs, e) == L[e] as int
  {
    hide LowInt, HighInt;
    var i := 32 * (e / 64) + e % 32;
    assert i / 32 == e / 64 && i % 32 == e % 32;
    assert HoldsTwo(qs[i], L, i);
    assert e == 64 * (i / 32) + i % 32 || e == 64 * (i / 32) + i % 32 + 32;
  }

  method PackNibbles(L: seq<bv8>) returns (qs: Bytes)
    requires Levels(L, 16)
    ensures |qs| == 128 && forall i :: 0 <= i < 128 ==> HoldsTwo(qs[i], L, i)
  {
    hide TwoNibbles, LowInt, HighInt;
    qs := [];
    for n := 0 to 4
      invariant |qs| == 32 * n && forall i :: 0 <= i < |qs| ==> HoldsTwo(qs[i], L, i)
    {
      for l := 0 to 32
        invariant |qs| == 32 * n + l && forall i :: 0 <= i < |qs| ==> HoldsTwo(qs[i], L, i)
      {
        NibblesBack(L[64 * n + l], L[64 * n + l + 32]);
        assert (32 * n + l) / 32 == n && (32 * n + l) % 32 == l;
        qs := qs + [TwoNibbles(L[64 * n + l], L[64 * n + l + 32])];
      }
    }
  }

  /** Four-bit levels with six-bit scales and mins, each for 32 elements, come back. */
  method Pack4(L: seq<bv8>, ls: seq<bv8>, lm: seq<bv8>, d: real, dmin: real) returns (b: BlockQ4)
    requires Levels(L, 16) && Below(ls, 8, 64) && Below(lm, 8, 64)
    ensures Sized4(b) && b.d == d && b.dmin == dmin
    ensures forall e :: 0 <= e < QK ==> Meaning4(b).level[e] == L[e] as int
    ensures forall j :: 0 <= j < 16 ==>
      Meaning4(b).scale[j] == SixInt(ls[j / 2]) && Meaning4(b).min[j] == SixInt(lm[j / 2])
  {
    hide HoldsTwo, Nibble, ScaleMin4, SixInt;
    var scales := PackScales4(ls, lm);
    var qs := PackNibbles(L);
    b := BlockQ4(d, dmin, scales, qs);
    forall e | 0 <= e < QK
      ensures Nibble(b.qs, e) == L[e] as int
    {
      TwoHeld(qs, L, e);
    }
  }

  function Drop(q: bv8): (r: bv8)
    requires q < 32
    ensures r < 16 && q as int == r as int + if q > 15 then 16 else 0
  {
    if q > 15 then q - 16 else q
  }

  /** The marks of the first `n` pairs of planes, and of `j` columns of the next. */
  ghost predicate MarkedTo(on: seq<bool>, L: seq<bv8>, n: nat, j: nat)
    requires |on| == |L| == QK
  {
    forall e :: 0 <= e < QK ==> (on[e] <==> (e < 64 * n || (e < 64 * n + 64 && e % 32 < j)) && L[e] > 15)
  }

  lemma NoneMarked(on: seq<bool>, L: seq<bv8>)
    requires |on| == |L| == QK && forall e :: 0 <= e < QK ==> !on[e]
    ensures MarkedTo(on, L, 0, 0)
  {
  }

  lemma NextPlanes(on: seq<bool>, L: seq<bv8>, n: nat)
    requires |on| == |L| == QK && MarkedTo(on, L, n, 32)
    ensures MarkedTo(on, L, n + 1, 0)
  {
  }

  lemma AllMarked(on: seq<bool>, L: seq<bv8>)
    requires |on| == |L| == QK && MarkedTo(on, L, 4, 0)
    ensures forall e :: 0 <= e < QK ==> (on[e] <==> L[e] > 15)
  {
  }

  lemma PairMarked(on: seq<bool>, L: seq<bv8>, n: nat, j: nat)
    requires |on| == |L| == QK && n < 4 && j < 32 && MarkedTo(on, L, n, j)
    ensures !on[64 * n + j] && !on[64 * n + j + 32]
    ensures MarkedTo(on[64 * n + j := L[64 * n + j] > 15][64 * n + j + 32 := L[64 * n + j + 32] > 15], L, n, j + 1)
  {
    var a, b := 64 * n + j, 64 * n + j + 32;
    var on' := on[a := L[a] > 15][b := L[b] > 15];
    assert a % 32 == j && b % 32 == j;
    forall e | 0 <= e < QK
      ensures on'[e] <==> (e < 64 * n || (e < 64 * n + 64 && e % 32 < j + 1)) && L[e] > 15
    {
      assert on[e] <==> (e < 64 * n || (e < 64 * n + 64 && e % 32 < j)) && L[e] > 15;
      assert 64 * n <= e < 64 * n + 64 && e % 32 == j ==> e == a || e == b;
    }
  }

  lemma PairHeld(low: seq<bv8>, n: nat, j: nat, q: bv8)
    requires |low| == QK && n < 4 && j < 32 && LowInt(q) == low[64 * n + j] as int
      && HighInt(q) == low[64 * n + j + 32] as int
    ensures HoldsTwo(q, low, 32 * n + j)
  {
    hide LowInt, HighInt;
    assert (32 * n + j) / 32 == n && (32 * n + j) % 32 == j;
  }

  method MarkIf(h: Bytes, ghost on: seq<bool>, e: nat, k: nat, marked: bool) returns (h': Bytes, ghost on': seq<bool>)
    requires e < QK && k == e / 32 && |h| == 32 && |on| == QK && Marked(h, on) && !on[e]
    ensures |h'| == 32 && on' == on[e := marked] && Marked(h', on')
  {
    hide Marked, WithBit;
    h', on' := h, on;
    if marked {
      MarkOne(h, on, e);
      on' := on[e := true];
      h' := h[e % 32 := WithBit(h[e % 32], k)];
    }
  }

  /** The levels above fifteen lose sixteen; their marks go to the bits of `qh`, two planes at a time. */
  method SplitTop(L: seq<bv8>) returns (qh: Bytes, qs: Bytes, ghost low: seq<bv8>)
    requires Levels(L, 32)
    ensures |qh| == 32 && |qs| == 128 && |low| == QK
    ensures forall e :: 0 <= e < QK ==> L[e] as int == low[e] as int + if Bit(qh[e % 32], e / 32) then 16 else 0
    ensures forall i :: 0 <= i < 128 ==> HoldsTwo(qs[i], low, i)
  {
    hide LowInt, HighInt, Bit, TwoNibbles, Marked, Drop, HoldsTwo, MarkedTo;
    ghost var on: seq<bool>;
    qh, on := NoMarks();
    MarkedSizes(qh, on);
    qs := [];
    low := seq(QK, e requires 0 <= e < QK => Drop(L[e]));
    NoneMarked(on, L);
    for n := 0 to 4
      invariant |qs| == 32 * n && |qh| == 32 && |on| == QK && Marked(qh, on) && MarkedTo(on, L, n, 0)
      invariant forall i :: 0 <= i < |qs| ==> HoldsTwo(qs[i], low, i)
    {
      for j := 0 to 32
        invariant |qs| == 32 * n + j && |qh| == 32 && |on| == QK && Marked(qh, on) && MarkedTo(on, L, n, j)
        invariant forall i :: 0 <= i < |qs| ==> HoldsTwo(qs[i], low, i)
      {
        var l1, l2 := L[64 * n + j], L[64 * n + j + 32];
        PairMarked(on, L, n, j);
        qh, on := MarkIf(qh, on, 64 * n + j, 2 * n, l1 > 15);
        qh, on := MarkIf(qh, on, 64 * n + j + 32, 2 * n + 1, l2 > 15);
        NibblesBack(Drop(l1), Drop(l2));
        PairHeld(low, n, j, TwoNibbles(Drop(l1), Drop(l2)));
        qs := qs + [TwoNibbles(Drop(l1), Drop(l2))];
      }
      NextPlanes(on, L, n);
    }
    AllMarked(on, L);
    MarkedMeans(qh, on);
  }

  /** Five-bit levels with six-bit scales and mins, each for 32 elements, come back. */
  method Pack5(L: seq<bv8>, ls: seq<bv8>, lm: seq<bv8>, d: real, dmin: real) returns (b: BlockQ5)
    requires Levels(L, 32) && Below(ls, 8, 64) && Below(lm, 8, 64)
    ensures Sized5(b) && b.d == d && b.dmin == dmin
    ensures forall e :: 0 <= e < QK ==> Meaning5(b).level[e] == L[e] as int
    ensures forall j :: 0 <= j < 16 ==>
      Meaning5(b).scale[j] == SixInt(ls[j / 2]) && Meaning5(b).min[j] == SixInt(lm[j / 2])
  {
    hide HoldsTwo, Nibble, ScaleMin4, SixInt, Bit;
    var scales := PackScales4(ls, lm);
    var qh, qs;
    ghost var low;
    qh, qs, low := SplitTop(L);
    b := BlockQ5(d, dmin, scales, qh, qs);
    forall e | 0 <= e < QK
      ensures Level5(b, e) == L[e] as int
    {
      TwoHeld(qs, low, e);
    }
  }

  /** Column `l` of half `n`: the nibbles of its four levels, and their high crumbs. */
  ghost predicate Column6(ql: Bytes, qh: Bytes, L: seq<bv8>, n: nat, l: nat)
    requires |ql| == 128 && |qh| == 64 && Levels(L, 64) && n < 2 && l < 32
  {
    var e := 128 * n + l;
    && ql[64 * n + l] == TwoNibbles(LowFour(L[e]), LowFour(L[e + 64]))
    && ql[64 * n + 32 + l] == TwoNibbles(LowFour(L[e + 32]), LowFour(L[e + 96]))
    && qh[32 * n + l] == FourCrumbs(HighTwo(L[e]), HighTwo(L[e + 32]), HighTwo(L[e + 64]), HighTwo(L[e + 96]))
  }

  lemma ColumnHeld(b: BlockQ6, L: seq<bv8>, n: nat, c: nat, l: nat)
    requires Sized6(b) && Levels(L, 64) && n < 2 && c < 4 && l < 32 && Column6(b.ql, b.qh, L, n, l)
    ensures Level6(b, 128 * n + 32 * c + l) == SixInt(L[128 * n + 32 * c + l]) - 32
  {
    hide FourCrumbs, HighTwo, LowFour, TwoNibbles, LowSix, HighSix, SixInt, Level6;
    var f := 128 * n + l;
    Level6In(b, n, c, l);
    SixesHeld(L[f], L[f + 32], L[f + 64], L[f + 96], b.ql[64 * n + 32 * (c % 2) + l], b.qh[32 * n + l]);
    assert c == 0 || c == 1 || c == 2 || c == 3;
  }

  lemma ColumnsHeld(b: BlockQ6, L: seq<bv8>)
    requires Sized6(b) && Levels(L, 64) && forall m: nat, l: nat :: m < 2 && l < 32 ==> Column6(b.ql, b.qh, L, m, l)
    ensures forall e :: 0 <= e < QK ==> Meaning6(b).level[e] == SixInt(L[e]) - 32
  {
    hide Level6, SixInt, Column6;
    forall e | 0 <= e < QK
      ensures Level6(b, e) == SixInt(L[e]) - 32
    {
      assert Column6(b.ql, b.qh, L, e / 128, e % 32);
      ColumnHeld(b, L, e / 128, e % 128 / 32, e % 32);
    }
  }

  lemma SixesHeld(x: bv8, y: bv8, z: bv8, w: bv8, q: bv8, h: bv8)
    requires x < 64 && y < 64 && z < 64 && w < 64 && h == FourCrumbs(HighTwo(x), HighTwo(y), HighTwo(z), HighTwo(w))
    ensures q == TwoNibbles(LowFour(x), LowFour(z)) ==> LowSix(q, h, 0) == x && HighSix(q, h, 2) == z
    ensures q == TwoNibbles(LowFour(y), LowFour(w)) ==> LowSix(q, h, 1) == y && HighSix(q, h, 3) == w
  {
    hide FourCrumbs, HighTwo, LowFour, TwoNibbles, Crumb, LowSix, HighSix;
    CrumbsBack(HighTwo(x), HighTwo(y), HighTwo(z), HighTwo(w));
    SixBack(x, z, h, 0);
    SixBack(x, z, h, 2);
    SixBack(y, w, h, 1);
    SixBack(y, w, h, 3);
  }

  lemma ColumnsKept(ql: Bytes, qh: Bytes, ql': Bytes, qh': Bytes, L: seq<bv8>, n: nat, l: nat)
    requires |ql| == |ql'| == 128 && |qh| == |qh'| == 64 && Levels(L, 64) && n < 2 && l < 32
    requires forall i :: 0 <= i < 128 && i != 64 * n + l && i != 64 * n + 32 + l ==> ql'[i] == ql[i]
    requires forall i :: 0 <= i < 64 && i != 32 * n + l ==> qh'[i] == qh[i]
    ensures forall m: nat, k: nat :: m < 2 && k < 32 && (m, k) != (n, l) && Column6(ql, qh, L, m, k) ==>
      Column6(ql', qh', L, m, k)
  {
    hide FourCrumbs, HighTwo, LowFour, TwoNibbles;
    forall m: nat, k: nat | m < 2 && k < 32 && (m, k) != (n, l) && Column6(ql, qh, L, m, k)
      ensures Column6(ql', qh', L, m, k)
    {
      assert 64 * m + k != 64 * n + l && 64 * m + 32 + k != 64 * n + l && 64 * m + k != 64 * n + 32 + l;
    }
  }

  /** Six-bit levels come back, moved down by 32. */
  method Pack6(L: seq<bv8>, scales: seq<int8>, d: real) returns (b: BlockQ6)
    requires Levels(L, 64) && |scales| == 16
    ensures Sized6(b) && b.d == d && b.scales == scales
    ensures forall e :: 0 <= e < QK ==> Meaning6(b).level[e] == SixInt(L[e]) - 32
  {
    hide FourCrumbs, HighTwo, LowFour, TwoNibbles, SixInt;
    var ql: Bytes, qh: Bytes := seq(128, _ => 0), seq(64, _ => 0);
    for n := 0 to 2
      invariant |ql| == 128 && |qh| == 64 && forall m: nat, l: nat :: m < n && l < 32 ==> Column6(ql, qh, L, m, l)
    {
      for l := 0 to 32
        invariant |ql| == 128 && |qh| == 64 && forall m: nat, k: nat :: m < n && k < 32 ==> Column6(ql, qh, L, m, k)
        invariant forall k: nat :: k < l ==> Column6(ql, qh, L, n, k)
      {
        var e := 128 * n + l;
        ghost var ql0, qh0 := ql, qh;
        ql := ql[64 * n + l := TwoNibbles(LowFour(L[e]), LowFour(L[e + 64]))];
        ql := ql[64 * n + 32 + l := TwoNibbles(LowFour(L[e + 32]), LowFour(L[e + 96]))];
        qh := qh[32 * n + l := FourCrumbs(HighTwo(L[e]), HighTwo(L[e + 32]), HighTwo(L[e + 64]), HighTwo(L[e + 96]))];
        ColumnsKept(ql0, qh0, ql, qh, L, n, l);
      }
    }
    b := BlockQ6(ql, qh, scales, d);
    ColumnsHeld(b, L);
  }
}
