/** The packed formats with four, five and eight bits: quantisers, dequantisers, and the projection. */
module SmallFormats {
  import opened KBlocks
  import opened KPacking
  import opened Reals
  import opened SmallBlocks

  // ---------------------------------------------------------------- single bits of a word

  function Twice(m: bv32): bv32 {
    m << 1
  }

  function Halve(q: bv32): bv32 {
    q >> 1
  }

  function Meet(q: bv32, m: bv32): bv32 {
    q & m
  }

  predicate Meets(q: bv32, m: bv32) {
    Meet(q, m) != 0
  }

  function Join32(q: bv32, m: bv32): bv32 {
    q | m
  }

  /** `1 << k` */
  function BitMask(k: nat): bv32 {
    if k == 0 then 1 else Twice(BitMask(k - 1))
  }

  /** `q >> k` */
  function Shifted(q: bv32, k: nat): bv32 {
    if k == 0 then q else Shifted(Halve(q), k - 1)
  }

  lemma HalveMeets(q: bv32, m: bv32)
    ensures Meets(Halve(q), m) <==> Meets(q, Twice(m))
  {
  }

  /** The lowest bit of `q >> k` is bit `k`. */
  lemma {:induction false} ShiftedBit(q: bv32, k: nat)
    ensures Meets(Shifted(q, k), 1) <==> Meets(q, BitMask(k))
    decreases k
  {
    hide Meets, Halve, Twice;
    if k > 0 {
      ShiftedBit(Halve(q), k - 1);
      HalveMeets(q, BitMask(k - 1));
    }
  }

  lemma {:induction false} ShiftedTwice(q: bv32, k: nat, l: nat)
    ensures Shifted(Shifted(q, k), l) == Shifted(q, k + l)
    decreases k
  {
    if k > 0 {
      hide Halve;
      ShiftedTwice(Halve(q), k - 1, l);
    }
  }

  lemma FourUp()
    ensures BitMask(4) == 16 && BitMask(0) == 1
  {
    assert BitMask(1) == 2 && BitMask(2) == 4 && BitMask(3) == 8;
  }

  /** Bit 4 of `q >> k` is bit `k + 4`. */
  lemma ShiftedFourth(q: bv32, k: nat)
    ensures Meets(Shifted(q, k), 16) <==> Meets(q, BitMask(k + 4))
  {
    hide Meets, Halve, Twice;
    ShiftedBit(Shifted(q, k), 4);
    ShiftedTwice(q, k, 4);
    ShiftedBit(q, k + 4);
    FourUp();
  }

  lemma LowestApart(m: bv32)
    ensures !Meets(1, Twice(m))
  {
  }

  lemma TwiceApart(a: bv32, b: bv32)
    requires !Meets(a, b)
    ensures !Meets(Twice(a), Twice(b))
  {
  }

  lemma MeetsSym(a: bv32, b: bv32)
    ensures Meets(a, b) <==> Meets(b, a)
  {
  }

  lemma {:induction false} BitMasksApart(i: nat, k: nat)
    requires i < k
    ensures !Meets(BitMask(i), BitMask(k)) && !Meets(BitMask(k), BitMask(i))
  {
    hide Meets, Twice;
    if i == 0 {
      LowestApart(BitMask(k - 1));
    } else {
      BitMasksApart(i - 1, k - 1);
      TwiceApart(BitMask(i - 1), BitMask(k - 1));
    }
    MeetsSym(BitMask(i), BitMask(k));
  }

  lemma JoinOther(q: bv32, m: bv32, u: bv32)
    requires !Meets(m, u)
    ensures Meets(Join32(q, m), u) <==> Meets(q, u)
  {
    hide Meet, Join32;
    JoinDistributes(q, m, u);
    JoinNothing(Meet(q, u));
  }

  lemma JoinDistributes(q: bv32, m: bv32, u: bv32)
    ensures Meet(Join32(q, m), u) == Join32(Meet(q, u), Meet(m, u))
  {
  }

  lemma JoinNothing(q: bv32)
    ensures Join32(q, 0) == q
  {
  }

  lemma JoinSelf(q: bv32, m: bv32)
    requires m != 0
    ensures Meets(Join32(q, m), m)
  {
  }

  lemma BitMaskValues(k: nat)
    requires k < 32
    ensures BitMask(k) != 0
  {
    assert BitMask(1) == 2 && BitMask(2) == 4 && BitMask(3) == 8 && BitMask(4) == 16 && BitMask(5) == 32
      && BitMask(6) == 64 && BitMask(7) == 128;
    assert BitMask(8) == 0x100 && BitMask(9) == 0x200 && BitMask(10) == 0x400 && BitMask(11) == 0x800;
    assert BitMask(12) == 0x1000 && BitMask(13) == 0x2000 && BitMask(14) == 0x4000 && BitMask(15) == 0x8000;
    assert BitMask(16) == 0x10000 && BitMask(17) == 0x20000 && BitMask(18) == 0x40000 && BitMask(19) == 0x80000;
    assert BitMask(20) == 0x100000 && BitMask(21) == 0x200000 && BitMask(22) == 0x400000 && BitMask(23) == 0x800000;
    assert BitMask(24) == 0x1000000 && BitMask(25) == 0x2000000 && BitMask(26) == 0x4000000 && BitMask(27) == 0x8000000;
    assert BitMask(28) == 0x10000000 && BitMask(29) == 0x20000000 && BitMask(30) == 0x40000000
      && BitMask(31) == 0x80000000;
  }

  function SetBit(q: bv32, k: nat, on: bool): bv32 {
    if on then Join32(q, BitMask(k)) else q
  }

  lemma SetBitMeets(q: bv32, k: nat, on: bool, i: nat)
    requires k < 32 && i < 32
    ensures Meets(SetBit(q, k, on), BitMask(i))
      <==> (if i == k then on || Meets(q, BitMask(k)) else Meets(q, BitMask(i)))
  {
    hide Meets, Join32, BitMask;
    if on {
      if i == k {
        BitMaskValues(k);
        JoinSelf(q, BitMask(k));
      } else {
        if i < k {
          BitMasksApart(i, k);
        } else {
          BitMasksApart(k, i);
        }
        JoinOther(q, BitMask(k), BitMask(i));
      }
    }
  }

  // ---------------------------------------------------------------- levels as bytes

  function LevelByte(l: int): bv8
    requires 0 <= l < 32
  {
    l as bv8
  }

  function ByteLevel(n: bv8, fifth: bool): (l: int)
    requires n < 16
    ensures 0 <= l < 32
  {
    (if fifth then n | 0x10 else n) as int
  }

  predicate Fifth(b: bv8) {
    b & 0x10 != 0
  }

  lemma FifthRaw(b: bv8)
    requires b < 32
    ensures (if Fifth(b) then (b & 0xF) | 0x10 else b & 0xF) == b
  {
  }

  lemma ByteBack(l: int)
    requires 0 <= l < 32
    ensures LevelByte(l) as int == l && LevelByte(l) < 32
  {
  }

  lemma LevelBack(l: int)
    requires 0 <= l < 32
    ensures ByteLevel(LowFour(LevelByte(l)), Fifth(LevelByte(l))) == l
  {
    hide LevelByte, Fifth;
    ByteBack(l);
    FifthRaw(LevelByte(l));
  }

  // ---------------------------------------------------------------- packing

  /** A block of 32; `qh` holds the fifth bits, `m` the minimum, where the format has them. */
  datatype Block = Block(d: real, m: real, qs: Bytes, qh: bv32)

  ghost predicate Fits(l: seq<int>, bound: int) {
    |l| == N && forall j :: 0 <= j < N ==> 0 <= l[j] < bound
  }

  function NibblesOf(l: seq<int>): (qs: Bytes)
    requires Fits(l, 32)
    ensures |qs| == 16
  {
    seq(16, j requires 0 <= j < 16 => TwoNibbles(LowFour(LevelByte(l[j])), LowFour(LevelByte(l[j + 16]))))
  }

  /** The fifth bits of the first `n` pairs of levels. */
  function FifthsOf(l: seq<int>, n: nat): bv32
    requires Fits(l, 32) && n <= 16
  {
    if n == 0 then 0
    else SetBit(SetBit(FifthsOf(l, n - 1), n - 1, Fifth(LevelByte(l[n - 1]))), n + 15, Fifth(LevelByte(l[n + 15])))
  }

  lemma {:induction false} FifthsBack(l: seq<int>, n: nat, i: nat)
    requires Fits(l, 32) && n <= 16 && i < 32
    ensures Meets(FifthsOf(l, n), BitMask(i)) <==> i % 16 < n && Fifth(LevelByte(l[i]))
  {
    hide Meets, BitMask, SetBit, Fifth, LevelByte;
    if n == 0 {
      NothingMeets(BitMask(i));
    } else {
      FifthsBack(l, n - 1, i);
      SetBitMeets(FifthsOf(l, n - 1), n - 1, Fifth(LevelByte(l[n - 1])), i);
      SetBitMeets(SetBit(FifthsOf(l, n - 1), n - 1, Fifth(LevelByte(l[n - 1]))), n + 15, Fifth(LevelByte(l[n + 15])),
        i);
    }
  }

  lemma NothingMeets(m: bv32)
    ensures !Meets(0, m)
  {
  }

  function LowHalf(q: bv8): (r: bv8)
    ensures r < 16
  {
    q & 0xF
  }

  function HighHalf(q: bv8): (r: bv8)
    ensures r < 16
  {
    q >> 4
  }

  lemma HalvesBack(low: bv8, high: bv8)
    requires low < 16 && high < 16
    ensures LowHalf(TwoNibbles(low, high)) == low && HighHalf(TwoNibbles(low, high)) == high
  {
    hide TwoNibbles;
    LowBack(low, high);
    HighBack(low, high);
  }

  /** The levels a block holds: nibbles, with fifth bits `j` and `j + 16` of `qh`. */
  function LevelAt(qs: Bytes, qh: bv32, j: nat): (l: int)
    requires |qs| == 16 && j < 32
    ensures 0 <= l < 32
  {
    if j < 16 then ByteLevel(LowHalf(qs[j]), Meets(Shifted(qh, j), 1))
    else ByteLevel(HighHalf(qs[j - 16]), Meets(Shifted(qh, j - 4), 16))
  }

  function LevelsOf(qs: Bytes, qh: bv32): (l: seq<int>)
    requires |qs| == 16
    ensures Fits(l, 32)
  {
    seq(N, j requires 0 <= j < N => LevelAt(qs, qh, j))
  }

  /** Packing loses nothing. */
  lemma PackingBack(l: seq<int>)
    requires Fits(l, 32)
    ensures LevelsOf(NibblesOf(l), FifthsOf(l, 16)) == l
  {
    hide ByteLevel, LowHalf, HighHalf, TwoNibbles, LowFour, LevelByte, Fifth, Meets, BitMask, Shifted, FifthsOf;
    var qs, qh := NibblesOf(l), FifthsOf(l, 16);
    forall j | 0 <= j < N
      ensures LevelAt(qs, qh, j) == l[j]
    {
      FifthsBack(l, 16, j);
      LevelBack(l[j]);
      var i := j % 16;
      HalvesBack(LowFour(LevelByte(l[i])), LowFour(LevelByte(l[i + 16])));
      if j < 16 {
        ShiftedBit(qh, j);
      } else {
        ShiftedFourth(qh, j - 4);
      }
    }
  }

  /** Levels below sixteen have no fifth bits. */
  lemma {:induction false} NoFifths(l: seq<int>, n: nat)
    requires Fits(l, 16) && Fits(l, 32) && n <= 16
    ensures FifthsOf(l, n) == 0
  {
    hide Fifth, LevelByte;
    if n > 0 {
      NoFifths(l, n - 1);
      SmallByte(l[n - 1]);
      SmallByte(l[n + 15]);
    }
  }

  lemma SmallByte(l: int)
    requires 0 <= l < 16
    ensures !Fifth(LevelByte(l)) && LowFour(LevelByte(l)) == LevelByte(l)
  {
  }

  // ---------------------------------------------------------------- the packed formats

  function Packed(d: real, m: real, l: seq<int>): Block
    requires Fits(l, 32)
  {
    Block(d, m, NibblesOf(l), FifthsOf(l, 16))
  }

  lemma SymFits(x: seq<real>, half: int)
    requires |x| == N && (half == 8 || half == 16)
    ensures Fits(SymLevels(x, half), 2 * half) && Fits(SymLevels(x, half), 32)
  {
    hide SymLevel, SymScale, Extreme, Abs, Scaled;
    SymScaleOf(x, half);
    forall j | 0 <= j < N
      ensures 0 <= SymLevels(x, half)[j] < 2 * half
    {
      assert x[..|x|] == x;
      SymClose(x[j], SymScale(x, half), half);
    }
  }

  /** The block of the symmetric formats: `half` is 8 for four bits and 16 for five. */
  function SymBlock(x: seq<real>, half: int): Block
    requires |x| == N && (half == 8 || half == 16)
  {
    SymFits(x, half);
    Packed(SymScale(x, half), 0.0, SymLevels(x, half))
  }

  function SymRow(b: Block, half: int): (r: seq<real>)
    requires |b.qs| == 16
    ensures |r| == N
  {
    SymValues(b.d, LevelsOf(b.qs, b.qh), half)
  }

  lemma OffsetFits(x: seq<real>, top: int)
    requires |x| == N && Finite(x) && (top == 15 || top == 31)
    ensures Fits(OffsetLevels(x, top), top + 1) && Fits(OffsetLevels(x, top), 32)
  {
    hide Offset, OffsetScale, Least, Greatest, Abs, Scaled, Finite;
    forall j | 0 <= j < N
      ensures 0 <= OffsetLevels(x, top)[j] <= top
    {
      OffsetElement(x, top, j);
    }
  }

  /** The block of the formats with a minimum: `top` is 15 for four bits and 31 for five. */
  function OffsetBlock(x: seq<real>, top: int): Block
    requires |x| == N && Finite(x) && (top == 15 || top == 31)
  {
    OffsetFits(x, top);
    Packed(OffsetScale(x, top), Least(x, |x|), OffsetLevels(x, top))
  }

  function OffsetRow(b: Block): (r: seq<real>)
    requires |b.qs| == 16
    ensures |r| == N
  {
    OffsetValues(b.d, b.m, LevelsOf(b.qs, b.qh))
  }

  /** Quantising the dequantised block gives the same block, byte for byte; every element is within
      half a step, or a step at the clipped end. */
  lemma SymBlockProjection(x: seq<real>, half: int)
    requires |x| == N && (half == 8 || half == 16)
    ensures var b := SymBlock(x, half);
      && SymBlock(SymRow(b, half), half) == b
      && forall j :: 0 <= j < N ==>
        Abs(x[j] - SymRow(b, half)[j]) <= (if LevelAt(b.qs, b.qh, j) == 2 * half - 1 then 1.0 else 0.5) * Abs(b.d)
  {
    hide SymLevel, SymScale, Extreme, Abs, Scaled, LevelAt, NibblesOf, FifthsOf;
    SymFits(x, half);
    SymProjection(x, half);
    PackingBack(SymLevels(x, half));
    SymScaleOf(x, half);
    forall j | 0 <= j < N
      ensures var b := SymBlock(x, half);
        Abs(x[j] - SymRow(b, half)[j]) <= (if LevelAt(b.qs, b.qh, j) == 2 * half - 1 then 1.0 else 0.5) * Abs(b.d)
    {
      assert x[..|x|] == x;
      SymClose(x[j], SymScale(x, half), half);
      assert LevelsOf(SymBlock(x, half).qs, SymBlock(x, half).qh)[j] == SymLevels(x, half)[j];
    }
  }

  lemma OffsetBlockProjection(x: seq<real>, top: int)
    requires |x| == N && Finite(x) && (top == 15 || top == 31)
    ensures var b := OffsetBlock(x, top);
      && Finite(OffsetRow(b)) && OffsetBlock(OffsetRow(b), top) == b
      && forall j :: 0 <= j < N ==> Abs(x[j] - OffsetRow(b)[j]) <= 0.5 * Abs(b.d)
  {
    hide Offset, OffsetScale, Least, Greatest, Abs, Scaled, Finite, LevelAt, NibblesOf, FifthsOf;
    var d, m, l := OffsetScale(x, top), Least(x, |x|), OffsetLevels(x, top);
    OffsetFits(x, top);
    OffsetProjection(x, top, d, m, l, OffsetValues(d, m, l));
    PackingBack(l);
    forall j | 0 <= j < N
      ensures Abs(x[j] - OffsetValues(d, m, l)[j]) <= 0.5 * Abs(d)
    {
      OffsetElement(x, top, j);
    }
  }

  // ---------------------------------------------------------------- eight bits

  /** A block of 32 signed bytes. */
  datatype Quants = Quants(d: real, q: seq<int8>)

  lemma EightFits(x: seq<real>, j: nat)
    requires j < |x|
    ensures var (d, l) := (EightScale(x), EightLevels(x)[j]);
      -127 <= l <= 127 && Abs(x[j] - Scaled(l, d)) <= 0.5 * Abs(d)
  {
    hide Largest, EightLevel, EightScale, Abs, Scaled;
    EightScaleOf(x);
    EightClose(x[j], EightScale(x));
  }

  function EightBlock(x: seq<real>): (b: Quants)
    requires |x| == N
    ensures |b.q| == N && b.d == EightScale(x) && forall j :: 0 <= j < N ==> b.q[j] as int == EightLevels(x)[j]
  {
    Quants(EightScale(x), seq(N, j requires 0 <= j < N => (EightFits(x, j); EightLevels(x)[j] as int8)))
  }

  function EightRow(b: Quants): (r: seq<real>)
    ensures |r| == |b.q|
  {
    seq(|b.q|, j requires 0 <= j < |b.q| => Scaled(b.q[j] as int, b.d))
  }

  lemma SameEight(x: seq<real>, y: seq<real>)
    requires |x| == |y| == N && EightScale(x) == EightScale(y) && EightLevels(x) == EightLevels(y)
    ensures EightBlock(x) == EightBlock(y)
  {
    hide EightScale, EightLevels;
    assert EightBlock(x).q == EightBlock(y).q;
  }

  /** The same for q8_0, whose levels are never -128. */
  lemma EightBlockProjection(x: seq<real>)
    requires |x| == N
    ensures var b := EightBlock(x);
      && EightBlock(EightRow(b)) == b
      && forall j :: 0 <= j < N ==> -127 <= b.q[j] && Abs(x[j] - EightRow(b)[j]) <= 0.5 * Abs(b.d)
  {
    hide Largest, EightLevel, EightScale, EightLevels, Abs, Scaled;
    var b := EightBlock(x);
    EightProjection(x);
    assert EightRow(b) == EightValues(b.d, EightLevels(x));
    SameEight(x, EightRow(b));
    forall j | 0 <= j < N
      ensures -127 <= b.q[j] && Abs(x[j] - EightRow(b)[j]) <= 0.5 * Abs(b.d)
    {
      EightFits(x, j);
    }
  }

  // ---------------------------------------------------------------- the quantisers

  method FindExtreme(x: seq<real>) returns (max: real)
    ensures max == Extreme(x, |x|)
  {
    hide Abs;
    var amax := 0.0;
    max := 0.0;
    AbsZero();
    for j := 0 to |x|
      invariant max == Extreme(x, j) && amax == Abs(max)
    {
      var v := x[j];
      if amax < Abs(v) {
        amax, max := Abs(v), v;
      }
    }
  }

  lemma AbsZero()
    ensures Abs(0.0) == 0.0
  {
  }

  method FindEnds(x: seq<real>) returns (min: real, max: real)
    ensures min == Least(x, |x|) && max == Greatest(x, |x|)
  {
    min, max := FLT_MAX, -FLT_MAX;
    for j := 0 to |x|
      invariant min == Least(x, j) && max == Greatest(x, j)
    {
      var v := x[j];
      if v < min {
        min := v;
      }
      if v > max {
        max := v;
      }
    }
  }

  lemma NibblesAt(l: seq<int>, j: nat)
    requires Fits(l, 32) && j < 16
    ensures NibblesOf(l)[j] == TwoNibbles(LowFour(LevelByte(l[j])), LowFour(LevelByte(l[j + 16])))
  {
    hide TwoNibbles, LowFour, LevelByte;
  }

  lemma NoFifthsYet(l: seq<int>)
    requires Fits(l, 32)
    ensures FifthsOf(l, 0) == 0
  {
  }

  lemma FifthsMore(l: seq<int>, j: nat)
    requires Fits(l, 32) && j < 16
    ensures FifthsOf(l, j + 1)
      == SetBit(SetBit(FifthsOf(l, j), j, Fifth(LevelByte(l[j]))), j + 16, Fifth(LevelByte(l[j + 16])))
  {
    hide SetBit, Fifth, LevelByte;
  }

  lemma SymLevelsAt(x: seq<real>, half: int, j: nat)
    requires half > 1 && j < |x|
    ensures SymLevels(x, half)[j] == Stepped(x[j], Inverse(SymScale(x, half)), half)
  {
    hide SymLevel, SymScale, Stepped;
    SymLevelIs(x[j], SymScale(x, half), half);
  }

  lemma OffsetLevelsAt(x: seq<real>, top: int, j: nat)
    requires top > 0 && j < |x|
    ensures OffsetLevels(x, top)[j] == SteppedFrom(x[j], Least(x, |x|), Inverse(OffsetScale(x, top)))
  {
    hide Offset, OffsetScale, SteppedFrom, Least;
    OffsetIs(x[j], OffsetScale(x, top), Least(x, |x|));
  }

  /** Nibbles of levels below sixteen. */
  method QuantizeBlockQ4_0(x: seq<real>) returns (b: Block)
    requires |x| == N
    ensures b == SymBlock(x, 8)
  {
    hide Extreme, Inverse, Quotient, SymLevel, Stepped, TwoNibbles, LowFour, LevelByte, FifthsOf, Fifth, SetBit,
      NibblesOf, SymLevels;
    var max := FindExtreme(x);
    var d := Quotient(max, -8.0);
    var id := Inverse(d);
    ghost var l := SymLevels(x, 8);
    SymFits(x, 8);
    NoFifths(l, 16);
    var qs: Bytes := [];
    for j := 0 to 16
      invariant |qs| == j && forall i :: 0 <= i < j ==> qs[i] == NibblesOf(l)[i]
    {
      var xi0, xi1 := Stepped(x[j], id, 8), Stepped(x[16 + j], id, 8);
      SymLevelsAt(x, 8, j);
      SymLevelsAt(x, 8, 16 + j);
      NibblesAt(l, j);
      assert xi0 == l[j] && xi1 == l[16 + j];
      SmallByte(xi0);
      SmallByte(xi1);
      qs := qs + [TwoNibbles(LevelByte(xi0), LevelByte(xi1))];
    }
    b := Block(d, 0.0, qs, 0);
    assert qs == NibblesOf(l);
  }

  function Minimum(a: int, b: int): int {
    if a < b then a else b
  }

  /** `MIN(2 * half - 1, (int8_t)(v * id + half + 0.5))` */
  function Stepped(v: real, id: real, half: int): int {
    Minimum(2 * half - 1, Trunc(v * id + half as real + 0.5))
  }

  /** `(int8_t)((v - m) * id + 0.5)` */
  function SteppedFrom(v: real, m: real, id: real): int {
    Trunc((v - m) * id + 0.5)
  }

  lemma SymLevelIs(v: real, d: real, half: int)
    ensures SymLevel(v, d, half) == Stepped(v, Inverse(d), half)
  {
    hide Inverse, Trunc;
  }

  lemma OffsetIs(v: real, d: real, m: real)
    ensures Offset(v, d, m) == SteppedFrom(v, m, Inverse(d))
  {
    hide Inverse, Trunc;
  }

  /** Low nibbles, with the fifth bits gathered in a word. */
  method QuantizeBlockQ5_0(x: seq<real>) returns (b: Block)
    requires |x| == N
    ensures b == SymBlock(x, 16)
  {
    hide Extreme, Inverse, Quotient, SymLevel, Stepped, TwoNibbles, LowFour, LevelByte, FifthsOf, Fifth, SetBit,
      NibblesOf, SymLevels;
    var max := FindExtreme(x);
    var d := Quotient(max, -16.0);
    var id := Inverse(d);
    ghost var l := SymLevels(x, 16);
    SymFits(x, 16);
    var qs: Bytes, qh: bv32 := [], 0;
    NoFifthsYet(l);
    for j := 0 to 16
      invariant |qs| == j && (forall i :: 0 <= i < j ==> qs[i] == NibblesOf(l)[i]) && qh == FifthsOf(l, j)
    {
      var xi0, xi1 := Stepped(x[j], id, 16), Stepped(x[16 + j], id, 16);
      SymLevelsAt(x, 16, j);
      SymLevelsAt(x, 16, 16 + j);
      NibblesAt(l, j);
      assert xi0 == l[j] && xi1 == l[16 + j];
      qs := qs + [TwoNibbles(LowFour(LevelByte(xi0)), LowFour(LevelByte(xi1)))];
      FifthsMore(l, j);
      qh := SetBit(qh, j, Fifth(LevelByte(xi0)));
      qh := SetBit(qh, j + 16, Fifth(LevelByte(xi1)));
    }
    b := Block(d, 0.0, qs, qh);
    assert qs == NibblesOf(l);
  }

  method QuantizeBlockQ4_1(x: seq<real>) returns (b: Block)
    requires |x| == N && Finite(x)
    ensures b == OffsetBlock(x, 15)
  {
    hide Least, Greatest, Inverse, Quotient, Offset, SteppedFrom, TwoNibbles, LowFour, LevelByte, FifthsOf, Fifth,
      Finite, SetBit, NibblesOf, OffsetLevels;
    var min, max := FindEnds(x);
    var d := Quotient(max - min, 15.0);
    var id := Inverse(d);
    ghost var l := OffsetLevels(x, 15);
    OffsetFits(x, 15);
    NoFifths(l, 16);
    var qs: Bytes := [];
    for j := 0 to 16
      invariant |qs| == j && forall i :: 0 <= i < j ==> qs[i] == NibblesOf(l)[i]
    {
      var xi0, xi1 := Minimum(15, SteppedFrom(x[j], min, id)), Minimum(15, SteppedFrom(x[16 + j], min, id));
      OffsetLevelsAt(x, 15, j);
      OffsetLevelsAt(x, 15, 16 + j);
      NibblesAt(l, j);
      assert xi0 == l[j] && xi1 == l[16 + j];
      SmallByte(xi0);
      SmallByte(xi1);
      qs := qs + [TwoNibbles(LevelByte(xi0), LevelByte(xi1))];
    }
    b := Block(d, min, qs, 0);
    assert qs == NibblesOf(l);
  }

  /** Unlike the four-bit format this one does not clip its levels: they fit anyway. */
  method QuantizeBlockQ5_1(x: seq<real>) returns (b: Block)
    requires |x| == N && Finite(x)
    ensures b == OffsetBlock(x, 31)
  {
    hide Least, Greatest, Inverse, Quotient, Offset, SteppedFrom, TwoNibbles, LowFour, LevelByte, FifthsOf, Fifth,
      Finite, SetBit, NibblesOf, OffsetLevels;
    var min, max := FindEnds(x);
    var d := Quotient(max - min, 31.0);
    var id := Inverse(d);
    ghost var l := OffsetLevels(x, 31);
    OffsetFits(x, 31);
    var qs: Bytes, qh: bv32 := [], 0;
    NoFifthsYet(l);
    for j := 0 to 16
      invariant |qs| == j && (forall i :: 0 <= i < j ==> qs[i] == NibblesOf(l)[i]) && qh == FifthsOf(l, j)
    {
      var xi0, xi1 := SteppedFrom(x[j], min, id), SteppedFrom(x[16 + j], min, id);
      OffsetLevelsAt(x, 31, j);
      OffsetLevelsAt(x, 31, 16 + j);
      NibblesAt(l, j);
      assert xi0 == l[j] && xi1 == l[16 + j];
      qs := qs + [TwoNibbles(LowFour(LevelByte(xi0)), LowFour(LevelByte(xi1)))];
      FifthsMore(l, j);
      qh := SetBit(qh, j, Fifth(LevelByte(xi0)));
      qh := SetBit(qh, j + 16, Fifth(LevelByte(xi1)));
    }
    b := Block(d, min, qs, qh);
    assert qs == NibblesOf(l);
  }

  // ---------------------------------------------------------------- the dequantisers

  lemma {:induction false} ShiftedNothing(k: nat)
    ensures Shifted(0, k) == 0
  {
    if k > 0 {
      ShiftedNothing(k - 1);
    }
  }

  /** Without fifth bits the levels are the nibbles. */
  lemma NibbleLevels(qs: Bytes, j: nat)
    requires |qs| == 16 && j < 16
    ensures LevelAt(qs, 0, j) == LowHalf(qs[j]) as int && LevelAt(qs, 0, j + 16) == HighHalf(qs[j]) as int
  {
    hide LowHalf, HighHalf;
    ShiftedNothing(j);
    ShiftedNothing(j + 12);
  }

  method DequantizeBlockQ4_0(b: Block, y: array<real>, at: nat)
    requires at + N <= y.Length && |b.qs| == 16 && b.qh == 0
    modifies y
    ensures y[..] == old(y[..at]) + SymRow(b, 8) + old(y[at + N..])
  {
    hide LowHalf, HighHalf, Meets, Shifted, ByteLevel, LevelAt, Scaled, SymRow;
    for j := 0 to 16
      invariant forall p :: 0 <= p < y.Length ==>
        y[p] == if at <= p < at + N && (p - at) % 16 < j then SymRow(b, 8)[p - at] else old(y[p])
    {
      NibbleLevels(b.qs, j);
      SymRowAt(b, 8, j);
      SymRowAt(b, 8, j + 16);
      var x0, x1 := LowHalf(b.qs[j]) as int - 8, HighHalf(b.qs[j]) as int - 8;
      y[at + j] := Scaled(x0, b.d);
      y[at + j + 16] := Scaled(x1, b.d);
    }
  }

  lemma SymRowAt(b: Block, half: int, j: nat)
    requires |b.qs| == 16 && j < N
    ensures SymRow(b, half)[j] == Scaled(LevelAt(b.qs, b.qh, j) - half, b.d)
  {
    hide LevelAt, Scaled;
  }

  lemma OffsetRowAt(b: Block, j: nat)
    requires |b.qs| == 16 && j < N
    ensures OffsetRow(b)[j] == Scaled(LevelAt(b.qs, b.qh, j), b.d) + b.m
  {
    hide LevelAt, Scaled;
  }

  lemma PairLevels(qs: Bytes, qh: bv32, j: nat)
    requires |qs| == 16 && j < 16
    ensures LevelAt(qs, qh, j) == ByteLevel(LowHalf(qs[j]), Meets(Shifted(qh, j), 1))
    ensures LevelAt(qs, qh, j + 16) == ByteLevel(HighHalf(qs[j]), Meets(Shifted(qh, j + 12), 16))
  {
    hide LowHalf, HighHalf, Meets, Shifted, ByteLevel;
  }

  method DequantizeBlockQ4_1(b: Block, y: array<real>, at: nat)
    requires at + N <= y.Length && |b.qs| == 16 && b.qh == 0
    modifies y
    ensures y[..] == old(y[..at]) + OffsetRow(b) + old(y[at + N..])
  {
    hide LowHalf, HighHalf, Meets, Shifted, ByteLevel, LevelAt, Scaled, OffsetRow;
    for j := 0 to 16
      invariant forall p :: 0 <= p < y.Length ==>
        y[p] == if at <= p < at + N && (p - at) % 16 < j then OffsetRow(b)[p - at] else old(y[p])
    {
      NibbleLevels(b.qs, j);
      OffsetRowAt(b, j);
      OffsetRowAt(b, j + 16);
      var x0, x1 := LowHalf(b.qs[j]) as int, HighHalf(b.qs[j]) as int;
      y[at + j] := Scaled(x0, b.d) + b.m;
      y[at + j + 16] := Scaled(x1, b.d) + b.m;
    }
  }

  method DequantizeBlockQ5_0(b: Block, y: array<real>, at: nat)
    requires at + N <= y.Length && |b.qs| == 16
    modifies y
    ensures y[..] == old(y[..at]) + SymRow(b, 16) + old(y[at + N..])
  {
    hide LowHalf, HighHalf, Meets, Shifted, ByteLevel, LevelAt, Scaled, SymRow;
    for j := 0 to 16
      invariant forall p :: 0 <= p < y.Length ==>
        y[p] == if at <= p < at + N && (p - at) % 16 < j then SymRow(b, 16)[p - at] else old(y[p])
    {
      PairLevels(b.qs, b.qh, j);
      SymRowAt(b, 16, j);
      SymRowAt(b, 16, j + 16);
      var xh0, xh1 := Meets(Shifted(b.qh, j), 1), Meets(Shifted(b.qh, j + 12), 16);
      var x0, x1 := ByteLevel(LowHalf(b.qs[j]), xh0) - 16, ByteLevel(HighHalf(b.qs[j]), xh1) - 16;
      y[at + j] := Scaled(x0, b.d);
      y[at + j + 16] := Scaled(x1, b.d);
    }
  }

  method DequantizeBlockQ5_1(b: Block, y: array<real>, at: nat)
    requires at + N <= y.Length && |b.qs| == 16
    modifies y
    ensures y[..] == old(y[..at]) + OffsetRow(b) + old(y[at + N..])
  {
    hide LowHalf, HighHalf, Meets, Shifted, ByteLevel, LevelAt, Scaled, OffsetRow;
    for j := 0 to 16
      invariant forall p :: 0 <= p < y.Length ==>
        y[p] == if at <= p < at + N && (p - at) % 16 < j then OffsetRow(b)[p - at] else old(y[p])
    {
      PairLevels(b.qs, b.qh, j);
      OffsetRowAt(b, j);
      OffsetRowAt(b, j + 16);
      var xh0, xh1 := Meets(Shifted(b.qh, j), 1), Meets(Shifted(b.qh, j + 12), 16);
      var x0, x1 := ByteLevel(LowHalf(b.qs[j]), xh0), ByteLevel(HighHalf(b.qs[j]), xh1);
      y[at + j] := Scaled(x0, b.d) + b.m;
      y[at + j + 16] := Scaled(x1, b.d) + b.m;
    }
  }

  method QuantizeBlockQ8_0(x: seq<real>) returns (b: Quants)
    requires |x| == N
    ensures b == EightBlock(x)
  {
    hide Largest, Inverse, Quotient, EightLevel, Abs, Scaled, Round;
    var amax := 0.0;
    NoLargest(x);
    for j := 0 to N
      invariant amax == Largest(x, j)
    {
      LargestMore(x, j);
      amax := if amax > Abs(x[j]) then amax else Abs(x[j]);
    }
    var d := Quotient(amax, 127.0);
    var id := Inverse(d);
    var qs: seq<int8> := [];
    for j := 0 to N
      invariant |qs| == j && forall i :: 0 <= i < j ==> qs[i] as int == EightLevels(x)[i]
    {
      EightFits(x, j);
      EightIs(x[j], d);
      qs := qs + [RoundedStep(x[j], id) as int8];
    }
    b := Quants(d, qs);
    assert qs == EightBlock(x).q;
  }

  method DequantizeBlockQ8_0(b: Quants, y: array<real>, at: nat)
    requires at + N <= y.Length && |b.q| == N
    modifies y
    ensures y[..] == old(y[..at]) + EightRow(b) + old(y[at + N..])
  {
    hide Scaled;
    for j := 0 to N
      invariant forall p :: 0 <= p < y.Length ==> y[p] == if at <= p < at + j then EightRow(b)[p - at] else old(y[p])
    {
      y[at + j] := Scaled(b.q[j] as int, b.d);
    }
  }

  /** `roundf(v * id)` */
  function RoundedStep(v: real, id: real): int {
    Round(v * id)
  }

  lemma EightIs(v: real, d: real)
    ensures EightLevel(v, d) == RoundedStep(v, Inverse(d))
  {
    hide Inverse, Round;
  }

  lemma NoLargest(x: seq<real>)
    ensures Largest(x, 0) == 0.0
  {
  }

  lemma LargestMore(x: seq<real>, j: nat)
    requires j < |x|
    ensures Largest(x, j + 1) == if Largest(x, j) > Abs(x[j]) then Largest(x, j) else Abs(x[j])
  {
  }
}
