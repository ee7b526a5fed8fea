/** The vector dot products of 32-element blocks: absolute values times signed values, with
    wrapping negation and saturating pair sums, against the plain sum of products. */
module SimdDot {
  import opened KBlocks
  import opened KPacking
  import opened SmallBlocks
  import opened SmallFormats
  import opened SmallRows
  import opened Reals

  type Vector = seq<int8>

  /** Negation of a signed byte: -128 stays. */
  function Negated(y: int8): (r: int8)
    ensures r as int == if y == -128 then -128 else -(y as int)
  {
    if y == -128 then -128 else -y
  }

  /** `y` with the sign of `x`: negated, zeroed or kept. */
  function Signed(y: int8, x: int8): int8 {
    if x < 0 then Negated(y) else if x == 0 then 0 else y
  }

  /** A byte read as unsigned. */
  function Unsigned(x: int8): (r: int)
    ensures 0 <= r < 256
  {
    if x < 0 then x as int + 256 else x as int
  }

  function Saturated(r: int): int16 {
    if r < -32768 then -32768 else if r > 32767 then 32767 else r as int16
  }

  /** Unsigned times signed bytes, adjacent products added with saturation. */
  function MaddUbs(a: Vector, b: Vector): (r: seq<int16>)
    requires |a| == |b| == N
    ensures |r| == 16
  {
    seq(16, i requires 0 <= i < 16 => PairSum(a[2 * i], b[2 * i], a[2 * i + 1], b[2 * i + 1]))
  }

  function PairSum(a: int8, b: int8, a': int8, b': int8): int16 {
    Saturated(Unsigned(a) * b as int + Unsigned(a') * b' as int)
  }

  /** Adjacent 16-bit values added in 32 bits. */
  function AddPairs(r: seq<int16>): (s: seq<int32>)
    requires |r| == 16
    ensures |s| == 8
  {
    seq(8, i requires 0 <= i < 8 => r[2 * i] as int32 + r[2 * i + 1] as int32)
  }

  /** `mul_sum_i8_pairs` */
  function MulSumPairs(x: Vector, y: Vector): (s: seq<int32>)
    requires |x| == |y| == N
    ensures |s| == 8
  {
    var ax := seq(N, j requires 0 <= j < N => Signed(x[j], x[j]));
    var sy := seq(N, j requires 0 <= j < N => Signed(y[j], x[j]));
    AddPairs(MaddUbs(ax, sy))
  }

  // ---------------------------------------------------------------- one product

  /** The vector code gets this product right. */
  predicate Right(x: int8, y: int8) {
    !(x < 0 && y == -128)
  }

  function Term(x: int8, y: int8): int {
    Unsigned(Signed(x, x)) * Signed(y, x) as int
  }

  /** A wrong product is too small; a right one is exact. */
  lemma TermExact(x: int8, y: int8)
    ensures Term(x, y) <= x as int * y as int && (Term(x, y) == x as int * y as int <==> Right(x, y))
    ensures -16384 <= Term(x, y) <= 16256
  {
    if x < 0 {
      assert Unsigned(Signed(x, x)) == -(x as int);
    }
    TermBounds(x, y);
  }

  lemma TermBounds(x: int8, y: int8)
    ensures -16384 <= Term(x, y) <= 16256
  {
    ByteProduct(Unsigned(Signed(x, x)), Signed(y, x) as int);
  }

  lemma ByteProduct(u: int, v: int)
    requires 0 <= u <= 128 && -128 <= v <= 127
    ensures -16384 <= u * v <= 16256
  {
    assert u * (v + 128) >= 0;
    assert u * (127 - v) >= 0;
  }

  /** Two products never saturate. */
  lemma NoSaturation(x: int8, y: int8, x': int8, y': int8)
    ensures PairSum(Signed(x, x), Signed(y, x), Signed(x', x'), Signed(y', x')) as int == Term(x, y) + Term(x', y')
  {
    hide Signed, Unsigned;
    TermExact(x, y);
    TermExact(x', y');
  }

  // ---------------------------------------------------------------- one block

  function Products(x: Vector, y: Vector, n: nat): int
    requires |x| == |y| == N && n <= N
  {
    if n == 0 then 0 else Products(x, y, n - 1) + x[n - 1] as int * y[n - 1] as int
  }

  function Terms(x: Vector, y: Vector, n: nat): int
    requires |x| == |y| == N && n <= N
  {
    if n == 0 then 0 else Terms(x, y, n - 1) + Term(x[n - 1], y[n - 1])
  }

  function LaneSum(s: seq<int32>, n: nat): int
    requires n <= |s|
  {
    if n == 0 then 0 else LaneSum(s, n - 1) + s[n - 1] as int
  }

  lemma {:induction false} LanesAreTerms(x: Vector, y: Vector, n: nat)
    requires |x| == |y| == N && n <= 8
    ensures LaneSum(MulSumPairs(x, y), n) == Terms(x, y, 4 * n)
  {
    if n > 0 {
      hide Term, PairSum, Signed;
      var j := 4 * (n - 1);
      LanesAreTerms(x, y, n - 1);
      NoSaturation(x[j], y[j], x[j + 1], y[j + 1]);
      NoSaturation(x[j + 2], y[j + 2], x[j + 3], y[j + 3]);
      assert Terms(x, y, j + 4) == Terms(x, y, j + 3) + Term(x[j + 3], y[j + 3]);
      assert Terms(x, y, j + 3) == Terms(x, y, j + 2) + Term(x[j + 2], y[j + 2]);
      assert Terms(x, y, j + 2) == Terms(x, y, j + 1) + Term(x[j + 1], y[j + 1]);
      assert Terms(x, y, j + 1) == Terms(x, y, j) + Term(x[j], y[j]);
    }
  }

  lemma {:induction false} TermsExact(x: Vector, y: Vector, n: nat)
    requires |x| == |y| == N && n <= N
    ensures Terms(x, y, n) <= Products(x, y, n)
    ensures Terms(x, y, n) == Products(x, y, n) <==> forall j :: 0 <= j < n ==> Right(x[j], y[j])
  {
    if n > 0 {
      hide Term, Right;
      TermsExact(x, y, n - 1);
      TermExact(x[n - 1], y[n - 1]);
    }
  }

  /** The eight lanes add up to the dot product exactly when no negative byte meets -128: errors
      all go the same way and never cancel. */
  lemma LanesExactIff(x: Vector, y: Vector)
    requires |x| == |y| == N
    ensures LaneSum(MulSumPairs(x, y), 8) == Products(x, y, N) <==> forall j :: 0 <= j < N ==> Right(x[j], y[j])
  {
    LanesAreTerms(x, y, 8);
    TermsExact(x, y, N);
  }

  /** A block for which the vector code is wrong. */
  lemma WrongAtMinimum(x: Vector, y: Vector)
    requires x == seq(N, _ => -1) && y == seq(N, _ => -128)
    ensures LaneSum(MulSumPairs(x, y), 8) != Products(x, y, N)
  {
    assert !Right(x[0], y[0]);
    LanesExactIff(x, y);
  }

  // ---------------------------------------------------------------- decoding

  /** One byte of `bytes_from_nibbles_32`: the low nibbles come first. */
  function NibbleByte(qs: Bytes, j: nat): bv8
    requires |qs| == 16 && j < N
  {
    if j < 16 then LowHalf(qs[j]) else HighHalf(qs[j - 16])
  }

  /** One byte of `bytes_from_bits_32`: all ones where byte `j / 8` has bit `j % 8`. */
  function BitByte(qh: bv32, j: nat): bv8 {
    if ByteOf(qh, j / 8) | !Mask(j % 8) == 0xFF then 0xFF else 0
  }

  function ByteOf(qh: bv32, a: nat): bv8 {
    LowByte(Shifted(qh, 8 * a))
  }

  function LowByte(w: bv32): bv8 {
    (w & 0xFF) as bv8
  }

  lemma OneBit(w: bv32, m: bv8)
    requires m & (m - 1) == 0 && m != 0
    ensures (w & 0xFF) as bv8 | !m == 0xFF <==> w & (m as bv32) != 0
  {
  }

  lemma MaskWidens(k: nat)
    requires k < 8
    ensures Mask(k) as bv32 == BitMask(k) && Mask(k) & (Mask(k) - 1) == 0 && Mask(k) != 0
  {
    MaskValues();
    assert BitMask(1) == 2 && BitMask(2) == 4 && BitMask(3) == 8 && BitMask(4) == 16 && BitMask(5) == 32
      && BitMask(6) == 64 && BitMask(7) == 128;
    assert k == 0 || k == 1 || k == 2 || k == 3 || k == 4 || k == 5 || k == 6 || k == 7;
  }

  lemma LowByteBit(w: bv32, k: nat)
    requires k < 8
    ensures LowByte(w) | !Mask(k) == 0xFF <==> Meets(w, BitMask(k))
  {
    hide Mask, BitMask;
    MaskWidens(k);
    OneBit(w, Mask(k));
  }

  lemma BitByteMeans(qh: bv32, j: nat)
    requires j < N
    ensures BitByte(qh, j) == if Meets(qh, BitMask(j)) then 0xFF else 0
  {
    hide Meets, LowByte, Mask, BitMask;
    var a, k := j / 8, j % 8;
    LowByteBit(Shifted(qh, 8 * a), k);
    ShiftedBit(Shifted(qh, 8 * a), k);
    ShiftedTwice(qh, 8 * a, k);
    ShiftedBit(qh, j);
  }

  /** `(~bits & 0xF0) | nibble`, as a signed byte. */
  function WithHigh(nibble: bv8, bits: bv8): bv8 {
    (!bits & 0xF0) | nibble
  }

  function SignedByte(b: bv8): int8 {
    if b < 128 then b as int8 else (b as int - 256) as int8
  }

  function VectorQ4_0(b: Block): (v: Vector)
    requires |b.qs| == 16
    ensures |v| == N
  {
    seq(N, j requires 0 <= j < N => NibbleLess8(NibbleByte(b.qs, j)))
  }

  function NibbleLess8(n: bv8): int8
    requires n < 16
  {
    n as int8 - 8
  }

  function VectorQ5_0(b: Block): (v: Vector)
    requires |b.qs| == 16
    ensures |v| == N
  {
    seq(N, j requires 0 <= j < N => SignedByte(WithHigh(NibbleByte(b.qs, j), BitByte(b.qh, j))))
  }

  lemma HighNibbleSigns(n: bv8)
    requires n < 16
    ensures SignedByte(WithHigh(n, 0xFF)) as int == ByteLevel(n, true) - 16
    ensures SignedByte(WithHigh(n, 0)) as int == ByteLevel(n, false) - 16
  {
  }

  /** The vectors hold the levels, moved down by half their range. */
  lemma VectorsAreLevels(b: Block, j: nat)
    requires |b.qs| == 16 && j < N
    ensures b.qh == 0 ==> VectorQ4_0(b)[j] as int == LevelAt(b.qs, b.qh, j) - 8
    ensures VectorQ5_0(b)[j] as int == LevelAt(b.qs, b.qh, j) - 16
  {
    hide LowHalf, HighHalf, WithHigh, SignedByte, Meets, Shifted, BitMask, BitByte, ByteLevel;
    var n := NibbleByte(b.qs, j);
    HighNibbleSigns(n);
    BitByteMeans(b.qh, j);
    FifthOf(b, j);
    if b.qh == 0 {
      NibbleLevels(b.qs, j % 16);
    }
  }

  lemma FifthOf(b: Block, j: nat)
    requires |b.qs| == 16 && j < N
    ensures LevelAt(b.qs, b.qh, j) == ByteLevel(NibbleByte(b.qs, j), Meets(b.qh, BitMask(j)))
  {
    hide LowHalf, HighHalf, Meets, Shifted, BitMask, ByteLevel;
    if j < 16 {
      ShiftedBit(b.qh, j);
    } else {
      ShiftedFourth(b.qh, j - 4);
    }
  }

  // ---------------------------------------------------------------- all blocks

  /** Sum over the first `n` blocks of the scaled sums of products. */
  function ScalarDot(x: seq<Quants>, y: seq<Quants>, n: nat): real
    requires EightBlocksOk(x) && EightBlocksOk(y) && n <= |x| == |y|
  {
    if n == 0 then 0.0
    else ScalarDot(x, y, n - 1) + Scaled(Products(x[n - 1].q, y[n - 1].q, N), ScalePair(x[n - 1], y[n - 1]))
  }

  function ScalePair(x: Quants, y: Quants): real {
    x.d * y.d
  }

  ghost predicate AllRight(x: seq<Quants>, y: seq<Quants>)
    requires EightBlocksOk(x) && EightBlocksOk(y) && |x| == |y|
  {
    forall i, j :: 0 <= i < |x| && 0 <= j < N ==> Right(x[i].q[j], y[i].q[j])
  }

  /** What the eight-bit quantiser emits is never -128, so the vector code is right. */
  lemma QuantisedAreRight(x: seq<Quants>, y: seq<Quants>)
    requires EightBlocksOk(x) && EightBlocksOk(y) && |x| == |y| && forall i, j :: 0 <= i < |y| && 0 <= j < N ==>
      -127 <= y[i].q[j]
    ensures AllRight(x, y)
  {
    forall i, j | 0 <= i < |x| && 0 <= j < N
      ensures Right(x[i].q[j], y[i].q[j])
    {
      assert -127 <= y[i].q[j];
    }
  }

  function RealLanes(acc: seq<real>, n: nat): real
    requires n <= |acc|
  {
    if n == 0 then 0.0 else RealLanes(acc, n - 1) + acc[n - 1]
  }

  lemma {:induction false} LanesScaled(acc: seq<real>, acc': seq<real>, q: seq<int32>, d: real, n: nat)
    requires |acc| == |acc'| == |q| && n <= |q| && forall l :: 0 <= l < n ==> acc'[l] == acc[l] + Scaled(q[l] as int, d)
    ensures RealLanes(acc', n) == RealLanes(acc, n) + Scaled(LaneSum(q, n), d)
  {
    hide Scaled;
    if n == 0 {
      ZeroTimes(d);
    } else {
      LanesScaled(acc, acc', q, d, n - 1);
      ScaledSum(LaneSum(q, n - 1), q[n - 1] as int, d);
    }
  }

  lemma ScaledSum(k: int, l: int, d: real)
    ensures Scaled(k + l, d) == Scaled(k, d) + Scaled(l, d)
  {
  }

  /** Eight running sums in real numbers, added up at the end. */
  method DotVectors(x: seq<Quants>, y: seq<Quants>) returns (s: real)
    requires EightBlocksOk(x) && EightBlocksOk(y) && |x| == |y| && AllRight(x, y)
    ensures s == ScalarDot(x, y, |x|)
  {
    hide Scaled, MulSumPairs, Products, ScalePair, Right;
    var acc := new real[8](_ => 0.0);
    NoLanes(acc[..], 8);
    for i := 0 to |x|
      invariant RealLanes(acc[..], 8) == ScalarDot(x, y, i)
    {
      var d := ScalePair(x[i], y[i]);
      var q := MulSumPairs(x[i].q, y[i].q);
      ghost var before := acc[..];
      for l := 0 to 8
        invariant forall k :: 0 <= k < l ==> acc[k] == before[k] + Scaled(q[k] as int, d)
        invariant forall k :: l <= k < 8 ==> acc[k] == before[k]
      {
        acc[l] := acc[l] + Scaled(q[l] as int, d);
      }
      LanesScaled(before, acc[..], q, d, 8);
      LanesExactIff(x[i].q, y[i].q);
    }
    s := 0.0;
    for l := 0 to 8
      invariant s == RealLanes(acc[..], l)
    {
      s := s + acc[l];
    }
  }

  lemma {:induction false} NoLanes(acc: seq<real>, n: nat)
    requires n <= |acc| && forall l :: 0 <= l < n ==> acc[l] == 0.0
    ensures RealLanes(acc, n) == 0.0
  {
    if n > 0 {
      NoLanes(acc, n - 1);
    }
  }

  /** The scalar loop of the eight-bit format. */
  method DotScalar(x: seq<Quants>, y: seq<Quants>) returns (sumf: real)
    requires EightBlocksOk(x) && EightBlocksOk(y) && |x| == |y|
    ensures sumf == ScalarDot(x, y, |x|)
  {
    hide Scaled, ScalePair;
    sumf := 0.0;
    for i := 0 to |x|
      invariant sumf == ScalarDot(x, y, i)
    {
      var sumi := 0;
      for j := 0 to N
        invariant sumi == Products(x[i].q, y[i].q, j)
      {
        sumi := sumi + x[i].q[j] as int * y[i].q[j] as int;
      }
      sumf := sumf + Scaled(sumi, ScalePair(x[i], y[i]));
    }
  }

  function BlockQuants(b: Block, half: int): (q: Quants)
    requires |b.qs| == 16 && ((half == 8 && b.qh == 0) || half == 16)
    ensures |q.q| == N
  {
    Quants(b.d, if half == 8 then VectorQ4_0(b) else VectorQ5_0(b))
  }

  /** The scalar loop of the four- and five-bit formats takes the two halves of a block in parallel. */
  method PairedProducts(b: Block, half: int, y: Vector) returns (sumi: int)
    requires |b.qs| == 16 && |y| == N && ((half == 8 && b.qh == 0) || half == 16)
    ensures sumi == Products(BlockQuants(b, half).q, y, N)
  {
    hide VectorQ4_0, VectorQ5_0, LevelAt;
    ghost var x := BlockQuants(b, half).q;
    ghost var low, high := 0, 0;
    sumi := 0;
    for j := 0 to 16
      invariant sumi == low + high && low == Products(x, y, j) && high == Products(x, y, 16 + j) - Products(x, y, 16)
    {
      VectorsAreLevels(b, j);
      VectorsAreLevels(b, j + 16);
      var v0, v1 := LevelAt(b.qs, b.qh, j) - half, LevelAt(b.qs, b.qh, j + 16) - half;
      low, high := low + v0 * y[j] as int, high + v1 * y[j + 16] as int;
      sumi := sumi + (v0 * y[j] as int + v1 * y[j + 16] as int);
    }
  }

  ghost predicate Packed(x: seq<Block>, half: int) {
    (half == 8 || half == 16) && Blocks(x) && (half == 8 ==> forall i :: 0 <= i < |x| ==> x[i].qh == 0)
  }

  /** The vectors of a row of four- or five-bit blocks. */
  function Unpacked(x: seq<Block>, half: int): (r: seq<Quants>)
    requires Packed(x, half)
    ensures |r| == |x| && EightBlocksOk(r)
  {
    seq(|x|, i requires 0 <= i < |x| => BlockQuants(x[i], half))
  }

  /** The scalar loops of q4_0 (`half` is 8) and q5_0 (16). */
  method DotPaired(x: seq<Block>, half: int, y: seq<Quants>) returns (sumf: real)
    requires Packed(x, half) && EightBlocksOk(y) && |x| == |y|
    ensures sumf == ScalarDot(Unpacked(x, half), y, |x|)
  {
    hide Scaled, ScalePair, BlockQuants, Products;
    sumf := 0.0;
    for i := 0 to |x|
      invariant sumf == ScalarDot(Unpacked(x, half), y, i)
    {
      var sumi := PairedProducts(x[i], half, y[i].q);
      sumf := sumf + Scaled(sumi, ScalePair(BlockQuants(x[i], half), y[i]));
    }
  }

  /** One block: the scaled sum of products is the dot product of the dequantised values. */
  lemma {:induction false} ProductsOfValues(x: Quants, y: Quants, n: nat, d: real)
    requires |x.q| == |y.q| == N && n <= N && d == ScalePair(x, y)
    ensures Scaled(Products(x.q, y.q, n), d) == RowDot(EightRow(x), EightRow(y), n)
  {
    hide Scaled, ScalePair;
    if n == 0 {
      ZeroTimes(d);
    } else {
      ProductsOfValues(x, y, n - 1, d);
      ScaledSum(Products(x.q, y.q, n - 1), x.q[n - 1] as int * y.q[n - 1] as int, d);
      ScaledProduct(x.q[n - 1] as int, x, y.q[n - 1] as int, y);
    }
  }

  lemma ScaledProduct(k: int, x: Quants, l: int, y: Quants)
    ensures Scaled(k * l, ScalePair(x, y)) == Scaled(k, x.d) * Scaled(l, y.d)
  {
    assert (k * l) as real == k as real * l as real;
  }

  /** The vectors stand for the same values as the blocks. */
  lemma UnpackedValues(b: Block, half: int)
    requires |b.qs| == 16 && ((half == 8 && b.qh == 0) || half == 16)
    ensures EightRow(BlockQuants(b, half)) == SymRow(b, half)
  {
    hide Scaled, LevelAt, VectorQ4_0, VectorQ5_0;
    forall j | 0 <= j < N
      ensures EightRow(BlockQuants(b, half))[j] == SymRow(b, half)[j]
    {
      VectorsAreLevels(b, j);
    }
  }

  /** The scalar result over all blocks is the dot product of the dequantised rows. */
  lemma {:induction false} DotOfRows(x: seq<Quants>, y: seq<Quants>)
    requires EightBlocksOk(x) && EightBlocksOk(y) && |x| == |y|
    ensures ScalarDot(x, y, |x|) == RowDot(EightRows(x), EightRows(y), N * |x|)
    decreases |x|
  {
    hide Scaled, ScalePair, Products, RowDot, EightRow;
    if x == [] {
      NothingSummed(x, y);
    } else {
      var m := |x| - 1;
      DotOfRows(x[..m], y[..m]);
      PrefixDot(x, y, m, m);
      ProductsOfValues(x[m], y[m], N, ScalePair(x[m], y[m]));
      RowDotJoins(EightRows(x[..m]), EightRows(y[..m]), EightRow(x[m]), EightRow(y[m]), N);
    }
  }

  lemma NothingSummed(x: seq<Quants>, y: seq<Quants>)
    requires x == [] && y == []
    ensures ScalarDot(x, y, 0) == RowDot(EightRows(x), EightRows(y), 0)
  {
  }

  lemma {:induction false} PrefixDot(x: seq<Quants>, y: seq<Quants>, m: nat, n: nat)
    requires EightBlocksOk(x) && EightBlocksOk(y) && n <= m < |x| == |y|
    ensures ScalarDot(x[..m], y[..m], n) == ScalarDot(x, y, n)
  {
    hide Scaled, ScalePair, Products;
    if n > 0 {
      PrefixDot(x, y, m, n - 1);
    }
  }

  /** A row of packed blocks and its unpacked vectors stand for the same values. */
  lemma {:induction false} UnpackedRows(x: seq<Block>, half: int)
    requires Packed(x, half)
    ensures EightRows(Unpacked(x, half)) == SymRows(x, half)
    decreases |x|
  {
    hide EightRow, SymRow, BlockQuants;
    if x != [] {
      var m := |x| - 1;
      UnpackedRows(x[..m], half);
      UnpackedValues(x[m], half);
      assert Unpacked(x, half)[..m] == Unpacked(x[..m], half);
    }
  }

  /** So the scalar loops of q4_0 and q5_0 compute the dot product of the two dequantised rows. */
  lemma PackedDotOfRows(x: seq<Block>, half: int, y: seq<Quants>)
    requires Packed(x, half) && EightBlocksOk(y) && |x| == |y|
    ensures ScalarDot(Unpacked(x, half), y, |x|) == RowDot(SymRows(x, half), EightRows(y), N * |x|)
  {
    hide ScalarDot, RowDot, Unpacked, SymRows, EightRows;
    DotOfRows(Unpacked(x, half), y);
    UnpackedRows(x, half);
  }
}
