/** The integer dot products of super-blocks with eight-bit activations are exact. The loops compute
    in fixed-width integers: that they verify shows that nothing wraps. */
module KDots {
  import opened KBlocks
  import opened KMeaning
  import opened Reals

  datatype BlockQ8K = BlockQ8K(d: real, qs: seq<int8>, bsums: seq<int16>)

  predicate Sized8(b: BlockQ8K) { |b.qs| == QK && |b.bsums| == 16 }

  function GroupSum(q: seq<int8>, j: nat, n: nat): int
    requires |q| == QK && j < 16 && n <= 16
  {
    if n == 0 then 0 else GroupSum(q, j, n - 1) + q[16 * j + n - 1] as int
  }

  /** The block scale is zero, or the sums of the groups of sixteen are right. */
  ghost predicate BsumsOk(b: BlockQ8K) {
    Sized8(b) && (b.d == 0.0 || forall j :: 0 <= j < 16 ==> IsGroupSum(b, j, 16))
  }

  ghost predicate IsGroupSum(b: BlockQ8K, j: nat, n: nat)
    requires Sized8(b) && j < 16 && n <= 16
  {
    b.bsums[j] as int == GroupSum(b.qs, j, n)
  }

  function Values8(b: BlockQ8K): (r: seq<real>)
    requires Sized8(b)
    ensures |r| == QK && forall e :: 0 <= e < QK ==> r[e] == Times(b.d, b.qs[e] as int)
  {
    seq(QK, e requires 0 <= e < QK => Times(b.d, b.qs[e] as int))
  }

  function Row8(y: seq<BlockQ8K>): (r: seq<real>)
    requires forall i :: 0 <= i < |y| ==> Sized8(y[i])
    ensures |r| == QK * |y|
    decreases |y|
  {
    if y == [] then [] else Row8(y[..|y| - 1]) + Values8(y[|y| - 1])
  }

  function DotTo(a: seq<real>, b: seq<real>, n: nat): real
    requires n <= |a| && n <= |b|
  {
    if n == 0 then 0.0 else DotTo(a, b, n - 1) + Product(a[n - 1], b[n - 1])
  }

  function Dot(a: seq<real>, b: seq<real>): real
    requires |a| == |b|
  {
    DotTo(a, b, |a|)
  }

  lemma {:induction false} DotJoined(a: seq<real>, b: seq<real>, c: seq<real>, d: seq<real>, n: nat)
    requires |a| == |b| && |c| == |d| && n <= |c|
    ensures DotTo(a + c, b + d, |a| + n) == Dot(a, b) + DotTo(c, d, n)
  {
    if n == 0 {
      DotPrefix(a, b, c, d, |a|);
    } else {
      DotJoined(a, b, c, d, n - 1);
    }
  }

  lemma {:induction false} DotPrefix(a: seq<real>, b: seq<real>, c: seq<real>, d: seq<real>, n: nat)
    requires |a| == |b| && n <= |a|
    ensures DotTo(a + c, b + d, n) == DotTo(a, b, n)
  {
    if n > 0 {
      DotPrefix(a, b, c, d, n - 1);
    }
  }

  // ---------------------------------------------------------------- one block, in integers

  function IntProduct(a: int, b: int): int {
    a * b
  }

  function Term(s: Super, q: seq<int8>, e: nat): int
    requires Shaped(s) && |q| == QK && e < QK
  {
    IntProduct(IntProduct(q[e] as int, s.level[e]), s.scale[e / 16])
  }

  /** The scaled integer dot product of the first `n` elements. */
  function Isum(s: Super, q: seq<int8>, n: nat): int
    requires Shaped(s) && |q| == QK && n <= QK
  {
    if n == 0 then 0 else Isum(s, q, n - 1) + Term(s, q, n - 1)
  }

  function MinTerm(s: Super, q: seq<int8>, e: nat): int
    requires Shaped(s) && |q| == QK && e < QK
  {
    IntProduct(q[e] as int, s.min[e / 16])
  }

  /** The mins' share of the first `n` elements, element by element. */
  function Esum(s: Super, q: seq<int8>, n: nat): int
    requires Shaped(s) && |q| == QK && n <= QK
  {
    if n == 0 then 0 else Esum(s, q, n - 1) + MinTerm(s, q, n - 1)
  }

  /** The mins' share of the first `n` groups, by their sums. */
  function Msum(s: Super, sums: seq<int16>, n: nat): int
    requires Shaped(s) && |sums| == 16 && n <= 16
  {
    if n == 0 then 0 else Msum(s, sums, n - 1) + IntProduct(sums[n - 1] as int, s.min[n - 1])
  }

  lemma {:induction false} GroupShare(s: Super, q: seq<int8>, j: nat, n: nat)
    requires Shaped(s) && |q| == QK && j < 16 && n <= 16
    ensures Esum(s, q, 16 * j + n) == Esum(s, q, 16 * j) + IntProduct(GroupSum(q, j, n), s.min[j])
  {
    hide IntProduct;
    if n == 0 {
      NoProduct(s.min[j]);
    } else {
      GroupShare(s, q, j, n - 1);
      Distribute(GroupSum(q, j, n - 1), q[16 * j + n - 1] as int, s.min[j]);
    }
  }

  lemma Distribute(a: int, b: int, c: int)
    ensures IntProduct(a + b, c) == IntProduct(a, c) + IntProduct(b, c)
  {
  }

  lemma NoProduct(a: int)
    ensures IntProduct(0, a) == 0
  {
  }

  lemma {:induction false} GroupShares(s: Super, b: BlockQ8K, n: nat)
    requires Shaped(s) && Sized8(b) && n <= 16 && forall j :: 0 <= j < 16 ==> IsGroupSum(b, j, 16)
    ensures Msum(s, b.bsums, n) == Esum(s, b.qs, 16 * n)
  {
    if n > 0 {
      GroupShares(s, b, n - 1);
      assert IsGroupSum(b, n - 1, 16);
      GroupShare(s, b.qs, n - 1, 16);
    }
  }

  lemma ProductStep(d: real, dmin: real, d8: real, scale: int, level: int, min: int, q: int)
    ensures Product(Times(Times(d, scale), level) - Times(dmin, min), Times(d8, q))
         == Times(Product(d, d8), IntProduct(IntProduct(q, level), scale)) - Times(Product(dmin, d8),
           IntProduct(q, min))
  {
    CastProduct(q * level, scale);
    CastProduct(q, level);
    CastProduct(q, min);
  }

  lemma CastProduct(a: int, b: int)
    ensures (a * b) as real == a as real * b as real
  {
  }

  lemma TimesSum(x: real, a: int, b: int)
    ensures Times(x, a + b) == Times(x, a) + Times(x, b)
  {
  }

  lemma {:induction false} BlockElements(s: Super, b: BlockQ8K, n: nat, x: real, y: real)
    requires Shaped(s) && Sized8(b) && n <= QK && x == Product(s.d, b.d) && y == Product(s.dmin, b.d)
    ensures DotTo(Values(s), Values8(b), n) == Times(x, Isum(s, b.qs, n)) - Times(y, Esum(s, b.qs, n))
  {
    hide Times, Term, MinTerm, Values, Values8, Product;
    if n == 0 {
      TimesNone(x);
      TimesNone(y);
    } else {
      BlockElements(s, b, n - 1, x, y);
      TermStep(s, b, n - 1, x, y);
      TimesSum(x, Isum(s, b.qs, n - 1), Term(s, b.qs, n - 1));
      TimesSum(y, Esum(s, b.qs, n - 1), MinTerm(s, b.qs, n - 1));
    }
  }

  lemma TimesNone(x: real)
    ensures Times(x, 0) == 0.0
  {
  }

  lemma TermStep(s: Super, b: BlockQ8K, e: nat, x: real, y: real)
    requires Shaped(s) && Sized8(b) && e < QK && x == Product(s.d, b.d) && y == Product(s.dmin, b.d)
    ensures Product(Values(s)[e], Values8(b)[e]) == Times(x, Term(s, b.qs, e)) - Times(y, MinTerm(s, b.qs, e))
  {
    hide Times, Product, IntProduct;
    ProductStep(s.d, s.dmin, b.d, s.scale[e / 16], s.level[e], s.min[e / 16], b.qs[e] as int);
  }

  /** The integer sums and the two block scales give the block's dot product. When the activations'
      scale is zero the sums of the groups may be anything. */
  lemma BlockDot(s: Super, b: BlockQ8K)
    requires Shaped(s) && BsumsOk(b)
    ensures Dot(Values(s), Values8(b))
      == Times(Product(s.d, b.d), Isum(s, b.qs, QK)) - Times(Product(s.dmin, b.d), Msum(s, b.bsums, 16))
  {
    BlockElements(s, b, QK, Product(s.d, b.d), Product(s.dmin, b.d));
    if b.d != 0.0 {
      GroupShares(s, b, 16);
    }
  }

  // ---------------------------------------------------------------- two bits

  /** The unscaled dot product of the first `n` elements of group `g`. */
  function Gsum(s: Super, q: seq<int8>, g: nat, n: nat): int
    requires Shaped(s) && |q| == QK && g < 16 && n <= 16
  {
    if n == 0 then 0 else Gsum(s, q, g, n - 1) + IntProduct(q[16 * g + n - 1] as int, s.level[16 * g + n - 1])
  }

  lemma {:induction false} GroupScaled(s: Super, q: seq<int8>, g: nat, n: nat)
    requires Shaped(s) && |q| == QK && g < 16 && n <= 16
    ensures Isum(s, q, 16 * g + n) == Isum(s, q, 16 * g) + IntProduct(Gsum(s, q, g, n), s.scale[g])
  {
    hide IntProduct;
    if n == 0 {
      NoProduct(s.scale[g]);
    } else {
      GroupScaled(s, q, g, n - 1);
      var e := 16 * g + n - 1;
      Distribute(Gsum(s, q, g, n - 1), IntProduct(q[e] as int, s.level[e]), s.scale[g]);
      assert e / 16 == g;
    }
  }

  lemma ProductBound(a: int, b: int, m: int, n: int)
    requires -m <= a <= m && -n <= b <= n
    ensures IntProduct(a, b) == a * b && -(m * n) <= a * b <= m * n
  {
    var u, v := if a < 0 then -a else a, if b < 0 then -b else b;
    NaturalBound(u, v, m, n);
    assert a * b == u * v || a * b == -(u * v);
  }

  lemma NaturalBound(u: int, v: int, m: int, n: int)
    requires 0 <= u <= m && 0 <= v <= n
    ensures 0 <= u * v <= m * n
  {
    assert u * v <= u * n;
    assert u * n <= m * n;
  }

  lemma Level2At(b: BlockQ2, n: nat, j: nat, l: nat)
    requires Sized2(b) && n < 2 && j < 4 && l < 32
    ensures Meaning2(b).level[128 * n + 32 * j + l] == CrumbInt(b.qs[32 * n + l], j)
  {
    hide CrumbInt;
    var e := 128 * n + 32 * j + l;
    assert e / 128 == n && e % 128 / 32 == j && e % 32 == l;
  }

  /** One group of sixteen: its dot product, times its scale. */
  method AddGroup2(b: BlockQ2, q8: seq<int8>, n: nat, j: nat, half: nat, isum: int32) returns (r: int32)
    requires Sized2(b) && |q8| == QK && n < 2 && j < 4 && half < 2 && -0x4000_0000 <= isum <= 0x4000_0000
    ensures var g := 8 * n + 2 * j + half;
      r as int == isum as int + IntProduct(Gsum(Meaning2(b), q8, g, 16), LowInt(b.scales[g]))
        && isum as int - 92160 <= r as int <= isum as int + 92160
  {
    hide Meaning2, CrumbInt, LowInt, SuperOk, IntProduct;
    var d := LowInt(b.scales[8 * n + 2 * j + half]) as int32;
    var isuml: int32 := 0;
    for l := 0 to 16
      invariant isuml as int == Gsum(Meaning2(b), q8, 8 * n + 2 * j + half, l) && -384 * l <= isuml as int <= 384 * l
    {
      Level2At(b, n, j, 16 * half + l);
      var q := q8[128 * n + 32 * j + 16 * half + l];
      ProductBound(q as int, CrumbInt(b.qs[32 * n + 16 * half + l], j), 128, 3);
      isuml := isuml + q as int32 * CrumbInt(b.qs[32 * n + 16 * half + l], j) as int32;
    }
    ProductBound(isuml as int, d as int, 6144, 15);
    r := isum + isuml * d;
  }

  lemma Scale2At(b: BlockQ2, g: nat)
    requires Sized2(b) && g < 16
    ensures Meaning2(b).scale[g] == LowInt(b.scales[g])
  {
  }

  method ScaledSum2(b: BlockQ2, q8: seq<int8>) returns (isum: int32)
    requires Sized2(b) && |q8| == QK
    ensures isum as int == Isum(Meaning2(b), q8, QK)
  {
    hide Meaning2, SuperOk, LowInt, HighInt, CrumbInt, IntProduct, Isum, Gsum;
    isum := 0;
    IsumStarts(Meaning2(b), q8);
    for n := 0 to 2
      invariant isum as int == Isum(Meaning2(b), q8, 128 * n) && -737280 * n <= isum as int <= 737280 * n
    {
      for j := 0 to 4
        invariant isum as int == Isum(Meaning2(b), q8, 128 * n + 32 * j)
          && -737280 * n - 184320 * j <= isum as int <= 737280 * n + 184320 * j
      {
        Scale2At(b, 8 * n + 2 * j);
        Scale2At(b, 8 * n + 2 * j + 1);
        GroupScaled(Meaning2(b), q8, 8 * n + 2 * j, 16);
        isum := AddGroup2(b, q8, n, j, 0, isum);
        GroupScaled(Meaning2(b), q8, 8 * n + 2 * j + 1, 16);
        isum := AddGroup2(b, q8, n, j, 1, isum);
      }
    }
  }

  lemma IsumStarts(s: Super, q: seq<int8>)
    requires Shaped(s) && |q| == QK
    ensures Isum(s, q, 0) == 0
  {
  }

  /** `mins` are the mins of the block, each shared by `per` groups. */
  ghost predicate MinsOf(s: Super, mins: seq<int>, per: nat)
    requires Shaped(s) && (per == 1 || per == 2)
  {
    |mins| == 16 / per && forall j :: 0 <= j < 16 ==> mins[j / per] == s.min[j]
  }

  lemma MinBounds(s: Super)
    requires Shaped(s) && SuperOk(s)
    ensures forall j :: 0 <= j < 16 ==> 0 <= s.min[j] < 64
  {
  }

  method MinSum(ghost s: Super, sums: seq<int16>, mins: seq<int>, per: nat) returns (sumi: int32)
    requires Shaped(s) && SuperOk(s) && |sums| == 16 && (per == 1 || per == 2) && MinsOf(s, mins, per)
    ensures sumi as int == Msum(s, sums, 16)
  {
    hide IntProduct, SuperOk;
    MinBounds(s);
    sumi := 0;
    for j := 0 to 16
      invariant sumi as int == Msum(s, sums, j) && -2064384 * j <= sumi as int <= 2064384 * j
    {
      ProductBound(sums[j] as int, mins[j / per], 32768, 63);
      sumi := sumi + sums[j] as int32 * mins[j / per] as int32;
    }
  }

  lemma RowsMore(x: seq<Super>, y: seq<BlockQ8K>, i: nat)
    requires |x| == |y| && i < |x| && (forall k :: 0 <= k < |x| ==> Shaped(x[k]) && Sized8(y[k]) && BsumsOk(y[k]))
    ensures Dot(Row(x[..i + 1]), Row8(y[..i + 1])) == Dot(Row(x[..i]), Row8(y[..i]))
         + Times(Product(x[i].d, y[i].d), Isum(x[i], y[i].qs, QK)) - Times(Product(x[i].dmin, y[i].d),
           Msum(x[i], y[i].bsums, 16))
  {
    hide Times, Product, Isum, Msum, SuperOk, Values, Values8, DotTo;
    assert BsumsOk(y[i]);
    assert x[..i + 1][..i] == x[..i] && y[..i + 1][..i] == y[..i];
    BlockDot(x[i], y[i]);
    DotJoined(Row(x[..i]), Row8(y[..i]), Values(x[i]), Values8(y[i]), QK);
  }

  method Dot2(x: seq<BlockQ2>, y: seq<BlockQ8K>) returns (sumf: real)
    requires |x| == |y| && forall i :: 0 <= i < |x| ==> Sized2(x[i]) && Sized8(y[i]) && BsumsOk(y[i])
    ensures sumf == Dot(Row(Meanings2(x)), Row8(y))
  {
    hide Meaning2, Times, Product, BsumsOk, SuperOk, Row, Row8, Isum, Msum;
    ghost var rows := Meanings2(x);
    EmptyRows(rows, y);
    sumf := 0.0;
    for i := 0 to |x|
      invariant sumf == Dot(Row(rows[..i]), Row8(y[..i]))
    {
      var mins := seq(16, j requires 0 <= j < 16 => HighInt(x[i].scales[j]));
      Mins2(x[i], mins);
      var summs := MinSum(Meaning2(x[i]), y[i].bsums, mins, 1);
      var isum := ScaledSum2(x[i], y[i].qs);
      RowsMore(rows, y, i);
      sumf := sumf + Times(Product(x[i].d, y[i].d), isum as int) - Times(Product(x[i].dmin, y[i].d), summs as int);
    }
    assert rows[..|x|] == rows && y[..|x|] == y;
  }

  lemma Mins2(b: BlockQ2, mins: seq<int>)
    requires Sized2(b) && |mins| == 16 && forall j :: 0 <= j < 16 ==> mins[j] == HighInt(b.scales[j])
    ensures MinsOf(Meaning2(b), mins, 1) && Meaning2(b).d == b.d && Meaning2(b).dmin == b.dmin
  {
  }

  lemma EmptyRows(x: seq<Super>, y: seq<BlockQ8K>)
    ensures Dot(Row(x[..0]), Row8(y[..0])) == 0.0
  {
  }
}
