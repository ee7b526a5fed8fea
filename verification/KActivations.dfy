/** The activation quantiser: it establishes what the integer dot products rely on. */
module KActivations {
  import opened KBlocks
  import opened KMeaning
  import opened KDots
  import opened Reals
  import opened WeightedFit

  /** Within half a step, or within a full step where the level is clipped. */
  ghost predicate Close(x: real, d: real, q: int8) {
    var off := Abs(x - Times(d, q as int));
    off <= Abs(d) / 2.0 || (q == 127 && off <= Abs(d))
  }

  /** `q` is the level nearest to `x / d`, the even one of two, or 127 where that lies above. */
  ghost predicate Rounded(x: real, d: real, q: int8)
    requires d != 0.0
  {
    if x / d > 127.0 then q == 127 else IsNearest(x / d, q as int)
  }

  /** Element `e` is the first of largest magnitude. */
  ghost predicate FirstLargest(x: seq<real>, e: nat) {
    && e < |x|
    && (forall i :: 0 <= i < |x| ==> Abs(x[i]) <= Abs(x[e]))
    && (forall i :: 0 <= i < e ==> Abs(x[i]) < Abs(x[e]))
  }

  method Extreme(x: seq<real>) returns (max: real, amax: real, ghost at: nat)
    ensures amax == Abs(max)
    ensures max == 0.0 ==> forall j :: 0 <= j < |x| ==> x[j] == 0.0
    ensures max != 0.0 ==> FirstLargest(x, at) && x[at] == max
  {
    max, amax, at := 0.0, 0.0, 0;
    for j := 0 to |x|
      invariant amax == Abs(max)
      invariant max == 0.0 ==> forall i :: 0 <= i < j ==> x[i] == 0.0
      invariant max != 0.0 ==> FirstLargest(x[..j], at) && x[at] == max
    {
      var ax := Abs(x[j]);
      if ax > amax {
        amax, max, at := ax, x[j], j;
      }
    }
    assert x[..|x|] == x;
  }

  /** The steps `r == x / d` of an element, for `d == -max / 128`. */
  lemma StepsBounded(x: real, max: real, iscale: real, r: real)
    requires max != 0.0 && Abs(x) <= Abs(max) && iscale == -128.0 / max && r == iscale * x
    ensures -128.0 <= r <= 128.0 && iscale != 0.0
  {
    assert iscale * max == -128.0;
    var t := x / max;
    assert x == t * max;
    RatioBounded(x, max, t);
    assert r == iscale * max * t;
  }

  lemma RatioBounded(x: real, max: real, t: real)
    requires max != 0.0 && Abs(x) <= Abs(max) && x == t * max
    ensures -1.0 <= t <= 1.0
  {
    if t > 1.0 {
      LongerProduct(t, max);
    } else if t < -1.0 {
      LongerProduct(-t, -max);
    }
  }

  lemma LongerProduct(t: real, m: real)
    requires t > 1.0 && m != 0.0
    ensures if m > 0.0 then t * m > m else t * m < m
  {
    if m > 0.0 {
      assert (t - 1.0) * m > 0.0;
    } else {
      assert (t - 1.0) * -m > 0.0;
    }
  }

  lemma StepClose(x: real, iscale: real, d: real, r: real, q: int8)
    requires iscale != 0.0 && d == 1.0 / iscale && r == iscale * x && -128.0 <= r <= 128.0
    requires q as int == if NearestInt(r) > 127 then 127 else NearestInt(r)
    ensures Close(x, d, q)
  {
    var e := r - q as real;
    assert d * iscale == 1.0;
    assert x == d * r by {
      assert d * r == d * iscale * x;
    }
    assert x - Times(d, q as int) == d * e;
    ScaledMagnitude(d, e);
  }

  /** Multiplying by the inverse step is dividing by the step. */
  lemma StepRounded(x: real, iscale: real, d: real, r: real, q: int8)
    requires iscale != 0.0 && d == 1.0 / iscale && r == iscale * x && d != 0.0
    requires q as int == if NearestInt(r) > 127 then 127 else NearestInt(r)
    ensures Rounded(x, d, q)
  {
    assert d * iscale == 1.0;
    var s := x / d;
    assert s * d == x;
    assert iscale * (s * d) == s * (d * iscale);
    assert r == s;
    NearestIntIs(r, q as int);
    ClippedAbove(s, q as int);
  }

  lemma ClippedAbove(r: real, q: int)
    requires q == if NearestInt(r) > 127 then 127 else NearestInt(r)
    ensures if r > 127.0 then q == 127 else q == NearestInt(r)
  {
  }

  lemma ScaledMagnitude(d: real, e: real)
    ensures -0.5 <= e <= 0.5 ==> Abs(d * e) <= Abs(d) / 2.0
    ensures -1.0 <= e <= 1.0 ==> Abs(d * e) <= Abs(d)
  {
    var u, v := Abs(d), Abs(e);
    assert Abs(d * e) == u * v;
    if v <= 0.5 {
      assert u * v <= u * 0.5;
    } else if v <= 1.0 {
      assert u * v <= u * 1.0;
    }
  }

  method Level8(x: real, max: real, iscale: real, d: real) returns (q: int8)
    requires max != 0.0 && iscale == -128.0 / max && iscale != 0.0 && d == 1.0 / iscale && d != 0.0
    requires Abs(x) <= Abs(max)
    ensures Close(x, d, q) && Rounded(x, d, q) && (x == max ==> q == -128)
  {
    hide Close, Rounded, Abs;
    var r := iscale * x;
    StepsBounded(x, max, iscale, r);
    var v := NearestInt(r);
    q := (if v < 127 then v else 127) as int8;
    StepClose(x, iscale, d, r, q);
    StepRounded(x, iscale, d, r, q);
    if x == max {
      LowestLevel(max, iscale, r);
    }
  }

  /** `MIN(127, nearest_int(iscale*x[j]))` */
  method Levels8(x: seq<real>, max: real, iscale: real, d: real) returns (qs: seq<int8>)
    requires |x| == QK && max != 0.0 && iscale == -128.0 / max && iscale != 0.0 && d == 1.0 / iscale
    requires forall e :: 0 <= e < QK ==> Abs(x[e]) <= Abs(max)
    requires d != 0.0
    ensures |qs| == QK && forall e :: 0 <= e < QK ==> Close(x[e], d, qs[e]) && Rounded(x[e], d, qs[e])
    ensures forall e :: 0 <= e < QK && x[e] == max ==> qs[e] == -128
  {
    hide Close, Rounded, Abs;
    qs := [];
    for e := 0 to QK
      invariant |qs| == e && forall i :: 0 <= i < e ==> Close(x[i], d, qs[i]) && Rounded(x[i], d, qs[i])
      invariant forall i :: 0 <= i < e && x[i] == max ==> qs[i] == -128
    {
      var q := Level8(x[e], max, iscale, d);
      qs := qs + [q];
    }
  }

  lemma LowestLevel(max: real, iscale: real, r: real)
    requires max != 0.0 && iscale == -128.0 / max && r == iscale * max
    ensures NearestInt(r) == -128
  {
    assert r == -128.0;
    NearestIntIs(r, -128);
  }

  method GroupSums(qs: seq<int8>) returns (sums: seq<int16>)
    requires |qs| == QK
    ensures |sums| == 16 && forall j :: 0 <= j < 16 ==> sums[j] as int == GroupSum(qs, j, 16)
  {
    sums := [];
    for j := 0 to 16
      invariant |sums| == j && forall i :: 0 <= i < j ==> sums[i] as int == GroupSum(qs, i, 16)
    {
      var sum: int32 := 0;
      for ii := 0 to 16
        invariant sum as int == GroupSum(qs, j, ii) && -128 * ii <= sum as int <= 127 * ii
      {
        sum := sum + qs[16 * j + ii] as int32;
      }
      sums := sums + [sum as int16];
    }
  }

  /** The scale takes the first element of largest magnitude to level -128, and the other levels are
      rounded with it; zeros have scale zero. */
  ghost predicate Scaled8(x: seq<real>, b: BlockQ8K)
    requires |x| == QK && Sized8(b)
  {
    if forall e :: 0 <= e < QK ==> x[e] == 0.0 then b.d == 0.0 && forall e :: 0 <= e < QK ==> b.qs[e] == 0
    else
      && b.d != 0.0
      && (exists e: nat :: FirstLargest(x, e) && -128.0 * b.d == x[e] && b.qs[e] == -128)
      && (forall e :: 0 <= e < QK ==> Rounded(x[e], b.d, b.qs[e]))
  }

  /** Quantise one block into `y`. All-zero input leaves the sums of the groups as they were. */
  method QuantizeBlock8(x: seq<real>, y: BlockQ8K) returns (b: BlockQ8K)
    requires |x| == QK && Sized8(y)
    ensures Sized8(b) && BsumsOk(b)
    ensures forall e :: 0 <= e < QK ==> Close(x[e], b.d, b.qs[e])
    ensures Scaled8(x, b)
    ensures b.d == 0.0 <==> forall e :: 0 <= e < QK ==> x[e] == 0.0
    ensures b.d == 0.0 ==> b.bsums == y.bsums
  {
    hide Close, Rounded;
    var max, amax, at := Extreme(x);
    if amax == 0.0 {
      b := y.(d := 0.0, qs := seq(QK, _ => 0));
      ZeroClose();
      return;
    }
    assert x[at] != 0.0;
    var iscale := -128.0 / max;
    NonzeroScale(max, iscale);
    var d := 1.0 / iscale;
    NonzeroInverse(iscale, d);
    ScaleOfLargest(max, iscale, d);
    var qs := Levels8(x, max, iscale, d);
    var sums := GroupSums(qs);
    b := BlockQ8K(d, qs, sums);
    assert FirstLargest(x, at) && -128.0 * b.d == x[at] && b.qs[at] == -128;
  }

  lemma ScaleOfLargest(max: real, iscale: real, d: real)
    requires max != 0.0 && iscale == -128.0 / max && iscale != 0.0 && d == 1.0 / iscale
    ensures -128.0 * d == max
  {
    assert iscale * max == -128.0 && d * iscale == 1.0;
    assert d * (iscale * max) == (d * iscale) * max;
  }

  lemma ZeroClose()
    ensures Close(0.0, 0.0, 0)
  {
  }

  lemma NonzeroScale(max: real, iscale: real)
    requires max != 0.0 && iscale == -128.0 / max
    ensures iscale != 0.0
  {
    assert iscale * max == -128.0;
  }

  lemma NonzeroInverse(iscale: real, d: real)
    requires iscale != 0.0 && d == 1.0 / iscale
    ensures d != 0.0
  {
    assert d * iscale == 1.0;
  }

  /** Whatever was in `y` before, every block of it is fit for the integer dot products afterwards. */
  method QuantizeRow8(x: seq<real>, y: array<BlockQ8K>)
    requires |x| == QK * y.Length && forall i :: 0 <= i < y.Length ==> Sized8(y[i])
    modifies y
    ensures forall i :: 0 <= i < y.Length ==> Sized8(y[i]) && BsumsOk(y[i])
    ensures forall i :: 0 <= i < y.Length ==>
      BlockClose(x[QK * i..QK * (i + 1)], y[i]) && Scaled8(x[QK * i..QK * (i + 1)], y[i])
    ensures forall i :: 0 <= i < y.Length && y[i].d == 0.0 ==> y[i].bsums == old(y[i].bsums)
  {
    hide Close, BsumsOk, Scaled8;
    for i := 0 to y.Length
      invariant forall k :: 0 <= k < y.Length ==> Sized8(y[k])
      invariant forall k :: 0 <= k < i ==> BsumsOk(y[k])
      invariant forall k :: 0 <= k < i ==>
        BlockClose(x[QK * k..QK * (k + 1)], y[k]) && Scaled8(x[QK * k..QK * (k + 1)], y[k])
      invariant forall k :: 0 <= k < i && y[k].d == 0.0 ==> y[k].bsums == old(y[k].bsums)
      invariant forall k :: i <= k < y.Length ==> y[k] == old(y[k])
    {
      y[i] := QuantizeBlock8(x[QK * i..QK * (i + 1)], y[i]);
    }
  }

  ghost predicate BlockClose(x: seq<real>, b: BlockQ8K)
    requires |x| == QK && Sized8(b)
  {
    forall e :: 0 <= e < QK ==> Close(x[e], b.d, b.qs[e])
  }
}
