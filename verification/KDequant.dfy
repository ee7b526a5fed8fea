/** The dequantisers compute the rows the blocks stand for. */
module KDequant {
  import opened KBlocks
  import opened KMeaning

  /** `y` with the first `n` values written over it from `at` on. */
  function Patched(y: seq<real>, at: nat, values: seq<real>, n: nat): (r: seq<real>)
    requires at + n <= |y| && n <= |values|
    ensures |r| == |y|
  {
    y[..at] + values[..n] + y[at + n..]
  }

  lemma NothingPatched(y: seq<real>, at: nat, values: seq<real>)
    requires at <= |y|
    ensures Patched(y, at, values, 0) == y
  {
  }

  lemma PatchedMore(y: seq<real>, at: nat, values: seq<real>, n: nat)
    requires at + n < |y| && n < |values|
    ensures Patched(y, at, values, n)[at + n := values[n]] == Patched(y, at, values, n + 1)
  {
  }

  lemma Indices(n: nat, j: nat, l: nat)
    requires n < 2 && j < 4 && l < 32
    ensures var e := 128 * n + 32 * j + l;
      e < QK && e / 128 == n && e % 128 / 32 == j && e % 32 == l && e / 16 == 8 * n + 2 * j + l / 16
        && e / 32 == 4 * n + j
  {
  }

  lemma Value2(b: BlockQ2, n: nat, j: nat, half: nat, l: nat)
    requires Sized2(b) && n < 2 && j < 4 && half < 2 && l < 16
    ensures var g := 8 * n + 2 * j + half;
      Values(Meaning2(b))[128 * n + 32 * j + 16 * half + l]
        == Times(Times(b.d, LowInt(b.scales[g])), CrumbInt(b.qs[32 * n + 16 * half + l], j)) - Times(b.dmin,
          HighInt(b.scales[g]))
  {
    hide LowInt, HighInt, CrumbInt, Values, SuperOk, Times;
    Indices(n, j, 16 * half + l);
    ValueAt(Meaning2(b), 128 * n + 32 * j + 16 * half + l, 8 * n + 2 * j + half);
  }

  lemma ValueAt(s: Super, e: nat, g: nat)
    requires Shaped(s) && e < QK && g == e / 16
    ensures Values(s)[e] == Times(Times(s.d, s.scale[g]), s.level[e]) - Times(s.dmin, s.min[g])
  {
  }

  /** One scale, sixteen elements. */
  method Sixteen2(b: BlockQ2, n: nat, j: nat, half: nat, y: array<real>, at: nat, ghost y0: seq<real>)
    requires Sized2(b) && n < 2 && j < 4 && half < 2 && at + QK <= y.Length == |y0|
    requires y[..] == Patched(y0, at, Values(Meaning2(b)), 128 * n + 32 * j + 16 * half)
    modifies y
    ensures y[..] == Patched(y0, at, Values(Meaning2(b)), 128 * n + 32 * j + 16 * half + 16)
  {
    hide Patched, Values, Meaning2, LowInt, HighInt, CrumbInt, SuperOk, Times;
    var sc := b.scales[8 * n + 2 * j + half];
    var dl, ml := Times(b.d, LowInt(sc)), Times(b.dmin, HighInt(sc));
    for l := 0 to 16
      invariant y[..] == Patched(y0, at, Values(Meaning2(b)), 128 * n + 32 * j + 16 * half + l)
    {
      ghost var before, s := y[..], 128 * n + 32 * j + 16 * half + l;
      Value2(b, n, j, half, l);
      PatchedMore(y0, at, Values(Meaning2(b)), s);
      y[at + 128 * n + 32 * j + 16 * half + l] := Times(dl, CrumbInt(b.qs[32 * n + 16 * half + l], j)) - ml;
      assert y[..] == before[at + s := Values(Meaning2(b))[s]];
    }
  }

  method Dequantize2(b: BlockQ2, y: array<real>, at: nat)
    requires Sized2(b) && at + QK <= y.Length
    modifies y
    ensures y[..] == Patched(old(y[..]), at, Values(Meaning2(b)), QK)
  {
    hide Patched, Values, Meaning2, SuperOk;
    NothingPatched(y[..], at, Values(Meaning2(b)));
    for n := 0 to 2
      invariant y[..] == Patched(old(y[..]), at, Values(Meaning2(b)), 128 * n)
    {
      for j := 0 to 4
        invariant y[..] == Patched(old(y[..]), at, Values(Meaning2(b)), 128 * n + 32 * j)
      {
        Sixteen2(b, n, j, 0, y, at, old(y[..]));
        Sixteen2(b, n, j, 1, y, at, old(y[..]));
      }
    }
  }

  // ---------------------------------------------------------------- three bits

  lemma Value3(b: BlockQ3, n: nat, j: nat, half: nat, l: nat)
    requires Sized3(b) && n < 2 && j < 4 && half < 2 && l < 16
    ensures Values(Meaning3(b))[128 * n + 32 * j + 16 * half + l]
         == Times(Times(b.d, SixInt(Scale3(b.scales, 8 * n + 2 * j + half)) - 32),
              CrumbInt(b.qs[32 * n + 16 * half + l], j) - (if Bit(b.hmask[16 * half + l], 4 * n + j) then 0 else 4))
  {
    hide CrumbInt, Values, SuperOk, Times, Scale3, Bit, SixInt;
    Indices(n, j, 16 * half + l);
    ValueAt(Meaning3(b), 128 * n + 32 * j + 16 * half + l, 8 * n + 2 * j + half);
    TimesZero();
  }

  lemma TimesZero()
    ensures Times(0.0, 0) == 0.0
  {
  }

  method Sixteen3(b: BlockQ3, scales: Bytes, m: bv8, n: nat, j: nat, half: nat, y: array<real>, at: nat,
                  ghost y0: seq<real>)
    requires Sized3(b) && n < 2 && j < 4 && half < 2 && at + QK <= y.Length == |y0| && m == Mask(4 * n + j)
    requires |scales| == 16 && forall g :: 0 <= g < 16 ==> scales[g] == Scale3(b.scales, g)
    requires y[..] == Patched(y0, at, Values(Meaning3(b)), 128 * n + 32 * j + 16 * half)
    modifies y
    ensures y[..] == Patched(y0, at, Values(Meaning3(b)), 128 * n + 32 * j + 16 * half + 16)
  {
    hide Patched, Values, Meaning3, CrumbInt, SuperOk, Times, Mask, Overlap, Scale3, SixInt;
    var dl := Times(b.d, SixInt(scales[8 * n + 2 * j + half]) - 32);
    for l := 0 to 16
      invariant y[..] == Patched(y0, at, Values(Meaning3(b)), 128 * n + 32 * j + 16 * half + l)
    {
      ghost var before, s := y[..], 128 * n + 32 * j + 16 * half + l;
      Value3(b, n, j, half, l);
      PatchedMore(y0, at, Values(Meaning3(b)), s);
      y[at + 128 * n + 32 * j + 16 * half + l] := Times(dl,
        CrumbInt(b.qs[32 * n + 16 * half + l], j) - (if Overlap(b.hmask[16 * half + l], m) then 0 else 4));
      assert y[..] == before[at + s := Values(Meaning3(b))[s]];
    }
  }

  method Dequantize3(b: BlockQ3, y: array<real>, at: nat)
    requires Sized3(b) && at + QK <= y.Length
    modifies y
    ensures y[..] == Patched(old(y[..]), at, Values(Meaning3(b)), QK)
  {
    hide Patched, Values, Meaning3, SuperOk, Scale3, Mask;
    NothingPatched(y[..], at, Values(Meaning3(b)));
    var scales := UnpackScales3(b.scales);
    var m: bv8 := 1;
    FirstMask();
    for n := 0 to 2
      invariant y[..] == Patched(old(y[..]), at, Values(Meaning3(b)), 128 * n) && m == Mask(4 * n)
    {
      for j := 0 to 4
        invariant y[..] == Patched(old(y[..]), at, Values(Meaning3(b)), 128 * n + 32 * j) && m == Mask(4 * n + j)
      {
        Sixteen3(b, scales, m, n, j, 0, y, at, old(y[..]));
        Sixteen3(b, scales, m, n, j, 1, y, at, old(y[..]));
        NextMask(4 * n + j);
        m := m << 1;
      }
    }
  }

  lemma FirstMask()
    ensures Mask(0) == 1 && Mask(1) == 2
  {
  }

  // ---------------------------------------------------------------- four bits

  lemma PairIndices(j: nat, half: nat, l: nat)
    requires j < 4 && half < 2 && l < 32
    ensures var e := 64 * j + 32 * half + l;
      e < QK && e / 64 == j && (e % 64 < 32 <==> half == 0) && e % 32 == l && e / 16 / 2 == 2 * j + half
        && e / 32 == 2 * j + half
  {
  }

  lemma Value4(b: BlockQ4, j: nat, half: nat, l: nat)
    requires Sized4(b) && j < 4 && half < 2 && l < 32
    ensures var (sc, m) := ScaleMin4(b.scales, 2 * j + half);
      var q := b.qs[32 * j + l];
      Values(Meaning4(b))[64 * j + 32 * half + l]
        == Times(Times(b.d, SixInt(sc)), if half == 0 then LowInt(q) else HighInt(q)) - Times(b.dmin, SixInt(m))
  {
    hide LowInt, HighInt, Values, SuperOk, Times, ScaleMin4, SixInt;
    PairIndices(j, half, l);
    ValueAt(Meaning4(b), 64 * j + 32 * half + l, (64 * j + 32 * half + l) / 16);
  }

  method ThirtyTwo4(b: BlockQ4, d: real, min: real, j: nat, half: nat, y: array<real>, at: nat, ghost y0: seq<real>)
    requires Sized4(b) && j < 4 && half < 2 && at + QK <= y.Length == |y0| && d == b.d && min == b.dmin
    requires y[..] == Patched(y0, at, Values(Meaning4(b)), 64 * j + 32 * half)
    modifies y
    ensures y[..] == Patched(y0, at, Values(Meaning4(b)), 64 * j + 32 * half + 32)
  {
    hide Patched, Values, Meaning4, LowInt, HighInt, SuperOk, Times, ScaleMin4, SixInt;
    var (sc, m) := ScaleMin4(b.scales, 2 * j + half);
    var d1, m1 := Times(d, SixInt(sc)), Times(min, SixInt(m));
    for l := 0 to 32
      invariant y[..] == Patched(y0, at, Values(Meaning4(b)), 64 * j + 32 * half + l)
    {
      ghost var before, s := y[..], 64 * j + 32 * half + l;
      Value4(b, j, half, l);
      PatchedMore(y0, at, Values(Meaning4(b)), s);
      y[at + 64 * j + 32 * half + l] := Times(d1,
        if half == 0 then LowInt(b.qs[32 * j + l]) else HighInt(b.qs[32 * j + l])) - m1;
      assert y[..] == before[at + s := Values(Meaning4(b))[s]];
    }
  }

  method Dequantize4(b: BlockQ4, y: array<real>, at: nat)
    requires Sized4(b) && at + QK <= y.Length
    modifies y
    ensures y[..] == Patched(old(y[..]), at, Values(Meaning4(b)), QK)
  {
    hide Patched, Values, Meaning4, SuperOk;
    NothingPatched(y[..], at, Values(Meaning4(b)));
    for j := 0 to 4
      invariant y[..] == Patched(old(y[..]), at, Values(Meaning4(b)), 64 * j)
    {
      ThirtyTwo4(b, b.d, b.dmin, j, 0, y, at, old(y[..]));
      ThirtyTwo4(b, b.d, b.dmin, j, 1, y, at, old(y[..]));
    }
  }

  // ---------------------------------------------------------------- five bits

  lemma Value5(b: BlockQ5, j: nat, half: nat, l: nat)
    requires Sized5(b) && j < 4 && half < 2 && l < 32
    ensures var (sc, m) := ScaleMin4(b.scales, 2 * j + half);
      var q := b.qs[32 * j + l];
      Values(Meaning5(b))[64 * j + 32 * half + l]
        == Times(Times(b.d, SixInt(sc)), (if half == 0 then LowInt(q) else HighInt(q))
          + (if Bit(b.qh[l], 2 * j + half) then 16 else 0)) - Times(b.dmin, SixInt(m))
  {
    hide LowInt, HighInt, Values, SuperOk, Times, ScaleMin4, SixInt, Bit;
    PairIndices(j, half, l);
    ValueAt(Meaning5(b), 64 * j + 32 * half + l, (64 * j + 32 * half + l) / 16);
  }

  method ThirtyTwo5(b: BlockQ5, u: bv8, j: nat, half: nat, y: array<real>, at: nat, ghost y0: seq<real>)
    requires Sized5(b) && j < 4 && half < 2 && at + QK <= y.Length == |y0| && u == Mask(2 * j + half)
    requires y[..] == Patched(y0, at, Values(Meaning5(b)), 64 * j + 32 * half)
    modifies y
    ensures y[..] == Patched(y0, at, Values(Meaning5(b)), 64 * j + 32 * half + 32)
  {
    hide Patched, Values, Meaning5, LowInt, HighInt, SuperOk, Times, ScaleMin4, SixInt, Mask, Overlap;
    var (sc, m) := ScaleMin4(b.scales, 2 * j + half);
    var d1, m1 := Times(b.d, SixInt(sc)), Times(b.dmin, SixInt(m));
    for l := 0 to 32
      invariant y[..] == Patched(y0, at, Values(Meaning5(b)), 64 * j + 32 * half + l)
    {
      ghost var before, s := y[..], 64 * j + 32 * half + l;
      Value5(b, j, half, l);
      PatchedMore(y0, at, Values(Meaning5(b)), s);
      y[at + 64 * j + 32 * half + l] :=
        Times(d1, (if half == 0 then LowInt(b.qs[32 * j + l]) else HighInt(b.qs[32 * j + l]))
          + (if Overlap(b.qh[l], u) then 16 else 0)) - m1;
      assert y[..] == before[at + s := Values(Meaning5(b))[s]];
    }
  }

  method Dequantize5(b: BlockQ5, y: array<real>, at: nat)
    requires Sized5(b) && at + QK <= y.Length
    modifies y
    ensures y[..] == Patched(old(y[..]), at, Values(Meaning5(b)), QK)
  {
    hide Patched, Values, Meaning5, SuperOk, Mask;
    NothingPatched(y[..], at, Values(Meaning5(b)));
    var u1: bv8, u2: bv8 := 1, 2;
    FirstMask();
    for j := 0 to 4
      invariant y[..] == Patched(old(y[..]), at, Values(Meaning5(b)), 64 * j)
        && (j < 4 ==> u1 == Mask(2 * j) && u2 == Mask(2 * j + 1))
    {
      ThirtyTwo5(b, u1, j, 0, y, at, old(y[..]));
      ThirtyTwo5(b, u2, j, 1, y, at, old(y[..]));
      if j < 3 {
        NextMask(2 * j);
        NextMask(2 * j + 1);
      }
      u1, u2 := u1 << 2, u2 << 2;
    }
  }

  // ---------------------------------------------------------------- six bits

  lemma Value6(b: BlockQ6, n: nat, c: nat, l: nat)
    requires Sized6(b) && n < 2 && c < 4 && l < 32
    ensures var q, h := b.ql[64 * n + 32 * (c % 2) + l], b.qh[32 * n + l];
      Values(Meaning6(b))[128 * n + 32 * c + l]
        == Times(Times(b.d, b.scales[8 * n + l / 16 + 2 * c] as int),
          SixInt(if c < 2 then LowSix(q, h, c) else HighSix(q, h, c)) - 32)
  {
    hide Values, SuperOk, Times, SixInt, LowSix, HighSix;
    Indices(n, c, l);
    ValueAt(Meaning6(b), 128 * n + 32 * c + l, 8 * n + l / 16 + 2 * c);
    TimesZero();
  }

  /** Columns `0..l` of the four planes of the `n`th half have been written over `y0`. */
  ghost predicate Planes(y: seq<real>, y0: seq<real>, at: nat, values: seq<real>, n: nat, l: nat)
    requires |y| == |y0| && at + QK <= |y| && |values| == QK && n < 2 && l <= 32
  {
    forall p :: 0 <= p < |y| ==>
      y[p] == if at + 128 * n <= p < at + 128 * n + 128 && (p - at) % 32 < l then values[p - at] else y0[p]
  }

  lemma PlanesDone(y: seq<real>, y0: seq<real>, at: nat, values: seq<real>, n: nat, y1: seq<real>)
    requires |y| == |y0| == |y1| && at + QK <= |y| && |values| == QK && n < 2
    requires y0 == Patched(y1, at, values, 128 * n) && Planes(y, y0, at, values, n, 32)
    ensures y == Patched(y1, at, values, 128 * n + 128)
  {
  }

  lemma ColumnDone(y: seq<real>, y0: seq<real>, at: nat, values: seq<real>, n: nat, l: nat, y': seq<real>)
    requires |y| == |y0| && at + QK <= |y| && |values| == QK && n < 2 && l < 32 && Planes(y, y0, at, values, n, l)
    requires var p := 128 * n + l;
      y' == y[at + p := values[p]][at + p + 32 := values[p + 32]][at + p + 64 := values[p + 64]]
        [at + p + 96 := values[p + 96]]
    ensures Planes(y', y0, at, values, n, l + 1)
  {
    forall p | at + 128 * n <= p < at + 128 * n + 128 && (p - at) % 32 == l
      ensures y'[p] == values[p - at]
    {
      var c := (p - at - 128 * n) / 32;
      assert p == at + 128 * n + 32 * c + l;
      assert c == 0 || c == 1 || c == 2 || c == 3;
    }
  }

  /** Element `l` of each of the four planes. */
  method ColumnValues(b: BlockQ6, n: nat, l: nat) returns (v0: real, v1: real, v2: real, v3: real)
    requires Sized6(b) && n < 2 && l < 32
    ensures var (values, e) := (Values(Meaning6(b)), 128 * n + l);
      v0 == values[e] && v1 == values[e + 32] && v2 == values[e + 64] && v3 == values[e + 96]
  {
    hide Values, Meaning6, SuperOk, Times, SixInt, LowSix, HighSix;
    Value6(b, n, 0, l);
    Value6(b, n, 1, l);
    Value6(b, n, 2, l);
    Value6(b, n, 3, l);
    var g, h, low, high := 8 * n + l / 16, b.qh[32 * n + l], b.ql[64 * n + l], b.ql[64 * n + 32 + l];
    v0 := Times(Times(b.d, b.scales[g] as int), SixInt(LowSix(low, h, 0)) - 32);
    v1 := Times(Times(b.d, b.scales[g + 2] as int), SixInt(LowSix(high, h, 1)) - 32);
    v2 := Times(Times(b.d, b.scales[g + 4] as int), SixInt(HighSix(low, h, 2)) - 32);
    v3 := Times(Times(b.d, b.scales[g + 6] as int), SixInt(HighSix(high, h, 3)) - 32);
  }

  method WriteColumn(b: BlockQ6, n: nat, l: nat, y: array<real>, at: nat)
    requires Sized6(b) && n < 2 && l < 32 && at + QK <= y.Length
    modifies y
    ensures var (values, p) := (Values(Meaning6(b)), 128 * n + l);
      y[..] == old(y[..])[at + p := values[p]][at + p + 32 := values[p + 32]][at + p + 64 := values[p + 64]]
        [at + p + 96 := values[p + 96]]
  {
    hide Values, Meaning6, SuperOk;
    var p := at + 128 * n + l;
    var v0, v1, v2, v3 := ColumnValues(b, n, l);
    y[p], y[p + 32], y[p + 64], y[p + 96] := v0, v1, v2, v3;
  }

  method Dequantize6(b: BlockQ6, y: array<real>, at: nat)
    requires Sized6(b) && at + QK <= y.Length
    modifies y
    ensures y[..] == Patched(old(y[..]), at, Values(Meaning6(b)), QK)
  {
    hide Patched, Values, Meaning6, SuperOk, Times, SixInt, LowSix, HighSix, Planes;
    ghost var values := Values(Meaning6(b));
    NothingPatched(y[..], at, values);
    for n := 0 to 2
      invariant y[..] == Patched(old(y[..]), at, values, 128 * n)
    {
      ghost var y0 := y[..];
      NoPlanes(y0, at, values, n);
      for l := 0 to 32
        invariant Planes(y[..], y0, at, values, n, l)
      {
        ghost var before := y[..];
        WriteColumn(b, n, l, y, at);
        ColumnDone(before, y0, at, values, n, l, y[..]);
      }
      PlanesDone(y[..], y0, at, values, n, old(y[..]));
    }
  }

  lemma NoPlanes(y: seq<real>, at: nat, values: seq<real>, n: nat)
    requires at + QK <= |y| && |values| == QK && n < 2
    ensures Planes(y, y, at, values, n, 0)
  {
  }

  // ---------------------------------------------------------------- rows

  /** Writing one more block's values extends the row. */
  lemma RowMore(y: seq<real>, y': seq<real>, x: seq<Super>, i: nat)
    requires (forall k :: 0 <= k < |x| ==> Shaped(x[k])) && i < |x| && |y| == |y'| == QK * |x|
    requires y[..QK * i] == Row(x[..i]) && y' == Patched(y, QK * i, Values(x[i]), QK)
    ensures y'[..QK * (i + 1)] == Row(x[..i + 1])
  {
    assert x[..i + 1][..i] == x[..i] && x[..i + 1][i] == x[i];
    assert y'[..QK * (i + 1)] == y[..QK * i] + Values(x[i]);
  }

  method DequantizeRow2(x: seq<BlockQ2>, y: array<real>)
    requires (forall i :: 0 <= i < |x| ==> Sized2(x[i])) && y.Length == QK * |x|
    modifies y
    ensures y[..] == Row(Meanings2(x))
  {
    hide SuperOk, Meaning2, Patched, Values;
    for i := 0 to |x|
      invariant y[..QK * i] == Row(Meanings2(x)[..i])
    {
      ghost var before := y[..];
      Dequantize2(x[i], y, QK * i);
      RowMore(before, y[..], Meanings2(x), i);
    }
    assert Meanings2(x)[..|x|] == Meanings2(x);
  }

  method DequantizeRow3(x: seq<BlockQ3>, y: array<real>)
    requires (forall i :: 0 <= i < |x| ==> Sized3(x[i])) && y.Length == QK * |x|
    modifies y
    ensures y[..] == Row(Meanings3(x))
  {
    hide SuperOk, Meaning3, Patched, Values;
    for i := 0 to |x|
      invariant y[..QK * i] == Row(Meanings3(x)[..i])
    {
      ghost var before := y[..];
      Dequantize3(x[i], y, QK * i);
      RowMore(before, y[..], Meanings3(x), i);
    }
    assert Meanings3(x)[..|x|] == Meanings3(x);
  }

  method DequantizeRow4(x: seq<BlockQ4>, y: array<real>)
    requires (forall i :: 0 <= i < |x| ==> Sized4(x[i])) && y.Length == QK * |x|
    modifies y
    ensures y[..] == Row(Meanings4(x))
  {
    hide SuperOk, Meaning4, Patched, Values;
    for i := 0 to |x|
      invariant y[..QK * i] == Row(Meanings4(x)[..i])
    {
      ghost var before := y[..];
      Dequantize4(x[i], y, QK * i);
      RowMore(before, y[..], Meanings4(x), i);
    }
    assert Meanings4(x)[..|x|] == Meanings4(x);
  }

  method DequantizeRow5(x: seq<BlockQ5>, y: array<real>)
    requires (forall i :: 0 <= i < |x| ==> Sized5(x[i])) && y.Length == QK * |x|
    modifies y
    ensures y[..] == Row(Meanings5(x))
  {
    hide SuperOk, Meaning5, Patched, Values;
    for i := 0 to |x|
      invariant y[..QK * i] == Row(Meanings5(x)[..i])
    {
      ghost var before := y[..];
      Dequantize5(x[i], y, QK * i);
      RowMore(before, y[..], Meanings5(x), i);
    }
    assert Meanings5(x)[..|x|] == Meanings5(x);
  }

  method DequantizeRow6(x: seq<BlockQ6>, y: array<real>)
    requires (forall i :: 0 <= i < |x| ==> Sized6(x[i])) && y.Length == QK * |x|
    modifies y
    ensures y[..] == Row(Meanings6(x))
  {
    hide SuperOk, Meaning6, Patched, Values;
    for i := 0 to |x|
      invariant y[..QK * i] == Row(Meanings6(x)[..i])
    {
      ghost var before := y[..];
      Dequantize6(x[i], y, QK * i);
      RowMore(before, y[..], Meanings6(x), i);
    }
    assert Meanings6(x)[..|x|] == Meanings6(x);
  }
}
