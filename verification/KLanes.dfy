/** Dot products that keep eight running sums: the formats with three to six bits. */
module KLanes {
  import opened KBlocks
  import opened KMeaning
  import opened Reals
  import opened KDots

  function Sum8(v: seq<int32>): int
    requires |v| == 8
  {
    v[0] as int + v[1] as int + v[2] as int + v[3] as int + v[4] as int + v[5] as int + v[6] as int + v[7] as int
  }

  function RealSum8(v: seq<real>): real
    requires |v| == 8
  {
    v[0] + v[1] + v[2] + v[3] + v[4] + v[5] + v[6] + v[7]
  }

  ghost predicate Bounded(v: seq<int32>, k: nat) {
    |v| == 8 && forall l :: 0 <= l < 8 ==> -524288 * k <= v[l] as int <= 524288 * k
  }

  /** The levels, decoded. */
  ghost predicate Holds(a: seq<int8>, s: Super)
    requires Shaped(s)
  {
    |a| == QK && forall e :: 0 <= e < QK ==> a[e] as int == s.level[e]
  }

  // ---------------------------------------------------------------- eight elements

  lemma EightTerms(s: Super, q: seq<int8>, at: nat)
    requires Shaped(s) && |q| == QK && at + 8 <= QK
    ensures Isum(s, q, at + 8) == Isum(s, q, at) + Term(s, q, at) + Term(s, q, at + 1) + Term(s, q, at + 2)
      + Term(s, q, at + 3)
                                + Term(s, q, at + 4) + Term(s, q, at + 5) + Term(s, q, at + 6) + Term(s, q, at + 7)
  {
    hide Term;
    assert Isum(s, q, at + 1) == Isum(s, q, at) + Term(s, q, at);
    assert Isum(s, q, at + 2) == Isum(s, q, at + 1) + Term(s, q, at + 1);
    assert Isum(s, q, at + 3) == Isum(s, q, at + 2) + Term(s, q, at + 2);
    assert Isum(s, q, at + 4) == Isum(s, q, at + 3) + Term(s, q, at + 3);
    assert Isum(s, q, at + 5) == Isum(s, q, at + 4) + Term(s, q, at + 4);
    assert Isum(s, q, at + 6) == Isum(s, q, at + 5) + Term(s, q, at + 5);
    assert Isum(s, q, at + 7) == Isum(s, q, at + 6) + Term(s, q, at + 6);
    assert Isum(s, q, at + 8) == Isum(s, q, at + 7) + Term(s, q, at + 7);
  }

  lemma EightAdded(s: Super, q: seq<int8>, at: nat, v: seq<int32>, v': seq<int32>)
    requires Shaped(s) && |q| == QK && at + 8 <= QK && |v| == |v'| == 8
    requires forall l :: 0 <= l < 8 ==> v'[l] as int == v[l] as int + Term(s, q, at + l)
    ensures Sum8(v') - Sum8(v) == Isum(s, q, at + 8) - Isum(s, q, at)
  {
    hide Term;
    EightTerms(s, q, at);
  }

  /** `aux16[l] = q8[l] * a[l]` */
  method MultiplyEight(ghost s: Super, q8: seq<int8>, a: array<int8>, at: nat, aux16: array<int16>)
    requires Shaped(s) && |q8| == QK && a.Length == QK && at + 8 <= QK && aux16.Length == 8
    requires SuperOk(s) && Holds(a[..], s)
    modifies aux16
    ensures forall i :: 0 <= i < 8 ==> IsProduct(s, q8, at + i, aux16[i])
  {
    hide IntProduct;
    for l := 0 to 8
      invariant forall i :: 0 <= i < l ==> IsProduct(s, q8, at + i, aux16[i])
    {
      assert a[..][at + l] as int == s.level[at + l];
      ProductBound(q8[at + l] as int, a[at + l] as int, 128, 32);
      aux16[l] := (q8[at + l] as int32 * a[at + l] as int32) as int16;
    }
  }

  ghost predicate IsProduct(s: Super, q: seq<int8>, e: nat, p: int16)
    requires Shaped(s) && |q| == QK && e < QK
  {
    p as int == IntProduct(q[e] as int, s.level[e]) && -4096 <= p <= 4096
  }

  /** Multiply eight elements into sixteen bits, then add them, scaled, to the eight sums. */
  method AddEight(ghost s: Super, scale: int32, q8: seq<int8>, a: array<int8>, at: nat, aux16: array<int16>,
                  aux32: array<int32>, ghost k: nat)
    requires Shaped(s) && |q8| == QK && a.Length == QK && at + 8 <= QK && aux16.Length == aux32.Length == 8 && k < 32
    requires SuperOk(s) && Holds(a[..], s) && at % 8 == 0 && s.scale[at / 16] == scale as int
    requires Bounded(aux32[..], k) && Sum8(aux32[..]) == Isum(s, q8, at)
    modifies aux16, aux32
    ensures Bounded(aux32[..], k + 1) && Sum8(aux32[..]) == Isum(s, q8, at + 8)
  {
    hide Isum, Term, IntProduct, Holds, IsProduct, Sum8;
    MultiplyEight(s, q8, a, at, aux16);
    ghost var before := aux32[..];
    for l := 0 to 8
      invariant forall i :: 0 <= i < l ==>
        aux32[i] as int == before[i] as int + Term(s, q8, at + i)
          && -524288 * (k + 1) <= aux32[i] as int <= 524288 * (k + 1)
      invariant forall i :: l <= i < 8 ==> aux32[i] == before[i]
      invariant forall i :: 0 <= i < 8 ==> IsProduct(s, q8, at + i, aux16[i])
    {
      ScaledTerm(s, q8, at, l, aux16[l], scale);
      assert -524288 * k <= before[l] as int <= 524288 * k;
      aux32[l] := aux32[l] + aux16[l] as int32 * scale;
    }
    EightAdded(s, q8, at, before, aux32[..]);
  }

  lemma ScaledTerm(s: Super, q: seq<int8>, at: nat, l: nat, p: int16, scale: int32)
    requires Shaped(s) && SuperOk(s) && |q| == QK && at + 8 <= QK && l < 8 && at % 8 == 0
    requires IsProduct(s, q, at + l, p) && s.scale[at / 16] == scale as int
    ensures p as int * scale as int == Term(s, q, at + l) && -524288 <= p as int * scale as int <= 524288
  {
    hide IntProduct;
    assert (at + l) / 16 == at / 16;
    ProductBound(p as int, scale as int, 4096, 128);
  }

  /** Sixteen scales, for sixteen elements each. */
  method Lanes16(ghost s: Super, scales: seq<int8>, offset: int32, q8: seq<int8>, a: array<int8>, aux16: array<int16>,
                 aux32: array<int32>)
    requires Shaped(s) && SuperOk(s) && |q8| == QK && a.Length == QK && aux16.Length == aux32.Length == 8
      && Holds(a[..], s)
    requires |scales| == 16 && 0 <= offset <= 32 && forall j :: 0 <= j < 16 ==>
      s.scale[j] == scales[j] as int - offset as int
    modifies aux16, aux32
    ensures Sum8(aux32[..]) == Isum(s, q8, QK)
  {
    hide Isum, Holds, SuperOk, Bounded;
    ClearLanes(s, q8, aux32);
    for j := 0 to 16
      invariant Holds(a[..], s) && Bounded(aux32[..], 2 * j) && Sum8(aux32[..]) == Isum(s, q8, 16 * j)
    {
      AddEight(s, scales[j] as int32 - offset, q8, a, 16 * j, aux16, aux32, 2 * j);
      AddEight(s, scales[j] as int32 - offset, q8, a, 16 * j + 8, aux16, aux32, 2 * j + 1);
    }
  }

  /** Eight scales, for 32 elements each. */
  method Lanes32(ghost s: Super, scales: seq<int8>, q8: seq<int8>, a: array<int8>, aux16: array<int16>,
                 aux32: array<int32>)
    requires Shaped(s) && SuperOk(s) && |q8| == QK && a.Length == QK && aux16.Length == aux32.Length == 8
      && Holds(a[..], s)
    requires |scales| == 8 && forall j :: 0 <= j < 16 ==> s.scale[j] == scales[j / 2] as int
    modifies aux16, aux32
    ensures Sum8(aux32[..]) == Isum(s, q8, QK)
  {
    hide Isum, Holds, SuperOk, Bounded;
    ClearLanes(s, q8, aux32);
    for j := 0 to 8
      invariant Holds(a[..], s) && Bounded(aux32[..], 4 * j) && Sum8(aux32[..]) == Isum(s, q8, 32 * j)
    {
      var scale := scales[j] as int32;
      assert s.scale[2 * j] == scale as int && s.scale[2 * j + 1] == scale as int;
      assert 32 * j / 16 == 2 * j && (32 * j + 8) / 16 == 2 * j && (32 * j + 16) / 16 == 2 * j + 1
        && (32 * j + 24) / 16 == 2 * j + 1;
      AddEight(s, scale, q8, a, 32 * j, aux16, aux32, 4 * j);
      AddEight(s, scale, q8, a, 32 * j + 8, aux16, aux32, 4 * j + 1);
      AddEight(s, scale, q8, a, 32 * j + 16, aux16, aux32, 4 * j + 2);
      AddEight(s, scale, q8, a, 32 * j + 24, aux16, aux32, 4 * j + 3);
    }
  }

  method ClearLanes(ghost s: Super, q8: seq<int8>, aux32: array<int32>)
    requires Shaped(s) && |q8| == QK && aux32.Length == 8
    modifies aux32
    ensures Bounded(aux32[..], 0) && Sum8(aux32[..]) == Isum(s, q8, 0)
  {
    for l := 0 to 8
      invariant forall i :: 0 <= i < l ==> aux32[i] == 0
    {
      aux32[l] := 0;
    }
  }

  /** `sums[l] += d * aux32[l]` */
  method AddLanes(d: real, aux32: array<int32>, sums: array<real>)
    requires aux32.Length == sums.Length == 8
    modifies sums
    ensures RealSum8(sums[..]) == RealSum8(old(sums[..])) + Times(d, Sum8(aux32[..]))
  {
    hide Times;
    ghost var before := sums[..];
    for l := 0 to 8
      invariant forall i :: 0 <= i < l ==> sums[i] == before[i] + Times(d, aux32[i] as int)
      invariant forall i :: l <= i < 8 ==> sums[i] == before[i]
    {
      sums[l] := sums[l] + Times(d, aux32[l] as int);
    }
    TimesSum8(d, aux32[..]);
  }

  lemma TimesSum8(d: real, v: seq<int32>)
    requires |v| == 8
    ensures Times(d, Sum8(v)) == Times(d, v[0] as int) + Times(d, v[1] as int) + Times(d, v[2] as int)
      + Times(d, v[3] as int) + Times(d, v[4] as int) + Times(d, v[5] as int) + Times(d, v[6] as int)
      + Times(d, v[7] as int)
  {
    hide Times;
    var a, b, c, e := v[0] as int, v[1] as int, v[2] as int, v[3] as int;
    var f, g, h, k := v[4] as int, v[5] as int, v[6] as int, v[7] as int;
    TimesSum(d, a, b);
    TimesSum(d, a + b, c);
    TimesSum(d, a + b + c, e);
    TimesSum(d, a + b + c + e, f);
    TimesSum(d, a + b + c + e + f, g);
    TimesSum(d, a + b + c + e + f + g, h);
    TimesSum(d, a + b + c + e + f + g + h, k);
  }

  method Total(sums: array<real>, start: real) returns (sumf: real)
    requires sums.Length == 8
    ensures sumf == start + RealSum8(sums[..])
  {
    sumf := start;
    for l := 0 to 8
      invariant sumf == start + (if l > 0 then sums[0] else 0.0) + (if l > 1 then sums[1] else 0.0)
        + (if l > 2 then sums[2] else 0.0) + (if l > 3 then sums[3] else 0.0)
        + (if l > 4 then sums[4] else 0.0) + (if l > 5 then sums[5] else 0.0)
        + (if l > 6 then sums[6] else 0.0) + (if l > 7 then sums[7] else 0.0)
    {
      sumf := sumf + sums[l];
    }
  }

  // ---------------------------------------------------------------- decoding into eight-bit levels

  function LowPart3(b: BlockQ3, e: nat): (r: int)
    requires Sized3(b) && e < QK
    ensures 0 <= r < 4
  {
    CrumbInt(b.qs[32 * (e / 128) + e % 32], e % 128 / 32)
  }

  /** Two loops over 32 elements: two bits each, then minus four where the mask bit is clear. */
  method DecodePlane3(b: BlockQ3, m: bv8, n: nat, j: nat, a: array<int8>)
    requires Sized3(b) && n < 2 && j < 4 && a.Length == QK && m == Mask(4 * n + j)
    modifies a
    ensures forall e :: 0 <= e < QK ==> a[e] as int == if e / 32 == 4 * n + j then Level3(b, e) else old(a[e]) as int
  {
    hide LowPart3, Mask, Overlap, Level3;
    var at := 128 * n + 32 * j;
    for l := 0 to 32
      invariant forall e :: 0 <= e < QK ==> a[e] as int == if at <= e < at + l then LowPart3(b, e) else old(a[e]) as int
    {
      Level3At(b, n, j, l);
      a[at + l] := CrumbInt(b.qs[32 * n + l], j) as int8;
    }
    for l := 0 to 32
      invariant forall e :: 0 <= e < QK ==>
        a[e] as int == if at <= e < at + l then Level3(b, e) else if at <= e < at + 32 then LowPart3(b, e)
          else old(a[e]) as int
    {
      Level3At(b, n, j, l);
      a[at + l] := a[at + l] - (if Overlap(b.hmask[l], m) then 0 else 4);
    }
  }

  lemma Level3At(b: BlockQ3, n: nat, j: nat, l: nat)
    requires Sized3(b) && n < 2 && j < 4 && l < 32
    ensures var e := 128 * n + 32 * j + l;
      LowPart3(b, e) == CrumbInt(b.qs[32 * n + l], j)
        && Level3(b, e) == LowPart3(b, e) - (if Overlap(b.hmask[l], Mask(4 * n + j)) then 0 else 4)
  {
    hide CrumbInt, Mask, Overlap;
    var e := 128 * n + 32 * j + l;
    assert e / 128 == n && e % 128 / 32 == j && e % 32 == l && e / 32 == 4 * n + j;
  }

  method Decode3(b: BlockQ3, a: array<int8>)
    requires Sized3(b) && a.Length == QK
    modifies a
    ensures Holds(a[..], Meaning3(b))
  {
    hide Level3, Mask;
    var m: bv8 := 1;
    MaskStarts();
    for n := 0 to 2
      invariant m == Mask(4 * n) && forall e :: 0 <= e < 128 * n ==> a[e] as int == Level3(b, e)
    {
      for j := 0 to 4
        invariant m == Mask(4 * n + j) && forall e :: 0 <= e < 128 * n + 32 * j ==> a[e] as int == Level3(b, e)
      {
        DecodePlane3(b, m, n, j, a);
        NextMask(4 * n + j);
        m := m << 1;
      }
    }
  }

  lemma MaskStarts()
    ensures Mask(0) == 1
  {
  }

  /** The low nibbles of 32 bytes, then their high nibbles. */
  method DecodePair(qs: Bytes, j: nat, a: array<int8>)
    requires |qs| == 128 && j < 4 && a.Length == QK
    modifies a
    ensures forall e :: 0 <= e < QK ==> a[e] as int == if e / 64 == j then Nibble(qs, e) else old(a[e]) as int
  {
    hide LowInt, HighInt, Nibble;
    for l := 0 to 32
      invariant forall e :: 0 <= e < QK ==>
        a[e] as int == if 64 * j <= e < 64 * j + l then Nibble(qs, e) else old(a[e]) as int
    {
      PairNibbles(qs, j, l);
      a[64 * j + l] := LowInt(qs[32 * j + l]) as int8;
    }
    for l := 0 to 32
      invariant forall e :: 0 <= e < QK ==>
        a[e] as int == if 64 * j <= e < 64 * j + 32 + l then Nibble(qs, e) else old(a[e]) as int
    {
      PairNibbles(qs, j, l);
      a[64 * j + 32 + l] := HighInt(qs[32 * j + l]) as int8;
    }
  }

  lemma PairNibbles(qs: Bytes, j: nat, l: nat)
    requires |qs| == 128 && j < 4 && l < 32
    ensures Nibble(qs, 64 * j + l) == LowInt(qs[32 * j + l])
    ensures Nibble(qs, 64 * j + 32 + l) == HighInt(qs[32 * j + l])
  {
    hide LowInt, HighInt;
    assert (64 * j + l) / 64 == j && (64 * j + 32 + l) / 64 == j;
  }

  method Decode4(b: BlockQ4, a: array<int8>)
    requires Sized4(b) && a.Length == QK
    modifies a
    ensures Holds(a[..], Meaning4(b))
  {
    hide Nibble;
    for j := 0 to 4
      invariant forall e :: 0 <= e < 64 * j ==> a[e] as int == Nibble(b.qs, e)
    {
      DecodePair(b.qs, j, a);
    }
  }

  /** Add sixteen to the elements of one plane whose mask bit is set. */
  method AddHighBits(qh: Bytes, m: bv8, k: nat, a: array<int8>)
    requires |qh| == 32 && k < 8 && a.Length == QK && m == Mask(k) && forall e :: 0 <= e < QK ==> e / 32 == k ==>
      0 <= a[e] < 16
    modifies a
    ensures forall e :: 0 <= e < QK ==>
      a[e] as int == old(a[e]) as int + if e / 32 == k && Bit(qh[e % 32], k) then 16 else 0
  {
    hide Mask, Overlap;
    for l := 0 to 32
      invariant forall e :: 0 <= e < QK ==>
        a[e] as int == old(a[e]) as int + if 32 * k <= e < 32 * k + l && Bit(qh[e % 32], k) then 16 else 0
    {
      a[32 * k + l] := a[32 * k + l] + (if Overlap(qh[l], m) then 16 else 0);
    }
  }

  method Decode5(b: BlockQ5, a: array<int8>)
    requires Sized5(b) && a.Length == QK
    modifies a
    ensures Holds(a[..], Meaning5(b))
  {
    hide Nibble, Bit, Mask;
    var m: bv8 := 1;
    MaskStarts();
    for j := 0 to 4
      invariant m == Mask(2 * j) && forall e :: 0 <= e < 64 * j ==> a[e] as int == Level5(b, e)
    {
      DecodePair(b.qs, j, a);
      AddHighBits(b.qh, m, 2 * j, a);
      NextMask(2 * j);
      m := m << 1;
      AddHighBits(b.qh, m, 2 * j + 1, a);
      NextMask(2 * j + 1);
      m := m << 1;
    }
  }

  method Decode6(b: BlockQ6, a: array<int8>)
    requires Sized6(b) && a.Length == QK
    modifies a
    ensures Holds(a[..], Meaning6(b))
  {
    hide SixInt, LowSix, HighSix;
    for n := 0 to 2
      invariant forall e :: 0 <= e < 128 * n ==> a[e] as int == Level6(b, e)
    {
      for l := 0 to 32
        invariant forall e :: 0 <= e < 128 * n ==> a[e] as int == Level6(b, e)
        invariant forall e :: 128 * n <= e < 128 * n + 128 && e % 32 < l ==> a[e] as int == Level6(b, e)
      {
        DecodeColumn6(b, n, l, a);
      }
    }
  }

  lemma FourPlanes(e: nat)
    requires e < QK
    ensures var f := 128 * (e / 128) + e % 32; e == f || e == f + 32 || e == f + 64 || e == f + 96
  {
    var c := e % 128 / 32;
    assert e == 128 * (e / 128) + 32 * c + e % 32 && (c == 0 || c == 1 || c == 2 || c == 3);
  }

  method DecodeColumn6(b: BlockQ6, n: nat, l: nat, a: array<int8>)
    requires Sized6(b) && n < 2 && l < 32 && a.Length == QK
    modifies a
    ensures forall e :: 0 <= e < QK ==>
      a[e] as int == if e / 128 == n && e % 32 == l then Level6(b, e) else old(a[e]) as int
  {
    hide SixInt, LowSix, HighSix, Level6;
    var low, high, h := b.ql[64 * n + l], b.ql[64 * n + 32 + l], b.qh[32 * n + l];
    Level6In(b, n, 0, l);
    Level6In(b, n, 1, l);
    Level6In(b, n, 2, l);
    Level6In(b, n, 3, l);
    a[128 * n + l] := SixInt(LowSix(low, h, 0)) as int8 - 32;
    a[128 * n + l + 32] := SixInt(LowSix(high, h, 1)) as int8 - 32;
    a[128 * n + l + 64] := SixInt(HighSix(low, h, 2)) as int8 - 32;
    a[128 * n + l + 96] := SixInt(HighSix(high, h, 3)) as int8 - 32;
    forall e | 0 <= e < QK && e / 128 == n && e % 32 == l
      ensures e == 128 * n + l || e == 128 * n + l + 32 || e == 128 * n + l + 64 || e == 128 * n + l + 96
    {
      FourPlanes(e);
    }
  }

  // ---------------------------------------------------------------- the dot products

  method Dot3(x: seq<BlockQ3>, y: seq<BlockQ8K>) returns (sumf: real)
    requires |x| == |y| && forall i :: 0 <= i < |x| ==> Sized3(x[i]) && Sized8(y[i]) && BsumsOk(y[i])
    ensures sumf == Dot(Row(Meanings3(x)), Row8(y))
  {
    hide Meaning3, Times, Product, BsumsOk, SuperOk, Row, Row8, Isum, Msum, Holds, Scale3, RealSum8, Sum8, Dot;
    ghost var rows := Meanings3(x);
    var aux8, aux16, aux32, sums := new int8[QK], new int16[8], new int32[8], new real[8](_ => 0.0);
    EmptyRows(rows, y);
    NoSums(sums[..]);
    for i := 0 to |x|
      invariant RealSum8(sums[..]) == Dot(Row(rows[..i]), Row8(y[..i]))
    {
      Decode3(x[i], aux8);
      var bytes := UnpackScales3(x[i].scales);
      var scales := SmallInts(bytes);
      Scales3(x[i], scales);
      Lanes16(rows[i], scales, 32, y[i].qs, aux8, aux16, aux32);
      RowsMore(rows, y, i);
      NoMins(rows[i], y[i]);
      AddLanes(Product(x[i].d, y[i].d), aux32, sums);
    }
    sumf := Total(sums, 0.0);
    assert rows[..|x|] == rows && y[..|x|] == y;
  }

  /** Bytes below 64, read as signed. */
  method SmallInts(bytes: Bytes) returns (r: seq<int8>)
    requires forall j :: 0 <= j < |bytes| ==> bytes[j] < 64
    ensures |r| == |bytes| && forall j :: 0 <= j < |bytes| ==> r[j] as int == SixInt(bytes[j])
  {
    hide SixInt;
    r := seq(|bytes|, j requires 0 <= j < |bytes| => SixInt(bytes[j]) as int8);
  }

  lemma NoSums(v: seq<real>)
    requires |v| == 8 && forall l :: 0 <= l < 8 ==> v[l] == 0.0
    ensures RealSum8(v) == 0.0
  {
  }

  lemma Scales3(b: BlockQ3, scales: seq<int8>)
    requires Sized3(b) && |scales| == 16 && forall j :: 0 <= j < 16 ==> scales[j] as int == SixInt(Scale3(b.scales, j))
    ensures forall j :: 0 <= j < 16 ==> Meaning3(b).scale[j] == scales[j] as int - 32
    ensures Meaning3(b).d == b.d && Meaning3(b).dmin == 0.0
  {
  }

  lemma NoMins(s: Super, b: BlockQ8K)
    requires Shaped(s) && Sized8(b) && s.dmin == 0.0
    ensures Times(Product(s.dmin, b.d), Msum(s, b.bsums, 16)) == 0.0
  {
    hide Msum;
  }

  method Dot4(x: seq<BlockQ4>, y: seq<BlockQ8K>) returns (sumf: real)
    requires |x| == |y| && forall i :: 0 <= i < |x| ==> Sized4(x[i]) && Sized8(y[i]) && BsumsOk(y[i])
    ensures sumf == Dot(Row(Meanings4(x)), Row8(y))
  {
    hide Meaning4, Times, Product, BsumsOk, SuperOk, Row, Row8, Isum, Msum, Holds, ScaleMin4, SixInt, RealSum8, Sum8,
      Dot;
    ghost var rows := Meanings4(x);
    var aux8, aux16, aux32, sums := new int8[QK], new int16[8], new int32[8], new real[8](_ => 0.0);
    EmptyRows(rows, y);
    NoSums(sums[..]);
    sumf := 0.0;
    for i := 0 to |x|
      invariant sumf + RealSum8(sums[..]) == Dot(Row(rows[..i]), Row8(y[..i]))
    {
      Decode4(x[i], aux8);
      var bytes, minBytes := UnpackScales4(x[i].scales);
      var scales := SmallInts(bytes);
      var mins := seq(8, j requires 0 <= j < 8 => SixInt(minBytes[j]));
      Scales4(x[i], scales, mins);
      var sumi := MinSum(rows[i], y[i].bsums, mins, 2);
      Lanes32(rows[i], scales, y[i].qs, aux8, aux16, aux32);
      RowsMore(rows, y, i);
      AddLanes(Product(x[i].d, y[i].d), aux32, sums);
      sumf := sumf - Times(Product(x[i].dmin, y[i].d), sumi as int);
    }
    sumf := Total(sums, sumf);
    assert rows[..|x|] == rows && y[..|x|] == y;
  }

  lemma Scales4(b: BlockQ4, scales: seq<int8>, mins: seq<int>)
    requires Sized4(b) && |scales| == |mins| == 8
    requires forall j :: 0 <= j < 8 ==>
      scales[j] as int == SixInt(ScaleMin4(b.scales, j).0) && mins[j] == SixInt(ScaleMin4(b.scales, j).1)
    ensures forall j :: 0 <= j < 16 ==> Meaning4(b).scale[j] == scales[j / 2] as int
    ensures MinsOf(Meaning4(b), mins, 2) && Meaning4(b).d == b.d && Meaning4(b).dmin == b.dmin
  {
  }

  method Dot5(x: seq<BlockQ5>, y: seq<BlockQ8K>) returns (sumf: real)
    requires |x| == |y| && forall i :: 0 <= i < |x| ==> Sized5(x[i]) && Sized8(y[i]) && BsumsOk(y[i])
    ensures sumf == Dot(Row(Meanings5(x)), Row8(y))
  {
    hide Meaning5, Times, Product, BsumsOk, SuperOk, Row, Row8, Isum, Msum, Holds, ScaleMin4, SixInt, RealSum8, Sum8,
      Dot;
    ghost var rows := Meanings5(x);
    var aux8, aux16, aux32, sums := new int8[QK], new int16[8], new int32[8], new real[8](_ => 0.0);
    EmptyRows(rows, y);
    NoSums(sums[..]);
    sumf := 0.0;
    for i := 0 to |x|
      invariant sumf + RealSum8(sums[..]) == Dot(Row(rows[..i]), Row8(y[..i]))
    {
      Decode5(x[i], aux8);
      var bytes, minBytes := UnpackScales4(x[i].scales);
      var scales := SmallInts(bytes);
      var mins := seq(8, j requires 0 <= j < 8 => SixInt(minBytes[j]));
      Scales5(x[i], scales, mins);
      var sumi := MinSum(rows[i], y[i].bsums, mins, 2);
      Lanes32(rows[i], scales, y[i].qs, aux8, aux16, aux32);
      RowsMore(rows, y, i);
      AddLanes(Product(x[i].d, y[i].d), aux32, sums);
      sumf := sumf - Times(Product(x[i].dmin, y[i].d), sumi as int);
    }
    sumf := Total(sums, sumf);
    assert rows[..|x|] == rows && y[..|x|] == y;
  }

  lemma Scales5(b: BlockQ5, scales: seq<int8>, mins: seq<int>)
    requires Sized5(b) && |scales| == |mins| == 8
    requires forall j :: 0 <= j < 8 ==>
      scales[j] as int == SixInt(ScaleMin4(b.scales, j).0) && mins[j] == SixInt(ScaleMin4(b.scales, j).1)
    ensures forall j :: 0 <= j < 16 ==> Meaning5(b).scale[j] == scales[j / 2] as int
    ensures MinsOf(Meaning5(b), mins, 2) && Meaning5(b).d == b.d && Meaning5(b).dmin == b.dmin
  {
  }

  method Dot6(x: seq<BlockQ6>, y: seq<BlockQ8K>) returns (sumf: real)
    requires |x| == |y| && forall i :: 0 <= i < |x| ==> Sized6(x[i]) && Sized8(y[i]) && BsumsOk(y[i])
    ensures sumf == Dot(Row(Meanings6(x)), Row8(y))
  {
    hide Meaning6, Times, Product, BsumsOk, SuperOk, Row, Row8, Isum, Msum, Holds, RealSum8, Sum8, Dot;
    ghost var rows := Meanings6(x);
    var aux8, aux16, aux32, sums := new int8[QK], new int16[8], new int32[8], new real[8](_ => 0.0);
    EmptyRows(rows, y);
    NoSums(sums[..]);
    for i := 0 to |x|
      invariant RealSum8(sums[..]) == Dot(Row(rows[..i]), Row8(y[..i]))
    {
      Decode6(x[i], aux8);
      Scales6(x[i]);
      Lanes16(rows[i], x[i].scales, 0, y[i].qs, aux8, aux16, aux32);
      RowsMore(rows, y, i);
      NoMins(rows[i], y[i]);
      AddLanes(Product(x[i].d, y[i].d), aux32, sums);
    }
    sumf := Total(sums, 0.0);
    assert rows[..|x|] == rows && y[..|x|] == y;
  }

  lemma Scales6(b: BlockQ6)
    requires Sized6(b)
    ensures forall j :: 0 <= j < 16 ==> Meaning6(b).scale[j] == b.scales[j] as int
    ensures Meaning6(b).d == b.d && Meaning6(b).dmin == 0.0
  {
  }
}
