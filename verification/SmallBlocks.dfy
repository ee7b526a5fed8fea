/** Blocks of 32: quantising a dequantised block gives the same block. */
module SmallBlocks {
  import opened Reals

  const N: nat := 32

  /** Conversion to an integer, towards zero. */
  function Trunc(r: real): int {
    if r < 0.0 then -((-r).Floor) else r.Floor
  }

  /** To the nearest integer, halves away from zero. */
  function Round(r: real): int {
    if r < 0.0 then -((-r + 0.5).Floor) else (r + 0.5).Floor
  }

  function Quotient(a: real, b: real): real
    requires b != 0.0
  {
    a / b
  }

  function Inverse(d: real): real {
    if d != 0.0 then 1.0 / d else 0.0
  }

  /** How many steps of `d` there are in `v`. */
  function Steps(v: real, d: real): real {
    v * Inverse(d)
  }

  function Scaled(k: int, d: real): real {
    k as real * d
  }

  /** Multiplying by the inverse undoes scaling. */
  lemma ScaledBack(k: int, d: real)
    requires d != 0.0
    ensures Steps(Scaled(k, d), d) == k as real
  {
    var i := Inverse(d);
    assert d * i == 1.0;
    assert k as real * d * i == k as real * (d * i);
  }

  lemma WholeTrunc(k: int)
    requires k >= 0
    ensures Trunc(k as real + 0.5) == k && Trunc(k as real) == k
  {
  }

  lemma Associate(r: real, i: real, d: real, p: real)
    requires p == i * d && p == 1.0
    ensures r * i * d == r
  {
    assert r * i * d == r * p;
  }

  /** At most `k` steps when `|r| <= k * |d|`, and `r` is that many steps of `d`. */
  lemma InverseBound(r: real, d: real, k: int, q: real)
    requires d != 0.0 && k >= 0 && Abs(r) <= Scaled(k, Abs(d)) && q == Steps(r, d)
    ensures -(k as real) <= q <= k as real && r == q * d
  {
    var b := k as real;
    Associate(r, Inverse(d), d, Inverse(d) * d);
    AbsTimes(q, d);
    if Abs(q) > b {
      TimesLess(b, Abs(q), Abs(d));
    }
  }

  lemma AbsTimes(a: real, b: real)
    ensures Abs(a * b) == Abs(a) * Abs(b)
  {
    if a >= 0.0 && b < 0.0 {
      assert a * b == -(a * -b);
    } else if a < 0.0 && b >= 0.0 {
      assert a * b == -(-a * b);
    } else if a < 0.0 && b < 0.0 {
      assert a * b == -a * -b;
    }
  }

  lemma TimesLess(a: real, b: real, c: real)
    requires a < b && c > 0.0
    ensures a * c < b * c
  {
  }

  lemma OffBy(r: real, q: real, d: real, k: int, off: real)
    requires r == q * d && -off <= q - k as real <= off
    ensures Abs(r - Scaled(k, d)) <= off * Abs(d)
  {
    var e := q - k as real;
    assert r - Scaled(k, d) == e * d;
    var u, v := Abs(e), Abs(d);
    assert Abs(e * d) == u * v;
    assert u * v <= off * v;
  }

  // ---------------------------------------------------------------- symmetric formats

  /** The value of largest magnitude among the first `n`, the first such. */
  function Extreme(x: seq<real>, n: nat): (m: real)
    requires n <= |x|
    ensures (m == 0.0 || m in x[..n]) && forall j :: 0 <= j < n ==> Abs(x[j]) <= Abs(m)
  {
    if n == 0 then 0.0
    else
      var m := Extreme(x, n - 1);
      if Abs(m) < Abs(x[n - 1]) then x[n - 1] else m
  }

  /** A value that nothing reaches in magnitude but itself is the extreme. */
  lemma {:induction false} ExtremeIs(x: seq<real>, m: real)
    requires (m == 0.0 || m in x) && forall j :: 0 <= j < |x| ==>
      Abs(x[j]) <= Abs(m) && (Abs(x[j]) == Abs(m) ==> x[j] == m)
    ensures Extreme(x, |x|) == m
  {
    var e := Extreme(x, |x|);
    assert x[..|x|] == x;
    if m != 0.0 {
      var j :| 0 <= j < |x| && x[j] == m;
      assert Abs(m) <= Abs(e);
    }
  }

  function SymLevel(v: real, d: real, half: int): int {
    var l := Trunc(Steps(v, d) + half as real + 0.5);
    if 2 * half - 1 < l then 2 * half - 1 else l
  }

  function SymScale(x: seq<real>, half: int): real
    requires half > 1
  {
    Quotient(Extreme(x, |x|), -(half as real))
  }

  function SymLevels(x: seq<real>, half: int): (l: seq<int>)
    requires half > 1
    ensures |l| == |x|
  {
    seq(|x|, j requires 0 <= j < |x| => SymLevel(x[j], SymScale(x, half), half))
  }

  function SymValues(d: real, levels: seq<int>, half: int): (y: seq<real>)
    ensures |y| == |levels|
  {
    seq(|levels|, j requires 0 <= j < |levels| => Scaled(levels[j] - half, d))
  }

  lemma DivideBack(m: real, h: real, d: real)
    requires h > 0.0 && d == Quotient(m, -h)
    ensures -h * d == m && Abs(m) == h * Abs(d) && (d == 0.0 <==> m == 0.0)
  {
    assert d * -h == m;
    assert h * d == -m;
    if d >= 0.0 {
      assert h * d >= 0.0;
    } else {
      assert h * -d >= 0.0;
      assert h * -d == m;
    }
  }

  lemma SymScaleOf(x: seq<real>, half: int)
    requires half > 1
    ensures var (m, d) := (Extreme(x, |x|), SymScale(x, half));
      Scaled(-half, d) == m && Abs(m) == Scaled(half, Abs(d)) && (d == 0.0 <==> m == 0.0)
  {
    hide Extreme, Abs, Quotient, Scaled;
    var m, h, d := Extreme(x, |x|), half as real, SymScale(x, half);
    DivideBack(m, h, d);
    ScaledIs(-half, d, m);
    ScaledIs(half, Abs(d), Abs(m));
  }

  lemma ScaledIs(k: int, d: real, p: real)
    requires p == k as real * d
    ensures Scaled(k, d) == p
  {
  }

  /** A step count between `-half` and `half` is rounded to the nearest level, the last one down. */
  lemma LevelNear(v: real, d: real, half: int, q: real)
    requires half > 1 && q == Steps(v, d) && -(half as real) <= q <= half as real
    ensures var l := SymLevel(v, d, half);
      && 0 <= l < 2 * half
      && (if l == 2 * half - 1 then -1.0 else -0.5) <= q - (l - half) as real
      && q - (l - half) as real <= (if l == 2 * half - 1 then 1.0 else 0.5)
      && (q == -(half as real) ==> l == 0) && (q == 0.0 ==> l == half)
  {
    hide Steps;
  }

  lemma NoSteps(v: real)
    ensures Steps(v, 0.0) == 0.0
  {
  }

  /** Levels fit, and values are within half a step, or a step at the clipped end. */
  lemma SymClose(v: real, d: real, half: int)
    requires half > 1 && Abs(v) <= Scaled(half, Abs(d))
    ensures var l := SymLevel(v, d, half);
      && 0 <= l < 2 * half
      && Abs(v - Scaled(l - half, d)) <= (if l == 2 * half - 1 then 1.0 else 0.5) * Abs(d)
      && (v == Scaled(-half, d) && d != 0.0 ==> l == 0) && (d == 0.0 ==> l == half)
  {
    hide Steps, SymLevel, Scaled;
    var q := Steps(v, d);
    if d == 0.0 {
      ZeroScaled(half);
      ZeroScaled(0);
      NoSteps(v);
      LevelNear(v, d, half, q);
    } else {
      InverseBound(v, d, half, q);
      LevelNear(v, d, half, q);
      var l := SymLevel(v, d, half);
      OffBy(v, q, d, l - half, if l == 2 * half - 1 then 1.0 else 0.5);
      ScaledBack(-half, d);
    }
  }

  /** Scaling does not change the order of magnitudes. */
  lemma ScaledAbs(k: int, h: int, d: real)
    requires h > 0 && -h <= k < h && d != 0.0
    ensures Abs(Scaled(k, d)) <= Abs(Scaled(-h, d)) && (Abs(Scaled(k, d)) == Abs(Scaled(-h, d)) ==> k == -h)
  {
    hide Scaled;
    AbsScaled(k, d);
    AbsScaled(-h, d);
    if k != -h {
      LessScaled(Abs(k as real), h as real, Abs(d));
    }
    hide Abs, Product;
    assert Abs((-h) as real) == h as real;
  }

  lemma LessScaled(a: real, b: real, c: real)
    requires a < b && c > 0.0
    ensures Product(a, c) < Product(b, c)
  {
    TimesLess(a, b, c);
  }

  lemma AbsScaled(k: int, d: real)
    ensures Abs(Scaled(k, d)) == Product(Abs(k as real), Abs(d))
  {
    AbsTimes(k as real, d);
  }

  lemma SymLevelBack(l: int, d: real, half: int)
    requires half > 1 && 0 <= l < 2 * half && (d == 0.0 ==> l == half)
    ensures SymLevel(Scaled(l - half, d), d, half) == l
  {
    hide Scaled, SymLevel, Steps;
    var q := Steps(Scaled(l - half, d), d);
    if d != 0.0 {
      ScaledBack(l - half, d);
    } else {
      ZeroScaled(l - half);
      NoSteps(0.0);
    }
    LevelExact(Scaled(l - half, d), d, half, q, l);
  }

  lemma LevelExact(v: real, d: real, half: int, q: real, l: int)
    requires half > 1 && 0 <= l < 2 * half && q == Steps(v, d) && q == (l - half) as real
    ensures SymLevel(v, d, half) == l
  {
    WholeTrunc(l);
    hide Steps, Trunc;
    assert q + half as real + 0.5 == l as real + 0.5;
  }

  /** Quantise, dequantise, quantise: the same scale and the same levels. */
  lemma SymProjection(x: seq<real>, half: int)
    requires half > 1
    ensures var (d, l) := (SymScale(x, half), SymLevels(x, half));
      var y := SymValues(d, l, half);
      SymScale(y, half) == d && SymLevels(y, half) == l
  {
    hide SymLevel, Scaled, SymScale, Extreme, Abs;
    var d, l, m := SymScale(x, half), SymLevels(x, half), Extreme(x, |x|);
    var y := SymValues(d, l, half);
    SymScaleOf(x, half);
    forall j | 0 <= j < |x|
      ensures Abs(y[j]) <= Abs(m) && (Abs(y[j]) == Abs(m) ==> y[j] == m) && SymLevel(y[j], d, half) == l[j]
    {
      assert x[..|x|] == x;
      SymClose(x[j], d, half);
      if d == 0.0 {
        ZeroScaled(l[j] - half);
      } else {
        ScaledAbs(l[j] - half, half, d);
      }
      SymLevelBack(l[j], d, half);
    }
    if m != 0.0 {
      assert x[..|x|] == x;
      var j :| 0 <= j < |x| && x[j] == m;
      SymClose(x[j], d, half);
      assert y[j] == m;
    }
    ExtremeIs(y, m);
    SameScale(x, y, half);
  }

  lemma SameScale(x: seq<real>, y: seq<real>, half: int)
    requires half > 1 && Extreme(x, |x|) == Extreme(y, |y|)
    ensures SymScale(x, half) == SymScale(y, half)
  {
    hide Extreme;
  }

  lemma ZeroScaled(k: int)
    ensures Scaled(k, 0.0) == 0.0
  {
  }

  // ---------------------------------------------------------------- formats with a minimum

  const FLT_MAX: real := 340282346638528859811704183484516925440.0

  function Least(x: seq<real>, n: nat): (m: real)
    requires n <= |x|
    ensures forall j :: 0 <= j < n ==> m <= x[j]
    ensures n > 0 && (forall j :: 0 <= j < n ==> x[j] <= FLT_MAX) ==> m in x[..n]
  {
    if n == 0 then FLT_MAX
    else
      var m := Least(x, n - 1);
      if x[n - 1] < m then x[n - 1] else m
  }

  function Greatest(x: seq<real>, n: nat): (m: real)
    requires n <= |x|
    ensures forall j :: 0 <= j < n ==> x[j] <= m
    ensures n > 0 && (forall j :: 0 <= j < n ==> -FLT_MAX <= x[j]) ==> m in x[..n]
  {
    if n == 0 then -FLT_MAX
    else
      var m := Greatest(x, n - 1);
      if x[n - 1] > m then x[n - 1] else m
  }

  function Offset(v: real, d: real, m: real): int {
    Trunc(Steps(v - m, d) + 0.5)
  }

  function OffsetScale(x: seq<real>, top: int): real
    requires top > 0
  {
    Quotient(Greatest(x, |x|) - Least(x, |x|), top as real)
  }

  function OffsetLevels(x: seq<real>, top: int): (l: seq<int>)
    requires top > 0
    ensures |l| == |x|
  {
    seq(|x|, j requires 0 <= j < |x| => Offset(x[j], OffsetScale(x, top), Least(x, |x|)))
  }

  function OffsetValues(d: real, m: real, levels: seq<int>): (y: seq<real>)
    ensures |y| == |levels|
  {
    seq(|levels|, j requires 0 <= j < |levels| => Scaled(levels[j], d) + m)
  }

  ghost predicate Finite(x: seq<real>) {
    |x| > 0 && forall j :: 0 <= j < |x| ==> -FLT_MAX <= x[j] <= FLT_MAX
  }

  lemma DivideRange(r: real, t: real, d: real)
    requires t > 0.0 && d == Quotient(r, t)
    ensures t * d == r && (d == 0.0 <==> r == 0.0) && (r >= 0.0 ==> d >= 0.0)
  {
    assert t * d == r;
  }

  lemma OffsetScaleOf(x: seq<real>, top: int)
    requires top > 0 && Finite(x)
    ensures var (d, lo, hi) := (OffsetScale(x, top), Least(x, |x|), Greatest(x, |x|));
      Scaled(top, d) == hi - lo && d >= 0.0 && (d == 0.0 <==> hi == lo) && lo <= hi
  {
    hide Least, Greatest, Scaled, Finite, Quotient;
    EndsOrdered(x);
    RangeScaled(Greatest(x, |x|) - Least(x, |x|), top, OffsetScale(x, top));
  }

  lemma RangeScaled(r: real, top: int, d: real)
    requires top > 0 && d == Quotient(r, top as real)
    ensures Scaled(top, d) == r && (d == 0.0 <==> r == 0.0) && (r >= 0.0 ==> d >= 0.0)
  {
    DivideRange(r, top as real, d);
  }

  lemma EndsOrdered(x: seq<real>)
    requires Finite(x)
    ensures Least(x, |x|) <= Greatest(x, |x|)
  {
    var lo, hi := Least(x, |x|), Greatest(x, |x|);
    hide Least, Greatest;
    assert lo <= x[0] <= hi;
  }

  lemma SameOffsetScale(x: seq<real>, y: seq<real>, top: int)
    requires top > 0 && Least(x, |x|) == Least(y, |y|) && Greatest(x, |x|) == Greatest(y, |y|)
    ensures OffsetScale(x, top) == OffsetScale(y, top)
  {
    hide Least, Greatest;
  }

  /** Levels fit without clipping, values are within half a step, and the ends are exact. */
  lemma OffsetClose(v: real, d: real, m: real, top: int)
    requires top > 0 && d >= 0.0 && 0.0 <= v - m <= Scaled(top, d)
    ensures var l := Offset(v, d, m);
      && 0 <= l <= top && Abs(v - (Scaled(l, d) + m)) <= 0.5 * Abs(d)
      && (v == m ==> l == 0) && (d == 0.0 ==> l == 0) && (d != 0.0 && v - m == Scaled(top, d) ==> l == top)
  {
    hide Steps, Scaled;
    var q := Steps(v - m, d);
    ZeroScaled(top);
    if d == 0.0 {
      NoSteps(v - m);
      ZeroScaled(0);
    } else {
      AbsScaled(top, d);
      AbsScaled(0, d);
      InverseBound(v - m, d, top, q);
      StepsSign(v - m, d);
      OffBy(v - m, q, d, Offset(v, d, m), 0.5);
      ScaledBack(top, d);
      ScaledBack(0, d);
    }
  }

  lemma StepsSign(r: real, d: real)
    requires r >= 0.0 && d > 0.0
    ensures Steps(r, d) >= 0.0 && Steps(0.0, d) == 0.0
  {
    assert d * Inverse(d) == 1.0;
    assert Inverse(d) > 0.0;
  }

  lemma OffsetBack(l: int, d: real, m: real)
    requires l >= 0 && (d == 0.0 ==> l == 0)
    ensures Offset(Scaled(l, d) + m, d, m) == l
  {
    hide Steps, Scaled;
    var v := Scaled(l, d) + m;
    assert v - m == Scaled(l, d);
    if d == 0.0 {
      NoSteps(v - m);
    } else {
      ScaledBack(l, d);
    }
    WholeTrunc(l);
  }

  lemma ScaledOrder(k: int, l: int, d: real)
    requires k <= l && d >= 0.0
    ensures Scaled(k, d) <= Scaled(l, d)
  {
  }

  lemma LeastIs(x: seq<real>, m: real)
    requires Finite(x) && m in x && forall j :: 0 <= j < |x| ==> m <= x[j]
    ensures Least(x, |x|) == m
  {
    assert x[..|x|] == x;
  }

  lemma GreatestIs(x: seq<real>, m: real)
    requires Finite(x) && m in x && forall j :: 0 <= j < |x| ==> x[j] <= m
    ensures Greatest(x, |x|) == m
  {
    assert x[..|x|] == x;
  }

  /** Each value stays between the least and the greatest, and the two ends are kept. */
  lemma OffsetKeepsEnds(x: seq<real>, top: int)
    requires top > 0 && Finite(x)
    ensures var y := OffsetValues(OffsetScale(x, top), Least(x, |x|), OffsetLevels(x, top));
      && (forall j :: 0 <= j < |y| ==> Least(x, |x|) <= y[j] <= Greatest(x, |x|))
      && Finite(y) && Least(y, |y|) == Least(x, |x|) && Greatest(y, |y|) == Greatest(x, |x|)
  {
    hide Scaled, Offset, Least, Greatest, OffsetScale, Abs;
    var d, lo, hi := OffsetScale(x, top), Least(x, |x|), Greatest(x, |x|);
    var l := OffsetLevels(x, top);
    var y := OffsetValues(d, lo, l);
    OffsetScaleOf(x, top);
    ZeroScaled(0);
    ZeroTimes(d);
    assert x[..|x|] == x;
    forall j | 0 <= j < |x|
      ensures lo <= y[j] <= hi && (x[j] == lo ==> y[j] == lo) && (x[j] == hi ==> y[j] == hi)
    {
      OffsetClose(x[j], d, lo, top);
      ScaledOrder(0, l[j], d);
      ScaledOrder(l[j], top, d);
    }
    var i :| 0 <= i < |x| && x[i] == lo;
    var k :| 0 <= k < |x| && x[k] == hi;
    assert y[i] == lo && y[k] == hi;
    LeastIs(y, lo);
    GreatestIs(y, hi);
  }

  lemma ZeroTimes(d: real)
    ensures Scaled(0, d) == 0.0
  {
  }

  /** Quantise, dequantise, quantise: the same scale, minimum and levels. */
  lemma OffsetProjection(x: seq<real>, top: int, d: real, m: real, l: seq<int>, y: seq<real>)
    requires top > 0 && Finite(x) && d == OffsetScale(x, top) && m == Least(x, |x|) && l == OffsetLevels(x, top)
      && y == OffsetValues(d, m, l)
    ensures Finite(y) && OffsetScale(y, top) == d && Least(y, |y|) == m && OffsetLevels(y, top) == l
  {
    hide Scaled, Offset, Least, Greatest, OffsetScale, Abs, Finite;
    OffsetKeepsEnds(x, top);
    SameOffsetScale(x, y, top);
    forall j | 0 <= j < |x|
      ensures Offset(y[j], d, m) == l[j]
    {
      OffsetElement(x, top, j);
      OffsetBack(l[j], d, m);
    }
    LevelsFrom(y, top, d, m, l);
  }

  lemma LevelsFrom(y: seq<real>, top: int, d: real, m: real, l: seq<int>)
    requires top > 0 && OffsetScale(y, top) == d && Least(y, |y|) == m && |l| == |y| && forall j :: 0 <= j < |y| ==>
      Offset(y[j], d, m) == l[j]
    ensures OffsetLevels(y, top) == l
  {
  }

  lemma OffsetElement(x: seq<real>, top: int, j: nat)
    requires top > 0 && Finite(x) && j < |x|
    ensures var (d, m, l) := (OffsetScale(x, top), Least(x, |x|), OffsetLevels(x, top)[j]);
      0 <= l <= top && Abs(x[j] - (Scaled(l, d) + m)) <= 0.5 * Abs(d) && (d == 0.0 ==> l == 0)
  {
    hide Scaled, Offset, Least, Greatest, OffsetScale, Abs, Finite;
    OffsetScaleOf(x, top);
    OffsetClose(x[j], OffsetScale(x, top), Least(x, |x|), top);
  }

  // ---------------------------------------------------------------- eight bits

  function Largest(x: seq<real>, n: nat): (a: real)
    requires n <= |x|
    ensures a >= 0.0 && (a == 0.0 || exists j :: 0 <= j < n && Abs(x[j]) == a) && forall j :: 0 <= j < n ==>
      Abs(x[j]) <= a
  {
    if n == 0 then 0.0
    else
      var a := Largest(x, n - 1);
      if a > Abs(x[n - 1]) then a else Abs(x[n - 1])
  }

  function EightScale(x: seq<real>): real {
    Quotient(Largest(x, |x|), 127.0)
  }

  function EightLevel(v: real, d: real): int {
    Round(Steps(v, d))
  }

  function EightLevels(x: seq<real>): (l: seq<int>)
    ensures |l| == |x|
  {
    seq(|x|, j requires 0 <= j < |x| => EightLevel(x[j], EightScale(x)))
  }

  function EightValues(d: real, levels: seq<int>): (y: seq<real>)
    ensures |y| == |levels|
  {
    seq(|levels|, j requires 0 <= j < |levels| => Scaled(levels[j], d))
  }

  lemma EightScaleOf(x: seq<real>)
    ensures var (a, d) := (Largest(x, |x|), EightScale(x));
      Scaled(127, d) == a && d >= 0.0 && (d == 0.0 <==> a == 0.0)
  {
    hide Largest, Quotient, Scaled;
    RangeScaled(Largest(x, |x|), 127, EightScale(x));
  }

  /** Levels never reach -128. */
  lemma EightClose(v: real, d: real)
    requires d >= 0.0 && Abs(v) <= Scaled(127, d)
    ensures var l := EightLevel(v, d);
      && -127 <= l <= 127 && Abs(v - Scaled(l, d)) <= 0.5 * Abs(d)
      && (d == 0.0 ==> l == 0) && (d > 0.0 && Abs(v) == Scaled(127, d) ==> l == 127 || l == -127)
  {
    hide Steps, Scaled;
    var q := Steps(v, d);
    if d == 0.0 {
      NoSteps(v);
      ZeroScaled(0);
      ZeroScaled(127);
    } else {
      InverseBound(v, d, 127, q);
      OffBy(v, q, d, EightLevel(v, d), 0.5);
      ScaledBack(127, d);
      ScaledBack(-127, d);
      ScaledNegated(127, d);
    }
  }

  lemma ScaledNegated(k: int, d: real)
    ensures Scaled(-k, d) == -Scaled(k, d)
  {
  }

  lemma EightBack(l: int, d: real)
    requires d == 0.0 ==> l == 0
    ensures EightLevel(Scaled(l, d), d) == l
  {
    hide Steps, Scaled;
    if d == 0.0 {
      NoSteps(Scaled(l, d));
    } else {
      ScaledBack(l, d);
    }
  }

  lemma LargestIs(x: seq<real>, a: real)
    requires (a == 0.0 || exists j :: 0 <= j < |x| && Abs(x[j]) == a) && a >= 0.0 && forall j :: 0 <= j < |x| ==>
      Abs(x[j]) <= a
    ensures Largest(x, |x|) == a
  {
  }

  /** Quantise, dequantise, quantise: the same scale and the same levels. */
  lemma EightProjection(x: seq<real>)
    ensures var (d, l) := (EightScale(x), EightLevels(x));
      var y := EightValues(d, l);
      EightScale(y) == d && EightLevels(y) == l
  {
    hide Scaled, EightLevel, Largest, EightScale, Abs;
    var d, l, a := EightScale(x), EightLevels(x), Largest(x, |x|);
    var y := EightValues(d, l);
    EightScaleOf(x);
    forall j | 0 <= j < |x|
      ensures Abs(y[j]) <= a && (Abs(x[j]) == a ==> Abs(y[j]) == a) && EightLevel(y[j], d) == l[j]
    {
      EightClose(x[j], d);
      EightBack(l[j], d);
      EightMagnitude(l[j], d);
    }
    if a != 0.0 {
      var j :| 0 <= j < |x| && Abs(x[j]) == a;
      assert Abs(y[j]) == a;
    }
    LargestIs(y, a);
    SameEightScale(x, y);
  }

  lemma SameEightScale(x: seq<real>, y: seq<real>)
    requires Largest(x, |x|) == Largest(y, |y|)
    ensures EightScale(x) == EightScale(y)
  {
    hide Largest;
  }

  lemma EightMagnitude(l: int, d: real)
    requires -127 <= l <= 127 && d >= 0.0
    ensures Abs(Scaled(l, d)) <= Scaled(127, d)
      && (l == 127 || l == -127 || d == 0.0 ==> Abs(Scaled(l, d)) == Scaled(127, d))
  {
    hide Scaled;
    ScaledOrder(l, 127, d);
    ScaledOrder(-127, l, d);
    ScaledNegated(127, d);
    if d == 0.0 {
      ZeroScaled(l);
      ZeroScaled(127);
    }
  }
}
