/** Weighted least squares for values `x` against integer levels `l`, and rounding. */
module WeightedFit {

  type Weights = seq<real>
  type Values = seq<real>
  type Levels = seq<int>

  // ---------------------------------------------------------------- rounding

  /** Round to nearest, ties to even: the effect of adding and removing 1.5 * 2^23. */
  function NearestInt(r: real): (i: int)
    ensures -0.5 <= r - i as real <= 0.5
  {
    var f := r.Floor;
    var d := r - f as real;
    if d < 0.5 || (d == 0.5 && f % 2 == 0) then f else f + 1
  }

  /** `i` is the nearest whole number to `r`, and the even one of two that are equally near. */
  predicate IsNearest(r: real, i: int) {
    var off := r - i as real;
    -0.5 <= off <= 0.5 && (off == 0.5 || off == -0.5 ==> i % 2 == 0)
  }

  /** Rounding finds it, and there is no other. */
  lemma NearestIntIs(r: real, i: int)
    ensures IsNearest(r, NearestInt(r))
    ensures IsNearest(r, i) ==> i == NearestInt(r)
  {
  }

  lemma NearestIntMonotone(a: real, b: real)
    requires a <= b
    ensures NearestInt(a) <= NearestInt(b)
  {
  }

  function Clamp(i: int, lo: int, hi: int): int {
    if i < lo then lo else if i > hi then hi else i
  }

  // ---------------------------------------------------------------- weighted sums

  function SumW(w: Weights, k: nat): real
    requires k <= |w|
  {
    if k == 0 then 0.0 else SumW(w, k - 1) + w[k - 1]
  }

  function SumX(w: Weights, x: Values, k: nat): real
    requires k <= |w| && k <= |x|
  {
    if k == 0 then 0.0 else SumX(w, x, k - 1) + w[k - 1] * x[k - 1]
  }

  function SumL(w: Weights, l: Levels, k: nat): real
    requires k <= |w| && k <= |l|
  {
    if k == 0 then 0.0 else SumL(w, l, k - 1) + w[k - 1] * l[k - 1] as real
  }

  function SumL2(w: Weights, l: Levels, k: nat): real
    requires k <= |w| && k <= |l|
  {
    if k == 0 then 0.0 else SumL2(w, l, k - 1) + w[k - 1] * l[k - 1] as real * l[k - 1] as real
  }

  function SumXL(w: Weights, x: Values, l: Levels, k: nat): real
    requires k <= |w| && k <= |x| && k <= |l|
  {
    if k == 0 then 0.0 else SumXL(w, x, l, k - 1) + w[k - 1] * l[k - 1] as real * x[k - 1]
  }

  function SumX2(w: Weights, x: Values, k: nat): real
    requires k <= |w| && k <= |x|
  {
    if k == 0 then 0.0 else SumX2(w, x, k - 1) + w[k - 1] * x[k - 1] * x[k - 1]
  }

  /** How far `scale * level + min` is from the value, squared or in absolute terms. */
  function Miss(scale: real, min: real, l: int, v: real, mad: bool): (r: real)
    ensures r >= 0.0
  {
    var diff := scale * l as real + min - v;
    if mad then (if diff < 0.0 then -diff else diff) else diff * diff
  }

  /** The squared miss is the square of the absolute one. */
  lemma MissIs(scale: real, min: real, l: int, v: real)
    ensures Miss(scale, min, l, v, false) == (scale * l as real + min - v) * (scale * l as real + min - v)
    ensures Miss(scale, min, l, v, true) * Miss(scale, min, l, v, true) == Miss(scale, min, l, v, false)
  {
  }

  /** Weighted error of a scale, a minimum and levels. */
  function Error(w: Weights, x: Values, l: Levels, scale: real, min: real, mad: bool, k: nat): real
    requires k <= |w| && k <= |x| && k <= |l|
  {
    if k == 0 then 0.0
    else Error(w, x, l, scale, min, mad, k - 1) + w[k - 1] * Miss(scale, min, l[k - 1], x[k - 1], mad)
  }

  ghost predicate NonNegative(w: Weights) {
    forall i :: 0 <= i < |w| ==> w[i] >= 0.0
  }

  // ---------------------------------------------------------------- the quadratic form

  /** The squared error from its moments. */
  function Quadratic(W: real, X: real, L: real, L2: real, XL: real, X2: real, s: real, m: real): real {
    s * s * L2 + 2.0 * s * m * L + m * m * W - 2.0 * s * XL - 2.0 * m * X + X2
  }

  lemma {:induction false} ErrorIsQuadratic(w: Weights, x: Values, l: Levels, s: real, m: real, k: nat)
    requires k <= |w| && k <= |x| && k <= |l|
    ensures Error(w, x, l, s, m, false, k)
         == Quadratic(SumW(w, k), SumX(w, x, k), SumL(w, l, k), SumL2(w, l, k), SumXL(w, x, l, k), SumX2(w, x, k), s, m)
  {
    hide *;
    if k == 0 {
      NothingSummed(w, x, l, s, m);
      QuadraticOfNothing(s, m);
    } else {
      ErrorIsQuadratic(w, x, l, s, m, k - 1);
      MomentShares(w, x, l, k);
      ErrorShare(w, x, l, s, m, k);
      QuadraticStep(SumW(w, k - 1), SumX(w, x, k - 1), SumL(w, l, k - 1),
                    SumL2(w, l, k - 1), SumXL(w, x, l, k - 1), SumX2(w, x, k - 1),
                    SumW(w, k), SumX(w, x, k), SumL(w, l, k), SumL2(w, l, k), SumXL(w, x, l, k), SumX2(w, x, k),
                    w[k - 1], x[k - 1], l[k - 1], s, m);
    }
  }

  lemma NothingSummed(w: Weights, x: Values, l: Levels, s: real, m: real)
    ensures Error(w, x, l, s, m, false, 0) == 0.0
    ensures SumW(w, 0) == SumX(w, x, 0) == SumL(w, l, 0) == SumL2(w, l, 0) == SumXL(w, x, l, 0) == SumX2(w, x, 0) == 0.0
  {
  }

  function ValueShare(w: real, v: real): real { w * v }

  function LevelShare(w: real, u: int): real { w * u as real }

  function SquareShare(w: real, u: int): real { w * u as real * u as real }

  function LinearShare(w: real, u: int, v: real): real { w * u as real * v }

  function ValueSquareShare(w: real, v: real): real { w * v * v }

  function MissShare(w: real, s: real, m: real, u: int, v: real): real { w * Miss(s, m, u, v, false) }

  /** Each moment of the first `k` values is that of one value less, and a share. */
  lemma MomentShares(w: Weights, x: Values, l: Levels, k: nat)
    requires 0 < k <= |w| && k <= |x| && k <= |l|
    ensures SumW(w, k) == SumW(w, k - 1) + w[k - 1]
    ensures SumX(w, x, k) == SumX(w, x, k - 1) + ValueShare(w[k - 1], x[k - 1])
    ensures SumL(w, l, k) == SumL(w, l, k - 1) + LevelShare(w[k - 1], l[k - 1])
    ensures SumL2(w, l, k) == SumL2(w, l, k - 1) + SquareShare(w[k - 1], l[k - 1])
    ensures SumXL(w, x, l, k) == SumXL(w, x, l, k - 1) + LinearShare(w[k - 1], l[k - 1], x[k - 1])
    ensures SumX2(w, x, k) == SumX2(w, x, k - 1) + ValueSquareShare(w[k - 1], x[k - 1])
  {
  }

  lemma ErrorShare(w: Weights, x: Values, l: Levels, s: real, m: real, k: nat)
    requires 0 < k <= |w| && k <= |x| && k <= |l|
    ensures Error(w, x, l, s, m, false, k)
         == Error(w, x, l, s, m, false, k - 1) + MissShare(w[k - 1], s, m, l[k - 1], x[k - 1])
  {
    hide Miss;
  }

  lemma QuadraticOfNothing(s: real, m: real)
    ensures Quadratic(0.0, 0.0, 0.0, 0.0, 0.0, 0.0, s, m) == 0.0
  {
  }

  /** One more value: each moment, and the error, grow by that value's share. */
  lemma QuadraticStep(W: real, X: real, L: real, L2: real, XL: real, X2: real,
                      W': real, X': real, L': real, L2': real, XL': real, X2': real, w: real, v: real, u: int,
                        s: real, m: real)
    requires W' == W + w && X' == X + ValueShare(w, v) && L' == L + LevelShare(w, u)
    requires L2' == L2 + SquareShare(w, u) && XL' == XL + LinearShare(w, u, v) && X2' == X2 + ValueSquareShare(w, v)
    ensures Quadratic(W', X', L', L2', XL', X2', s, m)
         == Quadratic(W, X, L, L2, XL, X2, s, m) + MissShare(w, s, m, u, v)
  {
    ExpandSquare(w, v, u as real, s, m);
  }

  lemma ExpandSquare(w: real, v: real, u: real, s: real, m: real)
    ensures w * ((s * u + m - v) * (s * u + m - v))
         == s * s * (w * u * u) + 2.0 * s * m * (w * u) + m * m * w - 2.0 * s * (w * u * v) - 2.0 * m * (w * v)
           + w * v * v
  {
    var d := s * u + m - v;
    assert d * d == s * s * (u * u) + 2.0 * (s * m) * u + m * m - 2.0 * s * (u * v) - 2.0 * m * v + v * v;
  }

  /** A positive definite form in two variables is not negative. */
  lemma FormNonNegative(W: real, L: real, L2: real, a: real, b: real)
    requires W > 0.0 && W * L2 - L * L > 0.0
    ensures L2 * (a * a) + 2.0 * L * (a * b) + W * (b * b) >= 0.0
  {
    var q := L2 * (a * a) + 2.0 * L * (a * b) + W * (b * b);
    assert W * q == (L * a + W * b) * (L * a + W * b) + (W * L2 - L * L) * (a * a) by {
      assert (L * a + W * b) * (L * a + W * b) == L * L * (a * a) + 2.0 * (L * W) * (a * b) + W * W * (b * b);
    }
    SquareNonNegative(L * a + W * b);
    SquareNonNegative(a);
    ProductNonNegative(W * L2 - L * L, a * a);
    DivideOut(W, q);
  }

  lemma SquareNonNegative(a: real)
    ensures a * a >= 0.0
  {
  }

  lemma ProductNonNegative(a: real, b: real)
    requires a >= 0.0 && b >= 0.0
    ensures a * b >= 0.0
  {
  }

  lemma DivideOut(a: real, b: real)
    requires a > 0.0 && a * b >= 0.0
    ensures b >= 0.0
  {
    assert b < 0.0 ==> a * b < 0.0;
  }

  /** Around a point that solves both normal equations the error only grows. */
  lemma StationaryIsBest(W: real, X: real, L: real, L2: real, XL: real, X2: real, s0: real, m0: real, s: real, m: real)
    requires W > 0.0 && W * L2 - L * L > 0.0
    requires L2 * s0 + L * m0 == XL && L * s0 + W * m0 == X
    ensures Quadratic(W, X, L, L2, XL, X2, s0, m0) <= Quadratic(W, X, L, L2, XL, X2, s, m)
  {
    var a, b := s - s0, m - m0;
    FormNonNegative(W, L, L2, a, b);
    Shift(W, X, L, L2, XL, X2, s0, m0, a, b);
  }

  lemma Shift(W: real, X: real, L: real, L2: real, XL: real, X2: real, s0: real, m0: real, a: real, b: real)
    ensures Quadratic(W, X, L, L2, XL, X2, s0 + a, m0 + b)
         == Quadratic(W, X, L, L2, XL, X2, s0, m0) + (L2 * (a * a) + 2.0 * L * (a * b) + W * (b * b))
            + 2.0 * a * (L2 * s0 + L * m0 - XL) + 2.0 * b * (L * s0 + W * m0 - X)
  {
  }

  /** With the minimum held at zero, and the free optimum above zero, no minimum below zero helps. */
  lemma ClampedIsBest(W: real, X: real, L: real, L2: real, XL: real, X2: real, s0: real, s: real, m: real)
    requires W > 0.0 && W * L2 - L * L > 0.0
    requires L2 * s0 == XL && L * s0 <= X && m <= 0.0
    ensures Quadratic(W, X, L, L2, XL, X2, s0, 0.0) <= Quadratic(W, X, L, L2, XL, X2, s, m)
  {
    var a := s - s0;
    FormNonNegative(W, L, L2, a, m);
    Shift(W, X, L, L2, XL, X2, s0, 0.0, a, m);
    ProductNonNegative(-m, X - L * s0);
  }

  // ---------------------------------------------------------------- the closed form

  /** The covariance of values and levels, times the square of the total weight. */
  function Covariance(W: real, X: real, L: real, XL: real): real {
    W * XL - X * L
  }

  function Denominator(w: Weights, l: Levels): real
    requires |l| == |w|
  {
    Covariance(SumW(w, |w|), SumL(w, l, |w|), SumL(w, l, |w|), SumL2(w, l, |w|))
  }

  /** Scale and minimum from the moments; a positive minimum is replaced by zero. */
  function ClosedForm(W: real, X: real, L: real, L2: real, XL: real): (real, real)
    requires Covariance(W, L, L, L2) > 0.0 && L2 > 0.0
  {
    var D := Covariance(W, L, L, L2);
    var min := (L2 * X - L * XL) / D;
    if min > 0.0 then (XL / L2, 0.0) else ((W * XL - X * L) / D, min)
  }

  lemma {:induction false} SumsNonNegative(w: Weights, l: Levels, k: nat)
    requires k <= |w| && k <= |l| && NonNegative(w)
    ensures SumW(w, k) >= 0.0 && SumL2(w, l, k) >= 0.0
  {
    if k > 0 {
      SumsNonNegative(w, l, k - 1);
      var u := l[k - 1] as real;
      SquareNonNegative(u);
      ProductNonNegative(w[k - 1], u * u);
      assert w[k - 1] * u * u == w[k - 1] * (u * u);
    }
  }

  /** A positive denominator needs a positive weight and a positive second moment. */
  lemma MomentsPositive(W: real, L: real, L2: real)
    requires W >= 0.0 && L2 >= 0.0 && Covariance(W, L, L, L2) > 0.0
    ensures W > 0.0 && L2 > 0.0
  {
    SquareNonNegative(L);
  }

  lemma DenominatorPositive(w: Weights, l: Levels)
    requires |l| == |w| && NonNegative(w) && Denominator(w, l) > 0.0
    ensures SumW(w, |w|) > 0.0 && SumL2(w, l, |w|) > 0.0
  {
    hide Covariance;
    SumsNonNegative(w, l, |w|);
    MomentsPositive(SumW(w, |w|), SumL(w, l, |w|), SumL2(w, l, |w|));
  }

  lemma NormalEquations(W: real, X: real, L: real, L2: real, XL: real, D: real)
    requires D == W * L2 - L * L && D > 0.0
    ensures var s, m := (W * XL - X * L) / D, (L2 * X - L * XL) / D; L2 * s + L * m == XL && L * s + W * m == X
  {
    var s, m := (W * XL - X * L) / D, (L2 * X - L * XL) / D;
    assert s * D == W * XL - X * L && m * D == L2 * X - L * XL;
    assert (L2 * s + L * m) * D == XL * D by {
      assert (L2 * s + L * m) * D == L2 * (s * D) + L * (m * D);
    }
    assert (L * s + W * m) * D == X * D by {
      assert (L * s + W * m) * D == L * (s * D) + W * (m * D);
    }
    Cancel(L2 * s + L * m, XL, D);
    Cancel(L * s + W * m, X, D);
  }

  lemma Cancel(a: real, b: real, d: real)
    requires d > 0.0 && a * d == b * d
    ensures a == b
  {
    assert (a - b) * d == 0.0;
  }

  /** For fixed levels the closed form has the least squared error among all scales and all minima
      that are not positive. */
  lemma ClosedFormIsOptimal(w: Weights, x: Values, l: Levels, s: real, m: real)
    requires |x| == |w| == |l| && NonNegative(w) && Denominator(w, l) > 0.0 && m <= 0.0
    ensures SumL2(w, l, |w|) > 0.0
    ensures var (s0, m0) := ClosedForm(SumW(w, |w|), SumX(w, x, |w|), SumL(w, l, |w|), SumL2(w, l, |w|),
      SumXL(w, x, l, |w|));
      m0 <= 0.0 && Error(w, x, l, s0, m0, false, |w|) <= Error(w, x, l, s, m, false, |w|)
  {
    hide Covariance, Quadratic, SumW, SumX, SumL, SumL2, SumXL, SumX2, Error, ClosedForm;
    var k := |w|;
    var W, X, L, L2, XL, X2 := SumW(w, k), SumX(w, x, k), SumL(w, l, k), SumL2(w, l, k), SumXL(w, x, l, k),
      SumX2(w, x, k);
    DenominatorPositive(w, l);
    var (s0, m0) := ClosedForm(W, X, L, L2, XL);
    ErrorIsQuadratic(w, x, l, s0, m0, k);
    ErrorIsQuadratic(w, x, l, s, m, k);
    ClosedFormQuadratic(W, X, L, L2, XL, X2, s, m);
  }

  lemma ClosedFormQuadratic(W: real, X: real, L: real, L2: real, XL: real, X2: real, s: real, m: real)
    requires W > 0.0 && L2 > 0.0 && Covariance(W, L, L, L2) > 0.0 && m <= 0.0
    ensures var (s0, m0) := ClosedForm(W, X, L, L2, XL);
      m0 <= 0.0 && Quadratic(W, X, L, L2, XL, X2, s0, m0) <= Quadratic(W, X, L, L2, XL, X2, s, m)
  {
    hide Quadratic, Covariance;
    var D := Covariance(W, L, L, L2);
    var free := (L2 * X - L * XL) / D;
    if free > 0.0 {
      ClampedQuadratic(W, X, L, L2, XL, X2, D, free, s, m);
    } else {
      var (s0, m0) := ClosedForm(W, X, L, L2, XL);
      FreeQuadratic(W, X, L, L2, XL, X2, D, s0, m0, s, m);
    }
  }

  lemma ClampedQuadratic(W: real, X: real, L: real, L2: real, XL: real, X2: real, D: real, free: real, s: real, m: real)
    requires W > 0.0 && L2 > 0.0 && D == Covariance(W, L, L, L2) && D > 0.0 && m <= 0.0
    requires free == (L2 * X - L * XL) / D && free > 0.0
    ensures Quadratic(W, X, L, L2, XL, X2, XL / L2, 0.0) <= Quadratic(W, X, L, L2, XL, X2, s, m)
  {
    hide Quadratic;
    PositiveNumerator(L2 * X - L * XL, D, free);
    ClampedSlope(X, L, L2, XL);
    ClampedIsBest(W, X, L, L2, XL, X2, XL / L2, s, m);
  }

  lemma PositiveNumerator(n: real, d: real, q: real)
    requires d > 0.0 && q == n / d && q > 0.0
    ensures n > 0.0
  {
    assert q * d == n;
  }

  lemma FreeQuadratic(W: real, X: real, L: real, L2: real, XL: real, X2: real, D: real, s0: real, m0: real, s: real,
                      m: real)
    requires W > 0.0 && L2 > 0.0 && D == Covariance(W, L, L, L2) && D > 0.0
    requires s0 == (W * XL - X * L) / D && m0 == (L2 * X - L * XL) / D
    ensures Quadratic(W, X, L, L2, XL, X2, s0, m0) <= Quadratic(W, X, L, L2, XL, X2, s, m)
  {
    hide Quadratic;
    NormalEquations(W, X, L, L2, XL, D);
    StationaryIsBest(W, X, L, L2, XL, X2, s0, m0, s, m);
  }

  lemma ClampedSlope(X: real, L: real, L2: real, XL: real)
    requires L2 > 0.0 && L2 * X - L * XL > 0.0
    ensures L2 * (XL / L2) == XL && L * (XL / L2) <= X
  {
    var s0 := XL / L2;
    assert s0 * L2 == XL;
    assert L2 * (X - L * s0) == L2 * X - L * (s0 * L2);
    DivideOut(L2, X - L * s0);
  }

  // ---------------------------------------------------------------- the scale is not negative

  ghost predicate SameOrder(x: Values, l: Levels)
    requires |x| == |l|
  {
    forall i, j :: 0 <= i < |x| && 0 <= j < |x| && x[i] <= x[j] ==> l[i] <= l[j]
  }

  function Share(w: real, a: real, b: real): real {
    w * (a * b)
  }

  /** Sum of `w[i] * (x[i] - v) * (l[i] - u)`. */
  function Cross(w: Weights, x: Values, l: Levels, v: real, u: int, k: nat): real
    requires k <= |w| && k <= |x| && k <= |l|
  {
    if k == 0 then 0.0 else Cross(w, x, l, v, u, k - 1) + Share(w[k - 1], x[k - 1] - v, l[k - 1] as real - u as real)
  }

  function CrossForm(W: real, X: real, L: real, XL: real, v: real, u: real): real {
    XL - u * X - v * L + W * (v * u)
  }

  lemma {:induction false} CrossExpands(w: Weights, x: Values, l: Levels, v: real, u: int, k: nat)
    requires k <= |w| && k <= |x| && k <= |l|
    ensures Cross(w, x, l, v, u, k)
      == CrossForm(SumW(w, k), SumX(w, x, k), SumL(w, l, k), SumXL(w, x, l, k), v, u as real)
  {
    hide CrossForm;
    if k == 0 {
      CrossFormOfNothing(v, u as real);
    } else {
      CrossExpands(w, x, l, v, u, k - 1);
      CrossExpandsOne(w, x, l, v, u, k);
    }
  }

  lemma CrossExpandsOne(w: Weights, x: Values, l: Levels, v: real, u: int, k: nat)
    requires 0 < k <= |w| && k <= |x| && k <= |l|
    requires Cross(w, x, l, v, u, k - 1)
          == CrossForm(SumW(w, k - 1), SumX(w, x, k - 1), SumL(w, l, k - 1), SumXL(w, x, l, k - 1), v, u as real)
    ensures Cross(w, x, l, v, u, k)
      == CrossForm(SumW(w, k), SumX(w, x, k), SumL(w, l, k), SumXL(w, x, l, k), v, u as real)
  {
    hide *;
    MomentShares(w, x, l, k);
    CrossShares(w, x, l, v, u, k);
    CrossStep(SumW(w, k - 1), SumX(w, x, k - 1), SumL(w, l, k - 1), SumXL(w, x, l, k - 1), Cross(w, x, l, v, u, k - 1),
              SumW(w, k), SumX(w, x, k), SumL(w, l, k), SumXL(w, x, l, k), Cross(w, x, l, v, u, k),
              w[k - 1], x[k - 1], l[k - 1], v, u);
  }

  lemma CrossShares(w: Weights, x: Values, l: Levels, v: real, u: int, k: nat)
    requires 0 < k <= |w| && k <= |x| && k <= |l|
    ensures Cross(w, x, l, v, u, k) == Cross(w, x, l, v, u, k - 1) + CentredShare(w[k - 1], x[k - 1], l[k - 1], v, u)
  {
  }

  function CentredShare(w: real, a: real, b: int, v: real, u: int): real {
    Share(w, a - v, b as real - u as real)
  }

  lemma CrossFormOfNothing(v: real, u: real)
    ensures CrossForm(0.0, 0.0, 0.0, 0.0, v, u) == 0.0
  {
  }

  lemma CrossStep(W: real, X: real, L: real, XL: real, c: real, W': real, X': real, L': real, XL': real, c': real,
                  w: real, a: real, b: int, v: real, u: int)
    requires W' == W + w && X' == X + ValueShare(w, a) && L' == L + LevelShare(w, b)
    requires XL' == XL + LinearShare(w, b, a) && c' == c + CentredShare(w, a, b, v, u)
    requires c == CrossForm(W, X, L, XL, v, u as real)
    ensures c' == CrossForm(W', X', L', XL', v, u as real)
  {
    CentredExpands(w, a, b as real, v, u as real);
  }

  lemma CentredExpands(w: real, a: real, b: real, v: real, u: real)
    ensures w * ((a - v) * (b - u)) == w * b * a - u * (w * a) - v * (w * b) + w * (v * u)
  {
  }

  // ---------------------------------------------------------------- strictly positive scales

  /** Sum of `w[i] * (l[i] - u) * (l[i] - u)`. */
  function Spread(w: Weights, l: Levels, u: int, k: nat): real
    requires k <= |w| && k <= |l|
  {
    if k == 0 then 0.0
    else Spread(w, l, u, k - 1) + Share(w[k - 1], l[k - 1] as real - u as real, l[k - 1] as real - u as real)
  }

  /** The spread is the cross sum of the levels with themselves. */
  lemma {:induction false} SpreadIsCross(w: Weights, l: Levels, u: int, k: nat)
    requires k <= |w| && k <= |l|
    ensures Spread(w, l, u, k) == Cross(w, AsValues(l), l, u as real, u, k)
  {
    hide Share;
    if k > 0 {
      SpreadIsCross(w, l, u, k - 1);
    }
  }

  function AsValues(l: Levels): (v: Values)
    ensures |v| == |l| && forall i :: 0 <= i < |l| ==> v[i] == l[i] as real
  {
    seq(|l|, i requires 0 <= i < |l| => l[i] as real)
  }

  lemma {:induction false} MomentsOfLevels(w: Weights, l: Levels, k: nat)
    requires k <= |w| && k <= |l|
    ensures SumX(w, AsValues(l), k) == SumL(w, l, k) && SumXL(w, AsValues(l), l, k) == SumL2(w, l, k)
  {
    if k > 0 {
      MomentsOfLevels(w, l, k - 1);
    }
  }

  /** Where levels differ from `l[j]`, so do the values, in the same direction. */
  lemma {:induction false} SpreadNeedsCross(w: Weights, x: Values, l: Levels, j: nat, k: nat)
    requires |w| == |x| == |l| && j < |x| && k <= |x| && SameOrder(x, l) && NonNegative(w)
    ensures Cross(w, x, l, x[j], l[j], k) >= 0.0 && Spread(w, l, l[j], k) >= 0.0
    ensures Spread(w, l, l[j], k) > 0.0 ==> Cross(w, x, l, x[j], l[j], k) > 0.0
  {
    hide Share;
    if k > 0 {
      SpreadNeedsCross(w, x, l, j, k - 1);
      assert x[k - 1] <= x[j] ==> l[k - 1] <= l[j];
      assert x[j] <= x[k - 1] ==> l[j] <= l[k - 1];
      CrossShare(w[k - 1], x[k - 1] - x[j], l[k - 1] as real - l[j] as real);
    }
  }

  lemma CrossShare(w: real, a: real, b: real)
    requires w >= 0.0 && (a <= 0.0 ==> b <= 0.0) && (a >= 0.0 ==> b >= 0.0)
    ensures Share(w, a, b) >= 0.0 && Share(w, b, b) >= 0.0
    ensures Share(w, b, b) > 0.0 ==> Share(w, a, b) > 0.0
  {
    SquareNonNegative(b);
    ProductNonNegative(w, b * b);
    if b > 0.0 {
      assert a > 0.0 && a * b > 0.0;
    } else if b < 0.0 {
      assert a < 0.0 && a * b == -a * -b > 0.0;
    } else {
      assert a * b == 0.0 && b * b == 0.0;
    }
    ProductNonNegative(w, a * b);
    assert w == 0.0 ==> w * (b * b) == 0.0;
    assert w > 0.0 && a * b > 0.0 ==> w * (a * b) > 0.0;
  }

  /** When the weighted levels vary, they follow the values: the covariance is positive. */
  lemma {:induction false} CovariancePositive(w: Weights, x: Values, l: Levels, k: nat)
    requires |w| == |x| == |l| && k <= |x| && SameOrder(x, l) && NonNegative(w)
    ensures Covariance(SumW(w, k), SumX(w, x, k), SumL(w, l, k), SumXL(w, x, l, k)) >= 0.0
    ensures Covariance(SumW(w, k), SumL(w, l, k), SumL(w, l, k), SumL2(w, l, k)) >= 0.0
    ensures Covariance(SumW(w, k), SumL(w, l, k), SumL(w, l, k), SumL2(w, l, k)) > 0.0
        ==> Covariance(SumW(w, k), SumX(w, x, k), SumL(w, l, k), SumXL(w, x, l, k)) > 0.0
  {
    hide Covariance, CrossForm, Cross, Spread, SumW, SumX, SumL, SumXL, SumL2;
    if k == 0 {
      NoCovariance(w, x, l);
    } else {
      CovariancePositive(w, x, l, k - 1);
      SpreadNeedsCross(w, x, l, k - 1, k - 1);
      CrossExpands(w, x, l, x[k - 1], l[k - 1], k - 1);
      CovarianceStep(w, x, l, k, Cross(w, x, l, x[k - 1], l[k - 1], k - 1));
      SpreadIsCross(w, l, l[k - 1], k - 1);
      CrossExpands(w, AsValues(l), l, l[k - 1] as real, l[k - 1], k - 1);
      MomentsOfLevels(w, l, k - 1);
      MomentsOfLevels(w, l, k);
      CovarianceStep(w, AsValues(l), l, k, Spread(w, l, l[k - 1], k - 1));
      ShareSign(w[k - 1], Cross(w, x, l, x[k - 1], l[k - 1], k - 1), Spread(w, l, l[k - 1], k - 1));
    }
  }

  lemma ShareSign(w: real, c: real, d: real)
    requires w >= 0.0 && c >= 0.0 && d >= 0.0 && (d > 0.0 ==> c > 0.0)
    ensures w * c >= 0.0 && w * d >= 0.0 && (w * d > 0.0 ==> w * c > 0.0)
  {
    ProductNonNegative(w, c);
    ProductNonNegative(w, d);
    assert w == 0.0 || d == 0.0 ==> w * d == 0.0;
    assert w > 0.0 && c > 0.0 ==> w * c > 0.0;
  }

  lemma NoCovariance(w: Weights, x: Values, l: Levels)
    ensures Covariance(SumW(w, 0), SumX(w, x, 0), SumL(w, l, 0), SumXL(w, x, l, 0)) == 0.0
    ensures Covariance(SumW(w, 0), SumL(w, l, 0), SumL(w, l, 0), SumL2(w, l, 0)) == 0.0
  {
  }

  /** One more value adds its weight times its cross sum with the values before. */
  lemma CovarianceStep(w: Weights, x: Values, l: Levels, k: nat, c: real)
    requires |w| == |x| == |l| && 0 < k <= |x|
    requires c == CrossForm(SumW(w, k - 1), SumX(w, x, k - 1), SumL(w, l, k - 1), SumXL(w, x, l, k - 1), x[k - 1],
      l[k - 1] as real)
    ensures Covariance(SumW(w, k), SumX(w, x, k), SumL(w, l, k), SumXL(w, x, l, k))
         == Covariance(SumW(w, k - 1), SumX(w, x, k - 1), SumL(w, l, k - 1), SumXL(w, x, l, k - 1)) + w[k - 1] * c
  {
    hide Covariance, CrossForm;
    CovarianceOne(SumW(w, k - 1), SumX(w, x, k - 1), SumL(w, l, k - 1), SumXL(w, x, l, k - 1),
                  SumW(w, k), SumX(w, x, k), SumL(w, l, k), SumXL(w, x, l, k), w[k - 1], x[k - 1], l[k - 1] as real, c);
  }

  lemma CovarianceOne(W: real, X: real, L: real, XL: real, W': real, X': real, L': real, XL': real, w: real, v: real,
                      u: real, c: real)
    requires c == CrossForm(W, X, L, XL, v, u)
    requires W' == W + w && X' == X + w * v && L' == L + w * u && XL' == XL + w * u * v
    ensures Covariance(W', X', L', XL') == Covariance(W, X, L, XL) + w * c
  {
    var p, q, r := w * u, w * v, w * u * v;
    assert w * c == w * XL - p * X - q * L + W * r by {
      assert w * (u * X) == p * X && w * (v * L) == q * L && w * (W * (v * u)) == W * r;
    }
    assert w * r == p * q;
    CovarianceGrows(W, X, L, XL, w, p, q, r);
  }

  lemma CovarianceGrows(W: real, X: real, L: real, XL: real, w: real, p: real, q: real, r: real)
    ensures Covariance(W + w, X + q, L + p, XL + r)
         == Covariance(W, X, L, XL) + (w * XL - p * X - q * L + W * r) + (w * r - p * q)
  {
  }

  /** Levels are not negative, so their sum vanishes only when their squares do. */
  lemma {:induction false} LevelSums(w: Weights, l: Levels, k: nat)
    requires k <= |w| && k <= |l| && NonNegative(w) && forall i :: 0 <= i < |l| ==> l[i] >= 0
    ensures SumL(w, l, k) >= 0.0 && SumL2(w, l, k) >= 0.0
    ensures SumL(w, l, k) == 0.0 ==> SumL2(w, l, k) == 0.0
  {
    if k > 0 {
      LevelSums(w, l, k - 1);
      var u := l[k - 1] as real;
      ProductNonNegative(w[k - 1], u);
      ProductNonNegative(w[k - 1] * u, u);
    }
  }

  /** The values are bounded by `max`, and so is their weighted sum. */
  lemma {:induction false} SumXBounded(w: Weights, x: Values, max: real, k: nat)
    requires k <= |w| && k <= |x| && NonNegative(w) && forall i :: 0 <= i < |x| ==> x[i] <= max
    ensures SumX(w, x, k) <= SumW(w, k) * max
  {
    if k > 0 {
      SumXBounded(w, x, max, k - 1);
      ProductNonNegative(w[k - 1], max - x[k - 1]);
      assert w[k - 1] * (max - x[k - 1]) == w[k - 1] * max - w[k - 1] * x[k - 1];
      assert SumW(w, k) * max == SumW(w, k - 1) * max + w[k - 1] * max;
    }
  }

  /** When the levels follow the values, the closed form has a positive scale, and its minimum
      stays below every bound of the values. */
  lemma ClosedFormScale(w: Weights, x: Values, l: Levels, max: real)
    requires |x| == |w| == |l| && NonNegative(w) && SameOrder(x, l) && Denominator(w, l) > 0.0
    requires (forall i :: 0 <= i < |l| ==> l[i] >= 0) && forall i :: 0 <= i < |x| ==> x[i] <= max
    ensures SumL2(w, l, |w|) > 0.0
    ensures var (s, m) := ClosedForm(SumW(w, |w|), SumX(w, x, |w|), SumL(w, l, |w|), SumL2(w, l, |w|),
      SumXL(w, x, l, |w|));
      s > 0.0 && m <= 0.0 && m < max
  {
    hide ClosedForm, Covariance, SumW, SumX, SumL, SumL2, SumXL;
    var k := |w|;
    var W, L, L2 := SumW(w, k), SumL(w, l, k), SumL2(w, l, k);
    DenominatorPositive(w, l);
    CovariancePositive(w, x, l, k);
    LevelSums(w, l, k);
    SumXBounded(w, x, max, k);
    ScaleFromMoments(W, SumX(w, x, k), L, L2, SumXL(w, x, l, k), max);
  }

  lemma ScaleFromMoments(W: real, X: real, L: real, L2: real, XL: real, max: real)
    requires W > 0.0 && L > 0.0 && L2 > 0.0 && Covariance(W, L, L, L2) > 0.0 && Covariance(W, X, L, XL) > 0.0
      && X <= W * max
    ensures var (s, m) := ClosedForm(W, X, L, L2, XL); s > 0.0 && m <= 0.0 && m < max
  {
    hide Covariance;
    var D := Covariance(W, L, L, L2);
    var slope, free := (W * XL - X * L) / D, (L2 * X - L * XL) / D;
    FreeSolution(W, X, L, L2, XL, D, slope, free);
    if free > 0.0 {
      ClampedScale(W, X, L, L2, XL, slope, free, max);
    } else {
      FreeMinimum(W, X, L, slope, free, max);
    }
  }

  lemma FreeSolution(W: real, X: real, L: real, L2: real, XL: real, D: real, slope: real, free: real)
    requires D == Covariance(W, L, L, L2) && D > 0.0 && Covariance(W, X, L, XL) > 0.0
    requires slope == (W * XL - X * L) / D && free == (L2 * X - L * XL) / D
    ensures slope > 0.0 && L2 * slope + L * free == XL && L * slope + W * free == X
  {
    NormalEquations(W, X, L, L2, XL, D);
    QuotientPositive(W * XL - X * L, D);
  }

  lemma ClampedScale(W: real, X: real, L: real, L2: real, XL: real, slope: real, free: real, max: real)
    requires W > 0.0 && L > 0.0 && L2 > 0.0 && slope > 0.0 && free > 0.0 && X <= W * max
    requires L2 * slope + L * free == XL && L * slope + W * free == X
    ensures XL / L2 > 0.0 && max > 0.0
  {
    assert L2 * slope > 0.0 && L * free > 0.0 && L * slope > 0.0 && W * free > 0.0;
    QuotientPositive(XL, L2);
    assert max <= 0.0 ==> W * max <= 0.0;
  }

  lemma FreeMinimum(W: real, X: real, L: real, slope: real, free: real, max: real)
    requires W > 0.0 && L > 0.0 && slope > 0.0 && X <= W * max && L * slope + W * free == X
    ensures free < max
  {
    assert L * slope > 0.0;
    assert W * (max - free) == W * max - W * free;
    assert max - free <= 0.0 ==> W * (max - free) <= 0.0;
  }

  lemma QuotientPositive(a: real, b: real)
    requires a > 0.0 && b > 0.0
    ensures a / b > 0.0
  {
    var q := a / b;
    assert q * b == a;
    assert q <= 0.0 ==> q * b <= 0.0;
  }
}
