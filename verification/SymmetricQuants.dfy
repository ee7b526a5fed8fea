/** The searches for a block's scale and signed levels: `make_q3_quants` (coordinate descent) and
    `make_qx_quants` (a scan over step sizes). */
module SymmetricQuants {
  import opened Reals
  import opened WeightedFit

  function Squares(x: Values): (w: Weights)
    ensures |w| == |x| && forall i :: 0 <= i < |x| ==> w[i] == x[i] * x[i]
  {
    seq(|x|, i requires 0 <= i < |x| => x[i] * x[i])
  }

  function Ones(n: nat): (w: Weights)
    ensures |w| == n && forall i :: 0 <= i < n ==> w[i] == 1.0
  {
    seq(n, i requires 0 <= i < n => 1.0)
  }

  function SignedLevel(v: real, iscale: real, nmax: int): int {
    Clamp(NearestInt(iscale * v), -nmax, nmax - 1)
  }

  function SignedLevels(x: Values, iscale: real, nmax: int): (l: Levels)
    ensures |l| == |x| && forall i :: 0 <= i < |x| ==> l[i] == SignedLevel(x[i], iscale, nmax)
  {
    seq(|x|, i requires 0 <= i < |x| => SignedLevel(x[i], iscale, nmax))
  }

  ghost predicate InRange(l: Levels, nmax: int) {
    forall i :: 0 <= i < |l| ==> -nmax <= l[i] < nmax
  }

  // ---------------------------------------------------------------- the best scale for given levels

  /** Weighted squared error of `scale * level`. */
  function ScaleError(w: Weights, x: Values, l: Levels, s: real): real
    requires |w| == |x| == |l|
  {
    Error(w, x, l, s, 0.0, false, |x|)
  }

  /** The error left by the best scale, from the moments. */
  function BestError(w: Weights, x: Values, l: Levels): real
    requires |w| == |x| == |l| && SumL2(w, l, |x|) > 0.0
  {
    SumX2(w, x, |x|) - SumXL(w, x, l, |x|) * SumXL(w, x, l, |x|) / SumL2(w, l, |x|)
  }

  /** The quotient of the moments is the best scale, and leaves exactly `BestError`. */
  lemma BestScale(w: Weights, x: Values, l: Levels, s: real)
    requires |w| == |x| == |l| && SumL2(w, l, |x|) > 0.0
    ensures ScaleError(w, x, l, SumXL(w, x, l, |x|) / SumL2(w, l, |x|)) == BestError(w, x, l) <= ScaleError(w, x, l, s)
  {
    hide Error, SumXL, SumL2, SumX2, SumW, SumX, SumL, Quadratic;
    var k := |x|;
    var XL, L2, X2 := SumXL(w, x, l, k), SumL2(w, l, k), SumX2(w, x, k);
    ErrorIsQuadratic(w, x, l, XL / L2, 0.0, k);
    ErrorIsQuadratic(w, x, l, s, 0.0, k);
    CompleteSquare(SumW(w, k), SumX(w, x, k), SumL(w, l, k), L2, XL, X2, s);
  }

  lemma CompleteSquare(W: real, X: real, L: real, L2: real, XL: real, X2: real, s: real)
    requires L2 > 0.0
    ensures Quadratic(W, X, L, L2, XL, X2, XL / L2, 0.0) == X2 - XL * XL / L2
    ensures X2 - XL * XL / L2 <= Quadratic(W, X, L, L2, XL, X2, s, 0.0)
  {
    var q := XL / L2;
    assert q * L2 == XL;
    assert XL * XL / L2 == q * XL by {
      assert (q * XL) * L2 == XL * XL;
      Cancel(XL * XL / L2, q * XL, L2);
    }
    SquareNonNegative(s - q);
    ProductNonNegative(L2, (s - q) * (s - q));
    assert Quadratic(W, X, L, L2, XL, X2, s, 0.0) == s * s * L2 - 2.0 * s * XL + X2;
    assert Quadratic(W, X, L, L2, XL, X2, q, 0.0) == q * q * L2 - 2.0 * q * XL + X2;
    assert L2 * ((s - q) * (s - q)) == s * s * L2 - 2.0 * s * (q * L2) + q * (q * L2);
    assert q * q * L2 == q * (q * L2);
  }

  /** The comparison of `a' * a' / b'` with `a * a / b`, without division. */
  predicate Exceeds(a': real, b': real, a: real, b: real) {
    a' * a' * b > a * a * b'
  }

  /** Comparing quotients of moments without division is comparing errors. */
  lemma LargerQuotientIsBetter(w: Weights, x: Values, l: Levels, l': Levels)
    requires |w| == |x| == |l| == |l'| && SumL2(w, l, |x|) > 0.0 && SumL2(w, l', |x|) > 0.0
    ensures var a, b := SumXL(w, x, l, |x|), SumL2(w, l, |x|);
      var a', b' := SumXL(w, x, l', |x|), SumL2(w, l', |x|);
      Exceeds(a', b', a, b) <==> BestError(w, x, l') < BestError(w, x, l)
  {
    hide SumXL, SumL2, SumX2;
    CompareQuotients(SumXL(w, x, l, |x|), SumL2(w, l, |x|), SumXL(w, x, l', |x|), SumL2(w, l', |x|));
  }

  lemma CompareQuotients(a: real, b: real, a': real, b': real)
    requires b > 0.0 && b' > 0.0
    ensures Exceeds(a', b', a, b) <==> a' * a' / b' > a * a / b
  {
    var p, q := a * a / b, a' * a' / b';
    assert p * b == a * a && q * b' == a' * a';
    assert (q - p) * (b * b') == (q * b') * b - (p * b) * b';
    assert b * b' > 0.0;
    SignOfProduct(q - p, b * b');
  }

  lemma SignOfProduct(a: real, b: real)
    requires b > 0.0
    ensures a * b > 0.0 <==> a > 0.0
  {
  }

  // ---------------------------------------------------------------- changing one level

  lemma {:induction false} FirstMomentAfterChange(w: Weights, x: Values, l: Levels, i: nat, u: int, k: nat)
    requires |w| == |x| == |l| && i < |l| && k <= |x|
    ensures SumXL(w, x, l[i := u], k)
         == SumXL(w, x, l, k) + (if i < k then LinearShare(w[i], u, x[i]) - LinearShare(w[i], l[i], x[i]) else 0.0)
  {
    if k > 0 {
      FirstMomentAfterChange(w, x, l, i, u, k - 1);
      FirstMomentShare(w, x, l, k);
      FirstMomentShare(w, x, l[i := u], k);
      hide LinearShare, SumXL;
    }
  }

  lemma FirstMomentShare(w: Weights, x: Values, l: Levels, k: nat)
    requires |w| == |x| == |l| && 0 < k <= |x|
    ensures SumXL(w, x, l, k) == SumXL(w, x, l, k - 1) + LinearShare(w[k - 1], l[k - 1], x[k - 1])
  {
  }

  lemma {:induction false} SecondMomentAfterChange(w: Weights, l: Levels, i: nat, u: int, k: nat)
    requires |w| == |l| && i < |l| && k <= |l|
    ensures SumL2(w, l[i := u], k) == SumL2(w, l, k)
      + (if i < k then SquareShare(w[i], u) - SquareShare(w[i], l[i]) else 0.0)
  {
    if k > 0 {
      SecondMomentAfterChange(w, l, i, u, k - 1);
      SecondMomentShare(w, l, k);
      SecondMomentShare(w, l[i := u], k);
      hide SquareShare, SumL2;
    }
  }

  lemma SecondMomentShare(w: Weights, l: Levels, k: nat)
    requires |w| == |l| && 0 < k <= |l|
    ensures SumL2(w, l, k) == SumL2(w, l, k - 1) + SquareShare(w[k - 1], l[k - 1])
  {
  }

  // ---------------------------------------------------------------- the level proposed

  /** The moments of all levels but that of `i`. */
  function RestXL(x: Values, l: Levels, i: nat): real
    requires |l| == |x| && i < |x|
  {
    SumXL(Squares(x), x, l, |x|) - LinearShare(x[i] * x[i], l[i], x[i])
  }

  function RestL2(x: Values, l: Levels, i: nat): real
    requires |l| == |x| && i < |x|
  {
    SumL2(Squares(x), l, |x|) - SquareShare(x[i] * x[i], l[i])
  }

  /** The level that solves `a * u == x * b`. */
  function Ratio(x: real, b: real, a: real): real
    requires a > 0.0
  {
    x * b / a
  }

  function Proposal(x: Values, nmax: nat, l: Levels, i: nat): int
    requires |l| == |x| && i < |x| && RestXL(x, l, i) > 0.0
  {
    Clamp(NearestInt(Ratio(x[i], RestL2(x, l, i), RestXL(x, l, i))), 0 - nmax, nmax - 1)
  }

  /** The moments when a value `x` of weight `w` gets the real level `u`, those of the others being
      `a` and `b`. */
  function WholeXL(a: real, w: real, x: real, u: real): real { a + w * (x * u) }

  function WholeL2(b: real, w: real, u: real): real { b + w * (u * u) }

  /** What the best scale then takes off the error. */
  function ScoreWith(a: real, b: real, w: real, x: real, u: real): real
    requires WholeL2(b, w, u) > 0.0
  {
    WholeXL(a, w, x, u) * WholeXL(a, w, x, u) / WholeL2(b, w, u)
  }

  /** The number that the proposal rounds is the best of all real levels. */
  lemma ProposalIsBest(a: real, b: real, w: real, x: real, u: real, v: real)
    requires a > 0.0 && b > 0.0 && w >= 0.0 && v == Ratio(x, b, a)
    ensures WholeL2(b, w, u) > 0.0 && WholeL2(b, w, v) > 0.0
    ensures ScoreWith(a, b, w, x, u) <= ScoreWith(a, b, w, x, v)
  {
    hide WholeXL, WholeL2;
    assert a * v == x * b;
    WeightedSquare(b, w, u);
    WeightedSquare(b, w, v);
    WithinBound(a, b, w, x, u);
    WithinBound(a, b, w, x, v);
    SameBound(WholeXL(a, w, x, u), WholeL2(b, w, u), WholeXL(a, w, x, v), WholeL2(b, w, v), b, Bound(a, b, w, x));
  }

  lemma WeightedSquare(b: real, w: real, u: real)
    requires b > 0.0 && w >= 0.0
    ensures WholeL2(b, w, u) > 0.0
  {
    SquareNonNegative(u);
    ProductNonNegative(w, u * u);
  }

  function Bound(a: real, b: real, w: real, x: real): real { a * a + w * (x * x) * b }

  /** No level exceeds the bound, and one that solves `a * u == x * b` meets it. */
  lemma WithinBound(a: real, b: real, w: real, x: real, u: real)
    requires w >= 0.0
    ensures b * (WholeXL(a, w, x, u) * WholeXL(a, w, x, u)) <= Bound(a, b, w, x) * WholeL2(b, w, u)
    ensures a * u == x * b ==> b * (WholeXL(a, w, x, u) * WholeXL(a, w, x, u)) == Bound(a, b, w, x) * WholeL2(b, w, u)
  {
    hide WholeXL, WholeL2, Bound;
    var r := a * u - x * b;
    Gap(a, b, w, x, u, r);
    SquareNonNegative(r);
    ProductNonNegative(w, r * r);
  }

  lemma Gap(a: real, b: real, w: real, x: real, u: real, r: real)
    requires r == a * u - x * b
    ensures Bound(a, b, w, x) * WholeL2(b, w, u) - b * (WholeXL(a, w, x, u) * WholeXL(a, w, x, u)) == w * (r * r)
  {
    assert r * r == a * a * (u * u) - 2.0 * (a * u * (x * b)) + x * x * (b * b);
  }

  /** `n` meets the bound `t / b`, and `k` stays within it. */
  lemma SameBound(k: real, d: real, n: real, e: real, b: real, t: real)
    requires d > 0.0 && e > 0.0 && b > 0.0 && b * (k * k) <= t * d && b * (n * n) == t * e
    ensures k * k / d <= n * n / e
  {
    var p, q := k * k / d, n * n / e;
    assert p * d == k * k && q * e == n * n;
    assert (b * q) * e == t * e;
    Cancel(b * q, t, e);
    assert (t - b * p) * d >= 0.0;
    DivideOut(d, t - b * p);
    DivideOut(b, q - p);
  }

  /** Taking the proposal lowers the error of the best scale. */
  ghost predicate Improves(x: Values, nmax: nat, l: Levels, i: nat)
    requires |l| == |x| && i < |x| && SumL2(Squares(x), l, |x|) > 0.0
  {
    RestXL(x, l, i) > 0.0 &&
    var better := l[i := Proposal(x, nmax, l, i)];
    SumL2(Squares(x), better, |x|) > 0.0 && BestError(Squares(x), x, better) < BestError(Squares(x), x, l)
  }

  /** No single proposal improves. */
  ghost predicate Settled(x: Values, nmax: nat, l: Levels, k: nat)
    requires |l| == |x| && k <= |x| && SumL2(Squares(x), l, |x|) > 0.0
  {
    forall i :: 0 <= i < k ==> !Improves(x, nmax, l, i)
  }

  ghost predicate Usable(x: Values, nmax: nat, l: Levels) {
    |l| == |x| && InRange(l, nmax) && SumL2(Squares(x), l, |x|) > 0.0
  }

  /** The first `k` levels reconsidered, one after the other. */
  ghost function Pass(x: Values, nmax: nat, l: Levels, k: nat): (r: Levels)
    requires Usable(x, nmax, l) && k <= |x| && nmax > 0
    ensures Usable(x, nmax, r)
  {
    if k == 0 then l
    else
      var r := Pass(x, nmax, l, k - 1);
      if Improves(x, nmax, r, k - 1) then r[k - 1 := Proposal(x, nmax, r, k - 1)] else r
  }

  ghost function Passes(x: Values, nmax: nat, l: Levels, n: nat): (r: Levels)
    requires Usable(x, nmax, l) && nmax > 0
    ensures Usable(x, nmax, r)
  {
    if n == 0 then l else Pass(x, nmax, Passes(x, nmax, l, n - 1), |x|)
  }

  /** A pass changes nothing exactly when nothing improves; otherwise the error falls. */
  lemma {:induction false} PassDescends(x: Values, nmax: nat, l: Levels, k: nat)
    requires Usable(x, nmax, l) && k <= |x| && nmax > 0
    ensures if Settled(x, nmax, l, k) then Pass(x, nmax, l, k) == l
            else BestError(Squares(x), x, Pass(x, nmax, l, k)) < BestError(Squares(x), x, l)
  {
    hide SumL2, BestError, RestXL, Proposal, InRange;
    if k > 0 {
      PassDescends(x, nmax, l, k - 1);
    }
  }

  lemma {:induction false} SettledStays(x: Values, nmax: nat, l: Levels, i: nat, n: nat)
    requires Usable(x, nmax, l) && nmax > 0 && i <= n && Settled(x, nmax, Passes(x, nmax, l, i), |x|)
    ensures Passes(x, nmax, l, n) == Passes(x, nmax, l, i)
    decreases n
  {
    hide Usable, Settled, Pass;
    if i < n {
      SettledStays(x, nmax, l, i, n - 1);
      PassDescends(x, nmax, Passes(x, nmax, l, i), |x|);
    }
  }

  /** After `n` passes either no single proposal improves, or each pass so far lowered the error. */
  lemma DescentEnds(x: Values, nmax: nat, l: Levels, n: nat)
    requires Usable(x, nmax, l) && nmax > 0
    ensures Settled(x, nmax, Passes(x, nmax, l, n), |x|)
         || forall k: nat :: k < n ==>
           BestError(Squares(x), x, Passes(x, nmax, l, k + 1)) < BestError(Squares(x), x, Passes(x, nmax, l, k))
  {
    hide InRange, SumL2, Settled, Pass, BestError;
    if !Settled(x, nmax, Passes(x, nmax, l, n), |x|) {
      forall k: nat | k < n
        ensures BestError(Squares(x), x, Passes(x, nmax, l, k + 1)) < BestError(Squares(x), x, Passes(x, nmax, l, k))
      {
        if Settled(x, nmax, Passes(x, nmax, l, k), |x|) {
          SettledStays(x, nmax, l, k, n);
        }
        PassDescends(x, nmax, Passes(x, nmax, l, k), |x|);
      }
    }
  }

  /** The largest element in absolute value, the first of them. */
  ghost predicate Largest(x: Values, max: real, amax: real, k: nat)
    requires k <= |x|
  {
    && amax == Abs(max) && (forall i :: 0 <= i < k ==> Abs(x[i]) <= amax)
    && (amax > 0.0 ==> exists i :: 0 <= i < k && x[i] == max && forall j :: 0 <= j < i ==> Abs(x[j]) < amax)
  }

  method FindLargest(x: Values) returns (max: real, amax: real)
    ensures Largest(x, max, amax, |x|) && amax >= 0.0
  {
    max, amax := 0.0, 0.0;
    for i := 0 to |x|
      invariant Largest(x, max, amax, i)
    {
      var ax := Abs(x[i]);
      if ax > amax { amax, max := ax, x[i]; }
    }
  }

  /** The largest element gets level `-nmax`, so the second moment is positive. */
  lemma {:induction false} LargestCounts(w: Weights, x: Values, l: Levels, i: nat, k: nat)
    requires |w| == |x| == |l| && i < |x| && k <= |x| && NonNegative(w) && w[i] > 0.0 && l[i] != 0
    ensures SumL2(w, l, k) >= 0.0 && (i < k ==> SumL2(w, l, k) > 0.0)
  {
    if k > 0 {
      LargestCounts(w, x, l, i, k - 1);
      var u := l[k - 1] as real;
      SquareNonNegative(u);
      ProductNonNegative(w[k - 1], u * u);
      assert w[k - 1] * u * u == w[k - 1] * (u * u);
      if k - 1 == i {
        NonZeroSquare(u, u * u);
        PositiveProduct(w[i], u * u, w[i] * (u * u));
      }
    }
  }

  lemma NonZeroSquare(u: real, p: real)
    requires u != 0.0 && p == u * u
    ensures p > 0.0
  {
    if u > 0.0 {
      PositiveProduct(u, u, p);
    } else {
      PositiveProduct(-u, -u, p);
    }
  }

  lemma PositiveProduct(a: real, b: real, p: real)
    requires a > 0.0 && b > 0.0 && p == a * b
    ensures p > 0.0
  {
  }

  lemma LargestLevel(max: real, nmax: nat)
    requires max != 0.0 && nmax > 0
    ensures SignedLevel(max, -(nmax as real) / max, nmax) == 0 - nmax
  {
    var q := -(nmax as real) / max;
    assert q * max == -(nmax as real);
    assert (-(nmax as real)).Floor == 0 - nmax;
  }

  lemma PlainSecondMoment(w: Weights, x: Values, max: real, nmax: nat)
    requires |w| == |x| && NonNegative(w) && max != 0.0 && nmax > 0
    requires exists i :: 0 <= i < |x| && x[i] == max && w[i] > 0.0
    ensures SumL2(w, SignedLevels(x, -(nmax as real) / max, nmax), |x|) > 0.0
  {
    hide SignedLevel, NearestInt;
    var i :| 0 <= i < |x| && x[i] == max && w[i] > 0.0;
    LargestLevel(max, nmax);
    LargestCounts(w, x, SignedLevels(x, -(nmax as real) / max, nmax), i, |x|);
  }

  lemma LevelsInRange(x: Values, iscale: real, nmax: nat)
    requires nmax > 0
    ensures InRange(SignedLevels(x, iscale, nmax), nmax)
  {
  }

  // ---------------------------------------------------------------- step sizes

  /** Step sizes tried: `step` is the offset in tenths, 0 the plain one. */
  function StepFor(nmax: nat, max: real, step: int): real
    requires max != 0.0
  {
    -(nmax as real + 0.1 * step as real) / max
  }

  /** `k` takes the largest value to `-(nmax + step / 10)`. */
  predicate TakesTo(k: real, nmax: nat, max: real, step: int) {
    k * max == -(nmax as real + step as real / 10.0)
  }

  lemma StepForIs(k: real, nmax: nat, max: real, step: int)
    requires max != 0.0
    ensures TakesTo(k, nmax, max, step) <==> k == StepFor(nmax, max, step)
  {
    var total := -(nmax as real + 0.1 * step as real);
    var q := total / max;
    assert q * max == total;
    if k * max == total {
      assert (k - q) * max == 0.0;
    }
  }

  /** The plain step is one over the largest value, times `-nmax`, and its levels are the values rounded. */
  lemma PlainLevels(x: Values, nmax: nat, max: real, k: real, plain: Levels)
    requires max != 0.0 && nmax > 0 && TakesTo(k, nmax, max, 0) && SignedWith(x, plain, k, nmax)
    ensures k == -(nmax as real) / max && k != 0.0 && plain == SignedLevels(x, k, nmax) && 1.0 / k * k == 1.0
  {
    hide SignedWith, TakesTo, SignedLevels;
    StepForIs(k, nmax, max, 0);
    PlainStep(nmax, max);
    PositiveQuotient(nmax, max);
    SignedIs(x, plain, k, nmax);
  }

  // ---------------------------------------------------------------- make_q3_quants

  /** Levels for one step size, stored with an offset. */
  method RoundSigned(x: Values, iscale: real, nmax: nat, offset: int, L: array<int>)
    requires L.Length == |x|
    modifies L
    ensures forall i :: 0 <= i < |x| ==> L[i] == SignedLevel(x[i], iscale, nmax) + offset
  {
    hide SignedLevel;
    for i := 0 to |x|
      invariant forall k :: 0 <= k < i ==> L[k] == SignedLevel(x[k], iscale, nmax) + offset
    {
      L[i] := SignedLevel(x[i], iscale, nmax) + offset;
    }
  }

  method Moments(w: Weights, x: Values, l: Levels) returns (sumlx: real, suml2: real)
    requires |w| == |x| == |l|
    ensures sumlx == SumXL(w, x, l, |x|) && suml2 == SumL2(w, l, |x|)
  {
    sumlx, suml2 := 0.0, 0.0;
    for i := 0 to |x|
      invariant sumlx == SumXL(w, x, l, i) && suml2 == SumL2(w, l, i)
    {
      sumlx := sumlx + w[i] * l[i] as real * x[i];
      suml2 := suml2 + w[i] * l[i] as real * l[i] as real;
    }
  }

  // ---------------------------------------------------------------- rounding to signed levels

  /** The whole number nearest to `r`, kept within `-nmax .. nmax - 1`. */
  predicate SignedTo(r: real, l: int, nmax: nat) {
    if r < -(nmax as real) then l == 0 - nmax else if r > nmax as real - 1.0 then l == nmax - 1 else IsNearest(r, l)
  }

  /** Each level is `k` times the value, rounded. */
  ghost predicate SignedWith(x: Values, l: Levels, k: real, nmax: nat) {
    |l| == |x| && forall i :: 0 <= i < |x| ==> SignedTo(k * x[i], l[i], nmax)
  }

  lemma SignedNearest(r: real, l: int, nmax: nat)
    requires nmax > 0
    ensures SignedTo(r, l, nmax) <==> l == Clamp(NearestInt(r), 0 - nmax, nmax - 1)
    ensures SignedTo(r, Clamp(NearestInt(r), 0 - nmax, nmax - 1), nmax)
  {
    NearestIntIs(r, l);
    NearestIntIs(r, Clamp(NearestInt(r), 0 - nmax, nmax - 1));
  }

  lemma SignedIs(x: Values, l: Levels, k: real, nmax: nat)
    requires nmax > 0
    ensures SignedWith(x, l, k, nmax) <==> l == SignedLevels(x, k, nmax)
  {
    forall i | 0 <= i < |x|
      ensures SignedTo(k * x[i], SignedLevel(x[i], k, nmax), nmax)
      ensures |l| == |x| ==> (SignedTo(k * x[i], l[i], nmax) <==> l[i] == SignedLevel(x[i], k, nmax))
    {
      SignedNearest(k * x[i], if |l| == |x| then l[i] else 0, nmax);
    }
    hide SignedLevel, SignedTo;
    if SignedWith(x, l, k, nmax) {
      assert l == SignedLevels(x, k, nmax);
    }
  }

  // ---------------------------------------------------------------- one level reconsidered

  predicate Solves(v: real, a: real, x: real, b: real) {
    v * a == x * b
  }

  /** With the moments of the levels with level `i` at zero, the number that solves `v * a == x * b` is
      rounded; the level becomes that exactly when `a` is positive and the error of the best scale falls. */
  ghost predicate Reconsidered(x: Values, nmax: nat, l: Levels, i: nat, changed: bool, l': Levels)
    requires |l| == |x| && i < |x| && SumL2(Squares(x), l, |x|) > 0.0
  {
    var w, l0 := Squares(x), l[i := 0];
    var a, b := SumXL(w, x, l0, |x|), SumL2(w, l0, |x|);
    && (!changed ==> l' == l)
    && (a <= 0.0 ==> !changed)
    && (forall v, u :: a > 0.0 && Solves(v, a, x[i], b) && SignedTo(v, u, nmax) ==>
          && (changed <==> SumL2(w, l[i := u], |x|) > 0.0 && BestError(w, x, l[i := u]) < BestError(w, x, l))
          && (changed ==> l' == l[i := u]))
  }

  lemma RestIsZeroed(x: Values, l: Levels, i: nat)
    requires |l| == |x| && i < |x|
    ensures SumXL(Squares(x), x, l[i := 0], |x|) == RestXL(x, l, i)
    ensures SumL2(Squares(x), l[i := 0], |x|) == RestL2(x, l, i)
  {
    ChangedMoments(x, l, i, 0);
    hide SumXL, SumL2, RestXL, RestL2;
    assert LinearShare(x[i] * x[i], 0, x[i]) == 0.0 && SquareShare(x[i] * x[i], 0) == 0.0;
  }

  lemma SolvesIs(v: real, a: real, x: real, b: real)
    requires a > 0.0
    ensures Solves(v, a, x, b) <==> v == Ratio(x, b, a)
  {
    var q := x * b / a;
    assert q * a == x * b;
    if v * a == x * b {
      Cancel(v, q, a);
    }
  }

  lemma ReconsideredIs(x: Values, nmax: nat, l: Levels, i: nat, changed: bool, l': Levels)
    requires nmax > 0 && |l| == |x| && i < |x| && SumL2(Squares(x), l, |x|) > 0.0
    requires changed <==> Improves(x, nmax, l, i)
    requires l' == if changed then l[i := Proposal(x, nmax, l, i)] else l
    ensures Reconsidered(x, nmax, l, i, changed, l')
  {
    hide SumXL, SumL2, RestXL, RestL2, BestError, Ratio, Solves, SignedTo, NearestInt;
    RestIsZeroed(x, l, i);
    var a, b := RestXL(x, l, i), RestL2(x, l, i);
    forall v, u | a > 0.0 && Solves(v, a, x[i], b) && SignedTo(v, u, nmax)
      ensures u == Proposal(x, nmax, l, i)
    {
      SolvesIs(v, a, x[i], b);
      SignedNearest(v, u, nmax);
    }
  }

  /** A pass reconsiders the levels one after the other, each with those before it as they have become. */
  lemma PassInTurn(x: Values, nmax: nat, l: Levels, k: nat)
    requires Usable(x, nmax, l) && nmax > 0 && k < |x|
    ensures Pass(x, nmax, l, 0) == l
    ensures Reconsidered(x, nmax, Pass(x, nmax, l, k), k, true, Pass(x, nmax, l, k + 1))
         || Reconsidered(x, nmax, Pass(x, nmax, l, k), k, false, Pass(x, nmax, l, k + 1))
  {
    hide SumXL, SumL2, BestError, Reconsidered, Improves, Proposal, RestXL;
    var r := Pass(x, nmax, l, k);
    ReconsideredIs(x, nmax, r, k, Improves(x, nmax, r, k), Pass(x, nmax, l, k + 1));
  }

  /** Reconsider level `i` with the others fixed; it is changed exactly when the proposal lowers the
      error of the best scale. */
  method ImproveOne(x: Values, nmax: nat, L: array<int>, i: nat, sumlx: real, suml2: real)
      returns (changed: bool, sumlx': real, suml2': real)
    requires i < |x| && nmax > 0 && Usable(x, nmax, L[..])
    requires sumlx == SumXL(Squares(x), x, L[..], |x|) && suml2 == SumL2(Squares(x), L[..], |x|)
    modifies L
    ensures Usable(x, nmax, L[..])
    ensures sumlx' == SumXL(Squares(x), x, L[..], |x|) && suml2' == SumL2(Squares(x), L[..], |x|)
    ensures changed <==> Improves(x, nmax, old(L[..]), i)
    ensures L[..] == if changed then old(L[..])[i := Proposal(x, nmax, old(L[..]), i)] else old(L[..])
    ensures Reconsidered(x, nmax, old(L[..]), i, changed, L[..])
  {
    hide Reconsidered, SumXL, SumL2, SumX2, NearestInt, BestError, LinearShare, SquareShare, Exceeds, Ratio;
    changed, sumlx', suml2' := false, sumlx, suml2;
    ghost var before := L[..];
    var w := x[i] * x[i];
    var slx := sumlx - LinearShare(w, L[i], x[i]);
    if slx > 0.0 {
      var sl2 := suml2 - SquareShare(w, L[i]);
      var newL := Clamp(NearestInt(Ratio(x[i], sl2, slx)), 0 - nmax, nmax - 1);
      assert newL == Proposal(x, nmax, before, i);
      if newL != L[i] {
        slx := slx + LinearShare(w, newL, x[i]);
        sl2 := sl2 + SquareShare(w, newL);
        ChangedMoments(x, before, i, newL);
        if sl2 > 0.0 {
          LargerQuotientIsBetter(Squares(x), x, before, before[i := newL]);
          if Exceeds(slx, sl2, sumlx, suml2) {
            L[i] := newL;
            assert L[..] == before[i := newL];
            changed, sumlx', suml2' := true, slx, sl2;
          }
        }
      } else {
        assert before[i := newL] == before;
      }
    }
    ReconsideredIs(x, nmax, before, i, changed, L[..]);
  }

  lemma ChangedMoments(x: Values, l: Levels, i: nat, u: int)
    requires |x| == |l| && i < |x|
    ensures SumXL(Squares(x), x, l[i := u], |x|) == RestXL(x, l, i) + LinearShare(x[i] * x[i], u, x[i])
    ensures SumL2(Squares(x), l[i := u], |x|) == RestL2(x, l, i) + SquareShare(x[i] * x[i], u)
  {
    hide SumXL, SumL2, LinearShare, SquareShare;
    FirstMomentAfterChange(Squares(x), x, l, i, u, |x|);
    SecondMomentAfterChange(Squares(x), l, i, u, |x|);
  }

  /** One pass over all levels. */
  method ImproveAll(x: Values, nmax: nat, L: array<int>, sumlx: real, suml2: real)
      returns (nChanged: nat, sumlx': real, suml2': real)
    requires nmax > 0 && Usable(x, nmax, L[..])
    requires sumlx == SumXL(Squares(x), x, L[..], |x|) && suml2 == SumL2(Squares(x), L[..], |x|)
    modifies L
    ensures Usable(x, nmax, L[..])
    ensures sumlx' == SumXL(Squares(x), x, L[..], |x|) && suml2' == SumL2(Squares(x), L[..], |x|)
    ensures L[..] == Pass(x, nmax, old(L[..]), |x|)
    ensures nChanged == 0 <==> Settled(x, nmax, old(L[..]), |x|)
  {
    hide SumXL, SumL2, BestError, Improves, Proposal, InRange;
    nChanged, sumlx', suml2' := 0, sumlx, suml2;
    for i := 0 to |x|
      invariant Usable(x, nmax, L[..])
      invariant sumlx' == SumXL(Squares(x), x, L[..], |x|) && suml2' == SumL2(Squares(x), L[..], |x|)
      invariant L[..] == Pass(x, nmax, old(L[..]), i)
      invariant nChanged == 0 <==> Settled(x, nmax, old(L[..]), i)
    {
      PassDescends(x, nmax, old(L[..]), i);
      var changed;
      changed, sumlx', suml2' := ImproveOne(x, nmax, L, i, sumlx', suml2');
      if changed {
        nChanged := nChanged + 1;
      }
    }
  }

  /** Levels are stored in `0 .. 2 * nmax`; `Centred` takes the offset off again. */
  function Centred(stored: seq<int>, nmax: nat): (l: Levels)
    ensures |l| == |stored| && forall i :: 0 <= i < |l| ==> l[i] == stored[i] - nmax
  {
    seq(|stored|, i requires 0 <= i < |stored| => stored[i] - nmax)
  }

  ghost predicate StoredInRange(stored: seq<int>, nmax: nat) {
    forall i :: 0 <= i < |stored| ==> 0 <= stored[i] < 2 * nmax
  }

  /** What the descent starts from: each value times the plain step, rounded. Without `doRmse` these are the
      levels, with the inverse of the step as scale. */
  ghost predicate DescendedAs(x: Values, nmax: nat, doRmse: bool, max: real, l: Levels, scale: real)
    requires nmax > 0
  {
    forall k, plain :: TakesTo(k, nmax, max, 0) && SignedWith(x, plain, k, nmax) ==>
      if doRmse then Usable(x, nmax, plain) && l == Passes(x, nmax, plain, 5) else l == plain && scale * k == 1.0
  }

  lemma DescentIs(x: Values, nmax: nat, doRmse: bool, max: real, iscale: real, l: Levels, scale: real)
    requires nmax > 0 && max != 0.0 && iscale == -(nmax as real) / max && iscale != 0.0
    requires var plain := SignedLevels(x, iscale, nmax);
      if doRmse then Usable(x, nmax, plain) && l == Passes(x, nmax, plain, 5) else l == plain && scale == 1.0 / iscale
    ensures DescendedAs(x, nmax, doRmse, max, l, scale)
  {
    hide TakesTo, SignedWith, SignedLevels, Usable, Passes;
    forall k, plain | TakesTo(k, nmax, max, 0) && SignedWith(x, plain, k, nmax)
      ensures if doRmse then Usable(x, nmax, plain) && l == Passes(x, nmax, plain, 5)
        else l == plain && scale * k == 1.0
    {
      PlainLevels(x, nmax, max, k, plain);
    }
  }

  /** With `doRmse` the levels are those that five passes over the plain ones give, the scale is the best
      for them, and the error is strictly less than that of the plain ones unless none of them changed. */
  method MakeQ3Quants(nmax: nat, x: Values, L: array<int>, doRmse: bool) returns (scale: real, ghost max: real)
    requires L.Length == |x| && nmax > 0
    modifies L
    ensures Largest(x, max, Abs(max), |x|)
    ensures max == 0.0 ==> scale == 0.0 && forall i :: 0 <= i < |x| ==> L[i] == 0 && x[i] == 0.0
    ensures max != 0.0 ==> StoredInRange(L[..], nmax)
    ensures max != 0.0 && !doRmse ==>
      && scale == 1.0 / (-(nmax as real) / max)
      && Centred(L[..], nmax) == SignedLevels(x, -(nmax as real) / max, nmax)
    ensures max != 0.0 && doRmse ==>
      var w, l, plain := Squares(x), Centred(L[..], nmax), SignedLevels(x, -(nmax as real) / max, nmax);
      && Usable(x, nmax, plain) && l == Passes(x, nmax, plain, 5)
      && SumL2(w, l, |x|) > 0.0 && scale == SumXL(w, x, l, |x|) / SumL2(w, l, |x|)
      && (l == plain || BestError(w, x, l) < BestError(w, x, plain))
    ensures max != 0.0 ==> DescendedAs(x, nmax, doRmse, max, Centred(L[..], nmax), scale)
  {
    hide DescendedAs, SumXL, SumL2, BestError, NearestInt, SignedLevel, Settled, Pass;
    var m, amax := FindLargest(x);
    max := m;
    if amax == 0.0 {
      for i := 0 to |x|
        invariant forall k :: 0 <= k < i ==> L[k] == 0
      {
        L[i] := 0;
      }
      return 0.0, max;
    }
    var iscale := -(nmax as real) / m;
    PositiveQuotient(nmax, m);
    ghost var plain := SignedLevels(x, iscale, nmax);
    LevelsInRange(x, iscale, nmax);
    if !doRmse {
      RoundSigned(x, iscale, nmax, nmax, L);
      StoredLevels(plain, L[..], nmax);
      DescentIs(x, nmax, false, m, iscale, Centred(L[..], nmax), 1.0 / iscale);
      return 1.0 / iscale, max;
    }
    RoundSigned(x, iscale, nmax, 0, L);
    assert L[..] == plain;
    SquaresWeigh(x, m);
    PlainSecondMoment(Squares(x), x, m, nmax);
    var sumlx, suml2 := Moments(Squares(x), x, L[..]);
    for itry := 0 to 5
      invariant Usable(x, nmax, plain) && L[..] == Passes(x, nmax, plain, itry)
      invariant sumlx == SumXL(Squares(x), x, L[..], |x|) && suml2 == SumL2(Squares(x), L[..], |x|)
      invariant L[..] == plain || BestError(Squares(x), x, L[..]) < BestError(Squares(x), x, plain)
    {
      PassDescends(x, nmax, L[..], |x|);
      ghost var before := L[..];
      var nChanged;
      nChanged, sumlx, suml2 := ImproveAll(x, nmax, L, sumlx, suml2);
      if nChanged == 0 {
        SettledStays(x, nmax, plain, itry, 5);
        break;
      }
    }
    ghost var l := L[..];
    AddOffset(L, nmax);
    StoredLevels(l, L[..], nmax);
    scale := sumlx / suml2;
    DescentIs(x, nmax, true, m, iscale, l, scale);
  }

  method AddOffset(L: array<int>, offset: int)
    modifies L
    ensures forall i :: 0 <= i < L.Length ==> L[i] == old(L[i]) + offset
  {
    for i := 0 to L.Length
      invariant forall k :: 0 <= k < i ==> L[k] == old(L[k]) + offset
      invariant forall k :: i <= k < L.Length ==> L[k] == old(L[k])
    {
      L[i] := L[i] + offset;
    }
  }

  lemma StoredLevels(l: Levels, stored: seq<int>, nmax: nat)
    requires |l| == |stored| && InRange(l, nmax) && forall i :: 0 <= i < |l| ==> stored[i] == l[i] + nmax
    ensures Centred(stored, nmax) == l && StoredInRange(stored, nmax)
  {
  }

  lemma SquaresWeigh(x: Values, m: real)
    requires m != 0.0 && exists i :: 0 <= i < |x| && x[i] == m
    ensures NonNegative(Squares(x))
    ensures exists i :: 0 <= i < |x| && x[i] == m && Squares(x)[i] > 0.0
  {
    var w := Squares(x);
    forall k | 0 <= k < |x|
      ensures w[k] >= 0.0 && (x[k] == m ==> w[k] > 0.0)
    {
      SquareNonNegative(x[k]);
      if x[k] == m {
        NonZeroSquare(x[k], w[k]);
      }
    }
    var i :| 0 <= i < |x| && x[i] == m;
    assert w[i] > 0.0;
  }

  lemma PositiveQuotient(nmax: nat, m: real)
    requires nmax > 0 && m != 0.0
    ensures -(nmax as real) / m != 0.0
  {
    var q := -(nmax as real) / m;
    if m > 0.0 {
      assert q * m == -(nmax as real);
    } else {
      assert q * m == -(nmax as real);
    }
  }

  // ---------------------------------------------------------------- make_qx_quants

  /** The score of levels: what the best scale takes off the error. */
  function Score(w: Weights, x: Values, l: Levels): real
    requires |w| == |x| == |l|
  {
    var b := SumL2(w, l, |x|);
    if b > 0.0 then SumXL(w, x, l, |x|) * SumXL(w, x, l, |x|) / b else 0.0
  }

  /** Levels that one of the steps `-9 .. hi` gives. */
  ghost predicate Tried(x: Values, nmax: nat, max: real, hi: int, l: Levels)
    requires max != 0.0
  {
    l == SignedLevels(x, StepFor(nmax, max, 0), nmax) || exists step ::
      -9 <= step < hi && l == SignedLevels(x, StepFor(nmax, max, step), nmax)
  }

  ghost predicate BestOfTried(w: Weights, x: Values, nmax: nat, max: real, hi: int, score: real)
    requires |w| == |x| && max != 0.0
  {
    && Score(w, x, SignedLevels(x, StepFor(nmax, max, 0), nmax)) <= score
    && forall step :: -9 <= step < hi ==> Score(w, x, SignedLevels(x, StepFor(nmax, max, step), nmax)) <= score
  }

  function WeightsFor(x: Values, rmseType: int): (w: Weights)
    ensures |w| == |x|
  {
    if rmseType % 2 == 1 then Squares(x) else Ones(|x|)
  }

  // ---------------------------------------------------------------- what the search returns

  /** Squares of the values for an odd kind, ones for an even one. */
  ghost predicate WeightsAre(x: Values, kind: int, w: Weights) {
    |w| == |x| && forall i :: 0 <= i < |x| ==> w[i] == if kind % 2 == 0 then 1.0 else x[i] * x[i]
  }

  lemma WeightsForAre(x: Values, kind: int, w: Weights)
    ensures WeightsAre(x, kind, w) <==> w == WeightsFor(x, kind)
    ensures WeightsAre(x, kind, w) <==> w == WeightsFor(x, -kind)
  {
    assert kind % 2 == (-kind) % 2;
    if WeightsAre(x, kind, w) {
      assert w == WeightsFor(x, kind);
    }
  }

  ghost predicate IsBestScale(w: Weights, x: Values, l: Levels, best: real)
    requires |w| == |x| == |l|
  {
    forall s :: ScaleError(w, x, l, best) <= ScaleError(w, x, l, s)
  }

  /** The levels are those of one of the nineteen steps, and with `scale` their error is at most that of the
      levels of any of these steps with any scale. */
  ghost predicate BestOfSteps(w: Weights, x: Values, nmax: nat, max: real, l: Levels, scale: real)
    requires |w| == |x| == |l|
  {
    && (exists k, step :: -9 <= step <= 9 && TakesTo(k, nmax, max, step) && SignedWith(x, l, k, nmax))
    && forall k, step, l', s ::
      -9 <= step <= 9 && TakesTo(k, nmax, max, step) && |l'| == |x| && SignedWith(x, l', k, nmax) ==>
      ScaleError(w, x, l, scale) <= ScaleError(w, x, l', s)
  }

  lemma {:induction false} NothingWeighted(w: Weights, x: Values, l: Levels, k: nat)
    requires |w| == |x| == |l| && k <= |x| && NonNegative(w)
    ensures SumL2(w, l, k) >= 0.0 && (SumL2(w, l, k) == 0.0 ==> SumXL(w, x, l, k) == 0.0)
  {
    if k > 0 {
      NothingWeighted(w, x, l, k - 1);
      SecondMomentShare(w, l, k);
      FirstMomentShare(w, x, l, k);
      ShareOfNothing(w[k - 1], l[k - 1], x[k - 1]);
      hide SumL2, SumXL, SquareShare, LinearShare;
    }
  }

  lemma ShareOfNothing(w: real, l: int, x: real)
    requires w >= 0.0
    ensures SquareShare(w, l) >= 0.0 && (SquareShare(w, l) == 0.0 ==> LinearShare(w, l, x) == 0.0)
  {
    var u := l as real;
    SquareNonNegative(u);
    ProductNonNegative(w, u * u);
    assert w * u * u == w * (u * u);
    if w > 0.0 && u != 0.0 {
      NonZeroSquare(u, u * u);
      PositiveProduct(w, u * u, w * (u * u));
    }
  }

  /** The score is what the best scale takes off the error of doing nothing. */
  lemma ScoreIsGain(w: Weights, x: Values, l: Levels, s: real)
    requires |w| == |x| == |l| && NonNegative(w)
    ensures ScaleError(w, x, l, s) >= SumX2(w, x, |x|) - Score(w, x, l)
    ensures SumL2(w, l, |x|) > 0.0 ==>
      ScaleError(w, x, l, SumXL(w, x, l, |x|) / SumL2(w, l, |x|)) == SumX2(w, x, |x|) - Score(w, x, l)
  {
    hide SumXL, SumL2, SumX2, Error;
    NothingWeighted(w, x, l, |x|);
    if SumL2(w, l, |x|) > 0.0 {
      BestScale(w, x, l, s);
    } else {
      FlatError(w, x, l, s);
    }
  }

  lemma FlatError(w: Weights, x: Values, l: Levels, s: real)
    requires |w| == |x| == |l| && SumL2(w, l, |x|) == 0.0 && SumXL(w, x, l, |x|) == 0.0
    ensures ScaleError(w, x, l, s) == SumX2(w, x, |x|)
  {
    hide SumXL, SumL2, SumX2, SumW, SumX, SumL, Error, Quadratic;
    var k := |x|;
    ErrorIsQuadratic(w, x, l, s, 0.0, k);
    FlatQuadratic(SumW(w, k), SumX(w, x, k), SumL(w, l, k), SumX2(w, x, k), s);
  }

  lemma FlatQuadratic(W: real, X: real, L: real, X2: real, s: real)
    ensures Quadratic(W, X, L, 0.0, 0.0, X2, s, 0.0) == X2
  {
  }

  lemma BestOfTriedIs(w: Weights, x: Values, nmax: nat, max: real, l: Levels, scale: real)
    requires |w| == |x| == |l| && NonNegative(w) && max != 0.0 && nmax > 0
    requires SumL2(w, l, |x|) > 0.0 && scale == SumXL(w, x, l, |x|) / SumL2(w, l, |x|)
    requires Tried(x, nmax, max, 10, l) && BestOfTried(w, x, nmax, max, 10, Score(w, x, l))
    ensures BestOfSteps(w, x, nmax, max, l, scale)
  {
    hide *;
    var step := TriedStep(x, nmax, max, l);
    StepsBest(w, x, nmax, max, l, scale, step);
  }

  lemma StepsBest(w: Weights, x: Values, nmax: nat, max: real, l: Levels, scale: real, step: int)
    requires |w| == |x| == |l| && NonNegative(w) && max != 0.0 && nmax > 0
    requires SumL2(w, l, |x|) > 0.0 && scale == SumXL(w, x, l, |x|) / SumL2(w, l, |x|)
    requires -9 <= step <= 9 && l == SignedLevels(x, StepFor(nmax, max, step), nmax)
    requires BestOfTried(w, x, nmax, max, 10, Score(w, x, l))
    ensures BestOfSteps(w, x, nmax, max, l, scale)
  {
    hide SumXL, SumL2, SumX2, Score, StepFor, SignedWith, SignedLevels, TakesTo, ScaleError, NonNegative, BestOfTried;
    ScoreIsGain(w, x, l, scale);
    StepForIs(StepFor(nmax, max, step), nmax, max, step);
    SignedIs(x, l, StepFor(nmax, max, step), nmax);
    forall k, step, l', s | -9 <= step <= 9 && TakesTo(k, nmax, max, step) && |l'| == |x| && SignedWith(x, l', k, nmax)
      ensures ScaleError(w, x, l, scale) <= ScaleError(w, x, l', s)
    {
      StepForIs(k, nmax, max, step);
      SignedIs(x, l', k, nmax);
      TriedScore(w, x, nmax, max, Score(w, x, l), step);
      ScoreIsGain(w, x, l', s);
    }
  }

  lemma TriedScore(w: Weights, x: Values, nmax: nat, max: real, score: real, step: int)
    requires |w| == |x| && max != 0.0 && BestOfTried(w, x, nmax, max, 10, score) && -9 <= step <= 9
    ensures Score(w, x, SignedLevels(x, StepFor(nmax, max, step), nmax)) <= score
  {
    hide Score, StepFor, SignedLevels;
  }

  lemma TriedStep(x: Values, nmax: nat, max: real, l: Levels) returns (step: int)
    requires max != 0.0 && Tried(x, nmax, max, 10, l)
    ensures -9 <= step <= 9 && l == SignedLevels(x, StepFor(nmax, max, step), nmax)
  {
    if l == SignedLevels(x, StepFor(nmax, max, 0), nmax) {
      step := 0;
    } else {
      step :| -9 <= step < 10 && l == SignedLevels(x, StepFor(nmax, max, step), nmax);
    }
  }

  /** `scale` is the mean of `best` and the inverse of `k`. */
  predicate IsMean(scale: real, best: real, k: real) {
    (2.0 * scale - best) * k == 1.0
  }

  /** What the search returns. Kind 0: the values rounded with the plain step, and its inverse as scale. A
      negative kind: the same levels, and the mean of that scale and the best one. A positive kind: the
      best of the nineteen steps. */
  ghost predicate SearchedAs(x: Values, nmax: nat, kind: int, max: real, l: Levels, scale: real)
    requires |l| == |x|
  {
    && (kind <= 0 ==> forall k :: TakesTo(k, nmax, max, 0) ==> SignedWith(x, l, k, nmax))
    && (kind == 0 ==> forall k :: TakesTo(k, nmax, max, 0) ==> scale * k == 1.0)
    && (kind < 0 ==> forall k, w :: TakesTo(k, nmax, max, 0) && WeightsAre(x, kind, w) ==>
          exists best :: IsBestScale(w, x, l, best) && IsMean(scale, best, k))
    && (kind > 0 ==> forall w :: WeightsAre(x, kind, w) ==> BestOfSteps(w, x, nmax, max, l, scale))
  }

  lemma OneStepScale(nmax: nat, max: real, k0: real)
    requires max != 0.0 && k0 == StepFor(nmax, max, 0)
    ensures forall k :: TakesTo(k, nmax, max, 0) <==> k == k0
  {
    hide TakesTo, StepFor;
    forall k
      ensures TakesTo(k, nmax, max, 0) <==> k == k0
    {
      StepForIs(k, nmax, max, 0);
    }
  }

  lemma PlainAs(x: Values, nmax: nat, max: real, l: Levels, scale: real)
    requires max != 0.0 && nmax > 0 && |l| == |x| && l == SignedLevels(x, StepFor(nmax, max, 0), nmax)
    requires StepFor(nmax, max, 0) != 0.0 && scale == 1.0 / StepFor(nmax, max, 0)
    ensures SearchedAs(x, nmax, 0, max, l, scale)
  {
    hide SignedWith, SignedLevels, StepFor, TakesTo;
    var k0 := StepFor(nmax, max, 0);
    OneStepScale(nmax, max, k0);
    SignedIs(x, l, k0, nmax);
    assert scale * k0 == 1.0;
  }

  lemma HalfwayAs(x: Values, nmax: nat, kind: int, max: real, l: Levels, w0: Weights, best: real, scale: real)
    requires max != 0.0 && nmax > 0 && kind < 0 && |l| == |x| && l == SignedLevels(x, StepFor(nmax, max, 0), nmax)
    requires StepFor(nmax, max, 0) != 0.0 && w0 == WeightsFor(x, -kind) && SumL2(w0, l, |x|) > 0.0
    requires best == SumXL(w0, x, l, |x|) / SumL2(w0, l, |x|)
    requires scale == 0.5 * (best + 1.0 / StepFor(nmax, max, 0))
    ensures SearchedAs(x, nmax, kind, max, l, scale)
  {
    hide *;
    var k0 := StepFor(nmax, max, 0);
    OneStepScale(nmax, max, k0);
    SignedIs(x, l, k0, nmax);
    QuotientIsBest(w0, x, l, best);
    MeanWithInverse(best, k0, scale);
    OneWeights(x, kind, w0);
    HalfwayParts(x, nmax, kind, max, l, w0, best, scale, k0);
  }

  lemma OneWeights(x: Values, kind: int, w0: Weights)
    requires w0 == WeightsFor(x, -kind)
    ensures forall w :: WeightsAre(x, kind, w) ==> w == w0
  {
    hide WeightsAre, WeightsFor;
    forall w | WeightsAre(x, kind, w)
      ensures w == w0
    {
      WeightsForAre(x, kind, w);
    }
  }

  lemma HalfwayParts(x: Values, nmax: nat, kind: int, max: real, l: Levels, w0: Weights, best: real, scale: real,
                     k0: real)
    requires kind < 0 && |l| == |x| == |w0| && SignedWith(x, l, k0, nmax)
    requires IsBestScale(w0, x, l, best) && IsMean(scale, best, k0)
    requires forall k :: TakesTo(k, nmax, max, 0) <==> k == k0
    requires forall w :: WeightsAre(x, kind, w) ==> w == w0
    ensures SearchedAs(x, nmax, kind, max, l, scale)
  {
    hide SignedWith, IsBestScale, IsMean, TakesTo, WeightsAre;
  }

  lemma MeanWithInverse(best: real, k: real, scale: real)
    requires k != 0.0 && scale == 0.5 * (best + 1.0 / k)
    ensures IsMean(scale, best, k)
  {
    assert 2.0 * scale - best == 1.0 / k;
  }

  lemma QuotientIsBest(w: Weights, x: Values, l: Levels, best: real)
    requires |w| == |x| == |l| && SumL2(w, l, |x|) > 0.0 && best == SumXL(w, x, l, |x|) / SumL2(w, l, |x|)
    ensures IsBestScale(w, x, l, best)
  {
    hide SumXL, SumL2, ScaleError;
    forall s
      ensures ScaleError(w, x, l, best) <= ScaleError(w, x, l, s)
    {
      BestScale(w, x, l, s);
    }
  }

  lemma BestAs(x: Values, nmax: nat, kind: int, max: real, l: Levels, w0: Weights, scale: real)
    requires |l| == |x| && kind > 0 && w0 == WeightsFor(x, kind) && BestOfSteps(w0, x, nmax, max, l, scale)
    ensures SearchedAs(x, nmax, kind, max, l, scale)
  {
    hide BestOfSteps, WeightsAre;
    forall w | WeightsAre(x, kind, w)
      ensures w == w0
    {
      WeightsForAre(x, kind, w);
    }
  }

  /** Without early return and with `rmseType != 0` the kept levels are those of a tried step, no
      tried step scores higher, and the scale is the best one for the levels. */
  method MakeQxQuants(nmax: nat, x: Values, L: array<int>, rmseType: int)
      returns (scale: real, ghost max: real, ghost tiny: bool)
    requires L.Length == |x| && nmax > 0
    modifies L
    ensures Largest(x, max, Abs(max), |x|) && tiny == (Abs(max) < 1e-30)
    ensures tiny ==> scale == 0.0 && forall i :: 0 <= i < |x| ==> L[i] == 0
    ensures !tiny ==> StoredInRange(L[..], nmax)
    ensures !tiny ==> StepFor(nmax, max, 0) != 0.0
    ensures !tiny && rmseType <= 0 ==>
      var w, l := WeightsFor(x, -rmseType), Centred(L[..], nmax);
      && l == SignedLevels(x, StepFor(nmax, max, 0), nmax) && SumL2(w, l, |x|) > 0.0
      && scale == (if rmseType == 0 then 1.0 / StepFor(nmax, max, 0)
                   else 0.5 * (SumXL(w, x, l, |x|) / SumL2(w, l, |x|) + 1.0 / StepFor(nmax, max, 0)))
    ensures !tiny && rmseType > 0 ==>
      var w, l := WeightsFor(x, rmseType), Centred(L[..], nmax);
      && SumL2(w, l, |x|) > 0.0 && scale == SumXL(w, x, l, |x|) / SumL2(w, l, |x|)
      && Tried(x, nmax, max, 10, l) && BestOfTried(w, x, nmax, max, 10, Score(w, x, l))
    ensures !tiny ==> SearchedAs(x, nmax, rmseType, max, Centred(L[..], nmax), scale)
  {
    hide SumXL, SumL2, NearestInt, SignedLevel, StepFor, Score, SearchedAs;
    var m, amax := FindLargest(x);
    max, tiny := m, amax < 1e-30;
    if amax < 1e-30 {
      for i := 0 to |x|
        invariant forall k :: 0 <= k < i ==> L[k] == 0
      {
        L[i] := 0;
      }
      return 0.0, max, tiny;
    }
    var iscale := -(nmax as real) / m;
    PlainStep(nmax, m);
    PositiveQuotient(nmax, m);
    ghost var plain := SignedLevels(x, iscale, nmax);
    LevelsInRange(x, iscale, nmax);
    RoundSigned(x, iscale, nmax, nmax, L);
    StoredLevels(plain, L[..], nmax);
    var kind := if rmseType < 0 then -rmseType else rmseType;
    var w := WeightsFor(x, kind);
    UsableWeights(x, m, kind);
    PlainSecondMoment(w, x, m, nmax);
    if rmseType == 0 {
      PlainAs(x, nmax, max, plain, 1.0 / iscale);
      return 1.0 / iscale, max, tiny;
    }
    var sumlx, suml2 := Moments(w, x, SignedLevels(x, iscale, nmax));
    scale := sumlx / suml2;
    if rmseType < 0 {
      // suml2 is positive, so the source's fallback is not taken
      HalfwayAs(x, nmax, rmseType, max, plain, w, scale, 0.5 * (scale + 1.0 / iscale));
      scale := 0.5 * (scale + 1.0 / iscale);
      return;
    }
    scale := Scan(nmax, x, w, L, m, scale, sumlx);
    WeightsForAre(x, rmseType, w);
    BestOfTriedIs(w, x, nmax, max, Centred(L[..], nmax), scale);
    BestAs(x, nmax, rmseType, max, Centred(L[..], nmax), w, scale);
  }

  lemma PlainStep(nmax: nat, m: real)
    requires m != 0.0
    ensures StepFor(nmax, m, 0) == -(nmax as real) / m
  {
  }

  lemma UsableWeights(x: Values, m: real, kind: int)
    requires m != 0.0 && exists i :: 0 <= i < |x| && x[i] == m
    ensures NonNegative(WeightsFor(x, kind))
    ensures exists i :: 0 <= i < |x| && x[i] == m && WeightsFor(x, kind)[i] > 0.0
  {
    SquaresWeigh(x, m);
  }

  /** The scan over the other step sizes. */
  method Scan(nmax: nat, x: Values, w: Weights, L: array<int>, m: real, first: real, firstSum: real)
      returns (scale: real)
    requires L.Length == |x| == |w| && nmax > 0 && m != 0.0 && StoredInRange(L[..], nmax)
    requires Centred(L[..], nmax) == SignedLevels(x, StepFor(nmax, m, 0), nmax)
      && SumL2(w, Centred(L[..], nmax), |x|) > 0.0
    requires firstSum == SumXL(w, x, Centred(L[..], nmax), |x|)
      && first == firstSum / SumL2(w, Centred(L[..], nmax), |x|)
    modifies L
    ensures StoredInRange(L[..], nmax)
    ensures var l := Centred(L[..], nmax);
      && SumL2(w, l, |x|) > 0.0 && scale == SumXL(w, x, l, |x|) / SumL2(w, l, |x|)
      && Tried(x, nmax, m, 10, l) && BestOfTried(w, x, nmax, m, 10, Score(w, x, l))
  {
    hide SumXL, SumL2, NearestInt, SignedLevel, StepFor, Score;
    scale := first;
    var best := scale * firstSum;
    ScoreOf(w, x, Centred(L[..], nmax));
    for step := -9 to 10
      invariant StoredInRange(L[..], nmax) && SumL2(w, Centred(L[..], nmax), |x|) > 0.0
      invariant scale == SumXL(w, x, Centred(L[..], nmax), |x|) / SumL2(w, Centred(L[..], nmax), |x|)
      invariant best == Score(w, x, Centred(L[..], nmax))
      invariant Tried(x, nmax, m, step, Centred(L[..], nmax))
      invariant BestOfTried(w, x, nmax, m, step, best)
    {
      if step == 0 {
        continue;
      }
      var iscale := StepFor(nmax, m, step);
      var l := SignedLevels(x, iscale, nmax);
      var sumlx, suml2 := Moments(w, x, l);
      ScoreBeats(w, x, l, best, sumlx, suml2);
      if suml2 > 0.0 && sumlx * sumlx > best * suml2 {
        LevelsInRange(x, iscale, nmax);
        RoundSigned(x, iscale, nmax, nmax, L);
        StoredLevels(l, L[..], nmax);
        ScoreOf(w, x, l);
        scale := sumlx / suml2;
        best := scale * sumlx;
      }
    }
  }

  lemma ScoreOf(w: Weights, x: Values, l: Levels)
    requires |w| == |x| == |l| && SumL2(w, l, |x|) > 0.0
    ensures Score(w, x, l) == SumXL(w, x, l, |x|) / SumL2(w, l, |x|) * SumXL(w, x, l, |x|) && Score(w, x, l) >= 0.0
  {
    hide SumXL, SumL2;
    var a, b := SumXL(w, x, l, |x|), SumL2(w, l, |x|);
    SquareNonNegative(a);
    QuotientTimes(a, b);
  }

  lemma QuotientTimes(a: real, b: real)
    requires b > 0.0
    ensures a * a / b == a / b * a && (a * a >= 0.0 ==> a * a / b >= 0.0)
  {
    var q, r := a / b, a * a / b;
    assert q * b == a && r * b == a * a;
    assert (q * a) * b == a * a;
    Cancel(q * a, r, b);
    assert r < 0.0 ==> r * b < 0.0;
  }

  /** The test without division is the comparison of scores. */
  lemma ScoreBeats(w: Weights, x: Values, l: Levels, best: real, sumlx: real, suml2: real)
    requires |w| == |x| == |l| && best >= 0.0 && sumlx == SumXL(w, x, l, |x|) && suml2 == SumL2(w, l, |x|)
    ensures (suml2 > 0.0 && sumlx * sumlx > best * suml2) <==> Score(w, x, l) > best
  {
    hide SumXL, SumL2;
    if suml2 > 0.0 {
      var q := sumlx * sumlx / suml2;
      assert q * suml2 == sumlx * sumlx;
      assert (q - best) * suml2 == sumlx * sumlx - best * suml2;
      assert q - best <= 0.0 ==> (q - best) * suml2 <= 0.0;
      assert q - best > 0.0 ==> (q - best) * suml2 > 0.0;
    }
  }
}
