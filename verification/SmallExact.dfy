/** What a quantised block of 32 holds, element by element, in terms of the values alone. */
module SmallExact {
  import opened Reals
  import opened SmallBlocks
  import opened SmallFormats

  /** Element `e` is the first of largest magnitude. */
  ghost predicate FirstExtreme(x: seq<real>, e: nat) {
    && e < |x|
    && (forall i :: 0 <= i < |x| ==> Abs(x[i]) <= Abs(x[e]))
    && (forall i :: 0 <= i < e ==> Abs(x[i]) < Abs(x[e]))
  }

  ghost predicate AllZero(x: seq<real>) {
    forall i :: 0 <= i < |x| ==> x[i] == 0.0
  }

  /** `l` is the whole number nearest to `r`, the greater of two. */
  predicate HalfUp(r: real, l: int) {
    l as real - 0.5 <= r < l as real + 0.5
  }

  /** The same, but of two the one further from zero. */
  predicate HalfAway(r: real, l: int) {
    if r < 0.0 then HalfUp(-r, -l) else HalfUp(r, l)
  }

  lemma StepsAre(v: real, d: real)
    requires d != 0.0
    ensures Steps(v, d) == v / d
  {
    var q, i := v / d, 1.0 / d;
    assert q * d == v && i * d == 1.0;
    assert (v * i) * d == v * (i * d);
    assert (v * i - q) * d == 0.0;
  }

  // ---------------------------------------------------------------- q4_0 and q5_0

  lemma FirstOfMore(x: seq<real>, v: real, e: nat, m: real)
    requires if m == 0.0 then AllZero(x) else FirstExtreme(x, e) && m == x[e]
    ensures Abs(m) < Abs(v) ==> v != 0.0 && FirstExtreme(x + [v], |x|)
    ensures Abs(m) >= Abs(v) && m == 0.0 ==> AllZero(x + [v])
    ensures Abs(m) >= Abs(v) && m != 0.0 ==> FirstExtreme(x + [v], e)
  {
  }

  lemma {:induction false} ExtremeIsFirst(x: seq<real>, n: nat) returns (e: nat)
    requires n <= |x|
    ensures Extreme(x, n) == 0.0 ==> AllZero(x[..n])
    ensures Extreme(x, n) != 0.0 ==> FirstExtreme(x[..n], e) && Extreme(x, n) == x[e]
  {
    if n == 0 {
      e := 0;
    } else {
      e := ExtremeIsFirst(x, n - 1);
      assert x[..n] == x[..n - 1] + [x[n - 1]];
      FirstOfMore(x[..n - 1], x[n - 1], e, Extreme(x, n - 1));
      if Abs(Extreme(x, n - 1)) < Abs(x[n - 1]) {
        e := n - 1;
      }
      hide FirstExtreme, AllZero, Abs;
    }
  }

  lemma SymLevelIs(v: real, d: real, half: int, r: real)
    requires half > 1 && d != 0.0 && Abs(v) <= Scaled(half, Abs(d)) && r == v / d + half as real
    ensures var l := SymLevel(v, d, half);
      if r >= 2.0 * half as real - 0.5 then l == 2 * half - 1 else HalfUp(r, l)
  {
    hide Abs, Scaled;
    StepsAre(v, d);
    InverseBound(v, d, half, Steps(v, d));
    hide Steps;
  }

  lemma SymElement(x: seq<real>, half: int, j: nat)
    requires |x| == N && (half == 8 || half == 16) && j < N
    ensures var b := SymBlock(x, half);
      if b.d == 0.0 then LevelAt(b.qs, b.qh, j) == half
      else SymHolds(x[j] / b.d + half as real, LevelAt(b.qs, b.qh, j), half)
  {
    hide SymLevel, SymScale, Extreme, Abs, Scaled, LevelAt, NibblesOf, FifthsOf, SymHolds;
    SymFits(x, half);
    PackingBack(SymLevels(x, half));
    SymScaleOf(x, half);
    var b, d := SymBlock(x, half), SymScale(x, half);
    assert x[..|x|] == x;
    assert LevelsOf(b.qs, b.qh)[j] == SymLevels(x, half)[j];
    SymClose(x[j], d, half);
    if d != 0.0 {
      SymHoldsIs(x[j], d, half, x[j] / d + half as real);
    }
  }

  /** The scale takes the first value of largest magnitude to level 0, and the other values to the nearest
      level, the last one included. */
  lemma SymBlockHolds(x: seq<real>, half: int)
    requires |x| == N && (half == 8 || half == 16)
    ensures var b := SymBlock(x, half);
      if AllZero(x) then b.d == 0.0 && forall j :: 0 <= j < N ==> LevelAt(b.qs, b.qh, j) == half
      else
        && b.d != 0.0
        && (exists e: nat :: FirstExtreme(x, e) && -(half as real) * b.d == x[e])
        && (forall j :: 0 <= j < N ==> SymHolds(x[j] / b.d + half as real, LevelAt(b.qs, b.qh, j), half))
  {
    hide SymLevel, SymScale, SymLevels, NibblesOf, FifthsOf, Extreme, Abs, Scaled, LevelAt, SymHolds, FirstExtreme;
    SymFits(x, half);
    var b := SymBlock(x, half);
    var e := SymScaleExtreme(x, half);
    forall j | 0 <= j < N
      ensures if b.d == 0.0 then LevelAt(b.qs, b.qh, j) == half
              else SymHolds(x[j] / b.d + half as real, LevelAt(b.qs, b.qh, j), half)
    {
      SymElement(x, half, j);
    }
  }

  lemma SymScaleExtreme(x: seq<real>, half: int) returns (e: nat)
    requires |x| == N && (half == 8 || half == 16)
    ensures AllZero(x) <==> SymBlock(x, half).d == 0.0
    ensures !AllZero(x) ==> FirstExtreme(x, e) && -(half as real) * SymBlock(x, half).d == x[e]
  {
    hide SymLevels, SymScale, Extreme, Scaled, NibblesOf, FifthsOf;
    SymFits(x, half);
    SymScaleOf(x, half);
    e := ExtremeIsFirst(x, |x|);
    assert x[..|x|] == x;
    SymExtreme(half, SymScale(x, half), Extreme(x, |x|));
  }

  predicate SymHolds(r: real, l: int, half: int) {
    if r >= 2.0 * half as real - 0.5 then l == 2 * half - 1 else HalfUp(r, l)
  }

  lemma SymHoldsIs(v: real, d: real, half: int, r: real)
    requires half > 1 && d != 0.0 && Abs(v) <= Scaled(half, Abs(d)) && r == v / d + half as real
    ensures SymHolds(r, SymLevel(v, d, half), half)
  {
    hide Abs, Scaled, SymLevel;
    SymLevelIs(v, d, half, r);
  }

  lemma SymExtreme(half: int, d: real, m: real)
    requires Scaled(-half, d) == m
    ensures -(half as real) * d == m
  {
  }

  // ---------------------------------------------------------------- q4_1 and q5_1

  lemma OffsetLevelIs(v: real, d: real, m: real, r: real)
    requires d > 0.0 && v >= m && r == (v - m) / d
    ensures HalfUp(r, Offset(v, d, m))
  {
    StepsAre(v - m, d);
    StepsSign(v - m, d);
    hide Steps;
  }

  lemma OffsetPlace(x: seq<real>, top: int, j: nat)
    requires |x| == N && Finite(x) && (top == 15 || top == 31) && j < N
    ensures var b := OffsetBlock(x, top);
      if b.d == 0.0 then LevelAt(b.qs, b.qh, j) == 0 else HalfUp((x[j] - b.m) / b.d, LevelAt(b.qs, b.qh, j))
  {
    hide Offset, OffsetScale, Abs, Scaled, LevelAt, NibblesOf, FifthsOf, HalfUp, Finite, Least, Greatest;
    var d, m, l := OffsetScale(x, top), Least(x, |x|), OffsetLevels(x, top);
    var b := OffsetBlock(x, top);
    OffsetFits(x, top);
    PackingBack(l);
    OffsetScaleOf(x, top);
    assert LevelsOf(b.qs, b.qh)[j] == l[j];
    OffsetElement(x, top, j);
    if d != 0.0 {
      OffsetLevelIs(x[j], d, m, (x[j] - m) / d);
    }
  }

  /** The least value gets level 0 and the greatest the last level, the others the nearest. */
  lemma OffsetBlockHolds(x: seq<real>, top: int)
    requires |x| == N && Finite(x) && (top == 15 || top == 31)
    ensures var b := OffsetBlock(x, top);
      && b.m in x && (forall i :: 0 <= i < N ==> b.m <= x[i])
      && (exists g :: g in x && (forall i :: 0 <= i < N ==> x[i] <= g) && top as real * b.d == g - b.m)
      && (forall j :: 0 <= j < N ==>
            if b.d == 0.0 then LevelAt(b.qs, b.qh, j) == 0 else HalfUp((x[j] - b.m) / b.d, LevelAt(b.qs, b.qh, j)))
  {
    hide OffsetScale, OffsetLevels, Scaled, LevelAt, NibblesOf, FifthsOf, HalfUp, Least, Greatest;
    OffsetFits(x, top);
    OffsetScaleOf(x, top);
    assert x[..|x|] == x;
    RangeIs(top, OffsetScale(x, top), Greatest(x, |x|) - Least(x, |x|));
    forall j | 0 <= j < N
      ensures var b := OffsetBlock(x, top);
        if b.d == 0.0 then LevelAt(b.qs, b.qh, j) == 0 else HalfUp((x[j] - b.m) / b.d, LevelAt(b.qs, b.qh, j))
    {
      OffsetPlace(x, top, j);
    }
  }

  lemma RangeIs(top: int, d: real, r: real)
    requires Scaled(top, d) == r
    ensures top as real * d == r
  {
  }

  // ---------------------------------------------------------------- q8_0

  lemma EightLevelIs(v: real, d: real, r: real)
    requires d != 0.0 && r == v / d
    ensures HalfAway(r, EightLevel(v, d))
  {
    StepsAre(v, d);
    hide Steps;
  }

  /** The largest magnitude gets level 127, the other values the nearest. */
  lemma EightBlockHolds(x: seq<real>)
    requires |x| == N
    ensures var b := EightBlock(x);
      && (forall i :: 0 <= i < N ==> Abs(x[i]) <= 127.0 * b.d)
      && (exists e: nat :: e < N && Abs(x[e]) == 127.0 * b.d)
      && (forall j :: 0 <= j < N ==> if b.d == 0.0 then b.q[j] == 0 else HalfAway(x[j] / b.d, b.q[j] as int))
  {
    hide EightLevel, EightScale, Abs, HalfAway;
    var a, d := Largest(x, |x|), EightScale(x);
    EightScaleOf(x);
    hide Largest;
    RangeIs(127, d, a);
    if a == 0.0 {
      AbsNonNegative(x[0]);
      assert Abs(x[0]) <= a;
    }
    forall j | 0 <= j < N
      ensures if d == 0.0 then EightLevels(x)[j] == 0 else HalfAway(x[j] / d, EightLevels(x)[j])
    {
      EightClose(x[j], d);
      if d != 0.0 {
        EightLevelIs(x[j], d, x[j] / d);
      }
    }
  }

  lemma AbsNonNegative(r: real)
    ensures Abs(r) >= 0.0
  {
  }
}
