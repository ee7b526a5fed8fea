/** The search for a block's scale, minimum and levels, `make_qkx2_quants`. */
module QkxQuants {
  import opened Wrappers
  import opened WeightedFit

  function MinOf(x: Values, k: nat): (r: real)
    requires 0 < k <= |x|
    ensures forall i :: 0 <= i < k ==> r <= x[i]
    ensures exists i :: 0 <= i < k && r == x[i]
  {
    if k == 1 then x[0]
    else
      var m := MinOf(x, k - 1);
      if x[k - 1] < m then x[k - 1] else m
  }

  function MaxOf(x: Values, k: nat): (r: real)
    requires 0 < k <= |x|
    ensures forall i :: 0 <= i < k ==> x[i] <= r
    ensures exists i :: 0 <= i < k && r == x[i]
  {
    if k == 1 then x[0]
    else
      var m := MaxOf(x, k - 1);
      if x[k - 1] > m then x[k - 1] else m
  }

  /** The block's minimum, never above zero. */
  function Floor(x: Values): real
    requires |x| > 0
  {
    var m := MinOf(x, |x|);
    if m > 0.0 then 0.0 else m
  }

  function LevelOf(v: real, iscale: real, min: real, nmax: int): int {
    Clamp(NearestInt(iscale * (v - min)), 0, nmax)
  }

  function LevelsFor(x: Values, iscale: real, min: real, nmax: int): (l: Levels)
    ensures |l| == |x| && forall i :: 0 <= i < |x| ==> l[i] == LevelOf(x[i], iscale, min, nmax)
  {
    seq(|x|, i requires 0 <= i < |x| => LevelOf(x[i], iscale, min, nmax))
  }

  /** Rounding with a positive step keeps the order of the values. */
  lemma LevelsFollowValues(x: Values, iscale: real, min: real, nmax: int)
    requires iscale > 0.0 && nmax >= 0
    ensures SameOrder(x, LevelsFor(x, iscale, min, nmax))
    ensures forall i :: 0 <= i < |x| ==> 0 <= LevelsFor(x, iscale, min, nmax)[i] <= nmax
  {
    var l := LevelsFor(x, iscale, min, nmax);
    forall i, j | 0 <= i < |x| && 0 <= j < |x| && x[i] <= x[j]
      ensures l[i] <= l[j]
    {
      LevelKeepsOrder(x[i], x[j], iscale, min, nmax);
    }
  }

  lemma LevelKeepsOrder(a: real, b: real, iscale: real, min: real, nmax: int)
    requires iscale > 0.0 && nmax >= 0 && a <= b
    ensures LevelOf(a, iscale, min, nmax) <= LevelOf(b, iscale, min, nmax)
  {
    hide NearestInt;
    RoundingKeepsOrder(iscale, a - min, b - min, iscale * (a - min), iscale * (b - min));
  }

  lemma RoundingKeepsOrder(k: real, a: real, b: real, p: real, q: real)
    requires k > 0.0 && a <= b && p == k * a && q == k * b
    ensures NearestInt(p) <= NearestInt(q)
  {
    hide NearestInt;
    ScaleKeepsOrder(k, a, b);
    NearestIntMonotone(p, q);
  }

  lemma ScaleKeepsOrder(k: real, a: real, b: real)
    requires k > 0.0 && a <= b
    ensures k * a <= k * b
  {
    ProductNonNegative(k, b - a);
    assert k * (b - a) == k * b - k * a;
  }

  /** Levels, with the scale and the minimum to read them with. */
  datatype Quant = Quant(l: Levels, scale: real, min: real)

  function QuantError(w: Weights, x: Values, q: Quant, mad: bool): real
    requires |w| == |x| == |q.l|
  {
    Error(w, x, q.l, q.scale, q.min, mad, |x|)
  }

  /** Rounding between the block's minimum and maximum. */
  function Plain(x: Values, nmax: nat): (q: Quant)
    requires |x| > 0 && nmax > 0 && MaxOf(x, |x|) > Floor(x)
    ensures |q.l| == |x|
  {
    var min, max := Floor(x), MaxOf(x, |x|);
    Quant(LevelsFor(x, nmax as real / (max - min), min, nmax), (max - min) / nmax as real, min)
  }

  /** No other scale, with any minimum that is not positive, fits the levels better. */
  ghost predicate Optimal(w: Weights, x: Values, l: Levels, scale: real, min: real)
    requires |w| == |x| == |l|
  {
    forall s, m :: m <= 0.0 ==> Error(w, x, l, scale, min, false, |x|) <= Error(w, x, l, s, m, false, |x|)
  }

  // ---------------------------------------------------------------- the search

  /** The least squares fit to levels that vary. */
  function Fitted(w: Weights, x: Values, l: Levels): (r: Option<Quant>)
    requires |w| == |x| == |l| && NonNegative(w)
    ensures r.Some? <==> Denominator(w, l) > 0.0
    ensures r.Some? ==> r.value.l == l
  {
    if Denominator(w, l) > 0.0 then
      DenominatorPositive(w, l);
      var k := |w|;
      var (s, m) := ClosedForm(SumW(w, k), SumX(w, x, k), SumL(w, l, k), SumL2(w, l, k), SumXL(w, x, l, k));
      Some(Quant(l, s, m))
    else None
  }

  /** What the search is given: its block spans a range, and the steps it tries are positive. */
  datatype Task = Task(x: Values, w: Weights, nmax: nat, rmin: real, rdelta: real, mad: bool)

  ghost predicate TaskOk(t: Task) {
    && |t.x| == |t.w| > 0 && NonNegative(t.w) && MaxOf(t.x, |t.x|) > Floor(t.x)
    && t.nmax > 0 && t.rmin + t.nmax as real > 0.0 && t.rdelta >= 0.0
  }

  /** Levels for each unit of the values, at candidate number `step`. */
  function StepScale(nmax: nat, rmin: real, rdelta: real, step: nat, range: real): real
    requires range > 0.0
  {
    (rmin + rdelta * step as real + nmax as real) / range
  }

  /** Candidate number `step`, rounded from the minimum `min`. */
  function Candidate(t: Task, step: nat, min: real): (r: Option<Quant>)
    requires TaskOk(t) && min < MaxOf(t.x, |t.x|)
    ensures r.Some? ==> |r.value.l| == |t.x|
  {
    var iscale := StepScale(t.nmax, t.rmin, t.rdelta, step, MaxOf(t.x, |t.x|) - min);
    Fitted(t.w, t.x, LevelsFor(t.x, iscale, min, t.nmax))
  }

  function Better(t: Task, a: Quant, c: Option<Quant>): Quant
    requires TaskOk(t) && |a.l| == |t.x| && (c.Some? ==> |c.value.l| == |t.x|)
  {
    if c.Some? && QuantError(t.w, t.x, c.value, t.mad) < QuantError(t.w, t.x, a, t.mad) then c.value else a
  }

  ghost predicate Sound(t: Task, q: Quant)
    requires TaskOk(t)
  {
    && |q.l| == |t.x| && (forall i :: 0 <= i < |q.l| ==> 0 <= q.l[i] <= t.nmax)
    && q.scale > 0.0 && q.min <= 0.0 && q.min < MaxOf(t.x, |t.x|)
  }

  /** What is kept after `k` candidates; each is rounded from the minimum kept before it. */
  function Search(t: Task, k: nat): (q: Quant)
    requires TaskOk(t)
    ensures Sound(t, q)
  {
    if k == 0 then
      PlainSound(t);
      Plain(t.x, t.nmax)
    else
      var a := Search(t, k - 1);
      CandidateSound(t, k - 1, a.min);
      Better(t, a, Candidate(t, k - 1, a.min))
  }

  lemma PlainSound(t: Task)
    requires TaskOk(t)
    ensures Sound(t, Plain(t.x, t.nmax))
  {
    hide LevelOf, SameOrder;
    var min, max := Floor(t.x), MaxOf(t.x, |t.x|);
    InverseStep(t.nmax as real, max - min);
    QuotientPositive(max - min, t.nmax as real);
    LevelsFollowValues(t.x, t.nmax as real / (max - min), min, t.nmax);
  }

  lemma CandidateSound(t: Task, step: nat, min: real)
    requires TaskOk(t) && min < MaxOf(t.x, |t.x|)
    ensures Candidate(t, step, min).Some? ==>
      var q := Candidate(t, step, min).value; Sound(t, q) && Optimal(t.w, t.x, q.l, q.scale, q.min)
  {
    hide LevelOf, SameOrder, Optimal, ClosedForm, Denominator, SumW, SumX, SumL, SumL2, SumXL;
    var range := MaxOf(t.x, |t.x|) - min;
    var iscale := StepScale(t.nmax, t.rmin, t.rdelta, step, range);
    StepPositive(t.nmax, t.rmin, t.rdelta, step, range);
    LevelsFollowValues(t.x, iscale, min, t.nmax);
    var l := LevelsFor(t.x, iscale, min, t.nmax);
    if Denominator(t.w, l) > 0.0 {
      ClosedFormScale(t.w, t.x, l, MaxOf(t.x, |t.x|));
      var q := Fitted(t.w, t.x, l).value;
      FitIsOptimal(t.w, t.x, l, q.scale, q.min);
    }
  }

  /** The kept error is at most that of every candidate tried, and of plain rounding. */
  lemma {:induction false} SearchIsBest(t: Task, k: nat, i: nat)
    requires TaskOk(t)
    ensures QuantError(t.w, t.x, Search(t, k), t.mad) <= QuantError(t.w, t.x, Plain(t.x, t.nmax), t.mad)
    ensures i < k && Candidate(t, i, Search(t, i).min).Some? ==>
      QuantError(t.w, t.x, Search(t, k), t.mad) <= QuantError(t.w, t.x, Candidate(t, i, Search(t, i).min).value, t.mad)
    decreases k
  {
    hide QuantError, Plain, Candidate;
    if k > 0 {
      SearchIsBest(t, k - 1, i);
    }
  }

  /** It is plain rounding, or one of the candidates, with the optimum for its levels. */
  lemma {:induction false} SearchIsTried(t: Task, k: nat)
    requires TaskOk(t)
    ensures var q := Search(t, k);
      q == Plain(t.x, t.nmax)
      || (Optimal(t.w, t.x, q.l, q.scale, q.min) && exists i: nat ::
        i < k && Candidate(t, i, Search(t, i).min) == Some(q))
    decreases k
  {
    hide QuantError, Plain, Candidate, Optimal;
    if k > 0 {
      SearchIsTried(t, k - 1);
      var a := Search(t, k - 1);
      CandidateSound(t, k - 1, a.min);
      if Search(t, k) != a {
        assert Candidate(t, k - 1, Search(t, k - 1).min) == Some(Search(t, k));
      }
    }
  }

  // ---------------------------------------------------------------- the search, step by step

  /** Each level is the whole number nearest to `k` times the value above `min`, kept within `0 .. nmax`. */
  ghost predicate RoundedWith(x: Values, l: Levels, k: real, min: real, nmax: nat) {
    |l| == |x| && forall i :: 0 <= i < |x| ==> RoundedTo(k * (x[i] - min), l[i], nmax)
  }

  predicate RoundedTo(r: real, l: int, nmax: nat) {
    if r < 0.0 then l == 0 else if r > nmax as real then l == nmax else IsNearest(r, l)
  }

  /** Rounding as the code does it, and nothing else, is such a rounding. */
  lemma RoundingIs(x: Values, l: Levels, k: real, min: real, nmax: nat)
    ensures RoundedWith(x, l, k, min, nmax) <==> l == LevelsFor(x, k, min, nmax)
  {
    forall i | 0 <= i < |x|
      ensures RoundedTo(k * (x[i] - min), LevelOf(x[i], k, min, nmax), nmax)
      ensures |l| == |x| ==> (RoundedTo(k * (x[i] - min), l[i], nmax) <==> l[i] == LevelOf(x[i], k, min, nmax))
    {
      ClampedNearest(k * (x[i] - min), if |l| == |x| then l[i] else 0, nmax);
    }
    hide LevelOf, RoundedTo;
    if RoundedWith(x, l, k, min, nmax) {
      assert l == LevelsFor(x, k, min, nmax);
    }
  }

  lemma ClampedNearest(r: real, l: int, nmax: nat)
    ensures RoundedTo(r, l, nmax) <==> l == Clamp(NearestInt(r), 0, nmax)
    ensures RoundedTo(r, Clamp(NearestInt(r), 0, nmax), nmax)
  {
    NearestIntIs(r, l);
    NearestIntIs(r, Clamp(NearestInt(r), 0, nmax));
  }

  /** The levels vary: the equations of the least squares fit have one solution. */
  ghost predicate Fits(w: Weights, l: Levels)
    requires |w| == |l|
  {
    SumW(w, |w|) * SumL2(w, l, |w|) - SumL(w, l, |w|) * SumL(w, l, |w|) > 0.0
  }

  /** The least squares fit to levels that vary, with a minimum that is not positive. */
  function LeastSquares(w: Weights, x: Values, l: Levels): (real, real)
    requires |w| == |x| == |l| && NonNegative(w) && Fits(w, l)
  {
    DenominatorIs(w, l);
    DenominatorPositive(w, l);
    ClosedForm(SumW(w, |w|), SumX(w, x, |w|), SumL(w, l, |w|), SumL2(w, l, |w|), SumXL(w, x, l, |w|))
  }

  predicate ScalesTo(k: real, range: real, total: real) {
    k * range == total
  }

  /** Step `i`, with the minimum `min` kept so far, gives `l`: the values are rounded with a scale that
      takes the range to `rmin + rdelta * i + nmax`. */
  ghost predicate StepGives(t: Task, i: nat, min: real, k: real, l: Levels)
    requires TaskOk(t)
  {
    && ScalesTo(k, MaxOf(t.x, |t.x|) - min, t.rmin + t.rdelta * i as real + t.nmax as real)
    && RoundedWith(t.x, l, k, min, t.nmax)
  }

  /** The error of `q` is at most that of the least squares fit to the levels of step `i`. */
  ghost predicate AtMostStep(t: Task, i: nat, min: real, q: Quant)
    requires TaskOk(t) && |q.l| == |t.x|
  {
    forall k, l :: StepGives(t, i, min, k, l) && Fits(t.w, l) ==>
      QuantError(t.w, t.x, q, t.mad)
      <= Error(t.w, t.x, l, LeastSquares(t.w, t.x, l).0, LeastSquares(t.w, t.x, l).1, t.mad, |t.x|)
  }

  /** Step `i` keeps `a`, or replaces it by its own levels with their least squares fit, if that has a
      smaller error. */
  ghost predicate StepKeeps(t: Task, i: nat, a: Quant, b: Quant)
    requires TaskOk(t) && |a.l| == |t.x| == |b.l|
  {
    && AtMostStep(t, i, a.min, b)
    && (b == a || QuantError(t.w, t.x, b, t.mad) < QuantError(t.w, t.x, a, t.mad))
    && (b == a || exists k :: StepGives(t, i, a.min, k, b.l) && Fits(t.w, b.l)
                              && (b.scale, b.min) == LeastSquares(t.w, t.x, b.l))
  }

  /** Rounding between the least value, but at most zero, and the greatest. */
  ghost predicate PlainlyRounded(x: Values, nmax: nat, q: Quant)
    requires |x| > 0
  {
    && q.min <= 0.0 && (forall i :: 0 <= i < |x| ==> q.min <= x[i]) && (q.min == 0.0 || q.min in x)
    && q.scale * nmax as real == MaxOf(x, |x|) - q.min
    && forall k :: ScalesTo(k, MaxOf(x, |x|) - q.min, nmax as real) ==> RoundedWith(x, q.l, k, q.min, nmax)
  }

  /** What is kept first, and after each step. */
  ghost predicate IsSearch(t: Task, kept: seq<Quant>)
    requires TaskOk(t)
  {
    && |kept| > 0 && (forall i :: 0 <= i < |kept| ==> |kept[i].l| == |t.x|)
    && PlainlyRounded(t.x, t.nmax, kept[0])
    && (forall i :: 0 <= i < |kept| - 1 ==> StepKeeps(t, i, kept[i], kept[i + 1]))
  }

  lemma QuotientIs(k: real, n: real, d: real)
    requires d > 0.0
    ensures ScalesTo(k, d, n) <==> k == n / d
  {
    var q := n / d;
    assert q * d == n;
    if k * d == n {
      Cancel(k, q, d);
    }
  }

  lemma ScaleIs(nmax: nat, rmin: real, rdelta: real, step: nat, range: real, k: real, total: real)
    requires range > 0.0 && total == rmin + rdelta * step as real + nmax as real
    ensures ScalesTo(k, range, total) <==> k == StepScale(nmax, rmin, rdelta, step, range)
  {
    QuotientIs(k, total, range);
  }

  lemma StepParts(t: Task, i: nat, min: real, k: real, l: Levels, range: real, total: real)
    requires TaskOk(t) && range == MaxOf(t.x, |t.x|) - min
    requires total == t.rmin + t.rdelta * i as real + t.nmax as real
    ensures StepGives(t, i, min, k, l) <==> ScalesTo(k, range, total) && RoundedWith(t.x, l, k, min, t.nmax)
  {
    hide RoundedWith, MaxOf;
  }

  lemma StepGivesCandidate(t: Task, i: nat, min: real, k: real, l: Levels)
    requires TaskOk(t) && min < MaxOf(t.x, |t.x|)
    ensures var k0 := StepScale(t.nmax, t.rmin, t.rdelta, i, MaxOf(t.x, |t.x|) - min);
      StepGives(t, i, min, k, l) <==> k == k0 && l == LevelsFor(t.x, k0, min, t.nmax)
  {
    hide RoundedWith, LevelsFor, MaxOf, StepScale, ScalesTo, StepGives;
    var range, total := MaxOf(t.x, |t.x|) - min, t.rmin + t.rdelta * i as real + t.nmax as real;
    StepParts(t, i, min, k, l, range, total);
    ScaleIs(t.nmax, t.rmin, t.rdelta, i, range, k, total);
    RoundingIs(t.x, l, k, min, t.nmax);
  }

  lemma DenominatorIs(w: Weights, l: Levels)
    requires |w| == |l|
    ensures Fits(w, l) <==> Denominator(w, l) > 0.0
  {
    hide SumW, SumL, SumL2;
  }

  lemma FittedIs(w: Weights, x: Values, l: Levels)
    requires |w| == |x| == |l| && NonNegative(w)
    ensures Fits(w, l) <==> Fitted(w, x, l).Some?
    ensures Fits(w, l) ==> Fitted(w, x, l) == Some(Quant(l, LeastSquares(w, x, l).0, LeastSquares(w, x, l).1))
  {
    hide SumW, SumX, SumL, SumL2, SumXL, ClosedForm, Fits, Denominator;
    DenominatorIs(w, l);
  }

  lemma SearchStep(t: Task, i: nat)
    requires TaskOk(t)
    ensures StepKeeps(t, i, Search(t, i), Search(t, i + 1))
  {
    hide Search, Fitted, Fits, LeastSquares, StepGives, StepScale, Error, MaxOf, LevelOf, Better;
    var a, b := Search(t, i), Search(t, i + 1);
    var k0 := StepScale(t.nmax, t.rmin, t.rdelta, i, MaxOf(t.x, |t.x|) - a.min);
    var l0 := LevelsFor(t.x, k0, a.min, t.nmax);
    SearchNext(t, i);
    FittedIs(t.w, t.x, l0);
    StepGivesCandidate(t, i, a.min, k0, l0);
    forall k, l | StepGives(t, i, a.min, k, l)
      ensures l == l0
    {
      StepGivesCandidate(t, i, a.min, k, l);
    }
    StepReplaces(t, i, a, b, k0, l0);
  }

  lemma StepReplaces(t: Task, i: nat, a: Quant, b: Quant, k0: real, l0: Levels)
    requires TaskOk(t) && |a.l| == |b.l| == |l0| == |t.x| && StepGives(t, i, a.min, k0, l0)
    requires forall k, l :: StepGives(t, i, a.min, k, l) ==> l == l0
    requires Fits(t.w, l0) <==> Fitted(t.w, t.x, l0).Some?
    requires Fits(t.w, l0) ==>
      Fitted(t.w, t.x, l0) == Some(Quant(l0, LeastSquares(t.w, t.x, l0).0, LeastSquares(t.w, t.x, l0).1))
    requires b == Better(t, a, Fitted(t.w, t.x, l0))
    ensures StepKeeps(t, i, a, b)
  {
    hide StepGives, Fits, Fitted, LeastSquares, Error;
  }

  lemma FloorIs(x: Values)
    requires |x| > 0
    ensures Floor(x) <= 0.0 && (forall i :: 0 <= i < |x| ==> Floor(x) <= x[i]) && (Floor(x) == 0.0 || Floor(x) in x)
  {
  }

  lemma PlainRounds(x: Values, nmax: nat, min: real, range: real, l: Levels)
    requires range > 0.0 && l == LevelsFor(x, nmax as real / range, min, nmax)
    ensures forall k :: ScalesTo(k, range, nmax as real) ==> RoundedWith(x, l, k, min, nmax)
  {
    hide RoundedWith, LevelsFor, ScalesTo;
    forall k | ScalesTo(k, range, nmax as real)
      ensures RoundedWith(x, l, k, min, nmax)
    {
      QuotientIs(k, nmax as real, range);
      RoundingIs(x, l, k, min, nmax);
    }
  }

  lemma PlainIs(t: Task)
    requires TaskOk(t)
    ensures PlainlyRounded(t.x, t.nmax, Plain(t.x, t.nmax))
  {
    hide RoundedWith, LevelsFor, MaxOf, Floor, ScalesTo;
    FloorIs(t.x);
    PlainParts(t.x, t.nmax, Floor(t.x), MaxOf(t.x, |t.x|), Plain(t.x, t.nmax));
  }

  lemma PlainParts(x: Values, nmax: nat, min: real, max: real, q: Quant)
    requires max > min && nmax > 0 && q.min == min && q.scale == (max - min) / nmax as real
    requires q.l == LevelsFor(x, nmax as real / (max - min), min, nmax)
    ensures q.scale * nmax as real == max - min
    ensures forall k :: ScalesTo(k, max - min, nmax as real) ==> RoundedWith(x, q.l, k, min, nmax)
  {
    hide RoundedWith, LevelsFor;
    PlainRounds(x, nmax, min, max - min, q.l);
  }

  ghost function Kept(t: Task, n: nat): (kept: seq<Quant>)
    requires TaskOk(t)
    ensures |kept| == n + 1 && forall i :: 0 <= i <= n ==> kept[i] == Search(t, i)
  {
    seq(n + 1, i requires 0 <= i <= n => Search(t, i))
  }

  /** The search is such a sequence, and what it ends with has no larger error than any step's fit. */
  lemma SearchIsSearch(t: Task, n: nat)
    requires TaskOk(t)
    ensures IsSearch(t, Kept(t, n))
    ensures forall i :: 0 <= i < n ==> AtMostStep(t, i, Kept(t, n)[i].min, Search(t, n))
  {
    hide PlainlyRounded, AtMostStep, StepKeeps, QuantError, Plain, Search, MaxOf, Floor;
    PlainIs(t);
    SearchNext(t, 0);
    var kept := Kept(t, n);
    forall i | 0 <= i < n
      ensures StepKeeps(t, i, kept[i], kept[i + 1]) && AtMostStep(t, i, kept[i].min, Search(t, n))
    {
      SearchStep(t, i);
      ErrorsFall(t, i + 1, n);
      StillAtMost(t, i, Search(t, i), Search(t, i + 1), Search(t, n));
    }
  }

  lemma {:induction false} ErrorsFall(t: Task, i: nat, n: nat)
    requires TaskOk(t) && i <= n
    ensures QuantError(t.w, t.x, Search(t, n), t.mad) <= QuantError(t.w, t.x, Search(t, i), t.mad)
    decreases n
  {
    hide QuantError, Plain, Candidate;
    if i < n {
      ErrorsFall(t, i, n - 1);
    }
  }

  lemma StillAtMost(t: Task, i: nat, a: Quant, b: Quant, q: Quant)
    requires TaskOk(t) && |a.l| == |b.l| == |q.l| == |t.x| && StepKeeps(t, i, a, b)
    requires QuantError(t.w, t.x, q, t.mad) <= QuantError(t.w, t.x, b, t.mad)
    ensures AtMostStep(t, i, a.min, q)
  {
    hide QuantError, StepGives, Fits, LeastSquares, Error;
  }

  /** With squared errors this is at most the error of any scale, and any minimum that is not positive. */
  lemma AtMostAnyFit(t: Task, i: nat, min: real, q: Quant, k: real, l: Levels, s: real, m: real)
    requires TaskOk(t) && |q.l| == |t.x| && AtMostStep(t, i, min, q) && !t.mad
    requires StepGives(t, i, min, k, l) && Fits(t.w, l) && m <= 0.0
    ensures QuantError(t.w, t.x, q, false) <= Error(t.w, t.x, l, s, m, false, |t.x|)
  {
    hide Fits, Error, ClosedForm, SumW, SumX, SumL, SumL2, SumXL, Denominator;
    DenominatorIs(t.w, l);
    ClosedFormIsOptimal(t.w, t.x, l, s, m);
  }

  /** Minimum and maximum of the block. */
  method Range(x: Values) returns (min: real, max: real)
    requires |x| > 0
    ensures min == MinOf(x, |x|) && max == MaxOf(x, |x|)
  {
    min, max := x[0], x[0];
    for i := 1 to |x|
      invariant min == MinOf(x, i) && max == MaxOf(x, i)
    {
      if x[i] < min { min := x[i]; }
      if x[i] > max { max := x[i]; }
    }
  }

  /** Total weight and weighted sum of the values. */
  method Totals(w: Weights, x: Values) returns (sumW: real, sumX: real)
    requires |w| == |x|
    ensures sumW == SumW(w, |w|) && sumX == SumX(w, x, |w|)
  {
    sumW, sumX := 0.0, 0.0;
    for i := 0 to |w|
      invariant sumW == SumW(w, i) && sumX == SumX(w, x, i)
    {
      sumW := sumW + w[i];
      sumX := sumX + w[i] * x[i];
    }
  }

  /** Round every value to a level. */
  method Round(x: Values, iscale: real, min: real, nmax: nat, L: array<int>)
    requires L.Length == |x|
    modifies L
    ensures L[..] == LevelsFor(x, iscale, min, nmax)
  {
    hide NearestInt, Clamp;
    for i := 0 to |x|
      invariant forall k :: 0 <= k < i ==> L[k] == LevelOf(x[k], iscale, min, nmax)
    {
      var l := NearestInt(iscale * (x[i] - min));
      L[i] := Clamp(l, 0, nmax);
      assert L[i] == LevelOf(x[i], iscale, min, nmax);
    }
  }

  method Moments(w: Weights, x: Values, L: array<int>) returns (sumL: real, sumL2: real, sumXL: real)
    requires |w| == |x| == L.Length
    ensures sumL == SumL(w, L[..], |w|) && sumL2 == SumL2(w, L[..], |w|) && sumXL == SumXL(w, x, L[..], |w|)
  {
    sumL, sumL2, sumXL := 0.0, 0.0, 0.0;
    for i := 0 to |w|
      invariant sumL == SumL(w, L[..], i) && sumL2 == SumL2(w, L[..], i) && sumXL == SumXL(w, x, L[..], i)
    {
      sumL := sumL + w[i] * L[i] as real;
      sumL2 := sumL2 + w[i] * L[i] as real * L[i] as real;
      sumXL := sumXL + w[i] * L[i] as real * x[i];
    }
  }

  method Measure(w: Weights, x: Values, L: array<int>, scale: real, min: real, mad: bool) returns (error: real)
    requires |w| == |x| == L.Length
    ensures error == Error(w, x, L[..], scale, min, mad, |x|)
  {
    hide Miss;
    error := 0.0;
    for i := 0 to |x|
      invariant error == Error(w, x, L[..], scale, min, mad, i)
    {
      error := error + w[i] * Miss(scale, min, L[i], x[i], mad);
    }
  }

  /** Least squares scale and minimum for the levels, when they vary. */
  method Fit(w: Weights, x: Values, L: array<int>, sumW: real, sumX: real, ghost max: real)
      returns (found: bool, scale: real, min: real)
    requires |w| == |x| == L.Length && NonNegative(w) && sumW == SumW(w, |w|) && sumX == SumX(w, x, |w|)
    requires SameOrder(x, L[..]) && (forall i :: 0 <= i < L.Length ==> L[i] >= 0) && forall i :: 0 <= i < |x| ==>
      x[i] <= max
    ensures found ==> scale > 0.0 && min <= 0.0 && min < max && Optimal(w, x, L[..], scale, min)
    ensures Fitted(w, x, L[..]) == if found then Some(Quant(L[..], scale, min)) else None
  {
    hide SumL, SumL2, SumXL, SumW, SumX, Error, Optimal, ClosedForm;
    var sumL, sumL2, sumXL := Moments(w, x, L);
    var D := sumW * sumL2 - sumL * sumL;
    assert D == Denominator(w, L[..]);
    if D > 0.0 {
      found := true;
      ClosedFormScale(w, x, L[..], max);
      scale := (sumW * sumXL - sumX * sumL) / D;
      min := (sumL2 * sumX - sumL * sumXL) / D;
      if min > 0.0 {
        min := 0.0;
        scale := sumXL / sumL2;
      }
      ClosedFormCases(sumW, sumX, sumL, sumL2, sumXL, D);
      FitIsOptimal(w, x, L[..], scale, min);
    } else {
      found, scale, min := false, 0.0, 0.0;
    }
  }

  lemma ClosedFormCases(W: real, X: real, L: real, L2: real, XL: real, D: real)
    requires D == Covariance(W, L, L, L2) && D > 0.0 && L2 > 0.0
    ensures var min := (L2 * X - L * XL) / D;
      ClosedForm(W, X, L, L2, XL) == if min > 0.0 then (XL / L2, 0.0) else ((W * XL - X * L) / D, min)
  {
  }

  lemma FitIsOptimal(w: Weights, x: Values, l: Levels, scale: real, min: real)
    requires |w| == |x| == |l| && NonNegative(w) && Denominator(w, l) > 0.0 && SumL2(w, l, |w|) > 0.0
    requires (scale, min)
      == ClosedForm(SumW(w, |w|), SumX(w, x, |w|), SumL(w, l, |w|), SumL2(w, l, |w|), SumXL(w, x, l, |w|))
    ensures Optimal(w, x, l, scale, min)
  {
    hide Error, ClosedForm, Denominator, SumW, SumX, SumL, SumL2, SumXL;
    forall s, m | m <= 0.0
      ensures Error(w, x, l, scale, min, false, |x|) <= Error(w, x, l, s, m, false, |x|)
    {
      ClosedFormIsOptimal(w, x, l, s, m);
    }
  }

  /** Number of candidates tried. */
  function Tries(nstep: int): nat {
    if nstep < 1 then 0 else nstep + 1
  }

  /** Plain min-max rounding first, then `nstep + 1` candidate step sizes; the best error wins. */
  method MakeQkx2Quants(nmax: nat, x: Values, w: Weights, L: array<int>, Laux: array<int>,
                        rmin: real, rdelta: real, nstep: int, mad: bool)
      returns (scale: real, theMin: real, ghost kept: seq<Quant>)
    requires |x| == |w| == L.Length == Laux.Length > 0 && L != Laux && NonNegative(w)
    requires nmax > 0 && rmin + nmax as real > 0.0 && rdelta >= 0.0
    modifies L, Laux
    ensures scale >= 0.0 && theMin >= 0.0
    ensures forall i :: 0 <= i < |x| ==> 0 <= L[i] <= nmax
    ensures MaxOf(x, |x|) > Floor(x) ==>
      var t := Task(x, w, nmax, rmin, rdelta, mad);
      && scale > 0.0
      && Quant(L[..], scale, -theMin) == Search(t, Tries(nstep))
      && QuantError(w, x, Search(t, Tries(nstep)), mad) <= QuantError(w, x, Plain(x, nmax), mad)
      && (forall i: nat :: i < Tries(nstep) ==> BeatsCandidate(t, i, Search(t, Tries(nstep))))
      && (Search(t, Tries(nstep)) == Plain(x, nmax) || Optimal(w, x, L[..], scale, -theMin))
    ensures MaxOf(x, |x|) > Floor(x) ==>
      var t := Task(x, w, nmax, rmin, rdelta, mad);
      && IsSearch(t, kept) && |kept| == (if nstep < 1 then 0 else nstep + 1) + 1
      && Quant(L[..], scale, -theMin) == kept[|kept| - 1]
      && (forall i :: 0 <= i < |kept| - 1 ==> AtMostStep(t, i, kept[i].min, Quant(L[..], scale, -theMin)))
    ensures MaxOf(x, |x|) <= Floor(x) ==> scale == 0.0 && Error(w, x, L[..], scale, -theMin, mad, |x|) == 0.0
    ensures MaxOf(x, |x|) <= Floor(x) ==> forall i :: 0 <= i < |x| ==> L[i] == 0 && x[i] == -theMin
  {
    hide Error, Optimal, Denominator, LevelsFor, SumW, SumX, MinOf, MaxOf;
    hide Plain, Candidate, BeatsCandidate, Search, Fitted, StepScale, Better, IsSearch, AtMostStep;
    var min, max := Range(x);
    var sumW, sumX := Totals(w, x);
    if min > 0.0 { min := 0.0; }
    if max == min {
      for i := 0 to |x|
        invariant forall k :: 0 <= k < i ==> L[k] == 0
      {
        L[i] := 0;
      }
      ConstantBlock(w, x, L[..], min, mad, |x|);
      return 0.0, -min, [];
    }
    assert min == Floor(x) && max > min;
    ghost var t := Task(x, w, nmax, rmin, rdelta, mad);
    var bestMad;
    scale, bestMad := PlainRounding(nmax, x, w, L, min, max, mad);
    BestOfSearch(t, Tries(nstep));
    SearchIsSearch(t, Tries(nstep));
    kept := Kept(t, Tries(nstep));
    SearchNext(t, 0);
    if nstep < 1 {
      return scale, -min, kept;
    }
    for step := 0 to nstep + 1
      invariant Quant(L[..], scale, min) == Search(t, step) && bestMad == QuantError(w, x, Search(t, step), mad)
    {
      SearchNext(t, step);
      StepPositive(nmax, rmin, rdelta, step, max - min);
      var iscale := StepScale(nmax, rmin, rdelta, step, max - min);
      scale, min, bestMad := KeepBetter(t, nmax, x, w, L, Laux, iscale, scale, min, bestMad, sumW, sumX, max, mad);
    }
    theMin := -min;
  }

  /** The candidate that came up at step `i`, if any, has no smaller error. */
  ghost predicate BeatsCandidate(t: Task, i: nat, q: Quant)
    requires TaskOk(t) && |q.l| == |t.x|
  {
    var c := Candidate(t, i, Search(t, i).min);
    c.Some? ==> QuantError(t.w, t.x, q, t.mad) <= QuantError(t.w, t.x, c.value, t.mad)
  }

  lemma BestOfSearch(t: Task, k: nat)
    requires TaskOk(t)
    ensures QuantError(t.w, t.x, Search(t, k), t.mad) <= QuantError(t.w, t.x, Plain(t.x, t.nmax), t.mad)
    ensures forall i: nat :: i < k ==> BeatsCandidate(t, i, Search(t, k))
    ensures var q := Search(t, k); q == Plain(t.x, t.nmax) || Optimal(t.w, t.x, q.l, q.scale, q.min)
  {
    hide QuantError, Plain, Candidate, Optimal, Search;
    SearchIsTried(t, k);
    SearchIsBest(t, k, 0);
    forall i: nat | i < k
      ensures BeatsCandidate(t, i, Search(t, k))
    {
      SearchIsBest(t, k, i);
    }
  }

  lemma SearchNext(t: Task, k: nat)
    requires TaskOk(t)
    ensures Search(t, 0) == Plain(t.x, t.nmax)
    ensures var a := Search(t, k);
      var iscale := StepScale(t.nmax, t.rmin, t.rdelta, k, MaxOf(t.x, |t.x|) - a.min);
      Search(t, k + 1) == Better(t, a, Fitted(t.w, t.x, LevelsFor(t.x, iscale, a.min, t.nmax)))
  {
    hide Plain, Fitted, Better, StepScale, LevelOf;
  }

  lemma StepPositive(nmax: nat, rmin: real, rdelta: real, step: nat, range: real)
    requires rmin + nmax as real > 0.0 && rdelta >= 0.0 && range > 0.0
    ensures StepScale(nmax, rmin, rdelta, step, range) > 0.0
  {
    ProductNonNegative(rdelta, step as real);
    QuotientPositive(rmin + rdelta * step as real + nmax as real, range);
  }

  /** Rounding between the minimum and the maximum. */
  method PlainRounding(nmax: nat, x: Values, w: Weights, L: array<int>, min: real, max: real, mad: bool)
      returns (scale: real, error: real)
    requires |x| == |w| == L.Length > 0 && nmax > 0 && min == Floor(x) && max == MaxOf(x, |x|) && min < max
    modifies L
    ensures Quant(L[..], scale, min) == Plain(x, nmax) && error == QuantError(w, x, Plain(x, nmax), mad)
  {
    hide Error, NearestInt, LevelOf, SameOrder;
    var iscale := nmax as real / (max - min);
    InverseStep(nmax as real, max - min);
    scale := 1.0 / iscale;
    Round(x, iscale, min, nmax, L);
    error := Measure(w, x, L, scale, min, mad);
  }

  /** One candidate: kept when its error is smaller. */
  method KeepBetter(ghost t: Task, nmax: nat, x: Values, w: Weights, L: array<int>, Laux: array<int>, iscale: real,
                    scale: real, min: real, bestMad: real, sumW: real, sumX: real, ghost max: real, mad: bool)
      returns (scale': real, min': real, bestMad': real)
    requires |x| == |w| == L.Length == Laux.Length && L != Laux && TaskOk(t) && t.x == x && t.w == w && t.mad == mad
    requires iscale > 0.0 && max == MaxOf(x, |x|) && sumW == SumW(w, |w|) && sumX == SumX(w, x, |w|)
    requires bestMad == QuantError(w, x, Quant(L[..], scale, min), mad)
    modifies L, Laux
    ensures Quant(L[..], scale', min')
         == Better(t, Quant(old(L[..]), scale, min), Fitted(w, x, LevelsFor(x, iscale, min, nmax)))
    ensures bestMad' == QuantError(w, x, Quant(L[..], scale', min'), mad)
  {
    hide Error, Optimal, Denominator, LevelOf, SumW, SumX, Fitted;
    scale', min', bestMad' := scale, min, bestMad;
    var found, thisScale, thisMin := TryStep(nmax, x, w, Laux, iscale, min, sumW, sumX, max);
    if found {
      var thisMad := Measure(w, x, Laux, thisScale, thisMin, mad);
      if thisMad < bestMad {
        CopyLevels(Laux, L);
        bestMad', scale', min' := thisMad, thisScale, thisMin;
      }
    }
  }

  /** Levels for one step size, and the fit to them. */
  method TryStep(nmax: nat, x: Values, w: Weights, Laux: array<int>, iscale: real, min: real, sumW: real, sumX: real,
                 ghost max: real)
      returns (found: bool, scale: real, thisMin: real)
    requires |x| == |w| == Laux.Length && NonNegative(w) && iscale > 0.0
    requires sumW == SumW(w, |w|) && sumX == SumX(w, x, |w|) && forall i :: 0 <= i < |x| ==> x[i] <= max
    modifies Laux
    ensures Laux[..] == LevelsFor(x, iscale, min, nmax) && (forall i :: 0 <= i < |x| ==> 0 <= Laux[i] <= nmax)
    ensures Fitted(w, x, Laux[..]) == if found then Some(Quant(Laux[..], scale, thisMin)) else None
    ensures found <==> Denominator(w, Laux[..]) > 0.0
    ensures found ==> scale > 0.0 && thisMin <= 0.0 && thisMin < max && Optimal(w, x, Laux[..], scale, thisMin)
  {
    hide NearestInt, LevelOf, SameOrder, Optimal, Denominator;
    Round(x, iscale, min, nmax, Laux);
    LevelsFollowValues(x, iscale, min, nmax);
    found, scale, thisMin := Fit(w, x, Laux, sumW, sumX, max);
  }

  method CopyLevels(from: array<int>, to: array<int>)
    requires from != to && from.Length == to.Length
    modifies to
    ensures to[..] == from[..]
  {
    for i := 0 to from.Length
      invariant to[..i] == from[..i]
    {
      to[i] := from[i];
    }
    assert to[..] == to[..from.Length] && from[..] == from[..from.Length];
  }

  lemma InverseStep(a: real, b: real)
    requires a > 0.0 && b > 0.0
    ensures a / b > 0.0 && 1.0 / (a / b) == b / a
  {
    QuotientPositive(a, b);
    var q, r := a / b, b / a;
    var t := 1.0 / q;
    assert q * b == a && r * a == b && t * q == 1.0;
    assert (r * q) * b == r * (q * b);
    Cancel(r * q, 1.0, b);
    Cancel(t, r, q);
  }

  /** A block whose values all equal its minimum is represented exactly. */
  lemma {:induction false} ConstantBlock(w: Weights, x: Values, l: Levels, min: real, mad: bool, k: nat)
    requires |w| == |x| == |l| && k <= |x| && (forall i :: 0 <= i < |l| ==> l[i] == 0)
    requires forall i :: 0 <= i < |x| ==> x[i] == min
    ensures Error(w, x, l, 0.0, min, mad, k) == 0.0
  {
    if k > 0 {
      ConstantBlock(w, x, l, min, mad, k - 1);
      assert Miss(0.0, min, 0, min, mad) == 0.0;
    }
  }
}
