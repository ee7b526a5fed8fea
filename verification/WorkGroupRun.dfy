/** The steps of the work-items of the kernel, in any order between barriers. */
module WorkGroupRun {
  import opened Wrappers
  import opened Reals
  import opened WorkGroup

  /** `reg` is the value of the shared cell an item has read and not yet written back. */
  datatype Item =
    | Starting
    | Adding(col: nat, slot: nat, reg: Option<real>)
    | Reducing(own: Option<real>, other: Option<real>)
    | AtBarrier

  datatype Phase = Accumulate | Reduce(s: nat) | Finished

  /** `base` is the shared memory at the last barrier. */
  datatype State = State(phase: Phase, items: seq<Item>, tmp: seq<real>, base: seq<real>)

  datatype Step = Move(t: nat) | Release

  ghost predicate Shape(w: World, st: State) {
    |st.items| == |st.tmp| == |st.base| == w.size
  }

  /** The value dequantised for one half of a pair, times its element of the vector. */
  function Dequantized(w: World, col: nat, slot: nat): real
    requires WorldOk(w) && col < w.ncols && col % 2 == 0 && slot < 2
  {
    ColumnInRow(w, col, slot);
    var v := w.decode(BlockIndex(w, col), Place(w, col));
    Product(if slot == 0 then v.0 else v.1, w.y[BlockStart(w, col) + Place(w, col) + if slot == 0 then 0 else Apart(w)])
  }

  lemma DequantizedIsHalf(w: World, col: nat, slot: nat)
    requires WorldOk(w) && Decodes(w) && col < w.ncols && col % 2 == 0 && slot < 2
    ensures Dequantized(w, col, slot) == Half(w, col, slot)
  {
    Positive(w);
    hide WorldOk, Element, Place, Apart, BlockStart, BlockIndex;
    ElementOfColumn(w, col, slot);
    ColumnInRow(w, col, slot);
    RowInside(w, Column(w, col, slot));
    ColumnParts(w, col, slot);
    assert w.decode(BlockIndex(w, col), Place(w, col)) == PairOf(w, col);
  }

  lemma Positive(w: World)
    requires WorldOk(w)
    ensures w.qk > 0 && w.qr > 0
  {
  }

  lemma ColumnParts(w: World, col: nat, slot: nat)
    requires w.qk > 0 && w.qr > 0
    ensures Column(w, col, slot) == BlockStart(w, col) + Place(w, col) + if slot == 0 then 0 else Apart(w)
  {
  }

  // ---------------------------------------------------------------- steps

  /** Item `t` has not arrived at the barrier. */
  ghost predicate CanMove(w: World, st: State, t: nat)
    requires Shape(w, st)
  {
    t < w.size && !st.items[t].AtBarrier? && !st.phase.Finished?
    && (st.items[t].Adding? ==> st.items[t].col % 2 == 0 && st.items[t].slot < 2)
    && (st.items[t].Reducing? ==> st.phase.Reduce? && 2 * st.phase.s <= w.size)
  }

  ghost predicate AllAtBarrier(w: World, st: State)
    requires Shape(w, st)
  {
    forall t :: 0 <= t < w.size ==> st.items[t].AtBarrier?
  }

  ghost predicate Enabled(w: World, st: State, step: Step)
    requires Shape(w, st)
  {
    match step
    case Move(t) => CanMove(w, st, t)
    case Release => !st.phase.Finished? && AllAtBarrier(w, st)
  }

  /** One access to shared memory, or arrival at the barrier. */
  function Moved(w: World, st: State, t: nat): (st': State)
    requires WorldOk(w) && Shape(w, st) && CanMove(w, st, t)
    ensures Shape(w, st')
  {
    match st.items[t]
    case Starting => st.(tmp := st.tmp[t := 0.0], items := st.items[t := Adding(2 * t, 0, None)])
    case Adding(col, slot, reg) =>
      if col >= w.ncols then st.(items := st.items[t := AtBarrier])
      else if reg.None? then st.(items := st.items[t := Adding(col, slot, Some(st.tmp[t]))])
      else
        st.(tmp := st.tmp[t := reg.value + Dequantized(w, col, slot)],
            items := st.items[t := if slot == 0 then Adding(col, 1, None) else Adding(col + 2 * w.size, 0, None)])
    case Reducing(own, other) =>
      if t >= st.phase.s then st.(items := st.items[t := AtBarrier])
      else if own.None? then st.(items := st.items[t := Reducing(Some(st.tmp[t]), None)])
      else if other.None? then st.(items := st.items[t := Reducing(own, Some(st.tmp[t + st.phase.s]))])
      else st.(tmp := st.tmp[t := own.value + other.value], items := st.items[t := AtBarrier])
    case AtBarrier => st
  }

  /** The barrier opens: on to the next level of the tree. */
  function Released(w: World, st: State): (st': State)
    requires Shape(w, st)
    ensures Shape(w, st')
  {
    var s := if st.phase.Reduce? then st.phase.s / 2 else w.size / 2;
    if s == 0 then st.(phase := Finished, base := st.tmp)
    else State(Reduce(s), seq(w.size, _ => Reducing(None, None)), st.tmp, st.tmp)
  }

  function Apply(w: World, st: State, step: Step): (st': State)
    requires WorldOk(w) && Shape(w, st) && Enabled(w, st, step)
    ensures Shape(w, st')
  {
    match step
    case Move(t) => Moved(w, st, t)
    case Release => Released(w, st)
  }

  predicate Initial(w: World, st: State) {
    st.phase.Accumulate? && |st.items| == |st.tmp| == |st.base| == w.size && forall t :: 0 <= t < w.size ==>
      st.items[t].Starting?
  }

  // ---------------------------------------------------------------- what holds throughout

  function Pairs(w: World): nat {
    w.ncols / 2
  }

  function Min(a: nat, b: nat): nat { if a < b then a else b }

  /** How far item `t` is with its own pairs. */
  ghost predicate AddOk(w: World, st: State, t: nat)
    requires WorldOk(w) && Shape(w, st) && t < w.size
  {
    match st.items[t]
    case Starting => true
    case Adding(col, slot, reg) =>
      && col % 2 == 0 && col / 2 % w.size == t && slot < 2 && (slot == 1 || reg.Some? ==> col < w.ncols)
      && st.tmp[t] == ItemSum(w, t, Min(col / 2, Pairs(w))) + (if slot == 1 then Half(w, col, 0) else 0.0)
      && (reg.Some? ==> reg.value == st.tmp[t])
    case Reducing(_, _) => false
    case AtBarrier => st.tmp[t] == ItemSum(w, t, Pairs(w))
  }

  /** Cells of the upper half stay; each of the lower half gets its partner's value once. */
  ghost predicate ReduceOk(w: World, st: State, s: nat, t: nat)
    requires Shape(w, st) && 2 * s <= w.size && t < w.size
  {
    match st.items[t]
    case Starting => false
    case Adding(_, _, _) => false
    case Reducing(own, other) =>
      && st.tmp[t] == st.base[t]
      && (own.Some? ==> t < s && own.value == st.base[t])
      && (other.Some? ==> own.Some? && t < s && other.value == st.base[t + s])
    case AtBarrier => st.tmp[t] == if t < s then st.base[t] + st.base[t + s] else st.base[t]
  }

  ghost predicate IsPow2(n: nat) {
    exists k: nat :: n == Pow2(k)
  }

  ghost predicate Inv(w: World, st: State)
    requires WorldOk(w)
  {
    Shape(w, st) &&
    match st.phase
    case Accumulate => forall t :: 0 <= t < w.size ==> AddOk(w, st, t)
    case Reduce(s) =>
      && IsPow2(s) && 2 * s <= w.size && Total(st.base, 2 * s) == RowSum(w, w.ncols)
      && forall t :: 0 <= t < w.size ==> ReduceOk(w, st, s, t)
    case Finished => w.size > 0 && st.tmp[0] == RowSum(w, w.ncols)
  }

  lemma InitialInv(w: World, st: State)
    requires WorldOk(w) && Initial(w, st)
    ensures Inv(w, st)
  {
    hide WorldOk;
  }

  // ---------------------------------------------------------------- steps keep it

  lemma AfterPair(w: World, t: nat, p: nat)
    requires WorldOk(w) && w.size > 0 && p % w.size == t && p < Pairs(w)
    ensures (p + w.size) % w.size == t
    ensures ItemSum(w, t, Min(p + w.size, Pairs(w))) == ItemSum(w, t, p) + Pair(w, p)
  {
    hide Pair;
    Stride(w, t, p, Min(p + w.size, Pairs(w)) - p);
    SameRest(p, w.size);
  }

  lemma SameRest(p: nat, size: nat)
    requires size > 0
    ensures (p + size) % size == p % size
  {
    var c := p / size;
    assert p == c * size + p % size;
    assert (c + 1) * size == c * size + size;
    DivideUnique(p + size, size, c + 1, p % size);
  }

  lemma {:induction false} NonePast(w: World, t: nat, n: nat)
    requires WorldOk(w) && w.size > 0 && t < w.size && n <= t && 2 * n <= w.ncols
    ensures ItemSum(w, t, n) == 0.0
  {
    if n > 0 {
      NonePast(w, t, n - 1);
      DivideUnique(n - 1, w.size, 0, n - 1);
    }
  }

  lemma StartMoves(w: World, st: State, t: nat)
    requires WorldOk(w) && Shape(w, st) && st.phase.Accumulate? && CanMove(w, st, t) && st.items[t].Starting?
    ensures AddOk(w, Moved(w, st, t), t)
  {
    hide WorldOk, Half, Dequantized, Pair;
    NonePast(w, t, Min(t, Pairs(w)));
    DivideUnique(t, w.size, 0, t);
  }

  /** The second half of a pair completes it; the next pair of the item is one stride away. */
  lemma SecondHalf(w: World, st: State, t: nat)
    requires WorldOk(w) && Decodes(w) && Shape(w, st) && st.phase.Accumulate? && CanMove(w, st, t) && AddOk(w, st, t)
    requires st.items[t].Adding? && st.items[t].col < w.ncols && st.items[t].reg.Some? && st.items[t].slot == 1
    ensures AddOk(w, Moved(w, st, t), t)
  {
    hide WorldOk, Decodes, Half, Dequantized, Pair, ItemSum;
    var col := st.items[t].col;
    DequantizedIsHalf(w, col, 1);
    PairIsHalves(w, col);
    AfterPair(w, t, col / 2);
    assert (col + 2 * w.size) / 2 == col / 2 + w.size;
    assert (col + 2 * w.size) % 2 == 0;
  }

  lemma AddingMoves(w: World, st: State, t: nat)
    requires WorldOk(w) && Decodes(w) && Shape(w, st) && st.phase.Accumulate? && CanMove(w, st, t) && AddOk(w, st, t)
    ensures AddOk(w, Moved(w, st, t), t)
  {
    hide WorldOk, Decodes, Half, Dequantized, Pair, ItemSum;
    match st.items[t]
    case Starting => StartMoves(w, st, t);
    case Adding(col, slot, reg) =>
      if col < w.ncols && reg.Some? {
        if slot == 0 {
          DequantizedIsHalf(w, col, 0);
        } else {
          SecondHalf(w, st, t);
        }
      }
    case AtBarrier =>
  }

  lemma PairIsHalves(w: World, col: nat)
    requires WorldOk(w) && col < w.ncols && col % 2 == 0
    ensures col / 2 < Pairs(w) && Pair(w, col / 2) == Half(w, col, 0) + Half(w, col, 1)
  {
    hide Half;
    assert 2 * (col / 2) == col;
  }

  lemma ReducingMoves(w: World, st: State, s: nat, t: nat)
    requires WorldOk(w) && Shape(w, st) && st.phase == Reduce(s) && 2 * s <= w.size && CanMove(w, st, t)
    requires forall u :: 0 <= u < w.size ==> ReduceOk(w, st, s, u)
    ensures ReduceOk(w, Moved(w, st, t), s, t)
  {
    hide WorldOk;
    assert ReduceOk(w, st, s, t);
    if t < s {
      assert ReduceOk(w, st, s, t + s);
    }
  }

  lemma MoveKeepsInv(w: World, st: State, t: nat)
    requires WorldOk(w) && Decodes(w) && Inv(w, st) && Enabled(w, st, Move(t))
    ensures Inv(w, Moved(w, st, t))
  {
    var st' := Moved(w, st, t);
    hide WorldOk, Decodes, Half, Dequantized, Total, RowSum, ItemSum;
    match st.phase
    case Accumulate =>
      assert AddOk(w, st, t);
      AddingMoves(w, st, t);
      forall u | 0 <= u < w.size
        ensures AddOk(w, st', u)
      {
        assert AddOk(w, st, u);
      }
    case Reduce(s) =>
      ReducingMoves(w, st, s, t);
      forall u | 0 <= u < w.size
        ensures ReduceOk(w, st', s, u)
      {
        assert ReduceOk(w, st, s, u);
      }
    case Finished =>
  }

  lemma {:induction false} TotalIsItems(w: World, v: seq<real>, n: nat)
    requires WorldOk(w) && w.size > 0 && n <= w.size == |v| && forall t :: 0 <= t < w.size ==>
      v[t] == ItemSum(w, t, Pairs(w))
    ensures Total(v, n) == ItemSums(w, n, Pairs(w))
  {
    if n > 0 {
      hide ItemSum;
      TotalIsItems(w, v, n - 1);
    }
  }

  lemma Halving(s: nat)
    requires IsPow2(s)
    ensures s / 2 == 0 ==> s == 1
    ensures s / 2 > 0 ==> IsPow2(s / 2) && 2 * (s / 2) == s
  {
    var k: nat :| s == Pow2(k);
    if k > 0 {
      assert s / 2 == Pow2(k - 1);
    }
  }

  lemma SizeIsPow2(w: World)
    requires WorldOk(w)
    ensures IsPow2(w.size) && w.size > 0
  {
    var k: nat :| w.size == Pow2(k);
  }

  /** At a barrier the totals carry over. */
  lemma ReleaseKeepsInv(w: World, st: State)
    requires WorldOk(w) && Inv(w, st) && Enabled(w, st, Release)
    ensures Inv(w, Released(w, st))
  {
    SizeIsPow2(w);
    match st.phase
    case Accumulate =>
      AllArrived(w, st);
      hide WorldOk, Total, RowSum, IsPow2;
      Halving(w.size);
      FirstOnly(st.tmp);
    case Reduce(s) =>
      LevelDone(w, st, s);
      hide WorldOk, Total, RowSum, IsPow2;
      Halving(s);
      FirstOnly(st.tmp);
  }

  lemma AllArrived(w: World, st: State)
    requires WorldOk(w) && Inv(w, st) && st.phase.Accumulate? && Enabled(w, st, Release) && w.size > 0
    ensures Total(st.tmp, w.size) == RowSum(w, w.ncols)
  {
    forall t | 0 <= t < w.size
      ensures st.tmp[t] == ItemSum(w, t, Pairs(w))
    {
      assert AddOk(w, st, t);
    }
    TotalIsItems(w, st.tmp, w.size);
    ItemsSharePairs(w, Pairs(w));
    PairsCoverRow(w);
  }

  lemma LevelDone(w: World, st: State, s: nat)
    requires WorldOk(w) && Inv(w, st) && st.phase == Reduce(s) && Enabled(w, st, Release)
    ensures Total(st.tmp, s) == RowSum(w, w.ncols)
  {
    hide WorldOk, RowSum, IsPow2;
    forall t | 0 <= t < s
      ensures st.tmp[t] == st.base[t] + st.base[t + s]
    {
      assert ReduceOk(w, st, s, t);
    }
    HalvesAdded(st.base, st.tmp, s, s);
    NoTotal(st.tmp, st.base);
  }

  lemma NoTotal(v: seq<real>, u: seq<real>)
    ensures Total(v, 0) == 0.0 && Total(u, 0) == 0.0
  {
  }

  lemma FirstOnly(v: seq<real>)
    requires |v| > 0
    ensures Total(v, 1) == v[0]
  {
    assert Total(v, 0) == 0.0;
  }

  // ---------------------------------------------------------------- races

  /** The cell the next access of item `t` writes, and those it reads. */
  function Writes(w: World, st: State, t: nat): Option<nat>
    requires Shape(w, st) && t < w.size
  {
    match st.items[t]
    case Starting => Some(t)
    case Adding(col, _, reg) => if col < w.ncols && reg.Some? then Some(t) else None
    case Reducing(own, other) => if st.phase.Reduce? && t < st.phase.s && own.Some? && other.Some? then Some(t)
      else None
    case AtBarrier => None
  }

  function Reads(w: World, st: State, t: nat): Option<nat>
    requires Shape(w, st) && t < w.size
  {
    match st.items[t]
    case Starting => None
    case Adding(col, _, reg) => if col < w.ncols && reg.None? then Some(t) else None
    case Reducing(own, other) =>
      if st.phase.Reduce? && t < st.phase.s then
        (if own.None? then Some(t) else if other.None? then Some(t + st.phase.s) else None)
      else None
    case AtBarrier => None
  }

  /** No item is about to write a cell that another is about to read or write. */
  lemma NoRace(w: World, st: State, t: nat, u: nat)
    requires WorldOk(w) && Inv(w, st) && t < w.size && u < w.size && t != u && Writes(w, st, t).Some?
      && !st.phase.Finished?
    ensures Reads(w, st, u) != Writes(w, st, t) && Writes(w, st, u) != Writes(w, st, t)
  {
    hide WorldOk, Total, RowSum, ItemSum, Half;
    match st.phase
    case Accumulate => assert AddOk(w, st, t) && AddOk(w, st, u);
    case Reduce(s) => assert ReduceOk(w, st, s, t) && ReduceOk(w, st, s, u);
  }

  // ---------------------------------------------------------------- every run

  ghost predicate IsRun(w: World, st: State, steps: seq<Step>)
    requires WorldOk(w) && Shape(w, st)
    decreases |steps|
  {
    steps == [] || (Enabled(w, st, steps[0]) && IsRun(w, Apply(w, st, steps[0]), steps[1..]))
  }

  ghost function End(w: World, st: State, steps: seq<Step>): (e: State)
    requires WorldOk(w) && Shape(w, st) && IsRun(w, st, steps)
    ensures Shape(w, e)
    decreases |steps|
  {
    if steps == [] then st else End(w, Apply(w, st, steps[0]), steps[1..])
  }

  lemma StepKeepsInv(w: World, st: State, step: Step)
    requires WorldOk(w) && Decodes(w) && Shape(w, st) && Inv(w, st) && Enabled(w, st, step)
    ensures Inv(w, Apply(w, st, step))
  {
    hide WorldOk, Decodes, Inv, Moved, Released;
    match step
    case Move(t) => MoveKeepsInv(w, st, t);
    case Release => ReleaseKeepsInv(w, st);
  }

  lemma {:induction false} RunKeepsInv(w: World, st: State, steps: seq<Step>)
    requires WorldOk(w) && Decodes(w) && Shape(w, st) && Inv(w, st) && IsRun(w, st, steps)
    ensures Inv(w, End(w, st, steps))
    decreases |steps|
  {
    hide WorldOk, Decodes, Inv, Apply;
    if steps != [] {
      StepKeepsInv(w, st, steps[0]);
      RunKeepsInv(w, Apply(w, st, steps[0]), steps[1..]);
    }
  }

  /** Before the end some step is always possible. */
  lemma NotStuck(w: World, st: State) returns (step: Step)
    requires WorldOk(w) && Inv(w, st) && !st.phase.Finished?
    ensures Enabled(w, st, step)
  {
    hide WorldOk, Total, RowSum, ItemSum, Half;
    if AllAtBarrier(w, st) {
      step := Release;
    } else {
      var t :| 0 <= t < w.size && !st.items[t].AtBarrier?;
      WaitingMoves(w, st, t);
      step := Move(t);
    }
  }

  lemma WaitingMoves(w: World, st: State, t: nat)
    requires WorldOk(w) && Inv(w, st) && !st.phase.Finished? && t < w.size && !st.items[t].AtBarrier?
    ensures CanMove(w, st, t)
  {
    hide WorldOk, Total, RowSum, ItemSum, Half;
    match st.phase
    case Accumulate => assert AddOk(w, st, t);
    case Reduce(s) => assert ReduceOk(w, st, s, t);
  }

  // ---------------------------------------------------------------- every run ends

  /** Bound on the moves an item has left before its barrier. */
  function ItemLeft(w: World, item: Item): nat {
    match item
    case Starting => 4 * w.ncols + 6
    case Adding(col, slot, reg) =>
      if col >= w.ncols then 1
      else 4 * (w.ncols - col) + 1 + (if slot == 0 then 4 else 2) - (if reg.Some? then 1 else 0)
    case Reducing(own, other) => 3 - (if own.Some? then 1 else 0) - (if other.Some? then 1 else 0)
    case AtBarrier => 0
  }

  function ItemsLeft(w: World, items: seq<Item>, n: nat): nat
    requires n <= |items|
  {
    if n == 0 then 0 else ItemsLeft(w, items, n - 1) + ItemLeft(w, items[n - 1])
  }

  /** Bound on the barriers still to come. */
  function Barriers(w: World, phase: Phase): nat {
    match phase
    case Accumulate => w.size + 1
    case Reduce(s) => s + 1
    case Finished => 0
  }

  function Left(w: World, st: State): nat
    requires Shape(w, st)
  {
    Times(Barriers(w, st.phase), 3 * w.size + 1) + ItemsLeft(w, st.items, w.size)
  }

  function Times(a: nat, b: nat): nat {
    a * b
  }

  lemma MoveShrinksItem(w: World, st: State, t: nat)
    requires WorldOk(w) && Shape(w, st) && Inv(w, st) && CanMove(w, st, t)
    ensures ItemLeft(w, Moved(w, st, t).items[t]) < ItemLeft(w, st.items[t])
  {
    SizeIsPow2(w);
    hide WorldOk, Total, RowSum, ItemSum, Half, Dequantized;
    match st.phase
    case Accumulate => assert AddOk(w, st, t);
    case Reduce(s) => assert ReduceOk(w, st, s, t);
    case Finished =>
  }

  lemma {:induction false} OneShrinks(w: World, items: seq<Item>, items': seq<Item>, t: nat, n: nat)
    requires t < |items| == |items'| && n <= |items| && items' == items[t := items'[t]]
      && ItemLeft(w, items'[t]) < ItemLeft(w, items[t])
    ensures if t < n then ItemsLeft(w, items', n) < ItemsLeft(w, items, n)
      else ItemsLeft(w, items', n) == ItemsLeft(w, items, n)
  {
    if n > 0 {
      hide ItemLeft;
      OneShrinks(w, items, items', t, n - 1);
    }
  }

  lemma {:induction false} FreshItems(w: World, items: seq<Item>, n: nat)
    requires n <= |items| && forall t :: 0 <= t < |items| ==> items[t] == Reducing(None, None)
    ensures ItemsLeft(w, items, n) == 3 * n
  {
    if n > 0 {
      FreshItems(w, items, n - 1);
    }
  }

  lemma {:induction false} ArrivedItems(w: World, items: seq<Item>, n: nat)
    requires n <= |items| && forall t :: 0 <= t < |items| ==> items[t].AtBarrier?
    ensures ItemsLeft(w, items, n) == 0
  {
    if n > 0 {
      ArrivedItems(w, items, n - 1);
    }
  }

  lemma {:induction false} StartingItems(w: World, items: seq<Item>, n: nat)
    requires n <= |items| && forall t :: 0 <= t < |items| ==> items[t].Starting?
    ensures ItemsLeft(w, items, n) == Times(n, 4 * w.ncols + 6)
  {
    if n > 0 {
      StartingItems(w, items, n - 1);
    }
  }

  lemma FewerTimes(a: nat, b: nat, c: nat)
    requires a < b
    ensures Times(a, c) + c <= Times(b, c)
  {
    assert (a + 1) * c == a * c + c;
    NotMore(a + 1, b, c);
  }

  lemma NotMore(a: nat, b: nat, c: nat)
    requires a <= b
    ensures a * c <= b * c
  {
  }

  lemma StepShrinks(w: World, st: State, step: Step)
    requires WorldOk(w) && Shape(w, st) && Inv(w, st) && Enabled(w, st, step)
    ensures Left(w, Apply(w, st, step)) < Left(w, st)
  {
    var st' := Apply(w, st, step);
    match step
    case Move(t) =>
      MoveShrinksItem(w, st, t);
      hide WorldOk, Times, Dequantized, ItemLeft;
      OneShrinks(w, st.items, st'.items, t, w.size);
    case Release =>
      hide WorldOk, Times;
      ArrivedItems(w, st.items, w.size);
      FewerTimes(Barriers(w, st'.phase), Barriers(w, st.phase), 3 * w.size + 1);
      if st'.phase.Finished? {
        ArrivedItems(w, st'.items, w.size);
      } else {
        FreshItems(w, st'.items, w.size);
      }
  }

  lemma {:induction false} RunShrinks(w: World, st: State, steps: seq<Step>)
    requires WorldOk(w) && Decodes(w) && Shape(w, st) && Inv(w, st) && IsRun(w, st, steps)
    ensures |steps| <= Left(w, st)
    decreases |steps|
  {
    hide WorldOk, Decodes, Inv, Apply, Left;
    if steps != [] {
      StepKeepsInv(w, st, steps[0]);
      StepShrinks(w, st, steps[0]);
      RunShrinks(w, Apply(w, st, steps[0]), steps[1..]);
    }
  }

  /** Whatever the order of the accesses: a run has a bounded number of steps, it can go on until the
      group is finished, and then the first cell holds the dot product of the row with the vector. */
  lemma KernelComputesRow(w: World, st: State, steps: seq<Step>)
    requires WorldOk(w) && Decodes(w) && Initial(w, st) && Shape(w, st) && IsRun(w, st, steps)
    ensures |steps| <= Times(w.size + 1, 3 * w.size + 1) + Times(w.size, 4 * w.ncols + 6)
    ensures var e := End(w, st, steps);
      && (e.phase.Finished? ==> w.size > 0 && e.tmp[0] == RowSum(w, w.ncols))
      && (!e.phase.Finished? ==> exists step :: Enabled(w, e, step))
  {
    hide WorldOk, Decodes, Inv, Times, RowSum, Enabled, IsRun, End;
    InitialInv(w, st);
    RunKeepsInv(w, st, steps);
    RunShrinks(w, st, steps);
    StartingItems(w, st.items, w.size);
    if !End(w, st, steps).phase.Finished? {
      var step := NotStuck(w, End(w, st, steps));
    } else {
      InvFinished(w, End(w, st, steps));
    }
  }

  lemma InvFinished(w: World, st: State)
    requires WorldOk(w) && Inv(w, st) && st.phase.Finished?
    ensures w.size > 0 && Shape(w, st) && st.tmp[0] == RowSum(w, w.ncols)
  {
    hide RowSum, WorldOk;
  }
}
