/** The work-group kernel that multiplies a row of quantised blocks by a vector: strided partial
    sums in shared memory, then a tree reduction between barriers. */
module WorkGroup {
  import opened Reals

  /** The dequantiser the kernel is built on gets two elements from a block, given the block's index and
      a place in it. */
  type Dequantizer = (nat, nat) -> (real, real)

  /** `values` are the elements that all rows stand for, `qk` to a block; the two that `decode` gets are
      half a block apart when `qr` is 2 and next to each other when it is 1. */
  datatype World = World(size: nat, ncols: nat, qk: nat, qr: nat, row: nat, values: seq<real>, y: seq<real>,
                         decode: Dequantizer)

  function Pow2(k: nat): (r: nat)
    ensures r > 0
  {
    if k == 0 then 1 else 2 * Pow2(k - 1)
  }

  ghost predicate WorldOk(w: World) {
    && (exists k: nat :: w.size == Pow2(k))
    && w.ncols % 2 == 0 && w.qk > 0 && w.ncols % w.qk == 0
    && (if w.qr == 2 then w.qk % 2 == 0 else w.qr == 1 && (w.qk == 1 || w.qk % 2 == 0))
    && |w.y| == w.ncols && |w.values| >= (w.row + 1) * w.ncols
  }

  // ---------------------------------------------------------------- columns

  function Apart(w: World): nat
  {
    if w.qr == 1 then 1 else w.qk / 2
  }

  /** Start of the block that column `col` is in, and the place of its first element in that block. */
  function BlockStart(w: World, col: nat): nat
    requires w.qk > 0
  {
    col - col % w.qk
  }

  function Place(w: World, col: nat): nat
    requires w.qk > 0 && w.qr > 0
  {
    col % w.qk / w.qr
  }

  function BlockIndex(w: World, col: nat): nat
    requires w.qk > 0
  {
    (w.row * w.ncols + col) / w.qk
  }

  /** The column used by half `slot` of the pair at `col`. */
  function Column(w: World, col: nat, slot: nat): nat
    requires w.qk > 0 && w.qr > 0
  {
    BlockStart(w, col) + Place(w, col) + if slot == 0 then 0 else Apart(w)
  }

  /** The element dequantised for that half. */
  function Element(w: World, col: nat, slot: nat): nat
    requires w.qk > 0 && w.qr > 0
  {
    BlockIndex(w, col) * w.qk + Place(w, col) + if slot == 0 then 0 else Apart(w)
  }

  lemma DivideUnique(n: nat, q: nat, b: nat, o: nat)
    requires q > 0 && o < q && n == b * q + o
    ensures n / q == b && n % q == o
  {
    var c, r := n / q, n % q;
    assert n == c * q + r;
    if c > b {
      BlocksApart(b, c, q);
    } else if c < b {
      BlocksApart(c, b, q);
    }
  }

  lemma BlocksApart(b: nat, c: nat, q: nat)
    requires b < c
    ensures b * q + q <= c * q
  {
    assert (b + 1) * q == b * q + q;
    assert (b + 1) * q <= c * q;
  }

  /** Whole blocks do not matter for the place in a block. */
  lemma WholeBlocks(a: nat, n: nat, q: nat)
    requires q > 0 && a % q == 0
    ensures (a + n) % q == n % q
  {
    var b, c := a / q, n / q;
    assert a == b * q && n == c * q + n % q;
    assert (b + c) * q == b * q + c * q;
    DivideUnique(a + n, q, b + c, n % q);
  }

  lemma BlockBefore(a: nat, q: nat)
    requires q > 0 && a % q == 0 && a > 0
    ensures a >= q && (a - q) % q == 0
  {
    if a < q {
      DivideUnique(a, q, 0, a);
    } else {
      WholeBlocks(q, a - q, q);
    }
  }

  lemma RowStart(row: nat, n: nat, q: nat)
    requires q > 0 && n % q == 0
    ensures row * n % q == 0
  {
    var m := n / q;
    assert n == m * q;
    assert row * (m * q) == row * m * q;
    DivideUnique(row * n, q, row * m, 0);
  }

  lemma StartOf(n: nat, q: nat)
    requires q > 0
    ensures n / q * q == n - n % q
  {
  }

  /** The element of column `Column` of this row. */
  lemma ElementOfColumn(w: World, col: nat, slot: nat)
    requires WorldOk(w) && col < w.ncols
    ensures Element(w, col, slot) == w.row * w.ncols + Column(w, col, slot)
  {
    hide Place, Apart;
    RowStart(w.row, w.ncols, w.qk);
    WholeBlocks(w.row * w.ncols, col, w.qk);
    StartOf(w.row * w.ncols + col, w.qk);
  }

  lemma PlaceIs(w: World, col: nat)
    requires WorldOk(w)
    ensures Place(w, col) == if w.qr == 2 then col % w.qk / 2 else col % w.qk
  {
  }

  /** A pair lies in one block, so its two columns are columns of the row. */
  lemma ColumnInRow(w: World, col: nat, slot: nat)
    requires WorldOk(w) && col < w.ncols && col % 2 == 0 && slot < 2
    ensures Column(w, col, slot) < w.ncols
  {
    BlockInRow(w, col);
    if w.qk == 1 {
      SingleColumns(w, col);
    } else {
      PairInBlockOf(w, col);
    }
    hide WorldOk, Place, Apart, BlockStart;
  }

  lemma BlockInRow(w: World, col: nat)
    requires WorldOk(w) && col < w.ncols
    ensures w.qk > 0 && w.qr > 0 && BlockStart(w, col) + w.qk <= w.ncols
  {
    hide Pow2;
    BlockFits(col, w.ncols, w.qk);
  }

  lemma SingleColumns(w: World, col: nat)
    requires WorldOk(w) && w.qk == 1 && col < w.ncols && col % 2 == 0
    ensures BlockStart(w, col) == col && Place(w, col) == 0 && Apart(w) == 1 && col + 1 < w.ncols
  {
    hide Pow2;
    PlaceIs(w, col);
  }

  lemma PairInBlockOf(w: World, col: nat)
    requires WorldOk(w) && w.qk > 1 && col % 2 == 0
    ensures Place(w, col) + Apart(w) < w.qk
  {
    PlaceIs(w, col);
    EvenInBlock(w, col);
    hide Place, Pow2;
    InRemainder(col, w.qk);
  }

  lemma InRemainder(n: nat, q: nat)
    requires q > 0
    ensures n % q < q
  {
  }

  lemma BlockFits(col: nat, n: nat, q: nat)
    requires q > 0 && n % q == 0 && col < n
    ensures col - col % q + q <= n && (q == 1 ==> col % q == 0)
  {
    var m, b := n / q, col / q;
    assert n == m * q && col == b * q + col % q;
    if b < m {
      BlocksApart(b, m, q);
    } else {
      NoFewer(m, b, q);
    }
  }

  lemma NoFewer(m: nat, b: nat, q: nat)
    requires m <= b
    ensures m * q <= b * q
  {
  }

  lemma EvenInBlock(w: World, col: nat)
    requires w.qk > 0 && w.qk % 2 == 0 && col % 2 == 0
    ensures col % w.qk % 2 == 0
  {
    var b, o := Divided(col, w.qk);
    EvenRest(col, w.qk, w.qk / 2, b, o);
  }

  lemma Divided(n: nat, q: nat) returns (b: nat, o: nat)
    requires q > 0
    ensures b * q == n - o && o == n % q
  {
    b, o := n / q, n % q;
  }

  lemma EvenRest(n: nat, q: nat, h: nat, b: nat, o: nat)
    requires q == 2 * h && b * q == n - o && n % 2 == 0
    ensures o % 2 == 0
  {
    assert b * q == 2 * (b * h);
  }

  // ---------------------------------------------------------------- sums

  lemma RowInside(w: World, col: nat)
    requires WorldOk(w) && col < w.ncols
    ensures w.row * w.ncols + col < |w.values|
  {
    assert (w.row + 1) * w.ncols == w.row * w.ncols + w.ncols;
  }

  /** The two values of the pair of columns at `col`. */
  function PairOf(w: World, col: nat): (real, real)
    requires WorldOk(w) && col < w.ncols && col % 2 == 0
  {
    PairInside(w, col);
    (w.values[Element(w, col, 0)], w.values[Element(w, col, 1)])
  }

  lemma PairInside(w: World, col: nat)
    requires WorldOk(w) && col < w.ncols && col % 2 == 0
    ensures Element(w, col, 0) < |w.values| && Element(w, col, 1) < |w.values|
  {
    hide Element, Column;
    ElementOfColumn(w, col, 0);
    ElementOfColumn(w, col, 1);
    ColumnInRow(w, col, 0);
    ColumnInRow(w, col, 1);
    RowInside(w, Column(w, col, 0));
    RowInside(w, Column(w, col, 1));
  }

  /** The dequantiser gets the values that the row stands for. */
  ghost predicate Decodes(w: World)
    requires WorldOk(w)
  {
    forall col :: 0 <= col < w.ncols && col % 2 == 0 ==> w.decode(BlockIndex(w, col), Place(w, col)) == PairOf(w, col)
  }

  /** What column `col` adds to the result. */
  function Share(w: World, col: nat): real
    requires WorldOk(w) && col < w.ncols
  {
    RowInside(w, col);
    Product(w.values[w.row * w.ncols + col], w.y[col])
  }

  function RowSum(w: World, n: nat): real
    requires WorldOk(w) && n <= w.ncols
  {
    if n == 0 then 0.0 else RowSum(w, n - 1) + Share(w, n - 1)
  }

  /** What half `slot` of the pair at column `col` adds. */
  function Half(w: World, col: nat, slot: nat): real
    requires WorldOk(w) && col < w.ncols && col % 2 == 0 && slot < 2
  {
    ColumnInRow(w, col, slot);
    Share(w, Column(w, col, slot))
  }

  function Pair(w: World, p: nat): real
    requires WorldOk(w) && 2 * p < w.ncols
  {
    Half(w, 2 * p, 0) + Half(w, 2 * p, 1)
  }

  function PairSum(w: World, n: nat): real
    requires WorldOk(w) && 2 * n <= w.ncols
  {
    if n == 0 then 0.0 else PairSum(w, n - 1) + Pair(w, n - 1)
  }

  lemma {:induction false} AdjacentPairs(w: World, n: nat)
    requires WorldOk(w) && w.qr == 1 && 2 * n <= w.ncols
    ensures PairSum(w, n) == RowSum(w, 2 * n)
  {
    if n > 0 {
      AdjacentPairs(w, n - 1);
      PlaceIs(w, 2 * (n - 1));
      assert Column(w, 2 * (n - 1), 0) == 2 * (n - 1) && Column(w, 2 * (n - 1), 1) == 2 * (n - 1) + 1;
      hide Share, Column;
      assert RowSum(w, 2 * n) == RowSum(w, 2 * n - 1) + Share(w, 2 * n - 1);
    }
  }

  /** Pair `i` of a block uses element `i` of either half of the block. */
  lemma SplitColumns(w: World, h: nat, from: nat, i: nat)
    requires WorldOk(w) && w.qr == 2 && w.qk == 2 * h && i < h && from % w.qk == 0
    ensures Column(w, from + 2 * i, 0) == from + i && Column(w, from + 2 * i, 1) == from + h + i
  {
    WholeBlocks(from, 2 * i, w.qk);
    DivideUnique(2 * i, w.qk, 0, 2 * i);
    PlaceIs(w, from + 2 * i);
    hide Place;
  }

  lemma PairMore(w: World, n: nat)
    requires WorldOk(w) && 2 * n + 2 <= w.ncols
    ensures PairSum(w, n + 1) == PairSum(w, n) + Pair(w, n)
  {
    hide Pair;
  }

  lemma RowMore(w: World, n: nat)
    requires WorldOk(w) && n < w.ncols
    ensures RowSum(w, n + 1) == RowSum(w, n) + Share(w, n)
  {
    hide Share;
  }

  lemma NoSums(w: World)
    requires WorldOk(w)
    ensures PairSum(w, 0) == 0.0 && RowSum(w, 0) == 0.0
  {
  }

  predicate StartsBlock(w: World, from: nat)
    requires w.qk > 0
  {
    from % w.qk == 0
  }

  lemma {:induction false} SplitPairs(w: World, h: nat, from: nat, p: nat, n: nat)
    requires WorldOk(w) && w.qr == 2 && w.qk == 2 * h && n <= h && h > 0 && StartsBlock(w, from)
      && from + w.qk <= w.ncols && 2 * p == from
    ensures PairSum(w, p + n) == PairSum(w, p) + (RowSum(w, from + n) - RowSum(w, from))
      + (RowSum(w, from + h + n) - RowSum(w, from + h))
  {
    hide WorldOk, StartsBlock, Share, Pair, PairSum, RowSum;
    if n > 0 {
      SplitPairs(w, h, from, p, n - 1);
      PairInBlock(w, h, from, p, n - 1);
      PairMore(w, p + n - 1);
      RowMore(w, from + n - 1);
      RowMore(w, from + h + n - 1);
    }
  }

  lemma PairInBlock(w: World, h: nat, from: nat, p: nat, i: nat)
    requires WorldOk(w) && w.qr == 2 && w.qk == 2 * h && i < h && StartsBlock(w, from) && from + w.qk <= w.ncols
      && 2 * p == from
    ensures Pair(w, p + i) == Share(w, from + i) + Share(w, from + h + i)
  {
    hide Share, Column;
    SplitColumns(w, h, from, i);
    assert 2 * (p + i) == from + 2 * i;
  }

  lemma {:induction false} BlocksCovered(w: World, h: nat, from: nat, p: nat)
    requires WorldOk(w) && w.qr == 2 && w.qk == 2 * h && h > 0 && StartsBlock(w, from) && from <= w.ncols
      && 2 * p == from
    ensures PairSum(w, p) == RowSum(w, from)
    decreases p
  {
    hide WorldOk, PairSum, RowSum;
    if p == 0 {
      NoSums(w);
    } else {
      BlockBefore(from, w.qk);
      BlocksCovered(w, h, from - w.qk, p - h);
      SplitPairs(w, h, from - w.qk, p - h, h);
    }
  }

  /** The pairs use every column of the row once. */
  lemma PairsCoverRow(w: World)
    requires WorldOk(w)
    ensures PairSum(w, w.ncols / 2) == RowSum(w, w.ncols)
  {
    if w.qr == 1 {
      AdjacentPairs(w, w.ncols / 2);
    } else {
      BlocksCovered(w, w.qk / 2, w.ncols, w.ncols / 2);
    }
  }

  /** The pairs below `n` that fall to item `t`. */
  function ItemSum(w: World, t: nat, n: nat): real
    requires WorldOk(w) && 2 * n <= w.ncols && w.size > 0
  {
    if n == 0 then 0.0 else ItemSum(w, t, n - 1) + if (n - 1) % w.size == t then Pair(w, n - 1) else 0.0
  }

  function ItemSums(w: World, k: nat, n: nat): real
    requires WorldOk(w) && 2 * n <= w.ncols && w.size > 0
  {
    if k == 0 then 0.0 else ItemSums(w, k - 1, n) + ItemSum(w, k - 1, n)
  }

  lemma {:induction false} OneItemMore(w: World, k: nat, n: nat)
    requires WorldOk(w) && 2 * n + 2 <= w.ncols && w.size > 0
    ensures ItemSums(w, k, n + 1) == ItemSums(w, k, n) + if n % w.size < k then Pair(w, n) else 0.0
  {
    if k > 0 {
      hide Pair;
      OneItemMore(w, k - 1, n);
    }
  }

  lemma {:induction false} NoItems(w: World, k: nat)
    requires WorldOk(w) && w.size > 0
    ensures ItemSums(w, k, 0) == 0.0
  {
    if k > 0 {
      NoItems(w, k - 1);
    }
  }

  /** The items share the pairs among them. */
  lemma {:induction false} ItemsSharePairs(w: World, n: nat)
    requires WorldOk(w) && 2 * n <= w.ncols && w.size > 0
    ensures ItemSums(w, w.size, n) == PairSum(w, n)
  {
    if n == 0 {
      NoItems(w, w.size);
    } else {
      hide Pair;
      ItemsSharePairs(w, n - 1);
      OneItemMore(w, w.size, n - 1);
    }
  }

  /** Between two pairs of item `t` there are none of its own. */
  lemma {:induction false} Stride(w: World, t: nat, p: nat, d: nat)
    requires WorldOk(w) && 0 < d <= w.size && p % w.size == t && 2 * (p + d) <= w.ncols
    ensures ItemSum(w, t, p + d) == ItemSum(w, t, p) + Pair(w, p)
  {
    if d > 1 {
      hide Pair;
      Stride(w, t, p, d - 1);
      OffStride(p, d - 1, w.size);
    }
  }

  lemma OffStride(p: nat, e: nat, size: nat)
    requires 0 < e < size
    ensures (p + e) % size != p % size && (p + size) % size == p % size
  {
    var c, r := p / size, p % size;
    assert p == c * size + r;
    assert (c + 1) * size == c * size + size;
    DivideUnique(p + size, size, c + 1, r);
    if r + e < size {
      DivideUnique(p + e, size, c, r + e);
    } else {
      DivideUnique(p + e, size, c + 1, r + e - size);
    }
  }

  function Total(v: seq<real>, n: nat): real
    requires n <= |v|
  {
    if n == 0 then 0.0 else Total(v, n - 1) + v[n - 1]
  }

  lemma {:induction false} HalvesAdded(v: seq<real>, v': seq<real>, s: nat, n: nat)
    requires n <= s && 2 * s <= |v| == |v'| && forall i :: 0 <= i < s ==> v'[i] == v[i] + v[i + s]
    ensures Total(v', n) == Total(v, n) + (Total(v, s + n) - Total(v, s))
  {
    if n > 0 {
      HalvesAdded(v, v', s, n - 1);
      assert Total(v, s + n) == Total(v, s + n - 1) + v[s + n - 1];
    }
  }
}
