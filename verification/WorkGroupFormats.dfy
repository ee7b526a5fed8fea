/** The kernel's dequantisers, format by format: each work-item gets the two elements of the row that
    its pair of columns calls for. */
module WorkGroupFormats {
  import opened KBlocks
  import opened SmallBlocks
  import opened SmallFormats
  import opened SmallRows
  import opened Reals
  import opened WorkGroup
  import WorkGroupRun

  // ---------------------------------------------------------------- the dequantisers

  function DequantizeQ4_0(b: Block, iqs: nat): (real, real)
    requires |b.qs| == 16 && iqs < 16
  {
    (Scaled(LowHalf(b.qs[iqs]) as int - 8, b.d), Scaled(HighHalf(b.qs[iqs]) as int - 8, b.d))
  }

  function DequantizeQ4_1(b: Block, iqs: nat): (real, real)
    requires |b.qs| == 16 && iqs < 16
  {
    (Scaled(LowHalf(b.qs[iqs]) as int, b.d) + b.m, Scaled(HighHalf(b.qs[iqs]) as int, b.d) + b.m)
  }

  function FifthLevels(b: Block, iqs: nat): (int, int)
    requires |b.qs| == 16 && iqs < 16
  {
    (ByteLevel(LowHalf(b.qs[iqs]), Meets(Shifted(b.qh, iqs), 1)),
      ByteLevel(HighHalf(b.qs[iqs]), Meets(Shifted(b.qh, iqs + 12), 16)))
  }

  function DequantizeQ5_0(b: Block, iqs: nat): (real, real)
    requires |b.qs| == 16 && iqs < 16
  {
    (Scaled(FifthLevels(b, iqs).0 - 16, b.d), Scaled(FifthLevels(b, iqs).1 - 16, b.d))
  }

  function DequantizeQ5_1(b: Block, iqs: nat): (real, real)
    requires |b.qs| == 16 && iqs < 16
  {
    (Scaled(FifthLevels(b, iqs).0, b.d) + b.m, Scaled(FifthLevels(b, iqs).1, b.d) + b.m)
  }

  function DequantizeQ8_0(b: Quants, iqs: nat): (real, real)
    requires |b.q| == N && iqs + 1 < N
  {
    (Scaled(b.q[iqs] as int, b.d), Scaled(b.q[iqs + 1] as int, b.d))
  }

  function ConvertF16(x: seq<real>, ib: nat): (real, real)
    requires ib + 1 < |x|
  {
    (x[ib], x[ib + 1])
  }

  // ---------------------------------------------------------------- what they get

  /** Blocks of 32: the pair is in block `BlockIndex`, at `Place`. */
  lemma PlaceInBlock(w: World, col: nat, nb: nat)
    requires WorldOk(w) && w.qk == N && col < w.ncols && col % 2 == 0 && |w.values| == N * nb
    ensures BlockIndex(w, col) < nb
    ensures Place(w, col) + Apart(w) < N && Apart(w) == (if w.qr == 2 then 16 else 1)
    ensures var e := N * BlockIndex(w, col) + Place(w, col);
      e + Apart(w) < |w.values| && PairOf(w, col) == (w.values[e], w.values[e + Apart(w)])
  {
    PairInside(w, col);
    PlaceIs(w, col);
    EvenInBlock(w, col);
    hide Place, BlockIndex, WorldOk;
  }

  lemma ValuesQ4_0(b: Block, j: nat)
    requires |b.qs| == 16 && b.qh == 0 && j < 16
    ensures DequantizeQ4_0(b, j) == (SymRow(b, 8)[j], SymRow(b, 8)[j + 16])
  {
    hide SymRow, LowHalf, HighHalf, LevelAt, Scaled, ByteLevel, Meets, Shifted;
    SymRowAt(b, 8, j);
    SymRowAt(b, 8, j + 16);
    NibbleLevels(b.qs, j);
  }

  /** The pair is what the kernel's dequantiser gets from the block. */
  lemma PairQ4_0(w: World, bs: seq<Block>, col: nat)
    requires WorldOk(w) && w.qk == N && w.qr == 2 && Blocks(bs) && (forall i :: 0 <= i < |bs| ==> bs[i].qh == 0)
      && w.values == SymRows(bs, 8)
    requires col < w.ncols && col % 2 == 0
    ensures BlockIndex(w, col) < |bs| && Place(w, col) < 16
    ensures PairOf(w, col) == DequantizeQ4_0(bs[BlockIndex(w, col)], Place(w, col))
  {
    hide WorldOk, Place, BlockIndex, Apart, PairOf, SymRow, SymRows, DequantizeQ4_0;
    PlaceInBlock(w, col, |bs|);
    var i, j := BlockIndex(w, col), Place(w, col);
    SymRowsAt(bs, 8, i, j);
    SymRowsAt(bs, 8, i, j + 16);
    ValuesQ4_0(bs[i], j);
  }

  lemma ValuesQ5_0(b: Block, j: nat)
    requires |b.qs| == 16 && j < 16
    ensures DequantizeQ5_0(b, j) == (SymRow(b, 16)[j], SymRow(b, 16)[j + 16])
  {
    hide SymRow, LowHalf, HighHalf, LevelAt, Scaled, ByteLevel, Meets, Shifted;
    SymRowAt(b, 16, j);
    SymRowAt(b, 16, j + 16);
    PairLevels(b.qs, b.qh, j);
  }

  lemma PairQ5_0(w: World, bs: seq<Block>, col: nat)
    requires WorldOk(w) && w.qk == N && w.qr == 2 && Blocks(bs) && w.values == SymRows(bs, 16)
    requires col < w.ncols && col % 2 == 0
    ensures BlockIndex(w, col) < |bs| && Place(w, col) < 16
    ensures PairOf(w, col) == DequantizeQ5_0(bs[BlockIndex(w, col)], Place(w, col))
  {
    hide WorldOk, Place, BlockIndex, Apart, PairOf, SymRow, SymRows, DequantizeQ5_0;
    PlaceInBlock(w, col, |bs|);
    var i, j := BlockIndex(w, col), Place(w, col);
    SymRowsAt(bs, 16, i, j);
    SymRowsAt(bs, 16, i, j + 16);
    ValuesQ5_0(bs[i], j);
  }

  lemma ValuesQ4_1(b: Block, j: nat)
    requires |b.qs| == 16 && b.qh == 0 && j < 16
    ensures DequantizeQ4_1(b, j) == (OffsetRow(b)[j], OffsetRow(b)[j + 16])
  {
    hide OffsetRow, LowHalf, HighHalf, LevelAt, Scaled, ByteLevel, Meets, Shifted;
    OffsetRowAt(b, j);
    OffsetRowAt(b, j + 16);
    NibbleLevels(b.qs, j);
  }

  lemma PairQ4_1(w: World, bs: seq<Block>, col: nat)
    requires WorldOk(w) && w.qk == N && w.qr == 2 && Blocks(bs) && (forall i :: 0 <= i < |bs| ==> bs[i].qh == 0)
      && w.values == OffsetRows(bs)
    requires col < w.ncols && col % 2 == 0
    ensures BlockIndex(w, col) < |bs| && Place(w, col) < 16
    ensures PairOf(w, col) == DequantizeQ4_1(bs[BlockIndex(w, col)], Place(w, col))
  {
    hide WorldOk, Place, BlockIndex, Apart, PairOf, OffsetRow, OffsetRows, DequantizeQ4_1;
    PlaceInBlock(w, col, |bs|);
    var i, j := BlockIndex(w, col), Place(w, col);
    OffsetRowsAt(bs, i, j);
    OffsetRowsAt(bs, i, j + 16);
    ValuesQ4_1(bs[i], j);
  }

  lemma ValuesQ5_1(b: Block, j: nat)
    requires |b.qs| == 16 && j < 16
    ensures DequantizeQ5_1(b, j) == (OffsetRow(b)[j], OffsetRow(b)[j + 16])
  {
    hide OffsetRow, LowHalf, HighHalf, LevelAt, Scaled, ByteLevel, Meets, Shifted;
    OffsetRowAt(b, j);
    OffsetRowAt(b, j + 16);
    PairLevels(b.qs, b.qh, j);
  }

  lemma PairQ5_1(w: World, bs: seq<Block>, col: nat)
    requires WorldOk(w) && w.qk == N && w.qr == 2 && Blocks(bs) && w.values == OffsetRows(bs)
    requires col < w.ncols && col % 2 == 0
    ensures BlockIndex(w, col) < |bs| && Place(w, col) < 16
    ensures PairOf(w, col) == DequantizeQ5_1(bs[BlockIndex(w, col)], Place(w, col))
  {
    hide WorldOk, Place, BlockIndex, Apart, PairOf, OffsetRow, OffsetRows, DequantizeQ5_1;
    PlaceInBlock(w, col, |bs|);
    var i, j := BlockIndex(w, col), Place(w, col);
    OffsetRowsAt(bs, i, j);
    OffsetRowsAt(bs, i, j + 16);
    ValuesQ5_1(bs[i], j);
  }

  lemma PairQ8_0(w: World, bs: seq<Quants>, col: nat)
    requires WorldOk(w) && w.qk == N && w.qr == 1 && EightBlocksOk(bs) && w.values == EightRows(bs)
    requires col < w.ncols && col % 2 == 0
    ensures BlockIndex(w, col) < |bs| && Place(w, col) + 1 < N
    ensures PairOf(w, col) == DequantizeQ8_0(bs[BlockIndex(w, col)], Place(w, col))
  {
    hide WorldOk, Place, BlockIndex, Apart, PairOf, EightRows, Scaled;
    PlaceInBlock(w, col, |bs|);
    var i, j := BlockIndex(w, col), Place(w, col);
    EightRowsAt(bs, i, j);
    EightRowsAt(bs, i, j + 1);
  }

  lemma PairF16(w: World, col: nat)
    requires WorldOk(w) && w.qk == 1 && w.qr == 1 && col < w.ncols && col % 2 == 0
    ensures BlockIndex(w, col) + 1 < |w.values| && PairOf(w, col) == ConvertF16(w.values, BlockIndex(w, col))
  {
    PlaceIs(w, col);
    PairInside(w, col);
    hide WorldOk, Place, BlockIndex;
    assert Place(w, col) == 0;
    assert Element(w, col, 0) == BlockIndex(w, col) && Element(w, col, 1) == BlockIndex(w, col) + 1;
  }

  // ---------------------------------------------------------------- the result

  lemma {:induction false} RowSumIsDot(w: World, from: nat, n: nat)
    requires WorldOk(w) && n <= w.ncols && from == w.row * w.ncols && from + w.ncols <= |w.values|
    ensures RowSum(w, n) == RowDot(w.values[from..from + w.ncols], w.y, n)
  {
    hide WorldOk, Product, RowSum, Share;
    if n == 0 {
      NoSums(w);
    } else {
      RowSumIsDot(w, from, n - 1);
      RowMore(w, n - 1);
      ShareIs(w, from, n - 1);
    }
  }

  lemma ShareIs(w: World, from: nat, col: nat)
    requires WorldOk(w) && col < w.ncols && from == w.row * w.ncols && from + w.ncols <= |w.values|
    ensures |w.y| == w.ncols && Share(w, col) == Product(w.values[from + col], w.y[col])
  {
    hide Product;
  }

  lemma WholeRow(w: World, from: nat)
    requires WorldOk(w) && from == w.row * w.ncols
    ensures from + w.ncols <= |w.values| && |w.y| == w.ncols
  {
    assert (w.row + 1) * w.ncols == from + w.ncols;
  }

  // ---------------------------------------------------------------- the kernel of a format

  /** The rows, in one of the formats the kernel is built for. */
  datatype Rows =
    | Q4_0(bs: seq<Block>)
    | Q4_1(bs: seq<Block>)
    | Q5_0(bs: seq<Block>)
    | Q5_1(bs: seq<Block>)
    | Q8_0(qs: seq<Quants>)
    | F16(x: seq<real>)

  ghost predicate RowsOk(rows: Rows) {
    match rows
    case Q4_0(bs) => Blocks(bs) && forall i :: 0 <= i < |bs| ==> bs[i].qh == 0
    case Q4_1(bs) => Blocks(bs) && forall i :: 0 <= i < |bs| ==> bs[i].qh == 0
    case Q5_0(bs) => Blocks(bs)
    case Q5_1(bs) => Blocks(bs)
    case Q8_0(qs) => EightBlocksOk(qs)
    case F16(_) => true
  }

  /** What the rows stand for, as the functions that specify the row dequantisers have it. */
  function ValuesOf(rows: Rows): seq<real>
    requires RowsOk(rows)
  {
    match rows
    case Q4_0(bs) => SymRows(bs, 8)
    case Q4_1(bs) => OffsetRows(bs)
    case Q5_0(bs) => SymRows(bs, 16)
    case Q5_1(bs) => OffsetRows(bs)
    case Q8_0(qs) => EightRows(qs)
    case F16(x) => x
  }

  /** The format's dequantiser. Outside the rows it may do anything; the kernel never goes there. */
  function Dequantize(rows: Rows, ib: nat, iqs: nat): (real, real)
    requires RowsOk(rows)
  {
    match rows
    case Q4_0(bs) => if ib < |bs| && iqs < 16 then DequantizeQ4_0(bs[ib], iqs) else (0.0, 0.0)
    case Q4_1(bs) => if ib < |bs| && iqs < 16 then DequantizeQ4_1(bs[ib], iqs) else (0.0, 0.0)
    case Q5_0(bs) => if ib < |bs| && iqs < 16 then DequantizeQ5_0(bs[ib], iqs) else (0.0, 0.0)
    case Q5_1(bs) => if ib < |bs| && iqs < 16 then DequantizeQ5_1(bs[ib], iqs) else (0.0, 0.0)
    case Q8_0(qs) => if ib < |qs| && iqs + 1 < N then DequantizeQ8_0(qs[ib], iqs) else (0.0, 0.0)
    case F16(x) => if ib + 1 < |x| then ConvertF16(x, ib) else (0.0, 0.0)
  }

  /** The kernel built for the format of `rows`, on row `row`. */
  function Kernel(rows: Rows, size: nat, ncols: nat, row: nat, y: seq<real>): World
    requires RowsOk(rows)
  {
    var qk := if rows.F16? then 1 else N;
    var qr := if rows.F16? || rows.Q8_0? then 1 else 2;
    World(size, ncols, qk, qr, row, ValuesOf(rows), y, (ib: nat, iqs: nat) => Dequantize(rows, ib, iqs))
  }

  lemma FormatDecodes(rows: Rows, w: World)
    requires RowsOk(rows) && WorldOk(w) && w == Kernel(rows, w.size, w.ncols, w.row, w.y)
    ensures Decodes(w)
  {
    hide WorldOk, Place, BlockIndex, PairOf, SymRows, OffsetRows, EightRows;
    forall col | 0 <= col < w.ncols && col % 2 == 0
      ensures w.decode(BlockIndex(w, col), Place(w, col)) == PairOf(w, col)
    {
      match rows
      case Q4_0(bs) => PairQ4_0(w, bs, col);
      case Q4_1(bs) => PairQ4_1(w, bs, col);
      case Q5_0(bs) => PairQ5_0(w, bs, col);
      case Q5_1(bs) => PairQ5_1(w, bs, col);
      case Q8_0(qs) => PairQ8_0(w, qs, col);
      case F16(_) => PairF16(w, col);
    }
  }

  /** The kernel of every format, in every order of its steps, ends with the dot product of the row
      that the blocks stand for and the vector. */
  lemma KernelOfFormat(rows: Rows, w: World, from: nat, st: WorkGroupRun.State, steps: seq<WorkGroupRun.Step>)
    requires RowsOk(rows) && WorldOk(w) && w == Kernel(rows, w.size, w.ncols, w.row, w.y) && from == w.row * w.ncols
    requires WorkGroupRun.Initial(w, st) && WorkGroupRun.Shape(w, st) && WorkGroupRun.IsRun(w, st, steps)
    requires WorkGroupRun.End(w, st, steps).phase.Finished?
    ensures from + w.ncols <= |ValuesOf(rows)| && w.size > 0 && |w.y| == w.ncols
    ensures WorkGroupRun.End(w, st, steps).tmp[0] == RowDot(ValuesOf(rows)[from..from + w.ncols], w.y, w.ncols)
  {
    FormatDecodes(rows, w);
    hide WorldOk, Decodes, Dequantize, ValuesOf, RowSum, RowDot;
    hide WorkGroupRun.IsRun, WorkGroupRun.End, WorkGroupRun.Enabled;
    WholeRow(w, from);
    WorkGroupRun.KernelComputesRow(w, st, steps);
    RowSumIsDot(w, from, w.ncols);
  }
}
