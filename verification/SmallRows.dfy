/** Rows of blocks of 32: the loops over blocks, and the projection for whole rows. */
module SmallRows {
  import opened KBlocks
  import opened SmallBlocks
  import opened SmallFormats

  ghost predicate Blocks(bs: seq<Block>) {
    forall i :: 0 <= i < |bs| ==> |bs[i].qs| == 16
  }

  ghost predicate EightBlocksOk(bs: seq<Quants>) {
    forall i :: 0 <= i < |bs| ==> |bs[i].q| == N
  }

  /** Within the range of the numbers, as the search for a minimum assumes. */
  ghost predicate Ranged(x: seq<real>) {
    forall j :: 0 <= j < |x| ==> -FLT_MAX <= x[j] <= FLT_MAX
  }

  lemma RangedParts(x: seq<real>, n: nat)
    requires n < |x|
    ensures Ranged(x) <==> Ranged(x[..n]) && Finite(x[n..])
  {
    if Ranged(x[..n]) && Finite(x[n..]) {
      forall j | 0 <= j < |x|
        ensures -FLT_MAX <= x[j] <= FLT_MAX
      {
        assert x[j] == if j < n then x[..n][j] else x[n..][j - n];
      }
    }
  }

  lemma RangedSlice(x: seq<real>, i: nat, j: nat)
    requires i < j <= |x| && Ranged(x)
    ensures Ranged(x[..i]) && Ranged(x[..j]) && Finite(x[i..j])
  {
  }

  // ---------------------------------------------------------------- rows, block by block

  function SymBlocks(x: seq<real>, nb: nat, half: int): (bs: seq<Block>)
    requires |x| == N * nb && (half == 8 || half == 16)
    ensures |bs| == nb && Blocks(bs)
    decreases nb
  {
    if nb == 0 then [] else SymBlocks(x[..N * (nb - 1)], nb - 1, half) + [SymBlock(x[N * (nb - 1)..], half)]
  }

  function SymRows(bs: seq<Block>, half: int): (y: seq<real>)
    requires Blocks(bs)
    ensures |y| == N * |bs|
    decreases |bs|
  {
    if bs == [] then [] else SymRows(bs[..|bs| - 1], half) + SymRow(bs[|bs| - 1], half)
  }

  /** q4_0 and q5_0: re-quantising a dequantised row gives the same blocks. */
  lemma {:induction false} SymRowProjection(x: seq<real>, nb: nat, half: int)
    requires |x| == N * nb && (half == 8 || half == 16)
    ensures SymBlocks(SymRows(SymBlocks(x, nb, half), half), nb, half) == SymBlocks(x, nb, half)
    decreases nb
  {
    hide SymBlock, SymRow, SymBlocks, SymRows;
    SymBlocksLast(x, nb, half);
    if nb > 0 {
      var m := nb - 1;
      var bs := SymBlocks(x, nb, half);
      var y := SymRows(bs, half);
      SymBlockProjection(x[N * m..], half);
      SymRowProjection(x[..N * m], m, half);
      SymRowsLast(bs, half);
      SymBlocksLast(y, nb, half);
    } else {
      SymBlocksLast(SymRows([], half), 0, half);
    }
  }

  lemma SymBlocksLast(x: seq<real>, nb: nat, half: int)
    requires |x| == N * nb && (half == 8 || half == 16)
    ensures var bs := SymBlocks(x, nb, half);
      if nb == 0 then bs == []
      else bs[..nb - 1] == SymBlocks(x[..N * (nb - 1)], nb - 1, half) && bs[nb - 1] == SymBlock(x[N * (nb - 1)..], half)
  {
    hide SymBlock;
  }

  lemma SymRowsLast(bs: seq<Block>, half: int)
    requires Blocks(bs) && |bs| > 0
    ensures var (y, m) := (SymRows(bs, half), |bs| - 1);
      y[..N * m] == SymRows(bs[..m], half) && y[N * m..] == SymRow(bs[m], half)
  {
    hide SymRow;
  }

  function OffsetBlocks(x: seq<real>, nb: nat, top: int): (bs: seq<Block>)
    requires |x| == N * nb && (top == 15 || top == 31) && Ranged(x)
    ensures |bs| == nb && Blocks(bs)
    decreases nb
  {
    if nb == 0 then [] else OffsetBlocks(x[..N * (nb - 1)], nb - 1, top) + [OffsetBlock(x[N * (nb - 1)..], top)]
  }

  function OffsetRows(bs: seq<Block>): (y: seq<real>)
    requires Blocks(bs)
    ensures |y| == N * |bs|
    decreases |bs|
  {
    if bs == [] then [] else OffsetRows(bs[..|bs| - 1]) + OffsetRow(bs[|bs| - 1])
  }

  /** q4_1 and q5_1: the same, and the dequantised row stays within the range of the numbers. */
  lemma {:induction false} OffsetRowProjection(x: seq<real>, nb: nat, top: int)
    requires |x| == N * nb && (top == 15 || top == 31) && Ranged(x)
    ensures var y := OffsetRows(OffsetBlocks(x, nb, top));
      Ranged(y) && OffsetBlocks(y, nb, top) == OffsetBlocks(x, nb, top)
    decreases nb
  {
    hide OffsetBlock, OffsetRow, OffsetBlocks, OffsetRows, Finite, Ranged;
    OffsetBlocksLast(x, nb, top);
    if nb == 0 {
      NothingRanged();
      assert OffsetRows([]) == [];
      OffsetBlocksLast([], 0, top);
    } else {
      var m := nb - 1;
      RangedParts(x, N * m);
      var bs := OffsetBlocks(x, nb, top);
      var y := OffsetRows(bs);
      OffsetBlockProjection(x[N * m..], top);
      OffsetRowProjection(x[..N * m], m, top);
      OffsetRowsLast(bs);
      RangedParts(y, N * m);
      OffsetBlocksLast(y, nb, top);
    }
  }

  lemma OffsetBlocksLast(x: seq<real>, nb: nat, top: int)
    requires |x| == N * nb && (top == 15 || top == 31) && Ranged(x)
    ensures nb == 0 ==> OffsetBlocks(x, 0, top) == []
    ensures nb > 0 ==>
      var bs, m := OffsetBlocks(x, nb, top), N * (nb - 1);
      && Ranged(x[..m]) && Finite(x[m..])
      && bs[..nb - 1] == OffsetBlocks(x[..m], nb - 1, top) && bs[nb - 1] == OffsetBlock(x[m..], top)
  {
    hide OffsetBlock, Finite, Ranged;
    if nb > 0 {
      RangedParts(x, N * (nb - 1));
    }
  }

  lemma OffsetRowsLast(bs: seq<Block>)
    requires Blocks(bs) && |bs| > 0
    ensures var (y, m) := (OffsetRows(bs), |bs| - 1);
      y[..N * m] == OffsetRows(bs[..m]) && y[N * m..] == OffsetRow(bs[m])
  {
    hide OffsetRow;
  }

  lemma NothingRanged()
    ensures Ranged([])
  {
  }

  function EightBlocks(x: seq<real>, nb: nat): (bs: seq<Quants>)
    requires |x| == N * nb
    ensures |bs| == nb && EightBlocksOk(bs)
    decreases nb
  {
    if nb == 0 then [] else EightBlocks(x[..N * (nb - 1)], nb - 1) + [EightBlock(x[N * (nb - 1)..])]
  }

  function EightRows(bs: seq<Quants>): (y: seq<real>)
    requires EightBlocksOk(bs)
    ensures |y| == N * |bs|
    decreases |bs|
  {
    if bs == [] then [] else EightRows(bs[..|bs| - 1]) + EightRow(bs[|bs| - 1])
  }

  /** q8_0: the same, and no level is -128. */
  lemma {:induction false} EightRowProjection(x: seq<real>, nb: nat)
    requires |x| == N * nb
    ensures EightBlocks(EightRows(EightBlocks(x, nb)), nb) == EightBlocks(x, nb)
    ensures forall i, j :: 0 <= i < nb && 0 <= j < N ==> -127 <= EightBlocks(x, nb)[i].q[j]
    decreases nb
  {
    hide EightBlock, EightRow;
    if nb > 0 {
      var m := nb - 1;
      var bs := EightBlocks(x, nb);
      var y := EightRows(bs);
      EightBlockProjection(x[N * m..]);
      EightRowProjection(x[..N * m], m);
      assert bs[..m] == EightBlocks(x[..N * m], m);
      assert y[N * m..] == EightRow(bs[m]) && y[..N * m] == EightRows(bs[..m]);
    }
  }

  // ---------------------------------------------------------------- blocks of rows

  /** Block `i` is that of the elements from `32 * i` on. */
  lemma {:induction false} SymBlockOf(x: seq<real>, nb: nat, half: int, i: nat)
    requires |x| == N * nb && (half == 8 || half == 16) && i < nb
    ensures SymBlocks(x, nb, half)[i] == SymBlock(x[N * i..N * (i + 1)], half)
    decreases nb
  {
    hide SymBlock, SymBlocks;
    var m := nb - 1;
    SymBlocksLast(x, nb, half);
    if i < m {
      SymBlockOf(x[..N * m], m, half, i);
      assert x[..N * m][N * i..N * (i + 1)] == x[N * i..N * (i + 1)];
      assert SymBlocks(x, nb, half)[..m][i] == SymBlocks(x, nb, half)[i];
    } else {
      assert x[N * i..N * (i + 1)] == x[N * i..];
    }
  }

  lemma {:induction false} OffsetBlockOf(x: seq<real>, nb: nat, top: int, i: nat)
    requires |x| == N * nb && (top == 15 || top == 31) && Ranged(x) && i < nb
    ensures Finite(x[N * i..N * (i + 1)]) && OffsetBlocks(x, nb, top)[i] == OffsetBlock(x[N * i..N * (i + 1)], top)
    decreases nb
  {
    hide OffsetBlock, OffsetBlocks, Finite, Ranged;
    var m := nb - 1;
    OffsetBlocksLast(x, nb, top);
    if i < m {
      OffsetBlockOf(x[..N * m], m, top, i);
      assert x[..N * m][N * i..N * (i + 1)] == x[N * i..N * (i + 1)];
      assert OffsetBlocks(x, nb, top)[..m][i] == OffsetBlocks(x, nb, top)[i];
    } else {
      assert x[N * i..N * (i + 1)] == x[N * i..];
    }
  }

  lemma EightBlocksLast(x: seq<real>, nb: nat)
    requires |x| == N * nb && nb > 0
    ensures var bs, m := EightBlocks(x, nb), N * (nb - 1);
      bs[..nb - 1] == EightBlocks(x[..m], nb - 1) && bs[nb - 1] == EightBlock(x[m..])
  {
    hide EightBlock;
  }

  lemma {:induction false} EightBlockOf(x: seq<real>, nb: nat, i: nat)
    requires |x| == N * nb && i < nb
    ensures EightBlocks(x, nb)[i] == EightBlock(x[N * i..N * (i + 1)])
    decreases nb
  {
    hide EightBlock, EightBlocks;
    var m := nb - 1;
    EightBlocksLast(x, nb);
    if i < m {
      EightBlockOf(x[..N * m], m, i);
      assert x[..N * m][N * i..N * (i + 1)] == x[N * i..N * (i + 1)];
      assert EightBlocks(x, nb)[..m][i] == EightBlocks(x, nb)[i];
    } else {
      assert x[N * i..N * (i + 1)] == x[N * i..];
    }
  }

  // ---------------------------------------------------------------- elements of rows

  lemma {:induction false} SymRowsAt(bs: seq<Block>, half: int, i: nat, j: nat)
    requires Blocks(bs) && i < |bs| && j < N
    ensures N * i + j < |SymRows(bs, half)| && SymRows(bs, half)[N * i + j] == SymRow(bs[i], half)[j]
    decreases |bs|
  {
    hide SymRow;
    if i < |bs| - 1 {
      SymRowsAt(bs[..|bs| - 1], half, i, j);
    }
  }

  lemma {:induction false} OffsetRowsAt(bs: seq<Block>, i: nat, j: nat)
    requires Blocks(bs) && i < |bs| && j < N
    ensures N * i + j < |OffsetRows(bs)| && OffsetRows(bs)[N * i + j] == OffsetRow(bs[i])[j]
    decreases |bs|
  {
    hide OffsetRow;
    if i < |bs| - 1 {
      OffsetRowsAt(bs[..|bs| - 1], i, j);
    }
  }

  lemma {:induction false} EightRowsAt(bs: seq<Quants>, i: nat, j: nat)
    requires EightBlocksOk(bs) && i < |bs| && j < N
    ensures N * i + j < |EightRows(bs)| && EightRows(bs)[N * i + j] == EightRow(bs[i])[j]
    decreases |bs|
  {
    hide EightRow;
    if i < |bs| - 1 {
      EightRowsAt(bs[..|bs| - 1], i, j);
    }
  }

  // ---------------------------------------------------------------- the loops

  /** The part of a row before block `i`, and with it. */
  lemma Prefixes(x: seq<real>, i: nat)
    requires N * (i + 1) <= |x|
    ensures x[..N * (i + 1)][..N * i] == x[..N * i] && x[..N * (i + 1)][N * i..] == x[N * i..N * (i + 1)]
  {
  }

  /** Writing a block behind the rows written so far extends them. */
  lemma RowWritten(y: seq<real>, y': seq<real>, done: seq<real>, block: seq<real>, at: nat)
    requires at + N <= |y| && |block| == N && y[..at] == done && y' == y[..at] + block + y[at + N..]
    ensures y'[..at + N] == done + block
  {
  }

  method QuantizeRowQ4_0(x: seq<real>, y: array<Block>)
    requires |x| == N * y.Length
    modifies y
    ensures y[..] == SymBlocks(x, y.Length, 8)
  {
    hide SymBlock;
    for i := 0 to y.Length
      invariant y[..i] == SymBlocks(x[..N * i], i, 8)
    {
      Prefixes(x, i);
      y[i] := QuantizeBlockQ4_0(x[N * i..N * (i + 1)]);
      assert y[..i + 1] == y[..i] + [y[i]];
    }
    assert x[..N * y.Length] == x;
  }

  method QuantizeRowQ4_1(x: seq<real>, y: array<Block>)
    requires |x| == N * y.Length && Ranged(x)
    modifies y
    ensures y[..] == OffsetBlocks(x, y.Length, 15)
  {
    hide OffsetBlock, Ranged, Finite;
    RangedPrefixes(x, y.Length);
    for i := 0 to y.Length
      invariant Ranged(x[..N * i]) && y[..i] == OffsetBlocks(x[..N * i], i, 15)
    {
      RangedSlice(x, N * i, N * (i + 1));
      Prefixes(x, i);
      y[i] := QuantizeBlockQ4_1(x[N * i..N * (i + 1)]);
      assert y[..i + 1] == y[..i] + [y[i]];
    }
    assert x[..N * y.Length] == x;
  }

  method QuantizeRowQ5_0(x: seq<real>, y: array<Block>)
    requires |x| == N * y.Length
    modifies y
    ensures y[..] == SymBlocks(x, y.Length, 16)
  {
    hide SymBlock;
    for i := 0 to y.Length
      invariant y[..i] == SymBlocks(x[..N * i], i, 16)
    {
      Prefixes(x, i);
      y[i] := QuantizeBlockQ5_0(x[N * i..N * (i + 1)]);
      assert y[..i + 1] == y[..i] + [y[i]];
    }
    assert x[..N * y.Length] == x;
  }

  method QuantizeRowQ5_1(x: seq<real>, y: array<Block>)
    requires |x| == N * y.Length && Ranged(x)
    modifies y
    ensures y[..] == OffsetBlocks(x, y.Length, 31)
  {
    hide OffsetBlock, Ranged, Finite;
    RangedPrefixes(x, y.Length);
    for i := 0 to y.Length
      invariant Ranged(x[..N * i]) && y[..i] == OffsetBlocks(x[..N * i], i, 31)
    {
      RangedSlice(x, N * i, N * (i + 1));
      Prefixes(x, i);
      y[i] := QuantizeBlockQ5_1(x[N * i..N * (i + 1)]);
      assert y[..i + 1] == y[..i] + [y[i]];
    }
    assert x[..N * y.Length] == x;
  }

  method QuantizeRowQ8_0(x: seq<real>, y: array<Quants>)
    requires |x| == N * y.Length
    modifies y
    ensures y[..] == EightBlocks(x, y.Length)
  {
    hide EightBlock;
    for i := 0 to y.Length
      invariant y[..i] == EightBlocks(x[..N * i], i)
    {
      Prefixes(x, i);
      y[i] := QuantizeBlockQ8_0(x[N * i..N * (i + 1)]);
      assert y[..i + 1] == y[..i] + [y[i]];
    }
    assert x[..N * y.Length] == x;
  }

  method DequantizeRowQ4_0(x: seq<Block>, y: array<real>)
    requires Blocks(x) && y.Length == N * |x| && (forall i :: 0 <= i < |x| ==> x[i].qh == 0)
    modifies y
    ensures y[..] == SymRows(x, 8)
  {
    hide SymRow;
    for i := 0 to |x|
      invariant y[..N * i] == SymRows(x[..i], 8)
    {
      ghost var before := y[..];
      DequantizeBlockQ4_0(x[i], y, N * i);
      RowWritten(before, y[..], SymRows(x[..i], 8), SymRow(x[i], 8), N * i);
      assert x[..i + 1][..i] == x[..i];
    }
    assert x[..|x|] == x;
  }

  method DequantizeRowQ4_1(x: seq<Block>, y: array<real>)
    requires Blocks(x) && y.Length == N * |x| && (forall i :: 0 <= i < |x| ==> x[i].qh == 0)
    modifies y
    ensures y[..] == OffsetRows(x)
  {
    hide OffsetRow;
    for i := 0 to |x|
      invariant y[..N * i] == OffsetRows(x[..i])
    {
      ghost var before := y[..];
      DequantizeBlockQ4_1(x[i], y, N * i);
      RowWritten(before, y[..], OffsetRows(x[..i]), OffsetRow(x[i]), N * i);
      assert x[..i + 1][..i] == x[..i];
    }
    assert x[..|x|] == x;
  }

  method DequantizeRowQ5_0(x: seq<Block>, y: array<real>)
    requires Blocks(x) && y.Length == N * |x|
    modifies y
    ensures y[..] == SymRows(x, 16)
  {
    hide SymRow;
    for i := 0 to |x|
      invariant y[..N * i] == SymRows(x[..i], 16)
    {
      ghost var before := y[..];
      DequantizeBlockQ5_0(x[i], y, N * i);
      RowWritten(before, y[..], SymRows(x[..i], 16), SymRow(x[i], 16), N * i);
      assert x[..i + 1][..i] == x[..i];
    }
    assert x[..|x|] == x;
  }

  method DequantizeRowQ5_1(x: seq<Block>, y: array<real>)
    requires Blocks(x) && y.Length == N * |x|
    modifies y
    ensures y[..] == OffsetRows(x)
  {
    hide OffsetRow;
    for i := 0 to |x|
      invariant y[..N * i] == OffsetRows(x[..i])
    {
      ghost var before := y[..];
      DequantizeBlockQ5_1(x[i], y, N * i);
      RowWritten(before, y[..], OffsetRows(x[..i]), OffsetRow(x[i]), N * i);
      assert x[..i + 1][..i] == x[..i];
    }
    assert x[..|x|] == x;
  }

  method DequantizeRowQ8_0(x: seq<Quants>, y: array<real>)
    requires EightBlocksOk(x) && y.Length == N * |x|
    modifies y
    ensures y[..] == EightRows(x)
  {
    hide EightRow;
    for i := 0 to |x|
      invariant y[..N * i] == EightRows(x[..i])
    {
      ghost var before := y[..];
      DequantizeBlockQ8_0(x[i], y, N * i);
      RowWritten(before, y[..], EightRows(x[..i]), EightRow(x[i]), N * i);
      assert x[..i + 1][..i] == x[..i];
    }
    assert x[..|x|] == x;
  }

  lemma RangedPrefixes(x: seq<real>, nb: nat)
    requires |x| == N * nb && Ranged(x)
    ensures forall i :: 0 <= i <= nb ==> Ranged(x[..N * i])
  {
  }
}
