/** Real arithmetic shared by the numeric parts. `Product` names a product, so that a proof can hide it. */
module Reals {
  function Abs(r: real): real {
    if r < 0.0 then -r else r
  }

  function Product(a: real, b: real): real {
    a * b
  }

  /** Sum of products of the first `n` elements of a row with those of a vector. */
  function RowDot(row: seq<real>, y: seq<real>, n: nat): real
    requires n <= |row| && n <= |y|
  {
    if n == 0 then 0.0 else RowDot(row, y, n - 1) + Product(row[n - 1], y[n - 1])
  }

  lemma {:induction false} RowDotPrefix(a: seq<real>, c: seq<real>, b: seq<real>, d: seq<real>, n: nat)
    requires n <= |a| && n <= |c|
    ensures RowDot(a + b, c + d, n) == RowDot(a, c, n)
  {
    if n > 0 {
      RowDotPrefix(a, c, b, d, n - 1);
    }
  }

  /** The dot product of rows joined is the sum of the dot products. */
  lemma {:induction false} RowDotJoins(a: seq<real>, c: seq<real>, b: seq<real>, d: seq<real>, n: nat)
    requires |a| == |c| && n <= |b| && n <= |d|
    ensures RowDot(a + b, c + d, |a| + n) == RowDot(a, c, |a|) + RowDot(b, d, n)
  {
    if n == 0 {
      RowDotPrefix(a, c, b, d, |a|);
    } else {
      RowDotJoins(a, c, b, d, n - 1);
    }
  }
}
