/** The layer pipeline: how a graph is cut into one slice for each rank, and what a slice computes. */
module Mpi {
  import opened Wrappers

  /** `none` marks an operation that computes nothing. Node `i` of the graph is tensor `i`; the
      tensors from `n` on are leaves. */
  datatype Tensor = Tensor(none: bool, src: seq<Option<nat>>)

  type Content = seq<real>
  type Kernel = (nat, seq<Option<Content>>) -> Content

  datatype Plan = Plan(ts: seq<Tensor>, n: nat, inputs: seq<nat>, tokens: nat)

  /** Nodes are in order; `inputs[k]` is the input node of layer `k`, the first of them node 0. */
  ghost predicate PlanOk(p: Plan) {
    && 0 < p.n <= p.tokens < |p.ts| && |p.inputs| > 0 && p.inputs[0] == 0
    && (forall k, l :: 0 <= k < l < |p.inputs| ==> p.inputs[k] < p.inputs[l])
    && (forall k :: 0 <= k < |p.inputs| ==> p.inputs[k] < p.n)
    && (forall t :: 0 <= t < p.n ==> !p.ts[t].none && NodeOk(p, t))
  }

  ghost predicate NodeOk(p: Plan, t: nat)
    requires t < |p.ts|
  {
    |p.ts[t].src| >= 2 && forall j :: 0 <= j < |p.ts[t].src| && p.ts[t].src[j].Some? ==>
      p.ts[t].src[j].value < |p.ts| && (p.ts[t].src[j].value < t || p.ts[t].src[j].value >= p.n)
  }

  /** Last node that layer `k` may compute: the input of the next layer. */
  function LayerEnd(p: Plan, k: nat): nat
    requires PlanOk(p) && k < |p.inputs|
  {
    if k + 1 < |p.inputs| then p.inputs[k + 1] else p.n - 1
  }

  /** A layer reads earlier work only through its input, and that only as first or second source;
      only node 0 reads the tokens. */
  ghost predicate LayersOk(p: Plan)
    requires PlanOk(p)
  {
    && (forall k, t :: 0 <= k < |p.inputs| && p.inputs[k] < t <= LayerEnd(p, k) ==> ReadsLayer(p, k, t))
    && (forall t, j :: 0 < t < p.n && 0 <= j < |p.ts[t].src| ==> p.ts[t].src[j] != Some(p.tokens))
  }

  ghost predicate ReadsLayer(p: Plan, k: nat, t: nat)
    requires PlanOk(p) && k < |p.inputs| && t < |p.ts|
  {
    forall j :: 0 <= j < |p.ts[t].src| && p.ts[t].src[j].Some? && p.ts[t].src[j].value < p.n ==>
      p.inputs[k] <= p.ts[t].src[j].value && (p.ts[t].src[j].value == p.inputs[k] ==> j < 2)
  }

  // ---------------------------------------------------------------- slices

  function PerRank(layers: nat, size: nat): nat
    requires size > 0
  {
    (layers + (size - 1)) / size
  }

  /** Position in the pipeline: rank 0 comes last. */
  function Index(rank: nat, size: nat): nat
    requires rank < size
  {
    if rank > 0 then rank - 1 else size - 1
  }

  /** Node of the input of layer `k`, or -1. */
  function NodeIdx(p: Plan, k: nat): int {
    if k < |p.inputs| then p.inputs[k] else -1
  }

  function From(p: Plan, rank: nat, size: nat): int
    requires rank < size
  {
    NodeIdx(p, Index(rank, size) * PerRank(|p.inputs|, size))
  }

  function To(p: Plan, rank: nat, size: nat): int
    requires rank < size
  {
    var end := (Index(rank, size) + 1) * PerRank(|p.inputs|, size);
    if rank > 0 then NodeIdx(p, if end < |p.inputs| then end else |p.inputs|) + 1 else p.n
  }

  /** The layers do not run out before the last rank. */
  predicate Divisible(layers: nat, size: nat)
    requires size > 0
  {
    (size - 1) * PerRank(layers, size) < layers
  }

  lemma IndexLayers(k: nat, size: nat, per: nat, layers: nat)
    requires k < size && (size - 1) * per < layers
    ensures k * per < layers && (k + 1 < size ==> (k + 1) * per < layers)
  {
    assert k * per <= (size - 1) * per;
    if k + 1 < size {
      assert (k + 1) * per <= (size - 1) * per;
    }
  }

  lemma PerRankPositive(layers: nat, size: nat)
    requires size > 0 && layers > 0
    ensures PerRank(layers, size) > 0
  {
  }

  /** Every rank gets a slice exactly when the layers do not run out before the last rank. */
  lemma SlicesExistIff(p: Plan, size: nat)
    requires PlanOk(p) && size > 0
    ensures (forall r: nat :: r < size ==> 0 <= From(p, r, size) < To(p, r, size) <= p.n)
      <==> Divisible(|p.inputs|, size)
  {
    var per := PerRank(|p.inputs|, size);
    PerRankPositive(|p.inputs|, size);
    if Divisible(|p.inputs|, size) {
      forall r: nat | r < size
        ensures 0 <= From(p, r, size) < To(p, r, size) <= p.n
      {
        SliceBounds(p, r, size);
      }
    } else {
      assert From(p, 0, size) == -1;
    }
  }

  lemma SliceBounds(p: Plan, r: nat, size: nat)
    requires PlanOk(p) && r < size && Divisible(|p.inputs|, size)
    ensures var (k, per) := (Index(r, size), PerRank(|p.inputs|, size));
      && k * per < |p.inputs| && From(p, r, size) == p.inputs[k * per]
      && (r > 0 ==> (k + 1) * per < |p.inputs| && To(p, r, size) == p.inputs[(k + 1) * per] + 1)
      && 0 <= From(p, r, size) < To(p, r, size) <= p.n
      && (k == 0 <==> From(p, r, size) == 0)
  {
    var k, per := Index(r, size), PerRank(|p.inputs|, size);
    PerRankPositive(|p.inputs|, size);
    IndexLayers(k, size, per, |p.inputs|);
    assert (k + 1) * per == k * per + per;
    if k > 0 {
      assert k * per >= per;
      assert p.inputs[0] < p.inputs[k * per];
    }
  }

  lemma PerRankIs(layers: nat, size: nat, per: nat)
    requires size > 0 && layers > 0 && per > 0 && (per - 1) * size < layers <= per * size
    ensures PerRank(layers, size) == per
  {
    var q := PerRank(layers, size);
    var o := (layers + (size - 1)) % size;
    assert layers + (size - 1) == q * size + o;
    assert (per - 1) * size == per * size - size && (per + 1) * size == per * size + size;
    if q < per {
      Monotone(q, per - 1, size);
    } else if q > per {
      Monotone(per + 1, q, size);
    }
  }

  lemma Monotone(a: nat, b: nat, c: nat)
    requires a <= b
    ensures a * c <= b * c
  {
  }

  /** With `per` the least number of layers for each rank that is enough, rank 1 starts with layer 0, each
      next rank `per` layers later, and rank 0 comes last. A slice runs from the input of its first layer to
      that of the next slice's first layer, but to the last node for rank 0; an input that does not exist
      counts as node -1. */
  lemma SliceRange(p: Plan, r: nat, size: nat, per: nat, first: nat, next: nat)
    requires PlanOk(p) && r < size && per > 0 && (per - 1) * size < |p.inputs| <= per * size
    requires first == (if r > 0 then r - 1 else size - 1) * per && next == first + per
    ensures From(p, r, size) == if first < |p.inputs| then p.inputs[first] else -1
    ensures To(p, r, size) == if r == 0 then p.n else if next < |p.inputs| then p.inputs[next] + 1 else 0
    ensures Divisible(|p.inputs|, size) <==> (size - 1) * per < |p.inputs|
  {
    PerRankIs(|p.inputs|, size, per);
    hide PerRank;
    var k := Index(r, size);
    assert (k + 1) * per == k * per + per;
  }

  /** Layers of one node each: the input of a layer reads the one before. */
  function Chain(layers: nat): Plan
    requires layers > 0
  {
    Plan(seq(layers + 1, t requires 0 <= t <= layers => ChainTensor(layers, t)), layers, Upto(layers), layers)
  }

  function ChainTensor(layers: nat, t: nat): Tensor {
    if t == layers then Tensor(true, [])
    else if t == 0 then Tensor(false, [None, Some(layers)])
    else Tensor(false, [Some(t - 1), None])
  }

  lemma ChainOk(layers: nat)
    requires layers > 0
    ensures PlanOk(Chain(layers)) && LayersOk(Chain(layers))
  {
    var p := Chain(layers);
    assert forall t :: 0 <= t < layers ==> NodeOk(p, t);
    forall k, t | 0 <= k < layers && p.inputs[k] < t <= LayerEnd(p, k)
      ensures ReadsLayer(p, k, t)
    {
      assert t == k + 1;
    }
  }

  /** With five layers four ranks take two each, and run out: rank 0 finds no input, and rank 3 no
      output, which the source takes for node 0 since it adds one to the missing index before it
      tests it. */
  lemma LayersRunOut(p: Plan)
    requires p == Chain(5)
    ensures PlanOk(p) && LayersOk(p) && !Divisible(|p.inputs|, 4)
    ensures From(p, 0, 4) == -1
    ensures From(p, 3, 4) == 4 && To(p, 3, 4) == 0
  {
    ChainOk(5);
    hide LayersOk, PlanOk;
    assert PerRank(|p.inputs|, 4) == 2;
    assert Index(0, 4) == 3 && Index(3, 4) == 2;
  }

  /** The rank that gets this one's output. */
  function Next(r: nat, size: nat): (n: nat)
    requires r < size
    ensures n == if r + 1 == size then 0 else r + 1
  {
    (r + 1) % size
  }

  lemma IndexOfNext(r: nat, size: nat)
    requires 0 < r < size
    ensures Index(Next(r, size), size) == Index(r, size) + 1
  {
  }

  /** Slices meet: the last node of a slice is the input of the next one. */
  lemma SlicesMeet(p: Plan, r: nat, size: nat)
    requires PlanOk(p) && 0 < r < size && Divisible(|p.inputs|, size)
    ensures From(p, Next(r, size), size) == To(p, r, size) - 1
  {
    SliceBounds(p, r, size);
    SliceBounds(p, Next(r, size), size);
    IndexOfNext(r, size);
  }

  /** Rank `r` computes node `t`: past the input of its slice, or the very first node. */
  predicate Computes(p: Plan, r: nat, size: nat, t: nat)
    requires r < size
  {
    From(p, r, size) < t < To(p, r, size) || (t == 0 && From(p, r, size) == 0)
  }

  /** The rank at position `k` of the pipeline. */
  function At(k: nat, size: nat): (r: nat)
    requires k < size
    ensures r < size && Index(r, size) == k
  {
    if k + 1 == size then 0 else k + 1
  }

  lemma {:induction false} LaterSlices(p: Plan, k: nat, l: nat, size: nat)
    requires PlanOk(p) && k < l < size && Divisible(|p.inputs|, size)
    ensures From(p, At(l, size), size) >= To(p, At(k, size), size) - 1
    decreases l - k
  {
    hide PlanOk, From, To, Divisible;
    SlicesMeet(p, At(k, size), size);
    if k + 1 < l {
      LaterSlices(p, k + 1, l, size);
      SliceBounds(p, At(k + 1, size), size);
    }
  }

  /** The slices tile the graph: every node is computed by exactly one rank. */
  lemma EachNodeOnce(p: Plan, size: nat, t: nat) returns (r: nat)
    requires PlanOk(p) && size > 0 && Divisible(|p.inputs|, size) && t < p.n
    ensures r < size && forall q: nat :: q < size ==> (Computes(p, q, size, t) <==> q == r)
  {
    var k := LastStart(p, size, t, size - 1);
    r := At(k, size);
    forall q: nat | q < size && q != r
      ensures !Computes(p, q, size, t)
    {
      var l := Index(q, size);
      assert At(l, size) == q;
      SliceBounds(p, r, size);
      SliceBounds(p, q, size);
      if l < k {
        LaterSlices(p, l, k, size);
      } else {
        LaterSlices(p, k, l, size);
      }
    }
  }

  lemma {:induction false} LastStart(p: Plan, size: nat, t: nat, k: nat) returns (j: nat)
    requires PlanOk(p) && k < size && Divisible(|p.inputs|, size) && t < To(p, At(k, size), size)
    ensures j < size && Computes(p, At(j, size), size, t)
  {
    hide PlanOk, From, To, Divisible;
    SliceBounds(p, At(k, size), size);
    if Computes(p, At(k, size), size, t) {
      j := k;
    } else {
      SlicesMeet(p, At(k - 1, size), size);
      j := LastStart(p, size, t, k - 1);
    }
  }

  // ---------------------------------------------------------------- evaluation

  function Args(src: seq<Option<nat>>, data: seq<Content>): seq<Option<Content>>
    requires forall j :: 0 <= j < |src| && src[j].Some? ==> src[j].value < |data|
  {
    seq(|src|, j requires 0 <= j < |src| => if src[j].Some? then Some(data[src[j].value]) else None)
  }

  ghost predicate SourcesIn(ts: seq<Tensor>, n: nat) {
    forall t, j :: 0 <= t < |ts| && t < n && 0 <= j < |ts[t].src| && ts[t].src[j].Some? ==> ts[t].src[j].value < |ts|
  }

  function Exec(ts: seq<Tensor>, n: nat, kernel: Kernel, data: seq<Content>, t: nat): (r: seq<Content>)
    requires n <= |ts| == |data| && SourcesIn(ts, n) && t < n
    ensures |r| == |data|
  {
    if ts[t].none then data else data[t := kernel(t, Args(ts[t].src, data))]
  }

  /** Run the first `i` nodes of the list in order. */
  function RunTo(ts: seq<Tensor>, n: nat, kernel: Kernel, data: seq<Content>, nodes: seq<nat>,
                 i: nat): (r: seq<Content>)
    requires n <= |ts| == |data| && SourcesIn(ts, n) && i <= |nodes| && forall k :: 0 <= k < |nodes| ==> nodes[k] < n
    ensures |r| == |data|
  {
    if i == 0 then data else Exec(ts, n, kernel, RunTo(ts, n, kernel, data, nodes, i - 1), nodes[i - 1])
  }

  function Upto(n: nat): (r: seq<nat>)
    ensures |r| == n && forall i :: 0 <= i < n ==> r[i] == i
  {
    seq(n, i requires 0 <= i < n => i)
  }

  /** All nodes, one after the other, on one machine. */
  function Sequential(p: Plan, kernel: Kernel, data: seq<Content>): (v: seq<Content>)
    requires PlanOk(p) && |data| == |p.ts|
    ensures |v| == |data|
  {
    RunTo(p.ts, p.n, kernel, data, Upto(p.n), p.n)
  }

  /** Each node's value is its kernel applied to the values of its sources; leaves keep theirs. */
  ghost predicate Solves(p: Plan, kernel: Kernel, data: seq<Content>, v: seq<Content>, n: nat)
    requires PlanOk(p) && |data| == |p.ts| == |v| && n <= p.n
  {
    && (forall t :: 0 <= t < n ==> v[t] == kernel(t, Args(p.ts[t].src, v)))
    && (forall t :: n <= t < |v| ==> v[t] == data[t])
  }

  lemma {:induction false} SequentialSolves(p: Plan, kernel: Kernel, data: seq<Content>, n: nat)
    requires PlanOk(p) && |data| == |p.ts| && n <= p.n
    ensures Solves(p, kernel, data, RunTo(p.ts, p.n, kernel, data, Upto(p.n), n), n)
  {
    if n > 0 {
      SequentialSolves(p, kernel, data, n - 1);
      var v0, v := RunTo(p.ts, p.n, kernel, data, Upto(p.n), n - 1), RunTo(p.ts, p.n, kernel, data, Upto(p.n), n);
      forall t | 0 <= t < n
        ensures v[t] == kernel(t, Args(p.ts[t].src, v))
      {
        assert NodeOk(p, t);
        assert Args(p.ts[t].src, v) == Args(p.ts[t].src, v0);
      }
    }
  }

  // ---------------------------------------------------------------- rewriting

  /** Sources in the first two places that name the slice's input are moved to node 0. */
  function Rewired(src: seq<Option<nat>>, from: nat): (r: seq<Option<nat>>)
    ensures |r| == |src|
  {
    seq(|src|, j requires 0 <= j < |src| => if j < 2 && src[j] == Some(from) then Some(0) else src[j])
  }

  function Slice(p: Plan, from: nat, to: nat): (ts: seq<Tensor>)
    requires PlanOk(p) && from < to <= p.n
    ensures |ts| == |p.ts|
  {
    seq(|p.ts|, t requires 0 <= t < |p.ts| =>
      p.ts[t].(src := if from <= t < to then Rewired(p.ts[t].src, from) else p.ts[t].src, none := p.ts[t].none
        || (t == 0 && from != 0)))
  }

  /** Node 0, then the nodes behind the slice's input. */
  function SliceNodes(from: nat, to: nat): (r: seq<nat>)
    requires from < to
    ensures |r| == to - from
  {
    seq(to - from, i requires 0 <= i < to - from => if i == 0 then 0 else from + i)
  }

  lemma SliceSources(p: Plan, from: nat, to: nat)
    requires PlanOk(p) && from < to <= p.n
    ensures SourcesIn(Slice(p, from, to), p.n)
  {
    forall t, j | 0 <= t < p.n && 0 <= j < |p.ts[t].src| && Slice(p, from, to)[t].src[j].Some?
      ensures Slice(p, from, to)[t].src[j].value < |p.ts|
    {
      assert NodeOk(p, t);
    }
  }

  /** `data` has the value of the slice's input in node 0, and the right leaves. */
  ghost predicate Prepared(p: Plan, v: seq<Content>, data: seq<Content>, from: nat)
    requires PlanOk(p) && |v| == |data| == |p.ts| && from < p.n
  {
    && (from != 0 ==> data[0] == v[from])
    && (forall t :: p.n <= t < |data| && (t == p.tokens ==> from == 0) ==> data[t] == v[t])
  }

  /** After `i` nodes of the slice, they hold their values. */
  ghost predicate Computed(p: Plan, v: seq<Content>, data: seq<Content>, from: nat, i: nat)
    requires PlanOk(p) && |v| == |data| == |p.ts| && from + i <= p.n
  {
    && (i > 0 ==> data[0] == v[from])
    && (forall t :: from < t < from + i ==> data[t] == v[t])
  }

  lemma SliceReads(p: Plan, from: nat, k: nat, t: nat)
    requires PlanOk(p) && LayersOk(p) && k < |p.inputs| && from == p.inputs[k] && from < t < p.n
    ensures forall j :: 0 <= j < |p.ts[t].src| && p.ts[t].src[j].Some? && p.ts[t].src[j].value < p.n ==>
      from <= p.ts[t].src[j].value < t && (p.ts[t].src[j].value == from ==> j < 2)
  {
    var l := LayerOf(p, k, t);
    assert ReadsLayer(p, l, t);
    assert NodeOk(p, t);
    assert p.inputs[k] <= p.inputs[l];
  }

  lemma {:induction false} LayerOf(p: Plan, k: nat, t: nat) returns (l: nat)
    requires PlanOk(p) && k < |p.inputs| && p.inputs[k] < t < p.n
    ensures k <= l < |p.inputs| && p.inputs[l] < t <= LayerEnd(p, l)
    decreases |p.inputs| - k
  {
    if t <= LayerEnd(p, k) {
      l := k;
    } else {
      l := LayerOf(p, k + 1, t);
    }
  }

  /** Sources of a node of the slice hold their values, so it computes its own. */
  lemma SliceArgs(p: Plan, v: seq<Content>, r: seq<Content>, k: nat, to: nat, t: nat)
    requires PlanOk(p) && LayersOk(p) && |v| == |r| == |p.ts|
    requires k < |p.inputs| && p.inputs[k] < t < to <= p.n && Computed(p, v, r, p.inputs[k], t - p.inputs[k])
    requires forall u :: p.n <= u < |r| && u != p.tokens ==> r[u] == v[u]
    requires SourcesIn(Slice(p, p.inputs[k], to), p.n)
    ensures Args(Slice(p, p.inputs[k], to)[t].src, r) == Args(p.ts[t].src, v)
  {
    var from := p.inputs[k];
    var src, src' := p.ts[t].src, Slice(p, from, to)[t].src;
    SliceReads(p, from, k, t);
    assert NodeOk(p, t);
    forall j | 0 <= j < |src| && src[j].Some?
      ensures r[src'[j].value] == v[src[j].value]
    {
      assert src[j] != Some(p.tokens);
    }
  }

  lemma FirstArgs(p: Plan, v: seq<Content>, data: seq<Content>, to: nat)
    requires PlanOk(p) && |v| == |data| == |p.ts| && 0 < to <= p.n && Prepared(p, v, data, 0)
    requires SourcesIn(Slice(p, 0, to), p.n)
    ensures Args(Slice(p, 0, to)[0].src, data) == Args(p.ts[0].src, v)
  {
    var src, src' := p.ts[0].src, Slice(p, 0, to)[0].src;
    assert NodeOk(p, 0);
    forall j | 0 <= j < |src| && src[j].Some?
      ensures src'[j] == src[j] && data[src[j].value] == v[src[j].value]
    {
    }
  }

  lemma SliceOps(p: Plan, from: nat, to: nat, t: nat)
    requires PlanOk(p) && from < to <= p.n && t < p.n
    ensures Slice(p, from, to)[t].none <==> t == 0 && from != 0
  {
  }

  lemma FirstStep(p: Plan, kernel: Kernel, data0: seq<Content>, v: seq<Content>, data: seq<Content>, from: nat, to: nat)
    requires PlanOk(p) && |data0| == |v| == |data| == |p.ts| && Solves(p, kernel, data0, v, p.n)
    requires from < to <= p.n && Prepared(p, v, data, from) && SourcesIn(Slice(p, from, to), p.n)
    ensures var r := Exec(Slice(p, from, to), p.n, kernel, data, 0);
      Computed(p, v, r, from, 1) && forall t :: p.n <= t < |data| ==> r[t] == data[t]
  {
    SliceOps(p, from, to, 0);
    if from == 0 {
      FirstArgs(p, v, data, to);
    }
    hide Slice, SourcesIn, Args;
  }

  lemma LaterStep(p: Plan, kernel: Kernel, data0: seq<Content>, v: seq<Content>, r: seq<Content>, k: nat, to: nat,
                  t: nat)
    requires PlanOk(p) && LayersOk(p) && |data0| == |v| == |r| == |p.ts| && Solves(p, kernel, data0, v, p.n)
    requires k < |p.inputs| && p.inputs[k] < t < to <= p.n && Computed(p, v, r, p.inputs[k], t - p.inputs[k])
    requires forall u :: p.n <= u < |r| && u != p.tokens ==> r[u] == v[u]
    requires SourcesIn(Slice(p, p.inputs[k], to), p.n)
    ensures var r' := Exec(Slice(p, p.inputs[k], to), p.n, kernel, r, t);
      Computed(p, v, r', p.inputs[k], t - p.inputs[k] + 1) && forall u :: p.n <= u < |r| ==> r'[u] == r[u]
  {
    SliceOps(p, p.inputs[k], to, t);
    SliceArgs(p, v, r, k, to, t);
    hide Slice, SourcesIn, Args, LayersOk;
  }

  lemma {:induction false} SliceRuns(p: Plan, kernel: Kernel, data0: seq<Content>, v: seq<Content>,
                                     data: seq<Content>, k: nat, to: nat, i: nat)
    requires PlanOk(p) && LayersOk(p) && |data0| == |v| == |data| == |p.ts| && Solves(p, kernel, data0, v, p.n)
    requires k < |p.inputs| && p.inputs[k] < to <= p.n && 0 < i <= to - p.inputs[k] && Prepared(p, v, data, p.inputs[k])
    requires SourcesIn(Slice(p, p.inputs[k], to), p.n)
    ensures var from := p.inputs[k];
      var r := RunTo(Slice(p, from, to), p.n, kernel, data, SliceNodes(from, to), i);
      Computed(p, v, r, from, i) && forall t :: p.n <= t < |data| ==> r[t] == data[t]
  {
    hide LayersOk, SourcesIn, Args, Slice, Exec, Computed;
    var from := p.inputs[k];
    var ts, nodes := Slice(p, from, to), SliceNodes(from, to);
    if i == 1 {
      assert RunTo(ts, p.n, kernel, data, nodes, 0) == data;
      FirstStep(p, kernel, data0, v, data, from, to);
    } else {
      SliceRuns(p, kernel, data0, v, data, k, to, i - 1);
      LaterStep(p, kernel, data0, v, RunTo(ts, p.n, kernel, data, nodes, i - 1), k, to, from + i - 1);
    }
  }

  // ---------------------------------------------------------------- the rewriting, in place

  lemma PastFirst(p: Plan, rank: nat, size: nat)
    requires PlanOk(p) && rank < size && From(p, rank, size) >= 0
    ensures Index(rank, size) == 0 <==> From(p, rank, size) == 0
  {
    var k, per := Index(rank, size), PerRank(|p.inputs|, size);
    PerRankPositive(|p.inputs|, size);
    ProductPositive(k, per);
    hide PerRank, Index;
    assert k > 0 ==> p.inputs[0] < p.inputs[k * per];
  }

  lemma ProductPositive(k: nat, per: nat)
    requires per > 0
    ensures k * per == 0 <==> k == 0
  {
    assert k > 0 ==> k * per >= per;
  }

  function Attached(p: Plan, from: nat, to: nat, t: nat): Tensor
    requires t < |p.ts|
  {
    if from <= t < to then p.ts[t].(src := Rewired(p.ts[t].src, from)) else p.ts[t]
  }

  class Graph {
    const nodes: array<nat>
    const ts: array<Tensor>
    var nNodes: int

    constructor (p: Plan)
      requires PlanOk(p)
      ensures nodes[..] == Upto(p.n) && ts[..] == p.ts && nNodes == p.n && fresh(nodes) && fresh(ts)
    {
      nodes := new nat[p.n](i => i);
      ts := new Tensor[|p.ts|](i requires 0 <= i < |p.ts| => p.ts[i]);
      nNodes := p.n;
    }

    /** Point the nodes of the slice that read its input at node 0. */
    method Attach(p: Plan, from: nat, to: nat)
      requires PlanOk(p) && from < to <= p.n && nodes[..] == Upto(p.n) && ts[..] == p.ts
      modifies ts
      ensures ts.Length == |p.ts|
      ensures forall t :: 0 <= t < ts.Length ==> ts[t] == Attached(p, from, to, t)
    {
      for i := from to to
        invariant forall t :: 0 <= t < ts.Length ==> ts[t] == Attached(p, from, i, t)
      {
        var t := nodes[i];
        assert NodeOk(p, t);
        ghost var src := ts[t].src;
        if ts[t].src[0] == Some(nodes[from]) {
          ts[t] := ts[t].(src := ts[t].src[0 := Some(0)]);
        }
        if ts[t].src[1] == Some(nodes[from]) {
          ts[t] := ts[t].(src := ts[t].src[1 := Some(0)]);
        }
        assert ts[t].src == Rewired(src, from);
      }
    }

    /** Move the nodes of the slice to the front; node 0 stays. */
    method Shift(p: Plan, from: nat, to: nat)
      requires from < to <= p.n && nodes[..] == Upto(p.n)
      modifies nodes
      ensures nodes[..to - from] == SliceNodes(from, to)
    {
      for i := 1 to to - from
        invariant forall k :: 0 <= k < i ==> nodes[k] == if k == 0 then 0 else from + k
        invariant forall k :: i <= k < nodes.Length ==> nodes[k] == k
      {
        nodes[i] := nodes[from + i];
      }
    }

    /** Keep only the rank's slice. When the graph lacks a layer input the slice may be empty. */
    method CutSlice(p: Plan, rank: nat, size: nat) returns (ok: bool)
      requires PlanOk(p) && rank < size && nodes[..] == Upto(p.n) && ts[..] == p.ts && nNodes == p.n
      modifies this, nodes, ts
      ensures ok <==> From(p, rank, size) >= 0 && To(p, rank, size) >= 0
      ensures !ok ==> nodes[..] == old(nodes[..]) && ts[..] == old(ts[..]) && nNodes == old(nNodes)
      ensures ok ==> nNodes == To(p, rank, size) - From(p, rank, size)
      ensures ok && nNodes > 0 ==> nNodes <= nodes.Length && To(p, rank, size) <= p.n
      ensures ok && nNodes > 0 ==> ts[..] == Slice(p, From(p, rank, size), To(p, rank, size))
      ensures ok && nNodes > 0 ==> nodes[..nNodes] == SliceNodes(From(p, rank, size), To(p, rank, size))
    {
      hide PerRank, Index;
      var from, to := From(p, rank, size), To(p, rank, size);
      if from < 0 || to < 0 {
        return false;
      }
      SliceEnd(p, rank, size);
      if from < to {
        Attach(p, from, to);
        Shift(p, from, to);
      }
      PastFirst(p, rank, size);
      if Index(rank, size) != 0 {
        ts[nodes[0]] := ts[nodes[0]].(none := true);
      }
      nNodes := to - from;
      ok := true;
    }
  }

  lemma SliceEnd(p: Plan, rank: nat, size: nat)
    requires PlanOk(p) && rank < size
    ensures From(p, rank, size) < p.n && To(p, rank, size) <= p.n
  {
    hide PerRank, Index;
  }
}
