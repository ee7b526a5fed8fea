/** Running the splits, with their inputs copied first, computes what the original graph computes. */
module SchedMeaning {
  import opened Wrappers
  import opened Sched

  type Content = seq<int>

  /** What tensors and operations mean: reading and writing a view within its source's content, and
      what a node computes from its arguments. */
  datatype Ops = Ops(get: (nat, Content) -> Content, put: (nat, Content, Content) -> Content,
                     kernel: (nat, seq<Content>) -> Content)

  /** Contents of the tensors that own memory. */
  type Memory = seq<Content>

  function Read(g: Graph, ops: Ops, m: Memory, t: nat): Content
    requires GraphOk(g) && |m| == |g| && t < |g|
  {
    if g[t].viewSrc.Some? then ops.get(t, m[Root(g, t)]) else m[t]
  }

  function Write(g: Graph, ops: Ops, m: Memory, n: nat, v: Content): (m': Memory)
    requires GraphOk(g) && |m| == |g| && n < |g|
    ensures |m'| == |g|
  {
    if g[n].viewSrc.Some? then m[Root(g, n) := ops.put(n, m[Root(g, n)], v)] else m[n := v]
  }

  function ReadAll(g: Graph, ops: Ops, m: Memory, ts: seq<nat>): (r: seq<Content>)
    requires GraphOk(g) && |m| == |g| && forall j :: 0 <= j < |ts| ==> ts[j] < |g|
    ensures |r| == |ts|
  {
    seq(|ts|, j requires 0 <= j < |ts| => Read(g, ops, m, ts[j]))
  }

  // ---------------------------------------------------------------- one memory

  /** A view op computes nothing; any other node reads its arguments and writes its result. */
  function RunNode(g: Graph, ops: Ops, m: Memory, n: nat): (m': Memory)
    requires GraphOk(g) && |m| == |g| && n < |g|
    ensures |m'| == |g|
  {
    if g[n].viewOp then m else Write(g, ops, m, n, ops.kernel(n, ReadAll(g, ops, m, g[n].src)))
  }

  /** The values computed, node by node. */
  function Computed(g: Graph, ops: Ops, m: Memory, n: nat): Content
    requires GraphOk(g) && |m| == |g| && n < |g|
  {
    if g[n].viewOp then Read(g, ops, m, n) else ops.kernel(n, ReadAll(g, ops, m, g[n].src))
  }

  function RunFrom(g: Graph, ops: Ops, m: Memory, nodes: seq<nat>, i: nat, end: nat): (r: (Memory, seq<Content>))
    requires GraphOk(g) && NodesOk(g, nodes) && |m| == |g| && i <= end <= |nodes|
    ensures |r.0| == |g|
    decreases if i <= end then end - i else 0
  {
    if i == end then (m, [])
    else
      var (m', values) := RunFrom(g, ops, RunNode(g, ops, m, nodes[i]), nodes, i + 1, end);
      (m', [Computed(g, ops, m, nodes[i])] + values)
  }

  // ---------------------------------------------------------------- split by split

  /** The memory of all backends: the original tensors, and the copies. */
  datatype Store = Store(m: Memory, copies: seq<Content>)

  ghost predicate StoreOk(g: Graph, c: Copies, st: Store) {
    |st.m| == |g| && |st.copies| == |c.of|
  }

  function ReadAny(g: Graph, ops: Ops, st: Store, t: nat): Content
    requires GraphOk(g) && |st.m| == |g| && t < |g| + |st.copies|
  {
    if t < |g| then Read(g, ops, st.m, t) else st.copies[t - |g|]
  }

  /** Bring the split's inputs to its backend, in order. */
  function CopyInputs(g: Graph, ops: Ops, c: Copies, st: Store, inputs: seq<nat>, b: nat): (st': Store)
    requires GraphOk(g) && CopiesOk(g, c) && StoreOk(g, c, st)
    requires forall k :: 0 <= k < |inputs| ==> inputs[k] < |g| && (inputs[k], b) in c.index
    ensures StoreOk(g, c, st') && st'.m == st.m
    decreases |inputs|
  {
    if inputs == [] then st
    else
      var s := inputs[0];
      assert IndexAt(g, c, (s, b));
      CopyInputs(g, ops, c, st.(copies := st.copies[c.index[(s, b)] - |g| := Read(g, ops, st.m, s)]), inputs[1..], b)
  }

  ghost predicate ArgumentsExist(g: Graph, c: Copies, ts: seq<nat>) {
    forall j :: 0 <= j < |ts| ==> ts[j] < |g| + |c.of|
  }

  function ReadAllAny(g: Graph, ops: Ops, c: Copies, st: Store, ts: seq<nat>): (r: seq<Content>)
    requires GraphOk(g) && StoreOk(g, c, st) && ArgumentsExist(g, c, ts)
    ensures |r| == |ts|
  {
    seq(|ts|, j requires 0 <= j < |ts| => ReadAny(g, ops, st, ts[j]))
  }

  function RunSplitNode(g: Graph, ops: Ops, c: Copies, st: Store, n: nat, src: seq<nat>): (st': Store)
    requires GraphOk(g) && StoreOk(g, c, st) && n < |g| && ArgumentsExist(g, c, src)
    ensures StoreOk(g, c, st') && st'.copies == st.copies
  {
    if g[n].viewOp then st
    else st.(m := Write(g, ops, st.m, n, ops.kernel(n, ReadAllAny(g, ops, c, st, src))))
  }

  function SplitComputed(g: Graph, ops: Ops, c: Copies, st: Store, n: nat, src: seq<nat>): Content
    requires GraphOk(g) && StoreOk(g, c, st) && n < |g| && ArgumentsExist(g, c, src)
  {
    if g[n].viewOp then Read(g, ops, st.m, n) else ops.kernel(n, ReadAllAny(g, ops, c, st, src))
  }

  ghost predicate SourcesExist(g: Graph, c: Copies, src: seq<seq<nat>>) {
    |src| == |g| && forall n :: 0 <= n < |g| && g[n].isNode ==> ArgumentsExist(g, c, src[n])
  }

  function RunSplitFrom(g: Graph, ops: Ops, c: Copies, src: seq<seq<nat>>, st: Store, nodes: seq<nat>, i: nat,
                        end: nat): (r: (Store, seq<Content>))
    requires GraphOk(g) && NodesOk(g, nodes) && StoreOk(g, c, st) && SourcesExist(g, c, src) && i <= end <= |nodes|
    ensures StoreOk(g, c, r.0)
    decreases if i <= end then end - i else 0
  {
    if i == end then (st, [])
    else
      var n := nodes[i];
      var (st', values) := RunSplitFrom(g, ops, c, src, RunSplitNode(g, ops, c, st, n, src[n]), nodes, i + 1, end);
      (st', [SplitComputed(g, ops, c, st, n, src[n])] + values)
  }

  /** Copy the inputs of each split, then run its nodes. */
  function RunSplits(g: Graph, ops: Ops, a: Assignment, c: Copies, src: seq<seq<nat>>, st: Store, nodes: seq<nat>,
                     splits: seq<Split>): (r: (Store, seq<Content>))
    requires GraphOk(g) && NodesOk(g, nodes) && CopiesOk(g, c) && StoreOk(g, c, st) && SourcesExist(g, c, src)
      && |a| == |g|
    requires forall k :: 0 <= k < |splits| ==> SplitOk(g, nodes, a, c, splits[k])
    ensures StoreOk(g, c, r.0)
    decreases |splits|
  {
    if splits == [] then (st, [])
    else
      var sp := splits[0];
      SplitInputs(g, nodes, a, c, sp);
      var st1 := CopyInputs(g, ops, c, st, sp.inputs, sp.talloc);
      var (st2, first) := RunSplitFrom(g, ops, c, src, st1, nodes, sp.start, sp.end);
      var (st3, rest) := RunSplits(g, ops, a, c, src, st2, nodes, splits[1..]);
      (st3, first + rest)
  }

  // ---------------------------------------------------------------- copies are current

  /** The copies of the inputs hold what the inputs hold. */
  ghost predicate Fresh(g: Graph, ops: Ops, c: Copies, st: Store, inputs: seq<nat>, b: nat)
    requires GraphOk(g) && StoreOk(g, c, st)
  {
    forall s :: s in inputs ==> CopyCurrent(g, ops, c, st, s, b)
  }

  ghost predicate CopyCurrent(g: Graph, ops: Ops, c: Copies, st: Store, s: nat, b: nat)
    requires GraphOk(g) && StoreOk(g, c, st)
  {
    s < |g| && (s, b) in c.index && |g| <= c.index[(s, b)] < |g| + |c.of|
      && st.copies[c.index[(s, b)] - |g|] == Read(g, ops, st.m, s)
  }

  lemma {:induction false} CopyingKeeps(g: Graph, ops: Ops, c: Copies, st: Store, inputs: seq<nat>, b: nat, s: nat)
    requires GraphOk(g) && CopiesOk(g, c) && StoreOk(g, c, st) && CopyCurrent(g, ops, c, st, s, b)
    requires forall k :: 0 <= k < |inputs| ==> inputs[k] < |g| && (inputs[k], b) in c.index
    ensures CopyCurrent(g, ops, c, CopyInputs(g, ops, c, st, inputs, b), s, b)
    decreases |inputs|
  {
    if inputs != [] {
      var u := inputs[0];
      assert IndexAt(g, c, (u, b)) && IndexAt(g, c, (s, b));
      CopyingKeeps(g, ops, c, st.(copies := st.copies[c.index[(u, b)] - |g| := Read(g, ops, st.m, u)]), inputs[1..],
        b, s);
    }
  }

  lemma {:induction false} CopyingRefreshes(g: Graph, ops: Ops, c: Copies, st: Store, inputs: seq<nat>, b: nat)
    requires GraphOk(g) && CopiesOk(g, c) && StoreOk(g, c, st)
    requires forall k :: 0 <= k < |inputs| ==> inputs[k] < |g| && (inputs[k], b) in c.index
    ensures Fresh(g, ops, c, CopyInputs(g, ops, c, st, inputs, b), inputs, b)
    decreases |inputs|
  {
    if inputs != [] {
      var u := inputs[0];
      assert IndexAt(g, c, (u, b));
      var st1 := st.(copies := st.copies[c.index[(u, b)] - |g| := Read(g, ops, st.m, u)]);
      CopyingRefreshes(g, ops, c, st1, inputs[1..], b);
      CopyingKeeps(g, ops, c, st1, inputs[1..], b, u);
    }
  }

  // ---------------------------------------------------------------- one split

  /** Tensors are assigned like the tensor whose memory they lie in. */
  ghost predicate RootsAgree(g: Graph, a: Assignment)
    requires |a| == |g|
  {
    forall t :: 0 <= t < |g| && Root(g, t) < |g| ==> a[t] == a[Root(g, t)]
  }

  /** An argument is read with the value of the original source. */
  lemma ArgumentCurrent(g: Graph, ops: Ops, nodes: seq<nat>, a: Assignment, c: Copies, st: Store, sp: Split, n: nat,
                        src: seq<nat>)
    requires GraphOk(g) && NodesOk(g, nodes) && |a| == |g| && StoreOk(g, c, st) && ArgumentsExist(g, c, src)
    requires n < |g| && !g[n].viewOp && a[n] == Some(sp.talloc) && Rewired(g, a, c, n, src) && InputsListed(g, a, sp, n)
    requires Fresh(g, ops, c, st, sp.inputs, sp.talloc)
    ensures ReadAllAny(g, ops, c, st, src) == ReadAll(g, ops, st.m, g[n].src)
  {
    forall j | 0 <= j < |src|
      ensures ReadAny(g, ops, st, src[j]) == Read(g, ops, st.m, g[n].src[j])
    {
      var s := g[n].src[j];
      assert ReadsFrom(a, c, s, sp.talloc, src[j]);
      if a[s] != Some(sp.talloc) {
        assert CopyCurrent(g, ops, c, st, s, sp.talloc);
      }
    }
  }

  /** A node of the split writes no memory of another backend, so the copies stay current. */
  lemma StaysFresh(g: Graph, ops: Ops, nodes: seq<nat>, a: Assignment, c: Copies, st: Store, sp: Split, n: nat,
                   src: seq<nat>)
    requires GraphOk(g) && NodesOk(g, nodes) && |a| == |g| && StoreOk(g, c, st) && ArgumentsExist(g, c, src)
      && RootsAgree(g, a)
    requires n < |g| && (!g[n].viewOp ==> a[n] == Some(sp.talloc)) && forall s :: s in sp.inputs ==>
      s < |a| && a[s] != Some(sp.talloc)
    requires Fresh(g, ops, c, st, sp.inputs, sp.talloc)
    ensures Fresh(g, ops, c, RunSplitNode(g, ops, c, st, n, src), sp.inputs, sp.talloc)
  {
    var st' := RunSplitNode(g, ops, c, st, n, src);
    forall s | s in sp.inputs
      ensures CopyCurrent(g, ops, c, st', s, sp.talloc)
    {
      assert CopyCurrent(g, ops, c, st, s, sp.talloc);
      assert Root(g, s) < |g| && Root(g, n) < |g|;
      if !g[n].viewOp {
        assert Root(g, s) != Root(g, n);
      }
    }
  }

  lemma {:induction false} SplitRuns(g: Graph, ops: Ops, nodes: seq<nat>, a: Assignment, c: Copies,
                                     src: seq<seq<nat>>, st: Store, sp: Split, i: nat)
    requires GraphOk(g) && NodesOk(g, nodes) && |a| == |g| && StoreOk(g, c, st) && SourcesExist(g, c, src)
      && RootsAgree(g, a)
    requires SplitOk(g, nodes, a, c, sp) && sp.start <= i <= sp.end && Fresh(g, ops, c, st, sp.inputs, sp.talloc)
    requires forall n :: 0 <= n < |g| && g[n].isNode ==> Rewired(g, a, c, n, src[n])
    ensures RunSplitFrom(g, ops, c, src, st, nodes, i, sp.end).0.m == RunFrom(g, ops, st.m, nodes, i, sp.end).0
    ensures RunSplitFrom(g, ops, c, src, st, nodes, i, sp.end).1 == RunFrom(g, ops, st.m, nodes, i, sp.end).1
    decreases sp.end - i
  {
    if i < sp.end {
      hide Rewired, Fresh, NodesOk, Write, ReadAll, ReadAllAny, SourcesExist;
      var n := nodes[i];
      NodeInGraph(g, nodes, i);
      NodeSources(g, c, src, n);
      if !g[n].viewOp {
        assert InputsListed(g, a, sp, n);
        ArgumentCurrent(g, ops, nodes, a, c, st, sp, n, src[n]);
      }
      InputsForeign(g, nodes, a, c, sp);
      StaysFresh(g, ops, nodes, a, c, st, sp, n, src[n]);
      SplitRuns(g, ops, nodes, a, c, src, RunSplitNode(g, ops, c, st, n, src[n]), sp, i + 1);
    }
  }

  lemma NodeSources(g: Graph, c: Copies, src: seq<seq<nat>>, n: nat)
    requires SourcesExist(g, c, src) && n < |g| && g[n].isNode
    ensures ArgumentsExist(g, c, src[n])
  {
  }

  lemma InputsForeign(g: Graph, nodes: seq<nat>, a: Assignment, c: Copies, sp: Split)
    requires GraphOk(g) && NodesOk(g, nodes) && |a| == |g| && SplitOk(g, nodes, a, c, sp)
    ensures forall s :: s in sp.inputs ==> s < |a| && a[s] != Some(sp.talloc)
  {
    forall s | s in sp.inputs
      ensures s < |a| && a[s] != Some(sp.talloc)
    {
      assert ForeignInput(g, nodes, a, sp, s);
    }
  }

  // ---------------------------------------------------------------- all splits

  lemma {:induction false} RunFromJoins(g: Graph, ops: Ops, m: Memory, nodes: seq<nat>, i: nat, mid: nat, end: nat)
    requires GraphOk(g) && NodesOk(g, nodes) && |m| == |g| && i <= mid <= end <= |nodes|
    ensures RunFrom(g, ops, m, nodes, i, end).0
      == RunFrom(g, ops, RunFrom(g, ops, m, nodes, i, mid).0, nodes, mid, end).0
    ensures RunFrom(g, ops, m, nodes, i, end).1
         == RunFrom(g, ops, m, nodes, i, mid).1
           + RunFrom(g, ops, RunFrom(g, ops, m, nodes, i, mid).0, nodes, mid, end).1
    decreases mid - i
  {
    hide RunNode, Computed, GraphOk, NodesOk;
    if i < mid {
      NodeOfGraph(g, nodes, i);
      var first, m1 := Computed(g, ops, m, nodes[i]), RunNode(g, ops, m, nodes[i]);
      RunFromJoins(g, ops, m1, nodes, i + 1, mid, end);
      var (m2, a) := RunFrom(g, ops, m1, nodes, i + 1, mid);
      var b := RunFrom(g, ops, m2, nodes, mid, end).1;
      assert [first] + (a + b) == ([first] + a) + b;
    }
  }

  lemma NodeOfGraph(g: Graph, nodes: seq<nat>, i: nat)
    requires NodesOk(g, nodes) && i < |nodes|
    ensures nodes[i] < |g|
  {
  }

  /** The splits from `k` on, chained without gaps. */
  ghost predicate Chained(nodes: seq<nat>, splits: seq<Split>, from: nat) {
    if splits == [] then from == |nodes|
    else
      splits[0].start == from && splits[0].start <= splits[0].end <= |nodes|
      && Chained(nodes, splits[1..], splits[0].end)
  }

  lemma {:induction false} SplitsRun(g: Graph, ops: Ops, nodes: seq<nat>, a: Assignment, c: Copies,
                                     src: seq<seq<nat>>, st: Store, splits: seq<Split>, from: nat)
    requires GraphOk(g) && NodesOk(g, nodes) && |a| == |g| && CopiesOk(g, c) && StoreOk(g, c, st)
      && SourcesExist(g, c, src) && RootsAgree(g, a)
    requires (forall k :: 0 <= k < |splits| ==> SplitOk(g, nodes, a, c, splits[k])) && Chained(nodes, splits, from)
      && from <= |nodes|
    requires forall n :: 0 <= n < |g| && g[n].isNode ==> Rewired(g, a, c, n, src[n])
    ensures RunSplits(g, ops, a, c, src, st, nodes, splits).0.m == RunFrom(g, ops, st.m, nodes, from, |nodes|).0
    ensures RunSplits(g, ops, a, c, src, st, nodes, splits).1 == RunFrom(g, ops, st.m, nodes, from, |nodes|).1
    decreases |splits|
  {
    hide Rewired, Fresh, NodesOk, CopiesOk, GraphOk, SplitOk, SourcesExist;
    if splits != [] {
      var sp := splits[0];
      SplitInputs(g, nodes, a, c, sp);
      CopyingRefreshes(g, ops, c, st, sp.inputs, sp.talloc);
      var st1 := CopyInputs(g, ops, c, st, sp.inputs, sp.talloc);
      SplitRuns(g, ops, nodes, a, c, src, st1, sp, sp.start);
      var st2 := RunSplitFrom(g, ops, c, src, st1, nodes, sp.start, sp.end).0;
      SplitsRun(g, ops, nodes, a, c, src, st2, splits[1..], sp.end);
      RunFromJoins(g, ops, st.m, nodes, sp.start, sp.end, |nodes|);
    }
  }

  lemma SplitInputs(g: Graph, nodes: seq<nat>, a: Assignment, c: Copies, sp: Split)
    requires GraphOk(g) && NodesOk(g, nodes) && |a| == |g| && SplitOk(g, nodes, a, c, sp)
    ensures sp.start <= sp.end <= |nodes|
    ensures forall k :: 0 <= k < |sp.inputs| ==> sp.inputs[k] < |g| && (sp.inputs[k], sp.talloc) in c.index
  {
    forall k | 0 <= k < |sp.inputs|
      ensures sp.inputs[k] < |g|
    {
      assert ForeignInput(g, nodes, a, sp, sp.inputs[k]);
    }
  }

  lemma {:induction false} TileChains(nodes: seq<nat>, splits: seq<Split>, k: nat)
    requires Tile(nodes, splits) && k < |splits| && forall i :: 0 <= i < |splits| ==>
      splits[i].start <= splits[i].end <= |nodes|
    ensures Chained(nodes, splits[k..], splits[k].start)
    decreases |splits| - k
  {
    assert splits[k..][1..] == splits[k + 1..];
    if k + 1 < |splits| {
      TileChains(nodes, splits, k + 1);
    }
  }

  lemma RewiredExist(g: Graph, a: Assignment, c: Copies, src: seq<seq<nat>>)
    requires GraphOk(g) && |a| == |g| == |src| && CopiesOk(g, c)
    requires forall n :: 0 <= n < |g| && g[n].isNode ==> Rewired(g, a, c, n, src[n])
    ensures SourcesExist(g, c, src)
  {
    forall n, j | 0 <= n < |g| && g[n].isNode && 0 <= j < |src[n]|
      ensures src[n][j] < |g| + |c.of|
    {
      assert Rewired(g, a, c, n, src[n]);
      if !g[n].viewOp {
        var s := g[n].src[j];
        assert ReadsFrom(a, c, s, a[n].value, src[n][j]);
        if a[s] != a[n] {
          assert IndexAt(g, c, (s, a[n].value));
        }
      }
    }
  }

  /** Splitting preserves meaning: copying each split's inputs and running its nodes, split after
      split, computes the same values, and leaves the same contents, as the original graph run in
      order on one memory. */
  lemma SplittingPreservesMeaning(g: Graph, ops: Ops, nodes: seq<nat>, afterTwo: Assignment, a: Assignment, c: Copies,
                                  src: seq<seq<nat>>, splits: seq<Split>, st: Store)
    requires GraphOk(g) && NodesOk(g, nodes) && Assigned(g, afterTwo) && AllNodesAssigned(g, afterTwo)
      && Fills(afterTwo, a) && ViewsOk(g, a)
    requires Scheduled(g, nodes, a, c, src, splits) && StoreOk(g, c, st)
    ensures SourcesExist(g, c, src)
    ensures RunSplits(g, ops, a, c, src, st, nodes, splits).0.m == RunFrom(g, ops, st.m, nodes, 0, |nodes|).0
    ensures RunSplits(g, ops, a, c, src, st, nodes, splits).1 == RunFrom(g, ops, st.m, nodes, 0, |nodes|).1
  {
    AllRootsAgree(g, afterTwo, a);
    RewiredExist(g, a, c, src);
    SplitBounds(g, nodes, a, c, splits);
    TileChains(nodes, splits, 0);
    assert splits[0..] == splits;
    SplitsRun(g, ops, nodes, a, c, src, st, splits, 0);
  }

  lemma SplitBounds(g: Graph, nodes: seq<nat>, a: Assignment, c: Copies, splits: seq<Split>)
    requires GraphOk(g) && NodesOk(g, nodes) && |a| == |g| && forall k :: 0 <= k < |splits| ==>
      SplitOk(g, nodes, a, c, splits[k])
    ensures forall k :: 0 <= k < |splits| ==> splits[k].start <= splits[k].end <= |nodes|
  {
  }

  lemma AllRootsAgree(g: Graph, afterTwo: Assignment, a: Assignment)
    requires GraphOk(g) && Assigned(g, afterTwo) && AllNodesAssigned(g, afterTwo) && Fills(afterTwo, a) && ViewsOk(g, a)
    ensures RootsAgree(g, a)
  {
    forall t | 0 <= t < |g|
      ensures a[t] == a[Root(g, t)]
    {
      ViewsFollowRoots(g, afterTwo, a, t);
    }
  }

  /** Everything a split copies is there before it starts: the input's memory belongs to a leaf or to
      a node of an earlier split. */
  lemma InputsProducedEarlier(g: Graph, nodes: seq<nat>, a: Assignment, c: Copies, sp: Split, s: nat, i: nat)
    requires GraphOk(g) && NodesOk(g, nodes) && |a| == |g| && RootsAgree(g, a) && SplitOk(g, nodes, a, c, sp)
      && s in sp.inputs
    requires i < |nodes| && s < |g| && nodes[i] == Root(g, s)
    ensures i < sp.start
  {
    assert ForeignInput(g, nodes, a, sp, s);
    var k :| sp.start <= k < sp.end && !g[nodes[k]].viewOp && s in g[nodes[k]].src;
    SourceEarlier(g, nodes[k], s);
    assert nodes[i] < nodes[k];
    assert i < k;
    assert !g[nodes[i]].viewOp;
  }
}
