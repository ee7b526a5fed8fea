/** The multi-backend scheduler: assigning nodes to backends and cutting the graph into splits. */
module Sched {
  import opened Wrappers

  const MAX_SPLITS: nat := 256
  const MAX_SPLIT_INPUTS: nat := 16

  /** `backend` is the backend of the buffer the tensor is allocated in, if any; `viewOp` marks
      VIEW, RESHAPE, PERMUTE and TRANSPOSE. */
  datatype Tensor = Tensor(isNode: bool, viewOp: bool, src: seq<nat>, viewSrc: Option<nat>, nbytes: nat,
                           backend: Option<nat>)

  type Graph = seq<Tensor>

  /** Backend (and so allocator) of each tensor. Backends are numbered by priority. */
  type Assignment = seq<Option<nat>>

  datatype Split = Split(talloc: nat, start: nat, end: nat, inputs: seq<nat>)

  /** Sources come earlier; view sources are earlier and own their memory; view ops are views. */
  ghost predicate GraphOk(g: Graph) {
    && (forall t, j :: 0 <= t < |g| && 0 <= j < |g[t].src| ==> g[t].src[j] < t)
    && (forall t :: 0 <= t < |g| && !g[t].isNode ==> g[t].src == [])
    && (forall t :: 0 <= t < |g| && g[t].viewSrc.Some? ==>
      g[t].viewSrc.value < t && g[g[t].viewSrc.value].viewSrc.None?)
    && (forall t :: 0 <= t < |g| && g[t].viewOp ==> g[t].viewSrc.Some?)
  }

  /** The nodes in graph order, all of them. */
  ghost predicate NodesOk(g: Graph, nodes: seq<nat>) {
    && (forall i :: 0 <= i < |nodes| ==> nodes[i] < |g| && g[nodes[i]].isNode)
    && (forall i, j :: 0 <= i < j < |nodes| ==> nodes[i] < nodes[j])
    && (forall t :: 0 <= t < |g| && g[t].isNode ==> t in nodes)
  }

  /** The leaves, all of them. */
  ghost predicate LeafsOk(g: Graph, leafs: seq<nat>) {
    && (forall i :: 0 <= i < |leafs| ==> leafs[i] < |g| && !g[leafs[i]].isNode)
    && (forall i, j :: 0 <= i < j < |leafs| ==> leafs[i] != leafs[j])
    && (forall t :: 0 <= t < |g| && !g[t].isNode ==> t in leafs)
  }

  /** The tensor that owns the memory `t` lies in. */
  function Root(g: Graph, t: nat): nat
    requires t < |g|
  {
    if g[t].viewSrc.Some? then g[t].viewSrc.value else t
  }

  // ---------------------------------------------------------------- assignment

  /** The tensor's own backend, else that of its view source. */
  function OwnBackend(g: Graph, t: nat): Option<nat>
    requires GraphOk(g) && t < |g|
  {
    if g[t].backend.Some? then g[t].backend
    else if g[t].viewSrc.Some? then g[g[t].viewSrc.value].backend
    else None
  }

  /** Scan sources from `j` on: a source with a backend of higher priority (lower number) that is
      not smaller than the best so far becomes the best. */
  function BestOf(g: Graph, given: Assignment, t: nat, j: nat, best: Option<nat>, size: nat): (r: Option<nat>)
    requires GraphOk(g) && |given| == |g| && t < |g| && j <= |g[t].src| && (best.None? ==> size == 0)
    ensures r.Some? <==> best.Some? || exists k :: j <= k < |g[t].src| && given[g[t].src[k]].Some?
    ensures r.Some? ==> r == best || exists k :: j <= k < |g[t].src| && given[g[t].src[k]] == r
    decreases |g[t].src| - j
  {
    if j == |g[t].src| then best
    else
      var s := g[t].src[j];
      if given[s].Some? && (best.None? || given[s].value < best.value) && g[s].nbytes >= size then
        BestOf(g, given, t, j + 1, given[s], g[s].nbytes)
      else
        BestOf(g, given, t, j + 1, best, size)
  }

  /** The source is no match for a best so far: no higher priority, or a smaller size. */
  ghost predicate Loses(g: Graph, given: Assignment, s: nat, best: nat, size: nat)
    requires |given| == |g| && s < |g|
  {
    given[s].Some? ==> given[s].value >= best || g[s].nbytes < size
  }

  /** The same for one that comes earlier, and so wins at equal priority unless it is smaller. */
  ghost predicate LosesEarly(g: Graph, given: Assignment, s: nat, best: nat, size: nat)
    requires |given| == |g| && s < |g|
  {
    given[s].Some? ==> given[s].value > best || g[s].nbytes < size
  }

  /** Among the sources from `j` on the `k`th wins, with backend `r`. */
  ghost predicate Wins(g: Graph, given: Assignment, t: nat, j: nat, k: nat, r: nat)
    requires GraphOk(g) && |given| == |g| && t < |g| && j <= |g[t].src|
  {
    && j <= k < |g[t].src| && given[g[t].src[k]] == Some(r)
    && (forall i :: k < i < |g[t].src| ==> Loses(g, given, g[t].src[i], r, g[g[t].src[k]].nbytes))
    && (forall i :: j <= i < k ==> LosesEarly(g, given, g[t].src[i], r, g[g[t].src[k]].nbytes))
  }

  /** Either the best so far stays, all further sources losing against it, or one of these wins,
      with a higher priority and at least its size. */
  lemma {:induction false} BestOfWins(g: Graph, given: Assignment, t: nat, j: nat, best: Option<nat>, size: nat)
      returns (k: Option<nat>)
    requires GraphOk(g) && |given| == |g| && t < |g| && j <= |g[t].src| && (best.None? ==> size == 0)
    requires BestOf(g, given, t, j, best, size).Some?
    ensures k.None? ==> best.Some? && BestOf(g, given, t, j, best, size) == best
    ensures k.None? ==> forall i :: j <= i < |g[t].src| ==> Loses(g, given, g[t].src[i], best.value, size)
    ensures k.Some? ==> Wins(g, given, t, j, k.value, BestOf(g, given, t, j, best, size).value)
    ensures k.Some? && best.Some? ==> BestOf(g, given, t, j, best, size).value < best.value
    ensures k.Some? ==> g[g[t].src[k.value]].nbytes >= size
    decreases |g[t].src| - j
  {
    if j == |g[t].src| {
      k := None;
    } else {
      var s := g[t].src[j];
      if given[s].Some? && (best.None? || given[s].value < best.value) && g[s].nbytes >= size {
        k := BestOfWins(g, given, t, j + 1, given[s], g[s].nbytes);
        if k.None? {
          k := Some(j);
        } else {
          WinsFrom(g, given, t, j, k.value, BestOf(g, given, t, j, best, size).value);
        }
      } else {
        k := BestOfWins(g, given, t, j + 1, best, size);
        if k.Some? {
          WinsFrom(g, given, t, j, k.value, BestOf(g, given, t, j, best, size).value);
        } else {
          assert Loses(g, given, s, best.value, size);
        }
      }
    }
  }

  lemma WinsFrom(g: Graph, given: Assignment, t: nat, j: nat, k: nat, r: nat)
    requires GraphOk(g) && |given| == |g| && t < |g| && j < |g[t].src| && Wins(g, given, t, j + 1, k, r)
    requires LosesEarly(g, given, g[t].src[j], r, g[g[t].src[k]].nbytes)
    ensures Wins(g, given, t, j, k, r)
  {
    hide Loses, LosesEarly;
  }

  /** The source a node follows: none after it has a higher priority and at least its size, none
      before it at least its priority and its size. */
  lemma BestWins(g: Graph, given: Assignment, t: nat) returns (k: nat)
    requires GraphOk(g) && |given| == |g| && t < |g| && Best(g, given, t).Some?
    ensures Wins(g, given, t, 0, k, Best(g, given, t).value)
  {
    var o := BestOfWins(g, given, t, 0, None, 0);
    k := o.value;
  }

  function Best(g: Graph, given: Assignment, t: nat): (r: Option<nat>)
    requires GraphOk(g) && |given| == |g| && t < |g|
  {
    BestOf(g, given, t, 0, None, 0)
  }

  lemma {:induction false} BestOfSame(g: Graph, a: Assignment, b: Assignment, t: nat, j: nat, best: Option<nat>,
                                      size: nat)
    requires GraphOk(g) && |a| == |b| == |g| && t < |g| && j <= |g[t].src| && (best.None? ==> size == 0)
    requires forall u :: 0 <= u < t ==> a[u] == b[u]
    ensures BestOf(g, a, t, j, best, size) == BestOf(g, b, t, j, best, size)
    decreases |g[t].src| - j
  {
    if j < |g[t].src| {
      var s := g[t].src[j];
      if a[s].Some? {
        BestOfSame(g, a, b, t, j + 1, a[s], g[s].nbytes);
      }
      BestOfSame(g, a, b, t, j + 1, best, size);
    }
  }

  function Backends(g: Graph): (a: Assignment)
    ensures |a| == |g| && forall t :: 0 <= t < |g| ==> a[t] == g[t].backend
  {
    seq(|g|, t requires 0 <= t < |g| => g[t].backend)
  }

  /** Where a node must go because of the buffers around it. */
  function FromCur(g: Graph, n: nat): Option<nat>
    requires GraphOk(g) && n < |g|
  {
    if OwnBackend(g, n).Some? then OwnBackend(g, n) else Best(g, Backends(g), n)
  }

  // ---------------------------------------------------------------- the same, as rules

  /** `s'` has a higher priority than `s` and is not smaller. */
  ghost predicate Beats(g: Graph, given: Assignment, s: nat, s': nat)
    requires |given| == |g| && s < |g| && s' < |g|
  {
    given[s].Some? && given[s'].Some? && given[s'].value < given[s].value && g[s'].nbytes >= g[s].nbytes
  }

  /** After source `k` of `t`, and before source `m`, none beats it. */
  ghost predicate NoneBeats(g: Graph, given: Assignment, t: nat, k: nat, m: nat)
    requires GraphOk(g) && |given| == |g| && t < |g| && k < |g[t].src| && m <= |g[t].src|
  {
    forall i :: k < i < m ==> !Beats(g, given, g[t].src[k], g[t].src[i])
  }

  /** Sources of `t`, each the first after the one before that beats it; nothing beats the last. */
  ghost predicate Ladder(g: Graph, given: Assignment, t: nat, ks: seq<nat>)
    requires GraphOk(g) && |given| == |g| && t < |g|
  {
    && |ks| > 0
    && (forall i :: 0 <= i < |ks| ==> ks[i] < |g[t].src| && given[g[t].src[ks[i]]].Some?)
    && (forall i :: 0 < i < |ks| ==> ks[i - 1] < ks[i] && NoneBeats(g, given, t, ks[i - 1], ks[i])
                                     && Beats(g, given, g[t].src[ks[i - 1]], g[t].src[ks[i]]))
    && NoneBeats(g, given, t, ks[|ks| - 1], |g[t].src|)
  }

  /** The ladder starts at the first source that has a backend and ends at one whose backend is `r`. */
  ghost predicate LeadsTo(g: Graph, given: Assignment, t: nat, ks: seq<nat>, r: Option<nat>)
    requires GraphOk(g) && |given| == |g| && t < |g|
  {
    && Ladder(g, given, t, ks)
    && (forall i :: 0 <= i < ks[0] ==> given[g[t].src[i]].None?)
    && r == given[g[t].src[ks[|ks| - 1]]]
  }

  /** `r` is what following the sources of `t` gives: nothing when none has a backend, else the backend at
      the end of the ladder. */
  ghost predicate Follows(g: Graph, given: Assignment, t: nat, r: Option<nat>)
    requires GraphOk(g) && |given| == |g| && t < |g|
  {
    if forall i :: 0 <= i < |g[t].src| ==> given[g[t].src[i]].None? then r.None?
    else exists ks: seq<nat> :: LeadsTo(g, given, t, ks, r)
  }

  lemma LadderExtends(g: Graph, given: Assignment, t: nat, k: nat, rest: seq<nat>)
    requires GraphOk(g) && |given| == |g| && t < |g| && Ladder(g, given, t, rest)
    requires |rest| > 0 && k < rest[0] < |g[t].src|
    requires NoneBeats(g, given, t, k, rest[0]) && Beats(g, given, g[t].src[k], g[t].src[rest[0]])
    ensures Ladder(g, given, t, [k] + rest)
  {
    hide NoneBeats;
    var ks := [k] + rest;
    forall i | 0 < i < |ks|
      ensures ks[i - 1] < ks[i] && NoneBeats(g, given, t, ks[i - 1], ks[i])
      ensures Beats(g, given, g[t].src[ks[i - 1]], g[t].src[ks[i]])
    {
      assert i > 1 ==> ks[i] == rest[i - 1] && ks[i - 1] == rest[i - 2];
    }
  }

  lemma OneRung(g: Graph, given: Assignment, t: nat, k: nat)
    requires GraphOk(g) && |given| == |g| && t < |g| && k < |g[t].src| && given[g[t].src[k]].Some?
    requires NoneBeats(g, given, t, k, |g[t].src|)
    ensures Ladder(g, given, t, [k])
  {
  }

  /** One more source: the best so far is kept unless the source beats it. */
  lemma ScanStep(g: Graph, given: Assignment, t: nat, k: nat, j: nat)
    requires GraphOk(g) && |given| == |g| && t < |g| && k < j <= |g[t].src| && given[g[t].src[k]].Some?
    ensures var s := g[t].src[k];
      BestOf(g, given, t, j, given[s], g[s].nbytes)
      == if j == |g[t].src| then given[s]
         else if Beats(g, given, s, g[t].src[j])
           then BestOf(g, given, t, j + 1, given[g[t].src[j]], g[g[t].src[j]].nbytes)
         else BestOf(g, given, t, j + 1, given[s], g[s].nbytes)
    ensures j < |g[t].src| && Beats(g, given, g[t].src[k], g[t].src[j]) ==> given[g[t].src[j]].Some?
  {
  }

  lemma {:induction false} BestClimbs(g: Graph, given: Assignment, t: nat, k: nat, j: nat) returns (ks: seq<nat>)
    requires GraphOk(g) && |given| == |g| && t < |g| && k < j <= |g[t].src| && given[g[t].src[k]].Some?
    requires NoneBeats(g, given, t, k, j)
    ensures Ladder(g, given, t, ks) && |ks| > 0 && ks[0] == k && ks[|ks| - 1] < |g[t].src|
    ensures BestOf(g, given, t, j, given[g[t].src[k]], g[g[t].src[k]].nbytes) == given[g[t].src[ks[|ks| - 1]]]
    decreases |g[t].src| - j
  {
    hide Ladder, BestOf, Beats;
    ScanStep(g, given, t, k, j);
    if j == |g[t].src| {
      ks := [k];
      OneRung(g, given, t, k);
    } else if Beats(g, given, g[t].src[k], g[t].src[j]) {
      var rest := BestClimbs(g, given, t, j, j + 1);
      LadderExtends(g, given, t, k, rest);
      ks := [k] + rest;
    } else {
      ks := BestClimbs(g, given, t, k, j + 1);
    }
  }

  lemma {:induction false} BestFollowsFrom(g: Graph, given: Assignment, t: nat, j: nat)
    requires GraphOk(g) && |given| == |g| && t < |g| && j <= |g[t].src|
    requires forall i :: 0 <= i < j ==> given[g[t].src[i]].None?
    ensures Follows(g, given, t, BestOf(g, given, t, j, None, 0))
    decreases |g[t].src| - j
  {
    if j < |g[t].src| {
      if given[g[t].src[j]].Some? {
        var ks := BestClimbs(g, given, t, j, j + 1);
        assert LeadsTo(g, given, t, ks, BestOf(g, given, t, j, None, 0));
      } else {
        BestFollowsFrom(g, given, t, j + 1);
      }
    }
  }

  /** The scan over the sources follows them. */
  lemma BestFollows(g: Graph, given: Assignment, t: nat)
    requires GraphOk(g) && |given| == |g| && t < |g|
    ensures Follows(g, given, t, Best(g, given, t))
  {
    BestFollowsFrom(g, given, t, 0);
  }

  /** Two ladders from the same source are the same as far as both go. */
  lemma {:induction false} LaddersAgree(g: Graph, given: Assignment, t: nat, ks: seq<nat>, ls: seq<nat>, i: nat)
    requires GraphOk(g) && |given| == |g| && t < |g| && Ladder(g, given, t, ks) && Ladder(g, given, t, ls)
    requires ks[0] == ls[0] && i < |ks| && i < |ls|
    ensures ks[i] == ls[i]
  {
    hide GraphOk, Beats;
    if i > 0 {
      LaddersAgree(g, given, t, ks, ls, i - 1);
    }
  }

  lemma LaddersEnd(g: Graph, given: Assignment, t: nat, ks: seq<nat>, ls: seq<nat>)
    requires GraphOk(g) && |given| == |g| && t < |g| && Ladder(g, given, t, ks) && Ladder(g, given, t, ls)
    requires ks[0] == ls[0] && |ks| <= |ls|
    ensures ks[|ks| - 1] == ls[|ls| - 1]
  {
    hide GraphOk, NoneBeats, Beats;
    LaddersAgree(g, given, t, ks, ls, |ks| - 1);
    if |ks| < |ls| {
      RungBelow(g, given, t, ls, |ks| - 1);
    }
  }

  lemma RungBelow(g: Graph, given: Assignment, t: nat, ks: seq<nat>, i: nat)
    requires GraphOk(g) && |given| == |g| && t < |g| && Ladder(g, given, t, ks) && i + 1 < |ks|
    ensures ks[i] < |g[t].src| && !NoneBeats(g, given, t, ks[i], |g[t].src|)
  {
    var k, m := ks[i], ks[i + 1];
    hide GraphOk, Beats;
    assert Beats(g, given, g[t].src[k], g[t].src[m]);
  }

  lemma LeadsToOne(g: Graph, given: Assignment, t: nat, ks: seq<nat>, ls: seq<nat>, r: Option<nat>, r': Option<nat>)
    requires GraphOk(g) && |given| == |g| && t < |g| && LeadsTo(g, given, t, ks, r) && LeadsTo(g, given, t, ls, r')
    ensures r == r'
  {
    hide GraphOk, NoneBeats, Beats;
    assert ks[0] == ls[0];
    if |ks| <= |ls| {
      LaddersEnd(g, given, t, ks, ls);
    } else {
      LaddersEnd(g, given, t, ls, ks);
    }
  }

  /** There is only one answer. */
  lemma FollowsOne(g: Graph, given: Assignment, t: nat, r: Option<nat>, r': Option<nat>)
    requires GraphOk(g) && |given| == |g| && t < |g| && Follows(g, given, t, r) && Follows(g, given, t, r')
    ensures r == r'
  {
    hide LeadsTo;
    if !(forall i :: 0 <= i < |g[t].src| ==> given[g[t].src[i]].None?) {
      var ks: seq<nat> :| LeadsTo(g, given, t, ks, r);
      var ls: seq<nat> :| LeadsTo(g, given, t, ls, r');
      LeadsToOne(g, given, t, ks, ls, r, r');
    }
  }

  /** Where the buffers put `t`: a tensor in a buffer is on that buffer's backend, a view is where its source
      lies, and a node with neither follows those of its sources that lie in buffers. */
  ghost predicate ByBuffers(g: Graph, t: nat, r: Option<nat>)
    requires GraphOk(g) && t < |g|
  {
    if g[t].backend.Some? then r == g[t].backend
    else if g[t].viewSrc.Some? && g[g[t].viewSrc.value].backend.Some? then r == g[g[t].viewSrc.value].backend
    else if g[t].isNode then Follows(g, Backends(g), t, r)
    else r.None?
  }

  /** Where `t` is after the second pass: where the buffers put it, or else where its sources are. */
  ghost predicate ByRules(g: Graph, a: Assignment, t: nat)
    requires GraphOk(g) && |a| == |g| && t < |g|
  {
    if ByBuffers(g, t, None) then (if g[t].isNode then Follows(g, a, t, a[t]) else a[t].None?)
    else ByBuffers(g, t, a[t])
  }

  lemma BuffersDecide(g: Graph, t: nat)
    requires GraphOk(g) && t < |g|
    ensures ByBuffers(g, t, if g[t].isNode then FromCur(g, t) else OwnBackend(g, t))
  {
    hide Follows, Best;
    BestFollows(g, Backends(g), t);
  }

  lemma BuffersDecideOne(g: Graph, t: nat, r: Option<nat>, r': Option<nat>)
    requires GraphOk(g) && t < |g| && ByBuffers(g, t, r) && ByBuffers(g, t, r')
    ensures r == r'
  {
    hide Follows;
    if Follows(g, Backends(g), t, r) && Follows(g, Backends(g), t, r') {
      FollowsOne(g, Backends(g), t, r, r');
    }
  }

  lemma AssignedByRules(g: Graph, a: Assignment, t: nat)
    requires GraphOk(g) && Assigned(g, a) && t < |g|
    ensures ByRules(g, a, t)
  {
    hide Follows, Best, ByBuffers, FromCur, OwnBackend;
    BuffersDecide(g, t);
    BestFollows(g, a, t);
    if ByBuffers(g, t, None) {
      BuffersDecideOne(g, t, None, if g[t].isNode then FromCur(g, t) else OwnBackend(g, t));
    }
  }

  /** The assignment after the second pass, as an equation. */
  ghost predicate Assigned(g: Graph, a: Assignment)
    requires GraphOk(g)
  {
    && |a| == |g|
    && (forall t :: 0 <= t < |g| && !g[t].isNode ==> a[t] == OwnBackend(g, t))
    && (forall n :: 0 <= n < |g| && g[n].isNode ==>
      a[n] == if FromCur(g, n).Some? then FromCur(g, n) else Best(g, a, n))
  }

  /** The tensor or one of its transitive sources lies in a buffer, or is a view of one that does. */
  ghost predicate Anchored(g: Graph, t: nat)
    requires GraphOk(g) && t < |g|
    decreases t
  {
    OwnBackend(g, t).Some? || exists j :: 0 <= j < |g[t].src| && Anchored(g, g[t].src[j])
  }

  /** A tensor has an allocator after the second pass exactly when it is anchored. */
  lemma {:induction false} AssignedIffAnchored(g: Graph, a: Assignment, t: nat)
    requires GraphOk(g) && Assigned(g, a) && t < |g|
    ensures a[t].Some? <==> Anchored(g, t)
    decreases t
  {
    forall j | 0 <= j < |g[t].src|
      ensures a[g[t].src[j]].Some? <==> Anchored(g, g[t].src[j])
      ensures g[g[t].src[j]].backend.Some? ==> Anchored(g, g[t].src[j])
    {
      AssignedIffAnchored(g, a, g[t].src[j]);
    }
  }

  // ---------------------------------------------------------------- views follow their source

  /** A view in a buffer lies in its source's; view ops have one source, of the same memory; other
      views sit on their source's allocator. */
  ghost predicate ViewsOk(g: Graph, a: Assignment)
    requires GraphOk(g) && |a| == |g|
  {
    && (forall t :: 0 <= t < |g| && g[t].viewSrc.Some? && g[t].backend.Some? ==>
      g[g[t].viewSrc.value].backend == g[t].backend)
    && (forall t :: 0 <= t < |g| && g[t].viewOp && g[t].isNode ==>
      |g[t].src| == 1 && Root(g, g[t].src[0]) == Root(g, t))
    && (forall t :: 0 <= t < |g| && g[t].viewSrc.Some? && !(g[t].viewOp && g[t].isNode) ==>
      a[t] == a[g[t].viewSrc.value])
  }

  ghost predicate AllNodesAssigned(g: Graph, a: Assignment)
    requires |a| == |g|
  {
    forall n :: 0 <= n < |g| && g[n].isNode ==> a[n].Some?
  }

  /** The third pass only fills gaps. */
  ghost predicate Fills(a: Assignment, b: Assignment) {
    |a| == |b| && forall t :: 0 <= t < |a| && a[t].Some? ==> b[t] == a[t]
  }

  /** Node `i` is the first to use `t`. */
  ghost predicate FirstUse(g: Graph, nodes: seq<nat>, t: nat, i: nat)
    requires NodesOk(g, nodes) && i < |nodes|
  {
    t in g[nodes[i]].src && forall k :: 0 <= k < i ==> t !in g[nodes[k]].src
  }

  /** A tensor left over takes the allocator of the first node that uses it; one that nobody uses
      stays without. */
  ghost predicate GapFilled(g: Graph, nodes: seq<nat>, a: Assignment, b: Assignment, t: nat, n: nat)
    requires NodesOk(g, nodes) && |a| == |b| == |g| && t < |g| && n <= |nodes|
  {
    && (a[t].None? ==> forall i :: 0 <= i < n && FirstUse(g, nodes, t, i) ==> b[t] == a[nodes[i]])
    && (a[t].None? && (forall i :: 0 <= i < n ==> t !in g[nodes[i]].src) ==> b[t].None?)
  }

  /** Every tensor is assigned like the tensor whose memory it lies in. */
  lemma {:induction false} ViewsFollowRoots(g: Graph, a: Assignment, b: Assignment, t: nat)
    requires GraphOk(g) && Assigned(g, a) && AllNodesAssigned(g, a) && Fills(a, b) && ViewsOk(g, b) && t < |g|
    ensures b[t] == b[Root(g, t)]
    decreases t
  {
    if g[t].viewOp && g[t].isNode {
      var r, u := Root(g, t), g[t].src[0];
      ViewsFollowRoots(g, a, b, u);
      if g[r].backend.Some? {
        assert OwnBackend(g, t) == g[r].backend;
        assert a[t] == g[r].backend;
        assert OwnBackend(g, r) == g[r].backend;
        assert a[r] == g[r].backend;
      } else {
        assert g[u].backend.None?;
        assert FromCur(g, t).None?;
        assert a[t] == Best(g, a, t);
      }
    }
  }

  // ---------------------------------------------------------------- splits

  /** Copies of sources, by source and backend; copy `k` is tensor `|g| + k`. */
  datatype Copies = Copies(index: map<(nat, nat), nat>, of: seq<(nat, nat)>)

  /** At most one copy for each source and backend. */
  ghost predicate CopiesOk(g: Graph, c: Copies) {
    && (forall key :: key in c.index ==> IndexAt(g, c, key))
    && (forall k :: 0 <= k < |c.of| ==> CopyAt(g, c, k))
  }

  ghost predicate IndexAt(g: Graph, c: Copies, key: (nat, nat))
    requires key in c.index
  {
    |g| <= c.index[key] < |g| + |c.of| && c.of[c.index[key] - |g|] == key
  }

  ghost predicate CopyAt(g: Graph, c: Copies, k: nat)
    requires k < |c.of|
  {
    c.of[k] in c.index && c.index[c.of[k]] == |g| + k && c.of[k].0 < |g|
  }

  /** Where argument `s` of a node on backend `b` is read from. */
  ghost predicate ReadsFrom(a: Assignment, c: Copies, s: nat, b: nat, s': nat)
    requires s < |a|
  {
    if a[s] == Some(b) then s' == s else (s, b) in c.index && s' == c.index[(s, b)]
  }

  /** The arguments of `n` on its own backend, each where `ReadsFrom` says. */
  ghost predicate Rewired(g: Graph, a: Assignment, c: Copies, n: nat, src: seq<nat>)
    requires GraphOk(g) && |a| == |g| && n < |g|
  {
    && |src| == |g[n].src|
    && (if g[n].viewOp then src == g[n].src
        else a[n].Some? && forall j :: 0 <= j < |src| ==> ReadsFrom(a, c, g[n].src[j], a[n].value, src[j]))
  }

  /** A source of a node of the split that lies on another backend. */
  ghost predicate ForeignInput(g: Graph, nodes: seq<nat>, a: Assignment, sp: Split, s: nat)
    requires GraphOk(g) && |a| == |g| && sp.start <= sp.end <= |nodes| && NodesOk(g, nodes)
  {
    s < |a| && a[s] != Some(sp.talloc) && exists i ::
      sp.start <= i < sp.end && !g[nodes[i]].viewOp && s in g[nodes[i]].src
  }

  /** Every argument of `n` that lies on another backend is an input of the split. */
  ghost predicate InputsListed(g: Graph, a: Assignment, sp: Split, n: nat)
    requires GraphOk(g) && |a| == |g| && n < |g|
  {
    forall j :: 0 <= j < |g[n].src| && a[g[n].src[j]] != Some(sp.talloc) ==> g[n].src[j] in sp.inputs
  }

  /** All nodes of the split but view ops sit on its allocator; its inputs are the sources that do not. */
  ghost predicate SplitOk(g: Graph, nodes: seq<nat>, a: Assignment, c: Copies, sp: Split)
    requires GraphOk(g) && |a| == |g| && NodesOk(g, nodes)
  {
    && sp.start <= sp.end <= |nodes| && |sp.inputs| <= MAX_SPLIT_INPUTS
    && (forall i :: sp.start <= i < sp.end && !g[nodes[i]].viewOp ==> a[nodes[i]] == Some(sp.talloc))
    && (forall s :: s in sp.inputs ==> ForeignInput(g, nodes, a, sp, s) && (s, sp.talloc) in c.index)
    && (forall i :: sp.start <= i < sp.end && !g[nodes[i]].viewOp ==> InputsListed(g, a, sp, nodes[i]))
  }

  /** The splits cover the nodes in order, without gap or overlap. */
  ghost predicate Tile(nodes: seq<nat>, splits: seq<Split>) {
    && |splits| > 0 && splits[0].start == 0 && splits[|splits| - 1].end == |nodes|
    && (forall k :: 0 <= k < |splits| - 1 ==> splits[k].end == splits[k + 1].start)
  }

  /** What the scheduler hands over: the splits tile the nodes, and arguments are rewired. */
  ghost predicate Scheduled(g: Graph, nodes: seq<nat>, a: Assignment, c: Copies, src: seq<seq<nat>>, splits: seq<Split>)
    requires GraphOk(g) && |a| == |g| && NodesOk(g, nodes)
  {
    && CopiesOk(g, c) && |src| == |g| && Tile(nodes, splits)
    && (forall n :: 0 <= n < |g| && g[n].isNode ==> Rewired(g, a, c, n, src[n]))
    && (forall k :: 0 <= k < |splits| ==> SplitOk(g, nodes, a, c, splits[k]))
  }

  // ---------------------------------------------------------------- the scheduler

  /** The second pass keeps what a node has, or gives it the best of its sources. */
  ghost predicate Settled(g: Graph, before: Assignment, now: Assignment, n: nat)
    requires GraphOk(g) && |before| == |now| == |g| && n < |g|
  {
    now[n] == if before[n].Some? then before[n] else Best(g, now, n)
  }

  /** Settling `n` does not disturb it, nor the nodes before it. */
  lemma StillSettled(g: Graph, before: Assignment, last: Assignment, now: Assignment, m: nat, n: nat)
    requires GraphOk(g) && |before| == |last| == |now| == |g| && m <= n < |g|
    requires last[n] == before[n] && now == (if last[n].None? then last[n := Best(g, last, n)] else last)
    requires m < n ==> Settled(g, before, last, m)
    ensures Settled(g, before, now, m)
  {
    BestOfSame(g, now, last, m, 0, None, 0);
  }

  /** Copies are only added. */
  ghost predicate Grows(c: Copies, c': Copies) {
    (forall key :: key in c.index ==> key in c'.index && c'.index[key] == c.index[key]) && c.of <= c'.of
  }

  function WithCopy(g: Graph, c: Copies, s: nat, b: nat): Copies {
    Copies(c.index[(s, b) := |g| + |c.of|], c.of + [(s, b)])
  }

  lemma CopyAdded(g: Graph, c: Copies, s: nat, b: nat)
    requires CopiesOk(g, c) && s < |g| && (s, b) !in c.index
    ensures CopiesOk(g, WithCopy(g, c, s, b)) && Grows(c, WithCopy(g, c, s, b))
  {
    var c' := WithCopy(g, c, s, b);
    forall k | 0 <= k < |c'.of|
      ensures CopyAt(g, c', k)
    {
      if k < |c.of| {
        assert CopyAt(g, c, k);
      }
    }
    forall key | key in c'.index
      ensures IndexAt(g, c', key)
    {
      if key != (s, b) {
        assert IndexAt(g, c, key);
      }
    }
  }

  lemma RewiredKept(g: Graph, a: Assignment, c: Copies, c': Copies, n: nat, src: seq<nat>)
    requires GraphOk(g) && |a| == |g| && n < |g| && Rewired(g, a, c, n, src) && Grows(c, c')
    ensures Rewired(g, a, c', n, src)
  {
    forall j | 0 <= j < |src| && !g[n].viewOp
      ensures ReadsFrom(a, c', g[n].src[j], a[n].value, src[j])
    {
      assert ReadsFrom(a, c, g[n].src[j], a[n].value, src[j]);
    }
  }

  lemma SplitKept(g: Graph, nodes: seq<nat>, a: Assignment, c: Copies, c': Copies, sp: Split)
    requires GraphOk(g) && |a| == |g| && NodesOk(g, nodes) && SplitOk(g, nodes, a, c, sp) && Grows(c, c')
    ensures SplitOk(g, nodes, a, c', sp)
  {
  }

  // ---------------------------------------------------------------- the limits

  /** Uses by `n` of sources that are not on backend `b`, among its first `j` sources. */
  function ForeignArgs(g: Graph, a: Assignment, n: nat, b: nat, j: nat): nat
    requires GraphOk(g) && |a| == |g| && n < |g| && j <= |g[n].src|
  {
    if j == 0 then 0 else ForeignArgs(g, a, n, b, j - 1) + if a[g[n].src[j - 1]] != Some(b) then 1 else 0
  }

  /** View operations use nothing. */
  function ForeignArgsOf(g: Graph, a: Assignment, n: nat, b: nat): nat
    requires GraphOk(g) && |a| == |g| && n < |g|
  {
    if g[n].viewOp then 0 else ForeignArgs(g, a, n, b, |g[n].src|)
  }

  /** Uses of sources that are not on `b`, by the nodes from `lo` to `hi`. */
  function ForeignUses(g: Graph, nodes: seq<nat>, a: Assignment, b: nat, lo: nat, hi: nat): nat
    requires GraphOk(g) && |a| == |g| && NodesOk(g, nodes) && lo <= hi <= |nodes|
    decreases hi
  {
    if lo == hi then 0 else ForeignUses(g, nodes, a, b, lo, hi - 1) + ForeignArgsOf(g, a, nodes[hi - 1], b)
  }

  /** All nodes from `lo` to `hi` but view operations sit on `b`. */
  ghost predicate OnePiece(g: Graph, nodes: seq<nat>, a: Assignment, b: nat, lo: nat, hi: nat)
    requires |a| == |g| && NodesOk(g, nodes) && lo <= hi <= |nodes|
  {
    forall i :: lo <= i < hi && !g[nodes[i]].viewOp ==> a[nodes[i]] == Some(b)
  }

  /** Backend of the first node that owns its memory. */
  function FirstBackend(g: Graph, nodes: seq<nat>, a: Assignment, i: nat): Option<nat>
    requires |a| == |g| && NodesOk(g, nodes) && i <= |nodes|
    decreases |nodes| - i
  {
    if i == |nodes| then None else if g[nodes[i]].viewSrc.None? then a[nodes[i]] else FirstBackend(g, nodes, a, i + 1)
  }

  /** Backend of the last of the first `i` nodes that is not a view operation, `first` if there is none. */
  function LastBackend(g: Graph, nodes: seq<nat>, a: Assignment, first: Option<nat>, i: nat): Option<nat>
    requires |a| == |g| && NodesOk(g, nodes) && i <= |nodes|
  {
    if i == 0 then first
    else if g[nodes[i - 1]].viewOp then LastBackend(g, nodes, a, first, i - 1)
    else a[nodes[i - 1]]
  }

  /** How often the backend changes along the first `i` nodes. */
  function Changes(g: Graph, nodes: seq<nat>, a: Assignment, first: Option<nat>, i: nat): nat
    requires |a| == |g| && NodesOk(g, nodes) && i <= |nodes|
  {
    if i == 0 then 0
    else
      Changes(g, nodes, a, first, i - 1)
      + if LastBackend(g, nodes, a, first, i) != LastBackend(g, nodes, a, first, i - 1) then 1 else 0
  }

  /** No run of nodes on one backend uses more foreign arguments than a split takes, and the backend
      changes less often than there are splits. */
  ghost predicate WithinLimits(g: Graph, nodes: seq<nat>, a: Assignment)
    requires GraphOk(g) && |a| == |g| && NodesOk(g, nodes)
  {
    && (forall b: nat, lo: nat, hi: nat :: lo <= hi <= |nodes| && OnePiece(g, nodes, a, b, lo, hi) ==>
      ForeignUses(g, nodes, a, b, lo, hi) <= MAX_SPLIT_INPUTS)
    && Changes(g, nodes, a, FirstBackend(g, nodes, a, 0), |nodes|) < MAX_SPLITS
  }

  /** The run of nodes open after `i` nodes: where it starts. */
  function OpenFrom(g: Graph, nodes: seq<nat>, a: Assignment, first: Option<nat>, i: nat): (lo: nat)
    requires |a| == |g| && NodesOk(g, nodes) && i <= |nodes|
    ensures lo <= i
  {
    if i == 0 then 0
    else if LastBackend(g, nodes, a, first, i) != LastBackend(g, nodes, a, first, i - 1) then i - 1
    else OpenFrom(g, nodes, a, first, i - 1)
  }

  /** Uses that its nodes make of foreign arguments. */
  function OpenUses(g: Graph, nodes: seq<nat>, a: Assignment, first: nat, i: nat): nat
    requires GraphOk(g) && |a| == |g| && NodesOk(g, nodes) && i <= |nodes| && AllNodesAssigned(g, a)
  {
    OpenBackendSome(g, nodes, a, first, i);
    ForeignUses(g, nodes, a, LastBackend(g, nodes, a, Some(first), i).value, OpenFrom(g, nodes, a, Some(first), i), i)
  }

  lemma {:induction false} OpenBackendSome(g: Graph, nodes: seq<nat>, a: Assignment, first: nat, i: nat)
    requires |a| == |g| && NodesOk(g, nodes) && i <= |nodes| && AllNodesAssigned(g, a)
    ensures LastBackend(g, nodes, a, Some(first), i).Some?
  {
    if i > 0 {
      OpenBackendSome(g, nodes, a, first, i - 1);
    }
  }

  lemma {:induction false} OpenIsOnePiece(g: Graph, nodes: seq<nat>, a: Assignment, first: nat, i: nat)
    requires |a| == |g| && NodesOk(g, nodes) && i <= |nodes| && AllNodesAssigned(g, a)
    ensures var b := LastBackend(g, nodes, a, Some(first), i);
      b.Some? && OnePiece(g, nodes, a, b.value, OpenFrom(g, nodes, a, Some(first), i), i)
  {
    OpenBackendSome(g, nodes, a, first, i);
    if i > 0 {
      OpenIsOnePiece(g, nodes, a, first, i - 1);
    }
  }

  /** A run on one backend lies in the run open at its end, unless it has no nodes but view operations. */
  lemma {:induction false} RunInOpen(g: Graph, nodes: seq<nat>, a: Assignment, first: nat, b: nat, lo: nat, hi: nat)
    requires GraphOk(g) && |a| == |g| && NodesOk(g, nodes) && lo <= hi <= |nodes| && AllNodesAssigned(g, a)
    requires OnePiece(g, nodes, a, b, lo, hi)
    ensures ForeignUses(g, nodes, a, b, lo, hi) <= OpenUses(g, nodes, a, first, hi)
    ensures LastBackend(g, nodes, a, Some(first), hi) != Some(b) ==> ForeignUses(g, nodes, a, b, lo, hi) == 0
    decreases hi
  {
    OpenBackendSome(g, nodes, a, first, hi);
    if lo < hi {
      RunInOpen(g, nodes, a, first, b, lo, hi - 1);
      OpenBackendSome(g, nodes, a, first, hi - 1);
      OpenGrows(g, nodes, a, first, hi - 1);
    }
  }

  /** One more node: a new run where the backend changes, else its uses are added. */
  lemma OpenGrows(g: Graph, nodes: seq<nat>, a: Assignment, first: nat, i: nat)
    requires GraphOk(g) && |a| == |g| && NodesOk(g, nodes) && i < |nodes| && AllNodesAssigned(g, a)
    ensures var n := nodes[i];
      var last := LastBackend(g, nodes, a, Some(first), i);
      && last.Some? && LastBackend(g, nodes, a, Some(first), i + 1) == (if g[n].viewOp then last else a[n])
      && OpenUses(g, nodes, a, first, i + 1)
         == (if g[n].viewOp then OpenUses(g, nodes, a, first, i)
             else
               (if a[n] != last then 0 else OpenUses(g, nodes, a, first, i))
               + ForeignArgs(g, a, n, a[n].value, |g[n].src|))
  {
    OpenBackendSome(g, nodes, a, first, i);
    OpenBackendSome(g, nodes, a, first, i + 1);
    var lo, b := OpenFrom(g, nodes, a, Some(first), i + 1), LastBackend(g, nodes, a, Some(first), i + 1).value;
    assert ForeignUses(g, nodes, a, b, lo, i + 1)
      == ForeignUses(g, nodes, a, b, lo, i) + ForeignArgsOf(g, a, nodes[i], b);
  }

  lemma {:induction false} MoreArgs(g: Graph, a: Assignment, n: nat, b: nat, j: nat, k: nat)
    requires GraphOk(g) && |a| == |g| && n < |g| && j <= k <= |g[n].src|
    ensures ForeignArgs(g, a, n, b, j) <= ForeignArgs(g, a, n, b, k)
    decreases k
  {
    if j < k {
      MoreArgs(g, a, n, b, j, k - 1);
    }
  }

  lemma {:induction false} ChangesGrow(g: Graph, nodes: seq<nat>, a: Assignment, first: Option<nat>, i: nat, k: nat)
    requires |a| == |g| && NodesOk(g, nodes) && i <= k <= |nodes|
    ensures Changes(g, nodes, a, first, i) <= Changes(g, nodes, a, first, k)
    decreases k
  {
    if i < k {
      ChangesGrow(g, nodes, a, first, i, k - 1);
    }
  }

  /** The limits in terms of the runs that the pass over the nodes opens. */
  lemma LimitsByRuns(g: Graph, nodes: seq<nat>, a: Assignment, first: nat)
    requires GraphOk(g) && |a| == |g| && NodesOk(g, nodes) && AllNodesAssigned(g, a)
      && FirstBackend(g, nodes, a, 0) == Some(first)
    ensures WithinLimits(g, nodes, a) <==>
      (forall i :: 0 <= i <= |nodes| ==> OpenUses(g, nodes, a, first, i) <= MAX_SPLIT_INPUTS)
        && Changes(g, nodes, a, Some(first), |nodes|) < MAX_SPLITS
  {
    hide ForeignUses, Changes, OnePiece, OpenUses, GraphOk;
    if forall i :: 0 <= i <= |nodes| ==> OpenUses(g, nodes, a, first, i) <= MAX_SPLIT_INPUTS {
      forall b: nat, lo: nat, hi: nat | lo <= hi <= |nodes| && OnePiece(g, nodes, a, b, lo, hi)
        ensures ForeignUses(g, nodes, a, b, lo, hi) <= MAX_SPLIT_INPUTS
      {
        RunInOpen(g, nodes, a, first, b, lo, hi);
      }
    } else {
      var i :| 0 <= i <= |nodes| && OpenUses(g, nodes, a, first, i) > MAX_SPLIT_INPUTS;
      OpenIsOnePiece(g, nodes, a, first, i);
      OpenUsesAre(g, nodes, a, first, i);
    }
  }

  lemma OpenUsesAre(g: Graph, nodes: seq<nat>, a: Assignment, first: nat, i: nat)
    requires GraphOk(g) && |a| == |g| && NodesOk(g, nodes) && i <= |nodes| && AllNodesAssigned(g, a)
    ensures LastBackend(g, nodes, a, Some(first), i).Some?
    ensures OpenUses(g, nodes, a, first, i)
         == ForeignUses(g, nodes, a, LastBackend(g, nodes, a, Some(first), i).value,
           OpenFrom(g, nodes, a, Some(first), i), i)
  {
    OpenBackendSome(g, nodes, a, first, i);
  }

  /** The counts of the pass after `i` nodes, all runs so far being within the limit. */
  ghost predicate Counted(g: Graph, nodes: seq<nat>, a: Assignment, first: nat, i: nat, cur: nat, closed: nat,
                          used: nat)
    requires GraphOk(g) && |a| == |g| && NodesOk(g, nodes) && i <= |nodes| && AllNodesAssigned(g, a)
  {
    && LastBackend(g, nodes, a, Some(first), i) == Some(cur) && closed == Changes(g, nodes, a, Some(first), i)
    && used == OpenUses(g, nodes, a, first, i) && forall k :: 0 <= k <= i ==>
      OpenUses(g, nodes, a, first, k) <= MAX_SPLIT_INPUTS
  }

  lemma CountNext(g: Graph, nodes: seq<nat>, a: Assignment, first: nat, i: nat, cur: nat, closed: nat, used: nat)
    requires GraphOk(g) && |a| == |g| && NodesOk(g, nodes) && i < |nodes| && AllNodesAssigned(g, a)
      && FirstBackend(g, nodes, a, 0) == Some(first)
    requires Counted(g, nodes, a, first, i, cur, closed, used)
    ensures nodes[i] < |g| && a[nodes[i]].Some?
    ensures g[nodes[i]].viewOp ==> Counted(g, nodes, a, first, i + 1, cur, closed, used)
    ensures !g[nodes[i]].viewOp ==>
      var b := a[nodes[i]].value;
      var used' := (if b == cur then used else 0) + ForeignArgs(g, a, nodes[i], b, |g[nodes[i]].src|);
      var closed' := if b == cur then closed else closed + 1;
      && (closed' >= MAX_SPLITS || used' > MAX_SPLIT_INPUTS ==> !WithinLimits(g, nodes, a))
      && (used' <= MAX_SPLIT_INPUTS ==> Counted(g, nodes, a, first, i + 1, b, closed', used'))
  {
    hide WithinLimits, OpenUses, ForeignArgs, GraphOk, NodesOk, AllNodesAssigned, Changes, LastBackend, FirstBackend;
    PastLimits(g, nodes, a, first, i + 1);
    NextAssigned(g, nodes, a, i);
    OpenGrows(g, nodes, a, first, i);
    ChangesNext(g, nodes, a, Some(first), i);
  }

  lemma NextAssigned(g: Graph, nodes: seq<nat>, a: Assignment, i: nat)
    requires |a| == |g| && NodesOk(g, nodes) && i < |nodes| && AllNodesAssigned(g, a)
    ensures nodes[i] < |g| && a[nodes[i]].Some?
  {
  }

  lemma ChangesNext(g: Graph, nodes: seq<nat>, a: Assignment, first: Option<nat>, i: nat)
    requires |a| == |g| && NodesOk(g, nodes) && i < |nodes|
    ensures Changes(g, nodes, a, first, i + 1)
         == Changes(g, nodes, a, first, i)
            + if LastBackend(g, nodes, a, first, i + 1) != LastBackend(g, nodes, a, first, i) then 1 else 0
  {
  }

  /** A count past its limit after `i` nodes stays past it. */
  lemma PastLimits(g: Graph, nodes: seq<nat>, a: Assignment, first: nat, i: nat)
    requires GraphOk(g) && |a| == |g| && NodesOk(g, nodes) && i <= |nodes| && AllNodesAssigned(g, a)
    requires FirstBackend(g, nodes, a, 0) == Some(first)
    ensures Changes(g, nodes, a, Some(first), i) >= MAX_SPLITS || OpenUses(g, nodes, a, first, i) > MAX_SPLIT_INPUTS
        ==> !WithinLimits(g, nodes, a)
  {
    LimitsByRuns(g, nodes, a, first);
    ChangesGrow(g, nodes, a, Some(first), i, |nodes|);
  }

  lemma CountedAll(g: Graph, nodes: seq<nat>, a: Assignment, first: nat, cur: nat, closed: nat, used: nat)
    requires GraphOk(g) && |a| == |g| && NodesOk(g, nodes) && AllNodesAssigned(g, a)
      && FirstBackend(g, nodes, a, 0) == Some(first)
    requires Counted(g, nodes, a, first, |nodes|, cur, closed, used)
    ensures closed == Changes(g, nodes, a, Some(first), |nodes|) && (closed < MAX_SPLITS ==> WithinLimits(g, nodes, a))
  {
    LimitsByRuns(g, nodes, a, first);
  }

  lemma NothingOpen(g: Graph, nodes: seq<nat>, a: Assignment, first: nat)
    requires GraphOk(g) && |a| == |g| && NodesOk(g, nodes) && AllNodesAssigned(g, a)
    ensures Counted(g, nodes, a, first, 0, first, 0, 0)
  {
  }

  // ---------------------------------------------------------------- keeping what is done

  /** The open split takes in one more node and the inputs it adds. */
  lemma SplitGrows(g: Graph, nodes: seq<nat>, a: Assignment, c: Copies, c': Copies, sp: Split, inputs: seq<nat>)
    requires GraphOk(g) && |a| == |g| && NodesOk(g, nodes) && SplitOk(g, nodes, a, c, sp) && Grows(c, c')
      && sp.end < |nodes|
    requires sp.inputs <= inputs && |inputs| <= MAX_SPLIT_INPUTS
    requires var n := nodes[sp.end];
      && (!g[n].viewOp ==> a[n] == Some(sp.talloc) && InputsListed(g, a, sp.(inputs := inputs), n))
      && (forall s :: s in inputs ==>
        s in sp.inputs || (!g[n].viewOp && s in g[n].src && a[s] != Some(sp.talloc) && (s, sp.talloc) in c'.index))
    ensures SplitOk(g, nodes, a, c', sp.(inputs := inputs, end := sp.end + 1))
  {
    var n, sp' := nodes[sp.end], sp.(inputs := inputs, end := sp.end + 1);
    forall i | sp'.start <= i < sp'.end && !g[nodes[i]].viewOp
      ensures InputsListed(g, a, sp', nodes[i])
    {
      if i < sp.end {
        assert InputsListed(g, a, sp, nodes[i]);
      }
    }
    forall s | s in inputs
      ensures ForeignInput(g, nodes, a, sp', s)
    {
      if s in sp.inputs {
        assert ForeignInput(g, nodes, a, sp, s);
        var i :| sp.start <= i < sp.end && !g[nodes[i]].viewOp && s in g[nodes[i]].src;
        assert sp'.start <= i < sp'.end;
      } else {
        SourceEarlier(g, n, s);
        assert sp'.start <= sp.end < sp'.end;
      }
    }
  }

  lemma SourceEarlier(g: Graph, n: nat, s: nat)
    requires GraphOk(g) && n < |g| && s in g[n].src
    ensures s < n
  {
  }

  lemma Extended(g: Graph, nodes: seq<nat>, a: Assignment, c: Copies, c': Copies, sp: Split, inputs: seq<nat>)
    requires GraphOk(g) && |a| == |g| && NodesOk(g, nodes) && SplitOk(g, nodes, a, c, sp) && Grows(c, c')
      && sp.end < |nodes|
    requires var n := nodes[sp.end];
      if g[n].viewOp then inputs == sp.inputs
      else && a[n] == Some(sp.talloc) && sp.inputs <= inputs && |inputs| <= MAX_SPLIT_INPUTS
           && (forall j :: 0 <= j < |g[n].src| && a[g[n].src[j]] != Some(sp.talloc) ==> g[n].src[j] in inputs)
           && (forall s :: s in inputs ==>
             s in sp.inputs || (s in g[n].src && a[s] != Some(sp.talloc) && (s, sp.talloc) in c'.index))
    ensures SplitOk(g, nodes, a, c', Split(sp.talloc, sp.start, sp.end + 1, inputs))
  {
    SplitGrows(g, nodes, a, c, c', sp, inputs);
  }

  lemma KeptSplits(g: Graph, nodes: seq<nat>, a: Assignment, c: Copies, c': Copies, splits: seq<Split>)
    requires GraphOk(g) && |a| == |g| && NodesOk(g, nodes) && Grows(c, c')
    requires forall k :: 0 <= k < |splits| ==> SplitOk(g, nodes, a, c, splits[k])
    ensures forall k :: 0 <= k < |splits| ==> SplitOk(g, nodes, a, c', splits[k])
  {
    forall k | 0 <= k < |splits|
      ensures SplitOk(g, nodes, a, c', splits[k])
    {
      SplitKept(g, nodes, a, c, c', splits[k]);
    }
  }

  lemma KeptSources(g: Graph, nodes: seq<nat>, a: Assignment, c: Copies, c': Copies, src: seq<seq<nat>>,
                    src': seq<seq<nat>>, i: nat)
    requires GraphOk(g) && |a| == |g| == |src| == |src'| && NodesOk(g, nodes) && Grows(c, c') && i < |nodes|
    requires forall t :: 0 <= t < |g| && t != nodes[i] ==> src'[t] == src[t]
    requires Rewired(g, a, c', nodes[i], src'[nodes[i]])
    requires RewiredUpTo(g, nodes, a, c, src, i) && UntouchedFrom(g, nodes, src, i)
    ensures RewiredUpTo(g, nodes, a, c', src', i + 1) && UntouchedFrom(g, nodes, src', i + 1)
  {
    hide Rewired, Grows;
    forall k | 0 <= k <= i
      ensures Rewired(g, a, c', nodes[k], src'[nodes[k]])
    {
      if k < i {
        RewiredKept(g, a, c, c', nodes[k], src[nodes[k]]);
      }
    }
  }

  ghost predicate RewiredUpTo(g: Graph, nodes: seq<nat>, a: Assignment, c: Copies, src: seq<seq<nat>>, i: nat)
    requires GraphOk(g) && |a| == |g| == |src| && NodesOk(g, nodes)
  {
    forall k :: 0 <= k < i && k < |nodes| ==> Rewired(g, a, c, nodes[k], src[nodes[k]])
  }

  ghost predicate UntouchedFrom(g: Graph, nodes: seq<nat>, src: seq<seq<nat>>, i: nat)
    requires |src| == |g| && NodesOk(g, nodes)
  {
    forall k :: i <= k < |nodes| ==> src[nodes[k]] == g[nodes[k]].src
  }

  lemma AllRewired(g: Graph, nodes: seq<nat>, a: Assignment, c: Copies, src: seq<seq<nat>>)
    requires GraphOk(g) && |a| == |g| == |src| && NodesOk(g, nodes)
    requires RewiredUpTo(g, nodes, a, c, src, |nodes|)
    ensures forall n :: 0 <= n < |g| && g[n].isNode ==> Rewired(g, a, c, n, src[n])
  {
    forall n | 0 <= n < |g| && g[n].isNode
      ensures Rewired(g, a, c, n, src[n])
    {
      var k :| 0 <= k < |nodes| && nodes[k] == n;
    }
  }

  /** The closed splits cover the nodes before `start`. */
  ghost predicate Contiguous(splits: seq<Split>, start: nat) {
    && (|splits| == 0 ==> start == 0)
    && (|splits| > 0 ==> splits[0].start == 0 && splits[|splits| - 1].end == start)
    && (forall k :: 0 <= k < |splits| - 1 ==> splits[k].end == splits[k + 1].start)
  }

  lemma SplitsTile(nodes: seq<nat>, splits: seq<Split>, last: Split)
    requires Contiguous(splits, last.start) && last.end == |nodes|
    ensures Tile(nodes, splits + [last])
  {
  }

  lemma NothingRewired(g: Graph, nodes: seq<nat>, src: seq<seq<nat>>)
    requires |src| == |g| && NodesOk(g, nodes) && forall t :: 0 <= t < |g| ==> src[t] == g[t].src
    ensures UntouchedFrom(g, nodes, src, 0)
  {
  }

  lemma NothingCopied(g: Graph)
    ensures CopiesOk(g, Copies(map[], []))
  {
  }

  lemma NothingSplit(g: Graph, nodes: seq<nat>, a: Assignment, c: Copies, cur: nat)
    requires GraphOk(g) && |a| == |g| && NodesOk(g, nodes)
    ensures SplitOk(g, nodes, a, c, Split(cur, 0, 0, []))
  {
  }

  lemma EmptySplit(g: Graph, nodes: seq<nat>, a: Assignment, c: Copies, cur: nat, i: nat)
    requires GraphOk(g) && |a| == |g| && NodesOk(g, nodes) && i <= |nodes|
    ensures SplitOk(g, nodes, a, c, Split(cur, i, i, []))
  {
  }

  lemma NodeInGraph(g: Graph, nodes: seq<nat>, i: nat)
    requires NodesOk(g, nodes) && i < |nodes|
    ensures nodes[i] < |g| && g[nodes[i]].isNode
    ensures forall k :: 0 <= k < |nodes| && k != i ==> nodes[k] != nodes[i]
  {
  }

  lemma ViewUnchanged(g: Graph, a: Assignment, c: Copies, n: nat)
    requires GraphOk(g) && |a| == |g| && n < |g| && g[n].viewOp
    ensures Rewired(g, a, c, n, g[n].src) && Grows(c, c)
  {
  }

  /** The sources of `n` that have no allocator take its own. */
  function FilledFrom(g: Graph, a: Assignment, n: nat): (b: Assignment)
    requires |a| == |g| && n < |g|
    ensures |b| == |g|
  {
    seq(|g|, t requires 0 <= t < |g| => if a[t].None? && t in g[n].src then a[n] else a[t])
  }

  function FilledBy(g: Graph, nodes: seq<nat>, a: Assignment, i: nat): (b: Assignment)
    requires |a| == |g| && i <= |nodes| && forall k :: 0 <= k < |nodes| ==> nodes[k] < |g|
    ensures |b| == |g|
  {
    if i == 0 then a else FilledFrom(g, FilledBy(g, nodes, a, i - 1), nodes[i - 1])
  }

  lemma {:induction false} FilledFills(g: Graph, nodes: seq<nat>, a: Assignment, i: nat)
    requires NodesOk(g, nodes) && |a| == |g| && i <= |nodes|
    ensures Fills(a, FilledBy(g, nodes, a, i))
  {
    if i > 0 {
      FilledFills(g, nodes, a, i - 1);
    }
  }

  ghost predicate SourcesAssigned(g: Graph, a: Assignment, n: nat)
    requires |a| == |g| && n < |g|
  {
    forall s :: s in g[n].src && s < |g| ==> a[s].Some?
  }

  lemma AllSourcesAssigned(g: Graph, nodes: seq<nat>, a: Assignment)
    requires GraphOk(g) && NodesOk(g, nodes) && |a| == |g| && forall k :: 0 <= k < |nodes| ==>
      SourcesAssigned(g, a, nodes[k])
    ensures forall n, j :: 0 <= n < |g| && g[n].isNode && 0 <= j < |g[n].src| ==> a[g[n].src[j]].Some?
  {
    forall n, j | 0 <= n < |g| && g[n].isNode && 0 <= j < |g[n].src|
      ensures a[g[n].src[j]].Some?
    {
      var k :| 0 <= k < |nodes| && nodes[k] == n;
      assert SourcesAssigned(g, a, nodes[k]);
    }
  }

  /** When all nodes have an allocator, the sources of the first `i` have one too, and each gap is
      filled by its first user. */
  lemma {:induction false} FilledGaps(g: Graph, nodes: seq<nat>, a: Assignment, i: nat)
    requires NodesOk(g, nodes) && |a| == |g| && i <= |nodes| && AllNodesAssigned(g, a)
    ensures forall k :: 0 <= k < i ==> SourcesAssigned(g, FilledBy(g, nodes, a, i), nodes[k])
    ensures forall t :: 0 <= t < |g| ==> GapFilled(g, nodes, a, FilledBy(g, nodes, a, i), t, i)
  {
    hide GapFilled, AllNodesAssigned, SourcesAssigned, Fills;
    if i > 0 {
      var b, b' := FilledBy(g, nodes, a, i - 1), FilledBy(g, nodes, a, i);
      FilledGaps(g, nodes, a, i - 1);
      FilledFills(g, nodes, a, i - 1);
      forall k | 0 <= k < i
        ensures SourcesAssigned(g, b', nodes[k])
      {
        NodeAssigned(g, nodes, a, b, i - 1);
        MoreAssigned(g, b, nodes[i - 1], nodes[k]);
      }
      forall t | 0 <= t < |g|
        ensures GapFilled(g, nodes, a, b', t, i)
      {
        GapStep(g, nodes, a, b, b', t, i - 1);
      }
    } else {
      NoGapYet(g, nodes, a);
    }
  }

  lemma NoGapYet(g: Graph, nodes: seq<nat>, a: Assignment)
    requires NodesOk(g, nodes) && |a| == |g|
    ensures forall t :: 0 <= t < |g| ==> GapFilled(g, nodes, a, a, t, 0)
  {
  }

  lemma MoreAssigned(g: Graph, b: Assignment, n: nat, k: nat)
    requires |b| == |g| && n < |g| && k < |g| && b[n].Some? && (k == n || SourcesAssigned(g, b, k))
    ensures SourcesAssigned(g, FilledFrom(g, b, n), k)
  {
  }

  lemma NodeAssigned(g: Graph, nodes: seq<nat>, a: Assignment, b: Assignment, i: nat)
    requires NodesOk(g, nodes) && |a| == |g| && i < |nodes| && AllNodesAssigned(g, a) && Fills(a, b)
    ensures b[nodes[i]].Some?
  {
  }

  /** One more node fills the gaps among its sources that are left. */
  lemma GapStep(g: Graph, nodes: seq<nat>, a: Assignment, b: Assignment, b': Assignment, t: nat, i: nat)
    requires NodesOk(g, nodes) && |a| == |b| == |b'| == |g| && t < |g| && i < |nodes| && AllNodesAssigned(g, a)
      && Fills(a, b)
    requires GapFilled(g, nodes, a, b, t, i)
    requires b'[t] == if b[t].None? && t in g[nodes[i]].src then b[nodes[i]] else b[t]
    requires forall k :: 0 <= k < i ==> SourcesAssigned(g, b, nodes[k])
    ensures GapFilled(g, nodes, a, b', t, i + 1)
  {
    assert b[nodes[i]] == a[nodes[i]];
    if k :| 0 <= k < i && t in g[nodes[k]].src {
      assert SourcesAssigned(g, b, nodes[k]);
    }
  }

  class Scheduler {
    const g: Graph
    const leafs: seq<nat>
    const nodes: seq<nat>
    var talloc: Assignment
    var copies: Copies
    var src: seq<seq<nat>>
    var splits: seq<Split>

    ghost predicate Valid()
      reads this
    {
      GraphOk(g) && NodesOk(g, nodes) && LeafsOk(g, leafs) && |talloc| == |g| && |src| == |g|
    }

    constructor (g: Graph, leafs: seq<nat>, nodes: seq<nat>)
      requires GraphOk(g) && NodesOk(g, nodes) && LeafsOk(g, leafs)
      ensures Valid() && this.g == g && this.leafs == leafs && this.nodes == nodes
      ensures (forall t :: 0 <= t < |g| ==> talloc[t].None? && src[t] == g[t].src) && copies == Copies(map[], [])
    {
      this.g, this.leafs, this.nodes := g, leafs, nodes;
      talloc := seq(|g|, _ => None);
      src := seq(|g|, t requires 0 <= t < |g| => g[t].src);
      copies, splits := Copies(map[], []), [];
    }

    /** Pass 1: leaves and nodes with buffers around them. */
    method AssignFromBuffers()
      requires Valid() && forall t :: 0 <= t < |g| ==> talloc[t].None?
      modifies this`talloc
      ensures Valid()
      ensures forall t :: 0 <= t < |g| ==> talloc[t] == if g[t].isNode then FromCur(g, t) else OwnBackend(g, t)
      ensures forall t :: 0 <= t < |g| ==> ByBuffers(g, t, talloc[t])
    {
      hide FromCur, OwnBackend, GraphOk, ByBuffers;
      for i := 0 to |leafs|
        invariant Valid()
        invariant forall k :: 0 <= k < i ==> talloc[leafs[k]] == OwnBackend(g, leafs[k])
        invariant forall k :: i <= k < |leafs| ==> talloc[leafs[k]].None?
        invariant forall t :: 0 <= t < |g| && g[t].isNode ==> talloc[t].None?
      {
        var leaf := leafs[i];
        if talloc[leaf].None? && OwnBackend(g, leaf).Some? {
          talloc := talloc[leaf := OwnBackend(g, leaf)];
        }
      }
      for i := 0 to |nodes|
        invariant Valid()
        invariant forall t :: 0 <= t < |g| && !g[t].isNode ==> talloc[t] == OwnBackend(g, t)
        invariant forall k :: 0 <= k < i ==> talloc[nodes[k]] == FromCur(g, nodes[k])
        invariant forall k :: i <= k < |nodes| ==> talloc[nodes[k]].None?
      {
        var n := nodes[i];
        if talloc[n].None? && FromCur(g, n).Some? {
          talloc := talloc[n := FromCur(g, n)];
        }
      }
      forall t | 0 <= t < |g|
        ensures ByBuffers(g, t, talloc[t])
      {
        BuffersDecide(g, t);
      }
    }

    /** Pass 2: the remaining nodes from the assignment of their sources. */
    method AssignFromSources()
      requires Valid()
      requires forall t :: 0 <= t < |g| ==> talloc[t] == if g[t].isNode then FromCur(g, t) else OwnBackend(g, t)
      modifies this`talloc
      ensures Valid() && Assigned(g, talloc) && forall t :: 0 <= t < |g| ==> ByRules(g, talloc, t)
    {
      hide FromCur, Best, GraphOk, ByRules;
      ghost var before := talloc;
      for i := 0 to |nodes|
        invariant Valid()
        invariant forall t :: 0 <= t < |g| && !g[t].isNode ==> talloc[t] == before[t]
        invariant forall k :: i <= k < |nodes| ==> talloc[nodes[k]] == before[nodes[k]]
        invariant forall k :: 0 <= k < i ==> Settled(g, before, talloc, nodes[k])
      {
        var n := nodes[i];
        ghost var last := talloc;
        if talloc[n].None? {
          talloc := talloc[n := Best(g, talloc, n)];
        }
        forall k | 0 <= k <= i
          ensures Settled(g, before, talloc, nodes[k])
        {
          StillSettled(g, before, last, talloc, nodes[k], n);
        }
      }
      forall n | 0 <= n < |g| && g[n].isNode
        ensures Settled(g, before, talloc, n)
      {
        var k :| 0 <= k < |nodes| && nodes[k] == n;
      }
      forall t | 0 <= t < |g|
        ensures ByRules(g, talloc, t)
      {
        AssignedByRules(g, talloc, t);
      }
    }

    /** Pass 3: sources without an allocator take their consumer's. */
    method AssignRest()
      requires Valid()
      modifies this`talloc
      ensures Valid() && Fills(old(talloc), talloc) && talloc == FilledBy(g, nodes, old(talloc), |nodes|)
      ensures AllNodesAssigned(g, old(talloc)) ==>
        forall n, j :: 0 <= n < |g| && g[n].isNode && 0 <= j < |g[n].src| ==> talloc[g[n].src[j]].Some?
      ensures AllNodesAssigned(g, old(talloc)) ==> forall t :: 0 <= t < |g| ==>
        GapFilled(g, nodes, old(talloc), talloc, t, |nodes|)
    {
      hide GapFilled;
      for i := 0 to |nodes|
        invariant Valid() && talloc == FilledBy(g, nodes, old(talloc), i)
      {
        FillSources(nodes[i]);
      }
      FilledFills(g, nodes, old(talloc), |nodes|);
      if AllNodesAssigned(g, old(talloc)) {
        FilledGaps(g, nodes, old(talloc), |nodes|);
        AllSourcesAssigned(g, nodes, talloc);
      }
    }

    method FillSources(n: nat)
      requires Valid() && n < |g|
      modifies this`talloc
      ensures Valid() && talloc == FilledFrom(g, old(talloc), n)
    {
      var nodeAllocr := talloc[n];
      for j := 0 to |g[n].src|
        invariant Valid()
        invariant forall t :: 0 <= t < |g| ==>
          talloc[t] == if old(talloc)[t].None? && t in g[n].src[..j] then old(talloc)[n] else old(talloc)[t]
      {
        var s := g[n].src[j];
        if talloc[s].None? {
          talloc := talloc[s := nodeAllocr];
        }
      }
      assert g[n].src[..|g[n].src|] == g[n].src;
    }

    /** Read argument `j` of `n` from a copy when it lies on another backend. */
    method RewireArgument(n: nat, j: nat, cur: nat, inputs: seq<nat>) returns (ok: bool, inputs': seq<nat>)
      requires Valid() && n < |g| && j < |g[n].src| == |src[n]| && CopiesOk(g, copies) && |inputs| <= MAX_SPLIT_INPUTS
      requires src[n][j] == g[n].src[j]
      modifies this`src, this`copies
      ensures Valid() && CopiesOk(g, copies) && Grows(old(copies), copies)
      ensures |src[n]| == |g[n].src| && forall k :: 0 <= k < |src[n]| && k != j ==> src[n][k] == old(src)[n][k]
      ensures forall t :: 0 <= t < |g| && t != n ==> src[t] == old(src)[t]
      ensures ok <==> talloc[g[n].src[j]] == Some(cur) || |inputs| < MAX_SPLIT_INPUTS
      ensures ok ==> |inputs'| <= MAX_SPLIT_INPUTS && ReadsFrom(talloc, copies, g[n].src[j], cur, src[n][j])
      ensures ok ==> inputs' == if talloc[g[n].src[j]] == Some(cur) then inputs else inputs + [g[n].src[j]]
      ensures ok && talloc[g[n].src[j]] != Some(cur) ==> (g[n].src[j], cur) in copies.index
      ensures copies == if !ok || talloc[g[n].src[j]] == Some(cur) || (g[n].src[j], cur) in old(copies).index
        then old(copies) else WithCopy(g, old(copies), g[n].src[j], cur)
    {
      hide CopiesOk, NodesOk, LeafsOk;
      var s := g[n].src[j];
      inputs', ok := inputs, true;
      if talloc[s] != Some(cur) {
        if |inputs| >= MAX_SPLIT_INPUTS {
          return false, inputs;
        }
        inputs' := inputs + [s];
        if (s, cur) !in copies.index {
          SourceEarlier(g, n, s);
          CopyAdded(g, copies, s, cur);
          copies := WithCopy(g, copies, s, cur);
        }
        src := src[n := src[n][j := copies.index[(s, cur)]]];
      }
    }

    method RewireNode(n: nat, cur: nat, inputs: seq<nat>) returns (ok: bool, inputs': seq<nat>)
      requires Valid() && n < |g| && src[n] == g[n].src && talloc[n] == Some(cur) && !g[n].viewOp
      requires CopiesOk(g, copies) && |inputs| <= MAX_SPLIT_INPUTS
      modifies this`src, this`copies
      ensures Valid() && CopiesOk(g, copies) && Grows(old(copies), copies)
      ensures ok <==> |inputs| + ForeignArgs(g, talloc, n, cur, |g[n].src|) <= MAX_SPLIT_INPUTS
      ensures ok ==>
        Rewired(g, talloc, copies, n, src[n]) && inputs <= inputs'
        && |inputs'| == |inputs| + ForeignArgs(g, talloc, n, cur, |g[n].src|)
      ensures ok ==> forall j :: 0 <= j < |g[n].src| && talloc[g[n].src[j]] != Some(cur) ==> g[n].src[j] in inputs'
      ensures ok ==> forall s :: s in inputs' ==>
        s in inputs || (s in g[n].src && talloc[s] != Some(cur) && (s, cur) in copies.index)
      ensures forall t :: 0 <= t < |g| && t != n ==> src[t] == old(src[t])
    {
      hide CopiesOk, NodesOk, LeafsOk;
      inputs', ok := inputs, true;
      for j := 0 to |g[n].src|
        invariant Valid() && CopiesOk(g, copies) && Grows(old(copies), copies)
        invariant |src[n]| == |g[n].src| && inputs <= inputs' && |inputs'| <= MAX_SPLIT_INPUTS
        invariant |inputs'| == |inputs| + ForeignArgs(g, talloc, n, cur, j)
        invariant forall k :: j <= k < |src[n]| ==> src[n][k] == g[n].src[k]
        invariant forall k :: 0 <= k < j ==> ReadsFrom(talloc, copies, g[n].src[k], cur, src[n][k])
        invariant forall k :: 0 <= k < j && talloc[g[n].src[k]] != Some(cur) ==> g[n].src[k] in inputs'
        invariant forall s :: s in inputs' ==>
          s in inputs || (s in g[n].src && talloc[s] != Some(cur) && (s, cur) in copies.index)
        invariant forall t :: 0 <= t < |g| && t != n ==> src[t] == old(src[t])
        invariant ok
      {
        ok, inputs' := RewireArgument(n, j, cur, inputs');
        if !ok {
          MoreArgs(g, talloc, n, cur, j + 1, |g[n].src|);
          return;
        }
      }
    }

    /** The first node that owns its memory. */
    method FirstOwner() returns (n: nat)
      requires Valid() && exists i :: 0 <= i < |nodes| && g[nodes[i]].viewSrc.None?
      ensures n < |g| && n in nodes && g[n].viewSrc.None? && g[n].isNode
        && FirstBackend(g, nodes, talloc, 0) == talloc[n]
    {
      var i := 0;
      while g[nodes[i]].viewSrc.Some?
        invariant i < |nodes| && forall k :: 0 <= k < i ==> g[nodes[k]].viewSrc.Some?
        invariant FirstBackend(g, nodes, talloc, 0) == FirstBackend(g, nodes, talloc, i)
        decreases |nodes| - i
      {
        i := i + 1;
      }
      n := nodes[i];
    }

    /** Pass 4: cut the node list where the allocator changes, and rewire arguments to copies. The
        source indexes its table with the backend of every node, so all nodes must have one. */
    method CutGraph() returns (ok: bool)
      requires Valid() && AllNodesAssigned(g, talloc) && copies == Copies(map[], [])
      requires forall t :: 0 <= t < |g| ==> src[t] == g[t].src
      requires exists i :: 0 <= i < |nodes| && g[nodes[i]].viewSrc.None?
      modifies this`src, this`copies, this`splits
      ensures Valid() && (ok <==> WithinLimits(g, nodes, talloc))
      ensures ok ==>
        Scheduled(g, nodes, talloc, copies, src, splits)
        && |splits| == Changes(g, nodes, talloc, FirstBackend(g, nodes, talloc, 0), |nodes|) + 1
    {
      hide CopiesOk, Rewired, SplitOk, Grows, InputsListed, GraphOk, LeafsOk, NodesOk, Counted, WithinLimits, Changes,
        ForeignArgs, FirstBackend, Tile;
      var first := FirstOwner();
      var cur := talloc[first].value;
      var start, inputs := 0, [];
      splits := [];
      NothingCopied(g);
      NothingRewired(g, nodes, src);
      NothingSplit(g, nodes, talloc, copies, cur);
      ghost var b0 := cur;
      NothingOpen(g, nodes, talloc, b0);
      for i := 0 to |nodes|
        invariant Counted(g, nodes, talloc, b0, i, cur, |splits|, |inputs|)
        invariant Valid() && talloc == old(talloc) && CopiesOk(g, copies)
        invariant start <= i && |inputs| <= MAX_SPLIT_INPUTS && |splits| < MAX_SPLITS
        invariant Contiguous(splits, start)
        invariant forall k :: 0 <= k < |splits| ==> SplitOk(g, nodes, talloc, copies, splits[k])
        invariant SplitOk(g, nodes, talloc, copies, Split(cur, start, i, inputs))
        invariant RewiredUpTo(g, nodes, talloc, copies, src, i) && UntouchedFrom(g, nodes, src, i)
      {
        var n := nodes[i];
        NodeInGraph(g, nodes, i);
        CountNext(g, nodes, talloc, b0, i, cur, |splits|, |inputs|);
        ghost var before, c := src, copies;
        ghost var open := inputs;
        ok := true;
        if !g[n].viewOp {
          if talloc[n] != Some(cur) {
            splits := splits + [Split(cur, start, i, inputs)];
            if |splits| >= MAX_SPLITS {
              return false;
            }
            cur, start, inputs := talloc[n].value, i, [];
            open := inputs;
            EmptySplit(g, nodes, talloc, copies, cur, i);
          }
          ok, inputs := RewireNode(n, cur, inputs);
          if !ok {
            return;
          }
        } else {
          ViewUnchanged(g, talloc, copies, n);
        }
        Extended(g, nodes, talloc, c, copies, Split(cur, start, i, open), inputs);
        KeptSplits(g, nodes, talloc, c, copies, splits);
        KeptSources(g, nodes, talloc, c, copies, before, src, i);
      }
      CountedAll(g, nodes, talloc, b0, cur, |splits|, |inputs|);
      ghost var closed := splits;
      splits := splits + [Split(cur, start, |nodes|, inputs)];
      AllRewired(g, nodes, talloc, copies, src);
      SplitsTile(nodes, closed, Split(cur, start, |nodes|, inputs));
      ok := true;
    }

    /** All four passes. After the second every node that is anchored has an allocator, and only
        those; when all nodes have one, so have all arguments in the end, and views are assigned
        like their source. `false` is a limit hit. */
    method SplitGraph() returns (ok: bool, ghost afterTwo: Assignment)
      requires Valid() && (forall t :: 0 <= t < |g| ==> talloc[t].None? && src[t] == g[t].src)
        && copies == Copies(map[], [])
      requires exists i :: 0 <= i < |nodes| && g[nodes[i]].viewSrc.None?
      requires forall n :: 0 <= n < |g| && g[n].isNode ==> Anchored(g, n)
      modifies this
      ensures Valid() && Assigned(g, afterTwo) && AllNodesAssigned(g, afterTwo)
      ensures forall t :: 0 <= t < |g| ==> ByRules(g, afterTwo, t)
      ensures Fills(afterTwo, talloc) && talloc == FilledBy(g, nodes, afterTwo, |nodes|)
      ensures forall t :: 0 <= t < |g| ==> (afterTwo[t].Some? <==> Anchored(g, t))
      ensures forall n, j :: 0 <= n < |g| && g[n].isNode && 0 <= j < |g[n].src| ==> talloc[g[n].src[j]].Some?
      ensures ok <==> WithinLimits(g, nodes, talloc)
      ensures ok ==> Scheduled(g, nodes, talloc, copies, src, splits) && |splits| <= MAX_SPLITS
    {
      AssignFromBuffers();
      AssignFromSources();
      afterTwo := talloc;
      forall t | 0 <= t < |g|
        ensures afterTwo[t].Some? <==> Anchored(g, t)
      {
        AssignedIffAnchored(g, afterTwo, t);
      }
      assert AllNodesAssigned(g, afterTwo);
      AssignRest();
      ok := CutGraph();
    }
  }
}
