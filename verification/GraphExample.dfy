/** A graph small enough to follow: its last node takes over the memory of the one before. */
module GraphExample {
  import opened Wrappers
  import opened FreeList
  import opened Arenas
  import opened GraphAlloc
  import opened GraphInvariant
  import opened GraphPlan
  import opened GraphMeaning
  import opened GraphReplay

  /** A leaf, a node that reads it, and a node that may work in place on that one. */
  function Chain(): Graph {
    [Tensor(false, false, [], None, 0, 4, 1), Tensor(true, false, [0], None, 0, 4, 1),
      Tensor(true, true, [1], None, 0, 4, 1)]
  }

  function After(free: seq<Block>, used: nat, children: seq<int>, views: seq<int>, data: seq<Option<nat>>,
                 viewSrc: seq<Option<nat>>, buffer: seq<Buffer>): State {
    State(Heap(0, 1, free, used), children, views, data, viewSrc, buffer)
  }

  lemma ChainOk(g: Graph, s: State)
    requires g == Chain() && s.Sized(3) && forall v :: 0 <= v < 3 && s.viewSrc[v].Some? ==> s.viewSrc[v].value < 3
    ensures Fits(g, s)
  {
  }

  /** What the allocator is given. */
  function Given(): State {
    After([Block(0, 100)], 0, [0, 0, 0], [0, 0, 0], [Some(200), None, None], [None, None, None],
      [Other, NoBuffer, NoBuffer])
  }

  lemma ChainCounted(g: Graph, s: State, nodes: seq<nat>)
    requires g == Chain() && s == Given() && nodes == [1, 2] && Fits(g, s) && NodesOk(g, nodes)
    ensures CountFrom(g, s, nodes, 0) == Some(s.(nChildren := [1, 1, 0]))
  {
    var s1, s2 := s.(nChildren := [1, 0, 0]), s.(nChildren := [1, 1, 0]);
    ChainOk(g, s1);
    ChainOk(g, s2);
    assert s.nChildren[0 := 1] == s1.nChildren && s1.nChildren[1 := 1] == s2.nChildren;
    assert CountEdges(g, s1, 1, 1) == Some(s1) && CountEdges(g, s, 1, 0) == Some(s1);
    assert CountEdges(g, s2, 2, 1) == Some(s2) && CountEdges(g, s1, 2, 0) == Some(s2);
    assert CountFrom(g, s2, nodes, 2) == Some(s2) && CountFrom(g, s1, nodes, 1) == Some(s2);
  }

  lemma FourBytes(n: pos)
    requires n == Padded(4, 1)
    ensures n == 4
  {
    AlignedOffsetIsLeast(0, 4, 1, 4);
  }

  lemma FirstBytes(h: Heap, h': Heap)
    requires h == Heap(0, 1, [Block(0, 100)], 0) && h' == Heap(0, 1, [Block(4, 96)], 4)
    ensures h.Alloc(4) == Some((0, h'))
  {
    FourBytes(Padded(4, 1));
    hide Padded;
    var free := h.free;
    assert BestFit(free, 4, 0) == -1;
    assert Chosen(free, 4) == 0;
    assert free[0 := Block(4, 96)] == h'.free;
  }

  /** The first node gets fresh memory. */
  lemma FirstPlaced(g: Graph, s: State, s': State)
    requires g == Chain() && s == Given().(nChildren := [1, 1, 0])
    requires s' == After([Block(4, 96)], 4, [1, 1, 0], [0, 0, 0], [Some(200), Some(0), None], [None, None, None],
      [Other, Own, NoBuffer])
    ensures Fits(g, s) && Fits(g, s') && PlaceFrom(g, s, 1, 0) == Some(s')
  {
    ChainOk(g, s);
    ChainOk(g, s');
    FirstBytes(s.heap, s'.heap);
    hide Padded, FreeList.Alloc;
    assert s.data[1 := Some(0)] == s'.data && s.buffer[1 := Own] == s'.buffer;
    assert HeapPlace(g, s, 1) == Some(s');
    assert AllocateNode(g, s, 0) == Some(s) && PlaceFrom(g, s, 1, 1) == Some(s');
  }

  /** The leaf has no consumer left, but its memory is not the allocator's. */
  lemma FirstCountedOff(g: Graph, s: State, s': State)
    requires g == Chain() && Fits(g, s) && s' == s.(nChildren := [0, 1, 0])
    requires s == After([Block(4, 96)], 4, [1, 1, 0], [0, 0, 0], [Some(200), Some(0), None], [None, None, None],
      [Other, Own, NoBuffer])
    ensures Fits(g, s') && UpdateFrom(g, s, 1, 0) == Some(s')
  {
    ChainOk(g, s');
    assert s.nChildren[0 := 0] == s'.nChildren;
    assert UpdateParent(g, s, 0) == Some(s') && UpdateFrom(g, s', 1, 1) == Some(s');
  }

  /** The second node takes over the memory of the first. */
  lemma SecondTakesOver(g: Graph, s: State, s': State)
    requires g == Chain() && Fits(g, s)
    requires s == After([Block(4, 96)], 4, [0, 1, 0], [0, 0, 0], [Some(200), Some(0), None], [None, None, None],
      [Other, Own, NoBuffer])
    requires s' == After([Block(4, 96)], 4, [0, 1, 0], [0, 1, 0], [Some(200), Some(0), Some(0)],
      [None, None, Some(1)], [Other, Own, Own])
    ensures Fits(g, s') && PlaceFrom(g, s, 2, 0) == Some(s')
  {
    ChainOk(g, s');
    assert Reusable(g, s, 2, 1) == Some(1) && FindReuse(g, s, 2, 0) == Some(1);
    assert s.viewSrc[2 := Some(1)] == s'.viewSrc && s.nViews[1 := 1] == s'.nViews;
    assert s.data[2 := Some(0)] == s'.data && s.buffer[2 := Own] == s'.buffer;
    assert TakeOver(g, s, 2, 1) == Some(s');
    assert AllocateNode(g, s, 1) == Some(s) && PlaceFrom(g, s, 2, 1) == Some(s');
  }

  lemma SecondCountedOff(g: Graph, s: State, s': State)
    requires g == Chain() && Fits(g, s) && s' == s.(nChildren := [0, 0, 0])
    requires s == After([Block(4, 96)], 4, [0, 1, 0], [0, 1, 0], [Some(200), Some(0), Some(0)], [None, None, Some(1)],
      [Other, Own, Own])
    ensures Fits(g, s') && UpdateFrom(g, s, 2, 0) == Some(s')
  {
    ChainOk(g, s');
    assert s.nChildren[1 := 0] == s'.nChildren;
    assert UpdateParent(g, s, 1) == Some(s') && UpdateFrom(g, s', 2, 1) == Some(s');
  }

  lemma ChainReady(g: Graph, s: State)
    requires g == Chain() && s == Given()
    ensures Ready0(g, s, 0, 100)
  {
    ChainOk(g, s);
    assert FirstOwners(g, s) == map[];
    assert forall t: nat :: IsRoot(g, t) && s.data[t].Some? && s.buffer[t] != Own ==> Outside(g, s, 0, 100, t);
  }

  lemma ChainInOrder(g: Graph, nodes: seq<nat>)
    requires g == Chain() && nodes == [1, 2]
    ensures NodesOk(g, nodes) && Topological(g, nodes)
  {
    assert nodes[..0] == [] && nodes[..1] == [1];
    assert Members([1]) == {1};
  }

  /** Nothing is vacuous: the hypotheses of `SequentialRunPreservesMeaning` hold of the chain, its
      allocation succeeds, and two of its nodes share their memory. */
  lemma MemoryIsShared(g: Graph, s: State, nodes: seq<nat>)
    requires g == Chain() && s == Given() && nodes == [1, 2]
    ensures Ready0(g, s, 0, 100) && NodesOk(g, nodes) && Topological(g, nodes) && InGraph(g, nodes)
    ensures AllocGraph(g, s, nodes, []).Some?
    ensures var s' := AllocGraph(g, s, nodes, []).value;
      s'.data == [Some(200), Some(0), Some(0)] && s'.buffer == [Other, Own, Own] && s'.heap.base == 0
        && s'.heap.maxSize == 4
  {
    ChainReady(g, s);
    ChainInOrder(g, nodes);
    ChainCounted(g, s, nodes);
    var s0 := s.(nChildren := [1, 1, 0]);
    var s1 := After([Block(4, 96)], 4, [1, 1, 0], [0, 0, 0], [Some(200), Some(0), None], [None, None, None],
      [Other, Own, NoBuffer]);
    var s2 := s1.(nChildren := [0, 1, 0]);
    var s3 := After([Block(4, 96)], 4, [0, 1, 0], [0, 1, 0], [Some(200), Some(0), Some(0)], [None, None, Some(1)],
      [Other, Own, Own]);
    var s4 := s3.(nChildren := [0, 0, 0]);
    FirstPlaced(g, s0, s1);
    FirstCountedOff(g, s1, s2);
    SecondTakesOver(g, s2, s3);
    SecondCountedOff(g, s3, s4);
    hide PlaceFrom, UpdateFrom, Fits, NodesOk, Ready0, Topological, CountFrom;
    TwoRounds(g, s0, s1, s2, s3, s4, nodes);
  }

  lemma TwoRounds(g: Graph, s0: State, s1: State, s2: State, s3: State, s4: State, nodes: seq<nat>)
    requires |g| == 3 && NodesOk(g, nodes) && nodes == [1, 2] && Fits(g, s0) && Fits(g, s1) && Fits(g, s2)
      && Fits(g, s3) && Fits(g, s4)
    requires PlaceFrom(g, s0, 1, 0) == Some(s1) && UpdateFrom(g, s1, 1, 0) == Some(s2)
    requires PlaceFrom(g, s2, 2, 0) == Some(s3) && UpdateFrom(g, s3, 2, 0) == Some(s4)
    ensures Loop(g, s0, nodes, [], 0, 0) == Some(s4)
  {
    hide PlaceFrom, UpdateFrom, Fits;
    assert UpdateRange(g, s2, nodes, [], 1, 1) == Some(s2) && UpdateRange(g, s1, nodes, [], 0, 1) == Some(s2);
    assert UpdateRange(g, s4, nodes, [], 2, 2) == Some(s4) && UpdateRange(g, s3, nodes, [], 1, 2) == Some(s4);
    assert Loop(g, s4, nodes, [], 2, 2) == Some(s4) && Loop(g, s2, nodes, [], 1, 1) == Some(s4);
  }

  /** The same chain in an arena of five bytes at address 1000: one more than the measured peak. */
  lemma ReplayedElsewhere(g: Graph, m: State, r: State, nodes: seq<nat>)
    requires g == Chain() && m == Given() && nodes == [1, 2]
    requires r == m.(heap := Heap(1000, 1, [Block(1000, 5)], 0))
    ensures NodesOk(g, nodes) && Fits(g, r) && AllocGraph(g, r, nodes, []).Some?
    ensures AllocGraph(g, r, nodes, []).value.data == [Some(200), Some(1000), Some(1000)]
  {
    hide Chain, Given, AllocGraph, GraphOk, Ready0, Topological, NodesOk, Separated, Groups, HeapsMatch;
    ChainStart(g, r);
    MemoryIsShared(g, m, nodes);
    var x := Sites(0, 100, 1000, 1005);
    ChainStarts(g, m, r, x);
    SequentialGroups(nodes, 0);
    SequentialSeparated(g, nodes, 0);
    assert nodes[..0] == [] && Members([]) == {} && nodes[0..] == nodes;
    MeasuredPlanReplays(g, x, m, r, nodes, []);
    var m', r' := AllocGraph(g, m, nodes, []).value, AllocGraph(g, r, nodes, []).value;
    assert SamePlace(x, m', r', 0) && SamePlace(x, m', r', 1) && SamePlace(x, m', r', 2);
  }

  lemma ChainStart(g: Graph, r: State)
    requires g == Chain() && r == Given().(heap := Heap(1000, 1, [Block(1000, 5)], 0))
    ensures |g| == 3 && Fits(g, r)
  {
    ChainOk(g, r);
  }

  lemma ChainStarts(g: Graph, m: State, r: State, x: Sites)
    requires |g| == 3 && m == Given() && Fits(g, m) && Fits(g, r)
    requires r == m.(heap := Heap(1000, 1, [Block(1000, 5)], 0)) && x == Sites(0, 100, 1000, 1005)
    ensures Replays(g, x, m, r)
  {
    hide *;
    GivenParts(m);
    ResetHeap(m.heap, 0, 100);
    ResetHeap(r.heap, 1000, 5);
    OnlyHeapsDiffer(g, m, r, 100, 5);
    SitesFromLows(m.heap, r.heap, 0, 1000, 100, 5);
    StartReplays(g, m, r, 100, 5);
  }

  lemma SitesFromLows(m: Heap, r: Heap, lo: nat, rLo: nat, span: pos, rSpan: pos)
    requires ArenaOf(m, 0).Lo() == lo && ArenaOf(r, 0).Lo() == rLo
    ensures SitesOf(m, r, span, rSpan) == Sites(lo, lo + span, rLo, rLo + rSpan)
  {
  }

  lemma GivenParts(m: State)
    requires m == Given()
    ensures m.heap == Heap(0, 1, [Block(0, 100)], 0)
    ensures |m.buffer| == 3 && m.buffer[0] != Own && m.buffer[1] != Own && m.buffer[2] != Own
  {
  }

  lemma OnlyHeapsDiffer(g: Graph, m: State, r: State, span: pos, rSpan: pos)
    requires Fits(g, m) && Fits(g, r) && r == m.(heap := r.heap) && forall t :: 0 <= t < |g| ==> m.buffer[t] != Own
    requires m.heap == FreshHeap(m.heap.base, m.heap.alignment, span, m.heap.maxSize)
    requires r.heap == FreshHeap(r.heap.base, m.heap.alignment, rSpan, r.heap.maxSize)
    ensures SameStart(g, m, r, span, rSpan)
  {
  }

  lemma ResetHeap(h: Heap, base: nat, span: pos)
    requires h == Heap(base, 1, [Block(base, span)], 0)
    ensures h == FreshHeap(base, 1, span, 0) && ArenaOf(h, 0).Lo() == base
  {
    AlignedOffsetIsLeast(base, 0, 1, 0);
  }
}
