/** The invariant of the graph allocator holds through counting and through every group. */
module GraphPlan {
  import opened Wrappers
  import opened FreeList
  import opened Arenas
  import opened GraphAlloc
  import opened GraphInvariant
  import opened GraphPlace
  import opened GraphRelease

  // ---------------------------------------------------------------- before the graph is planned

  /** Roots that lie in the arena from the start own the memory they lie in. */
  ghost function FirstOwners(g: Graph, s: State): map<nat, nat>
    requires Fits(g, s)
  {
    map t: nat | t < |g| && InArena(g, s, t) :: Padded(g[t].size, s.heap.alignment)
  }

  ghost function Start(g: Graph, s: State): History
    requires Fits(g, s)
  {
    History({}, {}, {}, {}, FirstOwners(g, s))
  }

  /** Leaves have memory; counters are zero; views that have memory already agree with their source;
      memory in use is disjoint. */
  ghost predicate Ready0(g: Graph, s: State, lo: nat, hi: nat) {
    && Fits(g, s)
    && (forall t :: 0 <= t < |g| ==> s.nChildren[t] == 0 && s.nViews[t] == 0 && s.viewSrc[t] == g[t].viewSrc)
    && (forall t :: 0 <= t < |g| && !g[t].isNode ==> s.data[t].Some?)
    && (forall t :: 0 <= t < |g| && s.buffer[t] == Own ==> s.data[t].Some?)
    && (forall v :: 0 <= v < |g| && g[v].viewSrc.Some? ==> ViewReady(g, s, v))
    && Regions(g, s, Start(g, s), lo, hi)
  }

  ghost predicate ViewReady(g: Graph, s: State, v: nat)
    requires Fits(g, s) && v < |g| && g[v].viewSrc.Some?
  {
    var r := g[v].viewSrc.value;
    r < |g| && (s.data[v].Some? ==> && s.data[r].Some? && s.data[v].value == s.data[r].value + g[v].offs
                                    && (s.buffer[v] == s.buffer[r] || s.buffer[v] == NoBuffer))
  }

  // ---------------------------------------------------------------- counting

  /** Counting changes counters, and the buffer of views that have memory. */
  ghost predicate CountFrame(g: Graph, s0: State, s: State)
    requires Fits(g, s0) && Fits(g, s)
  {
    && s.heap == s0.heap && s.viewSrc == s0.viewSrc && s.data == s0.data
    && (forall t :: 0 <= t < |g| && g[t].viewSrc.None? ==> s.buffer[t] == s0.buffer[t])
    && (forall v :: 0 <= v < |g| && g[v].viewSrc.Some? ==> ViewReady(g, s, v))
    && (forall t :: 0 <= t < |g| && s.data[t].None? ==> s.buffer[t] == s0.buffer[t])
  }

  ghost function EdgesOf(g: Graph, ns: set<nat>, n: nat, j: nat, t: nat): set<Edge> {
    set e | e in Edges(g) && Target(g, e) == t && (e.node in ns || (e.node == n && e.slot < j))
  }

  ghost function ViewsOf(g: Graph, ns: set<nat>, t: nat): set<nat> {
    set v: nat | v < |g| && g[v].viewSrc == Some(t) && v in ns
  }

  /** Views among `ns` that have memory have their buffer too. */
  ghost predicate Initialised(g: Graph, s: State, ns: set<nat>)
    requires Fits(g, s)
  {
    forall v :: v in ns && v < |g| && g[v].viewSrc.Some? && s.data[v].Some? ==>
      s.buffer[v] != NoBuffer || BufferSettled(g, s, v)
  }

  ghost predicate BufferSettled(g: Graph, s: State, v: nat)
    requires Fits(g, s) && v < |g| && g[v].viewSrc.Some?
  {
    g[v].viewSrc.value < |g| && s.buffer[v] == s.buffer[g[v].viewSrc.value]
  }

  ghost predicate CountsAre(g: Graph, s: State, ns: set<nat>, views: set<nat>, n: nat, j: nat)
    requires Fits(g, s)
  {
    forall t :: 0 <= t < |g| ==> s.nChildren[t] == |EdgesOf(g, ns, n, j, t)| && s.nViews[t] == |ViewsOf(g, views, t)|
  }

  lemma InitKeepsFrame(g: Graph, s0: State, s: State, v: nat, ns: set<nat>)
    requires Fits(g, s0) && Fits(g, s) && CountFrame(g, s0, s) && v < |g| && Initialised(g, s, ns)
    requires (forall t :: 0 <= t < |g| ==> s0.viewSrc[t] == g[t].viewSrc)
    requires s.viewSrc[v].Some? && s.data[v].Some?
    ensures InitView(g, s, v).Some?
    ensures var s' := InitView(g, s, v).value;
      CountFrame(g, s0, s') && s' == s.(buffer := s'.buffer) && BufferSettled(g, s', v)
    ensures Initialised(g, InitView(g, s, v).value, ns)
  {
    assert g[v].viewSrc.Some? && ViewReady(g, s, v);
    var s' := InitView(g, s, v).value;
    var r := g[v].viewSrc.value;
    assert ViewOk(g, v);
    assert s'.data == s.data;
    forall u | 0 <= u < |g| && g[u].viewSrc.Some?
      ensures ViewReady(g, s', u)
      ensures s.data[u].Some? && (s.buffer[u] != NoBuffer || BufferSettled(g, s, u)) ==>
        s'.buffer[u] != NoBuffer || BufferSettled(g, s', u)
    {
      assert ViewReady(g, s, u) && ViewOk(g, u);
    }
  }

  lemma OneMoreEdge(g: Graph, ns: set<nat>, n: nat, j: nat)
    requires n < |g| && j < |g[n].src| && n !in ns
    ensures EdgesOf(g, ns, n, j + 1, g[n].src[j]) == EdgesOf(g, ns, n, j, g[n].src[j]) + {Edge(n, j)}
    ensures Edge(n, j) !in EdgesOf(g, ns, n, j, g[n].src[j])
    ensures forall t: nat :: t != g[n].src[j] ==> EdgesOf(g, ns, n, j + 1, t) == EdgesOf(g, ns, n, j, t)
  {
  }

  lemma {:induction false} CountEdgesCounts(g: Graph, s0: State, s: State, n: nat, j: nat, ns: set<nat>,
                                            views: set<nat>)
    requires Fits(g, s0) && Fits(g, s) && CountFrame(g, s0, s) && n < |g| && j <= |g[n].src| && n !in ns
    requires (forall t :: 0 <= t < |g| ==> s0.viewSrc[t] == g[t].viewSrc)
    requires CountsAre(g, s, ns, views, n, j) && Initialised(g, s, views)
    ensures CountEdges(g, s, n, j).Some?
    ensures var s' := CountEdges(g, s, n, j).value;
      CountFrame(g, s0, s') && CountsAre(g, s', ns, views, n, |g[n].src|) && Initialised(g, s', views)
    decreases |g[n].src| - j
  {
    hide CountFrame, Initialised, CountsAre, GraphOk;
    if j < |g[n].src| {
      SourceInGraph(g, n, j);
      var p := g[n].src[j];
      var s1 := s.(nChildren := s.nChildren[p := s.nChildren[p] + 1]);
      OneEdgeCounted(g, s, n, j, ns, views);
      FrameWithCounters(g, s0, s, s1, views);
      if Uninitialised(s1, p) {
        InitKeepsFrame(g, s0, s1, p, views);
        CountsOfBuffers(g, s1, InitView(g, s1, p).value, ns, views, n, j + 1);
        CountEdgesCounts(g, s0, InitView(g, s1, p).value, n, j + 1, ns, views);
      } else {
        CountEdgesCounts(g, s0, s1, n, j + 1, ns, views);
      }
    }
  }

  lemma OneEdgeCounted(g: Graph, s: State, n: nat, j: nat, ns: set<nat>, views: set<nat>)
    requires Fits(g, s) && n < |g| && j < |g[n].src| && n !in ns && g[n].src[j] < |g|
      && CountsAre(g, s, ns, views, n, j)
    ensures CountsAre(g, s.(nChildren := s.nChildren[g[n].src[j] := s.nChildren[g[n].src[j]] + 1]), ns, views, n, j + 1)
  {
    OneMoreEdge(g, ns, n, j);
  }

  lemma CountsOfBuffers(g: Graph, s: State, s': State, ns: set<nat>, views: set<nat>, n: nat, j: nat)
    requires Fits(g, s) && Fits(g, s') && s' == s.(buffer := s'.buffer) && CountsAre(g, s, ns, views, n, j)
    ensures CountsAre(g, s', ns, views, n, j)
  {
  }

  lemma FrameWithCounters(g: Graph, s0: State, s: State, s1: State, ns: set<nat>)
    requires Fits(g, s0) && Fits(g, s) && Fits(g, s1) && CountFrame(g, s0, s) && Initialised(g, s, ns)
    requires s1 == s.(nChildren := s1.nChildren, nViews := s1.nViews)
    ensures CountFrame(g, s0, s1) && Initialised(g, s1, ns)
  {
    forall v | 0 <= v < |g| && g[v].viewSrc.Some?
      ensures ViewReady(g, s1, v)
    {
      assert ViewReady(g, s, v);
    }
  }

  lemma NextNode(g: Graph, ns: set<nat>, n: nat, t: nat)
    requires n < |g| && n !in ns
    ensures EdgesOf(g, ns + {n}, 0, 0, t) == EdgesOf(g, ns, n, |g[n].src|, t)
    ensures EdgesOf(g, ns, n, 0, t) == EdgesOf(g, ns, 0, 0, t)
  {
  }

  lemma ViewCounted(g: Graph, ns: set<nat>, n: nat)
    requires n < |g| && n !in ns
    ensures g[n].viewSrc.Some? ==> ViewsOf(g, ns + {n}, g[n].viewSrc.value) == ViewsOf(g, ns, g[n].viewSrc.value) + {n}
    ensures g[n].viewSrc.Some? ==> n !in ViewsOf(g, ns, g[n].viewSrc.value)
    ensures forall t: nat :: g[n].viewSrc != Some(t) ==> ViewsOf(g, ns + {n}, t) == ViewsOf(g, ns, t)
  {
  }

  lemma CountNodeCounts(g: Graph, s0: State, s: State, n: nat, ns: set<nat>)
    requires Fits(g, s0) && Fits(g, s) && CountFrame(g, s0, s) && n < |g| && n !in ns
    requires (forall t :: 0 <= t < |g| ==> s0.viewSrc[t] == g[t].viewSrc)
    requires CountsAre(g, s, ns, ns, 0, 0) && Initialised(g, s, ns)
    ensures CountNode(g, s, n).Some?
    ensures var s' := CountNode(g, s, n).value;
      CountFrame(g, s0, s') && CountsAre(g, s', ns + {n}, ns + {n}, 0, 0) && Initialised(g, s', ns + {n})
  {
    hide CountFrame, Initialised, CountsAre, GraphOk;
    NodeStarts(g, s0, s, n, ns);
    if s.viewSrc[n].None? {
      WiderViews(g, s0, s, n, ns);
      CountEdgesCounts(g, s0, s, n, 0, ns, ns + {n});
      NodeEnds(g, CountEdges(g, s, n, 0).value, n, ns);
    } else {
      var q := s.viewSrc[n].value;
      var s1 := s.(nViews := s.nViews[q := s.nViews[q] + 1]);
      FrameWithCounters(g, s0, s, s1, ns);
      if s1.buffer[n] == NoBuffer && s1.data[n].Some? {
        var s2 := InitViewCounts(g, s0, s1, n, ns);
        CountEdgesCounts(g, s0, s2, n, 0, ns, ns + {n});
        NodeEnds(g, CountEdges(g, s2, n, 0).value, n, ns);
      } else {
        WiderViews(g, s0, s1, n, ns);
        CountEdgesCounts(g, s0, s1, n, 0, ns, ns + {n});
        NodeEnds(g, CountEdges(g, s1, n, 0).value, n, ns);
      }
    }
  }

  /** The counts before the sources of `n` are looked at. */
  lemma NodeStarts(g: Graph, s0: State, s: State, n: nat, ns: set<nat>)
    requires Fits(g, s0) && Fits(g, s) && CountFrame(g, s0, s) && n < |g| && n !in ns && CountsAre(g, s, ns, ns, 0, 0)
    requires forall t :: 0 <= t < |g| ==> s0.viewSrc[t] == g[t].viewSrc
    ensures s.viewSrc[n] == g[n].viewSrc
    ensures s.viewSrc[n].None? ==> CountsAre(g, s, ns, ns + {n}, n, 0)
    ensures s.viewSrc[n].Some? ==>
      CountsAre(g, s.(nViews := s.nViews[s.viewSrc[n].value := s.nViews[s.viewSrc[n].value] + 1]), ns, ns + {n}, n, 0)
  {
    hide EdgesOf, ViewsOf, GraphOk;
    SameEdges(g, ns, n);
    ViewCounted(g, ns, n);
  }

  lemma SameEdges(g: Graph, ns: set<nat>, n: nat)
    requires n < |g| && n !in ns
    ensures forall t: nat :: EdgesOf(g, ns, n, 0, t) == EdgesOf(g, ns, 0, 0, t)
    ensures forall t: nat :: EdgesOf(g, ns + {n}, 0, 0, t) == EdgesOf(g, ns, n, |g[n].src|, t)
  {
    forall t: nat
      ensures EdgesOf(g, ns, n, 0, t) == EdgesOf(g, ns, 0, 0, t)
      ensures EdgesOf(g, ns + {n}, 0, 0, t) == EdgesOf(g, ns, n, |g[n].src|, t)
    {
      NextNode(g, ns, n, t);
    }
  }

  /** And those after. */
  lemma NodeEnds(g: Graph, s: State, n: nat, ns: set<nat>)
    requires Fits(g, s) && n < |g| && n !in ns && CountsAre(g, s, ns, ns + {n}, n, |g[n].src|)
    ensures CountsAre(g, s, ns + {n}, ns + {n}, 0, 0)
  {
    hide EdgesOf, ViewsOf, GraphOk;
    SameEdges(g, ns, n);
  }

  lemma WiderViews(g: Graph, s0: State, s: State, n: nat, ns: set<nat>)
    requires Fits(g, s0) && Fits(g, s) && CountFrame(g, s0, s) && n < |g| && Initialised(g, s, ns)
    requires s.viewSrc[n].Some? ==> !(s.buffer[n] == NoBuffer && s.data[n].Some?)
    requires forall t :: 0 <= t < |g| ==> s0.viewSrc[t] == g[t].viewSrc
    ensures Initialised(g, s, ns + {n})
  {
  }

  lemma InitViewCounts(g: Graph, s0: State, s: State, n: nat, ns: set<nat>) returns (s': State)
    requires Fits(g, s0) && Fits(g, s) && CountFrame(g, s0, s) && n < |g| && n !in ns && Initialised(g, s, ns)
      && CountsAre(g, s, ns, ns + {n}, n, 0)
    requires s.viewSrc[n].Some? && s.buffer[n] == NoBuffer && s.data[n].Some?
    requires forall t :: 0 <= t < |g| ==> s0.viewSrc[t] == g[t].viewSrc
    ensures InitView(g, s, n) == Some(s') && Fits(g, s') && CountFrame(g, s0, s') && Initialised(g, s', ns + {n})
      && CountsAre(g, s', ns, ns + {n}, n, 0)
  {
    InitKeepsFrame(g, s0, s, n, ns);
    s' := InitView(g, s, n).value;
  }

  ghost function Members(ns: seq<nat>): set<nat> {
    set n | n in ns
  }

  lemma {:induction false} CountFromCounts(g: Graph, s0: State, s: State, nodes: seq<nat>, i: nat)
    requires Fits(g, s0) && Fits(g, s) && CountFrame(g, s0, s) && NodesOk(g, nodes) && i <= |nodes|
    requires (forall t :: 0 <= t < |g| ==> s0.viewSrc[t] == g[t].viewSrc)
    requires CountsAre(g, s, Members(nodes[..i]), Members(nodes[..i]), 0, 0) && Initialised(g, s, Members(nodes[..i]))
    ensures CountFrom(g, s, nodes, i).Some?
    ensures var s' := CountFrom(g, s, nodes, i).value;
      CountFrame(g, s0, s') && CountsAre(g, s', Members(nodes), Members(nodes), 0, 0)
        && Initialised(g, s', Members(nodes))
    decreases |nodes| - i
  {
    hide CountFrame, Initialised, CountsAre, GraphOk;
    if i == |nodes| {
      assert nodes[..i] == nodes;
    } else {
      var ns := Members(nodes[..i]);
      assert Members(nodes[..i + 1]) == ns + {nodes[i]} by {
        assert nodes[..i + 1] == nodes[..i] + [nodes[i]];
      }
      CountNodeCounts(g, s0, s, nodes[i], ns);
      CountFromCounts(g, s0, CountNode(g, s, nodes[i]).value, nodes, i + 1);
    }
  }

  /** Counting establishes the invariant. */
  lemma CountingStarts(g: Graph, s0: State, nodes: seq<nat>, lo: nat, hi: nat)
    requires Ready0(g, s0, lo, hi) && NodesOk(g, nodes)
    ensures CountFrom(g, s0, nodes, 0).Some?
    ensures var s := CountFrom(g, s0, nodes, 0).value;
      Inv(g, s, Start(g, s0), lo, hi) && s.data == s0.data
  {
    assert Members(nodes[..0]) == {};
    assert CountsAre(g, s0, {}, {}, 0, 0) by {
      forall t | 0 <= t < |g|
        ensures EdgesOf(g, {}, 0, 0, t) == {} && ViewsOf(g, {}, t) == {}
      {
      }
    }
    CountFromCounts(g, s0, s0, nodes, 0);
    var s, h := CountFrom(g, s0, nodes, 0).value, Start(g, s0);
    forall t: nat | t < |g|
      ensures EdgesOf(g, Members(nodes), 0, 0, t) == Undone(g, {}, t)
      ensures ViewsOf(g, Members(nodes), t) == Viewers(s.viewSrc, {}, t)
    {
      AllCounted(g, s, nodes, t);
    }
    assert Counted(g, s, h);
    StartAliases(g, s0, s, nodes, lo, hi);
    StartRegions(g, s0, s, h, lo, hi);
    assert Progress(g, s, h);
    assert forall t: nat :: InArena(g, s, t) <==> InArena(g, s0, t);
    assert forall t: nat :: !TookOver(g, s, t);
  }

  lemma AllCounted(g: Graph, s: State, nodes: seq<nat>, t: nat)
    requires Fits(g, s) && NodesOk(g, nodes) && t < |g|
    requires forall u :: 0 <= u < |g| ==> s.viewSrc[u] == g[u].viewSrc
    ensures EdgesOf(g, Members(nodes), 0, 0, t) == Undone(g, {}, t)
    ensures ViewsOf(g, Members(nodes), t) == Viewers(s.viewSrc, {}, t)
  {
    forall e | e in Undone(g, {}, t)
      ensures e in EdgesOf(g, Members(nodes), 0, 0, t)
    {
      assert g[e.node].isNode;
    }
    forall v | v in Viewers(s.viewSrc, {}, t)
      ensures v in ViewsOf(g, Members(nodes), t)
    {
      assert ViewOk(g, v);
    }
  }

  lemma StartAliases(g: Graph, s0: State, s: State, nodes: seq<nat>, lo: nat, hi: nat)
    requires Ready0(g, s0, lo, hi) && NodesOk(g, nodes) && Fits(g, s) && CountFrame(g, s0, s)
      && Initialised(g, s, Members(nodes))
    ensures Aliases(g, s, Start(g, s0))
  {
    forall v | 0 <= v < |g| && g[v].viewSrc.Some?
      ensures ViewAlias(g, s, v)
    {
      assert ViewOk(g, v) && ViewReady(g, s, v);
      assert v in Members(nodes);
    }
    forall t | 0 <= t < |g| && s.buffer[t] == Own
      ensures s.data[t].Some?
    {
      OwnHasData(g, s0, s, t, lo, hi);
    }
  }

  lemma OwnHasData(g: Graph, s0: State, s: State, t: nat, lo: nat, hi: nat)
    requires Ready0(g, s0, lo, hi) && Fits(g, s) && CountFrame(g, s0, s) && t < |g| && s.buffer[t] == Own
    ensures s.data[t].Some?
  {
  }

  lemma StartRegions(g: Graph, s0: State, s: State, h: History, lo: nat, hi: nat)
    requires Fits(g, s0) && Fits(g, s) && CountFrame(g, s0, s) && Regions(g, s0, h, lo, hi)
    ensures Regions(g, s, h, lo, hi)
  {
    forall o | o in h.owner
      ensures OwnerOk(g, s, h, lo, hi, o)
    {
      assert OwnerOk(g, s0, h, lo, hi, o);
    }
    forall t: nat | IsRoot(g, t) && s.data[t].Some? && s.buffer[t] != Own
      ensures Outside(g, s, lo, hi, t)
    {
      assert Outside(g, s0, lo, hi, t);
    }
  }

  // ---------------------------------------------------------------- groups

  /** A leaf, or a node of an earlier group. */
  ghost predicate Available(g: Graph, placed: set<nat>, t: nat) {
    t < |g| && (g[t].isNode ==> t in placed)
  }

  ghost predicate NodeOk(g: Graph, placed: set<nat>, n: nat) {
    && n < |g| && g[n].isNode && n !in placed
    && (forall j :: 0 <= j < |g[n].src| ==> Available(g, placed, g[n].src[j]))
    && (g[n].viewSrc.Some? ==> Available(g, placed, g[n].viewSrc.value))
  }

  /** Every node of the group is new and depends on earlier groups only. */
  ghost predicate GroupOk(g: Graph, placed: set<nat>, ns: seq<nat>) {
    && (forall i :: 0 <= i < |ns| ==> NodeOk(g, placed, ns[i]))
    && (forall i, j :: 0 <= i < j < |ns| ==> ns[i] != ns[j])
  }

  /** Barriers separate dependent nodes. */
  ghost predicate Separated(g: Graph, placed: set<nat>, groups: seq<seq<nat>>, tail: seq<nat>)
    decreases |groups|
  {
    if groups == [] then GroupOk(g, placed, tail)
    else GroupOk(g, placed, groups[0]) && Separated(g, placed + Members(groups[0]), groups[1..], tail)
  }

  /** All members of the open group have memory, and none of its edges is counted off. */
  ghost predicate Opened(g: Graph, h0: History, h: History, ns: seq<nat>) {
    h.placed == h0.placed + Members(ns) && h.group == Members(ns) && h.done == h0.done
  }

  lemma MembersSnoc(ns: seq<nat>)
    requires |ns| > 0
    ensures Members(ns) == Members(ns[..|ns| - 1]) + {ns[|ns| - 1]}
  {
    assert ns == ns[..|ns| - 1] + [ns[|ns| - 1]];
  }

  lemma {:induction false} PlaceGroup(g: Graph, s: State, h: History, lo: nat, hi: nat, ns: seq<nat>)
      returns (h': History)
    requires Inv(g, s, h, lo, hi) && h.group == {} && GroupOk(g, h.placed, ns) && InGraph(g, ns)
      && PlaceAll(g, s, ns).Some?
    ensures Inv(g, PlaceAll(g, s, ns).value, h', lo, hi) && GroupSafe(g, PlaceAll(g, s, ns).value, h')
    ensures Opened(g, h, h', ns) && DataKept(g, s, PlaceAll(g, s, ns).value)
    decreases |ns|
  {
    hide Counted, Progress, Aliases, Regions, NeededOwned, OthersSuperseded, TakeoversOk, ReleasedOk, GraphOk;
    if ns == [] {
      h' := h;
    } else {
      var n, front := ns[|ns| - 1], ns[..|ns| - 1];
      hide GroupSafe;
      var h1 := PlaceGroup(g, s, h, lo, hi, front);
      MembersSnoc(ns);
      assert NodeOk(g, h.placed, n);
      CanPlaceNext(g, h, h1, front, n);
      h' := PlaceNode(g, PlaceAll(g, s, front).value, h1, lo, hi, n);
    }
  }

  lemma CanPlaceNext(g: Graph, h: History, h1: History, front: seq<nat>, n: nat)
    requires GraphOk(g) && NodeOk(g, h.placed, n) && Opened(g, h, h1, front) && n !in front
    requires forall i :: 0 <= i < |front| ==> front[i] !in h.placed
    ensures CanPlace(g, h1, n)
  {
    forall e | e in Edges(g) && e.node == n
      ensures Ready(g, h1, Target(g, e))
    {
      assert Available(g, h.placed, g[n].src[e.slot]);
    }
  }

  ghost function EdgesFrom(g: Graph, n: nat, j: nat): set<Edge> {
    set e | e in Edges(g) && e.node == n && e.slot >= j
  }

  lemma {:induction false} UpdateNode(g: Graph, s: State, h: History, lo: nat, hi: nat, n: nat, j: nat)
      returns (h': History)
    requires Inv(g, s, h, lo, hi) && n in h.group && n < |g| && j <= |g[n].src| && h.done !! EdgesFrom(g, n, j)
    requires UpdateFrom(g, s, n, j).Some?
    ensures Inv(g, UpdateFrom(g, s, n, j).value, h', lo, hi)
    ensures h'.placed == h.placed && h'.group == h.group && h'.done == h.done + EdgesFrom(g, n, j)
    ensures UpdateFrom(g, s, n, j).value.data == s.data
    decreases |g[n].src| - j
  {
    hide Counted, Progress, Aliases, Regions, NeededOwned, OthersSuperseded, TakeoversOk, ReleasedOk, GraphOk;
    if j == |g[n].src| {
      h' := h;
    } else {
      var e := Edge(n, j);
      SourceInGraph(g, n, j);
      assert EdgesFrom(g, n, j) == {e} + EdgesFrom(g, n, j + 1);
      var h1 := UpdateEdge(g, s, h, lo, hi, e);
      h' := UpdateNode(g, UpdateParent(g, s, g[n].src[j]).value, h1, lo, hi, n, j + 1);
    }
  }

  ghost function EdgesOfAll(g: Graph, ns: seq<nat>): set<Edge> {
    set e | e in Edges(g) && e.node in ns
  }

  lemma {:induction false} UpdateGroup(g: Graph, s: State, h: History, lo: nat, hi: nat, ns: seq<nat>)
      returns (h': History)
    requires Inv(g, s, h, lo, hi) && InGraph(g, ns) && h.done !! EdgesOfAll(g, ns)
    requires (forall i :: 0 <= i < |ns| ==> ns[i] in h.group) && (forall i, j :: 0 <= i < j < |ns| ==> ns[i] != ns[j])
    requires UpdateAll(g, s, ns).Some?
    ensures Inv(g, UpdateAll(g, s, ns).value, h', lo, hi)
    ensures h'.placed == h.placed && h'.group == h.group && h'.done == h.done + EdgesOfAll(g, ns)
    ensures UpdateAll(g, s, ns).value.data == s.data
    decreases |ns|
  {
    hide Counted, Progress, Aliases, Regions, NeededOwned, OthersSuperseded, TakeoversOk, ReleasedOk, GraphOk;
    if ns == [] {
      h' := h;
    } else {
      assert EdgesOfAll(g, ns) == EdgesFrom(g, ns[0], 0) + EdgesOfAll(g, ns[1..]);
      assert EdgesFrom(g, ns[0], 0) !! EdgesOfAll(g, ns[1..]);
      var h1 := UpdateNode(g, s, h, lo, hi, ns[0], 0);
      h' := UpdateGroup(g, UpdateFrom(g, s, ns[0], 0).value, h1, lo, hi, ns[1..]);
    }
  }

  ghost function Close(h: History): History {
    h.(group := {})
  }

  /** At the end of a group no takeover is pending any more. */
  lemma CloseGroup(g: Graph, s: State, h: History, lo: nat, hi: nat)
    requires Inv(g, s, h, lo, hi)
    requires forall e :: e in Edges(g) && e.node in h.group ==> e in h.done
    ensures Inv(g, s, Close(h), lo, hi)
  {
    hide GraphOk;
    var h' := Close(h);
    CloseProgress(g, s, h);
    AliasesSame(g, s, h, s, h');
    RegionsSame(g, s, h, lo, hi, s, h');
    CloseSuperseded(g, s, h);
    CloseTakeovers(g, s, h);
  }

  lemma CloseProgress(g: Graph, s: State, h: History)
    requires Fits(g, s) && Progress(g, s, h) && forall e :: e in Edges(g) && e.node in h.group ==> e in h.done
    ensures Progress(g, s, Close(h))
  {
    forall e | e in Edges(g) && e.node in h.placed
      ensures Ready(g, Close(h), Target(g, e))
    {
      assert Ready(g, h, Target(g, e));
    }
    forall v | v in h.placed && v < |g| && g[v].viewSrc.Some?
      ensures Ready(g, Close(h), g[v].viewSrc.value)
    {
      assert Ready(g, h, g[v].viewSrc.value);
    }
  }

  lemma NothingPending(g: Graph, h: History, t: nat, x: nat)
    requires x in h.group && OnlyReadBy(g, h.done, t, x)
    requires forall e :: e in Edges(g) && e.node in h.group ==> e in h.done
    ensures Undone(g, h.done, t) == {}
  {
  }

  lemma CloseSuperseded(g: Graph, s: State, h: History)
    requires Fits(g, s) && Counted(g, s, h) && OthersSuperseded(g, s, h)
    requires forall e :: e in Edges(g) && e.node in h.group ==> e in h.done
    ensures OthersSuperseded(g, s, Close(h))
  {
    forall t: nat | InArena(g, s, t) && t !in h.owner
      ensures Superseded(g, s, Close(h), t)
    {
      assert Superseded(g, s, h, t);
      if x: nat :| PassedOn(g, s, h, t, x) {
        NothingPending(g, h, t, x);
        assert s.nChildren[t] == |Undone(g, h.done, t)|;
      }
    }
  }

  lemma CloseTakeovers(g: Graph, s: State, h: History)
    requires Fits(g, s) && TakeoversOk(g, s, h)
    requires forall e :: e in Edges(g) && e.node in h.group ==> e in h.done
    ensures TakeoversOk(g, s, Close(h))
  {
    forall x: nat | x < |g| && TookOver(g, s, x) && x !in h.released
      ensures TakeoverOk(g, s, Close(h), x)
    {
      assert TakeoverOk(g, s, h, x);
      var q := s.viewSrc[x].value;
      if x in h.group {
        NothingPending(g, h, q, x);
      }
      forall v | v in Viewers(s.viewSrc, h.released, q)
        ensures v == x
      {
        SoleSuccessor(g, s, h, x, v);
      }
    }
  }

  lemma SoleSuccessor(g: Graph, s: State, h: History, x: nat, v: nat)
    requires Fits(g, s) && TakeoversOk(g, s, h) && x < |g| && TookOver(g, s, x) && x !in h.released
    requires v in Viewers(s.viewSrc, h.released, s.viewSrc[x].value)
    requires forall e :: e in Edges(g) && e.node in h.group ==> e in h.done
    ensures v == x
  {
    assert TakeoverOk(g, s, h, x);
    if x in h.group && v != x {
      NothingPending(g, h, v, x);
    } else if v != x {
      assert TakeoverOk(g, s, h, v);
      assert x in Viewers(s.viewSrc, h.released, s.viewSrc[x].value);
      NothingPending(g, h, x, v);
    }
  }

  /** A whole group: placed, counted off, closed. */
  lemma WholeGroup(g: Graph, s: State, h: History, lo: nat, hi: nat, ns: seq<nat>) returns (h1: History, h2: History)
    requires Inv(g, s, h, lo, hi) && h.group == {} && GroupOk(g, h.placed, ns) && InGraph(g, ns)
    requires PlaceAll(g, s, ns).Some? && UpdateAll(g, PlaceAll(g, s, ns).value, ns).Some?
    ensures var s1 := PlaceAll(g, s, ns).value;
      Inv(g, s1, h1, lo, hi) && GroupSafe(g, s1, h1) && Opened(g, h, h1, ns) && DataKept(g, s, s1)
    ensures var s2 := UpdateAll(g, PlaceAll(g, s, ns).value, ns).value;
      Inv(g, s2, h2, lo, hi) && h2.group == {} && h2.placed == h.placed + Members(ns) && DataKept(g, s, s2)
  {
    hide Counted, Aliases, Regions, NeededOwned, OthersSuperseded, TakeoversOk, ReleasedOk, GraphOk;
    h1 := PlaceGroup(g, s, h, lo, hi, ns);
    var s1 := PlaceAll(g, s, ns).value;
    assert h1.done !! EdgesOfAll(g, ns);
    var h' := UpdateGroup(g, s1, h1, lo, hi, ns);
    CloseGroup(g, UpdateAll(g, s1, ns).value, h', lo, hi);
    h2 := Close(h');
  }

  // ---------------------------------------------------------------- the whole plan

  ghost function NodesOf(groups: seq<seq<nat>>): set<nat> {
    if groups == [] then {} else Members(groups[0]) + NodesOf(groups[1..])
  }

  /** At the end all nodes are placed, and all edges of those before the last barrier are counted off. */
  lemma {:induction false} PlanEnds(g: Graph, s: State, h: History, lo: nat, hi: nat, groups: seq<seq<nat>>,
                                    tail: seq<nat>)
      returns (h': History)
    requires Inv(g, s, h, lo, hi) && h.group == {} && AllInGraph(g, groups) && InGraph(g, tail)
    requires Separated(g, h.placed, groups, tail) && Plan(g, s, groups, tail).Some?
    requires forall e :: e in Edges(g) && e.node in h.placed ==> e in h.done
    ensures Inv(g, Plan(g, s, groups, tail).value, h', lo, hi)
    ensures h'.placed == h.placed + NodesOf(groups) + Members(tail)
    ensures h'.done == set e | e in Edges(g) && e.node in h.placed + NodesOf(groups)
    decreases |groups|
  {
    hide Counted, Aliases, Regions, NeededOwned, OthersSuperseded, TakeoversOk, ReleasedOk, GraphOk, GroupOk;
    if groups == [] {
      h' := PlaceGroup(g, s, h, lo, hi, tail);
    } else {
      var s1 := PlaceAll(g, s, groups[0]).value;
      var h1, h2 := WholeGroup(g, s, h, lo, hi, groups[0]);
      var s2 := UpdateAll(g, s1, groups[0]).value;
      assert forall e :: e in Edges(g) && e.node in h2.placed ==> e in h2.done;
      h' := PlanEnds(g, s2, h2, lo, hi, groups[1..], tail);
      assert h2.placed + NodesOf(groups[1..]) == h.placed + NodesOf(groups);
    }
  }

  /** Edges to `t` from nodes after the last barrier. */
  ghost function TailEdges(g: Graph, tail: seq<nat>, t: nat): set<Edge> {
    set e | e in Edges(g) && Target(g, e) == t && e.node in tail
  }

  /** When the plan holds every node once, what is left of the counts of children in the end are the edges
      of the nodes after the last barrier. */
  lemma CountsAtEnd(g: Graph, s0: State, nodes: seq<nat>, parse: seq<int>, lo: nat, hi: nat)
    requires Ready0(g, s0, lo, hi) && NodesOk(g, nodes) && ParseOk(nodes, parse)
    requires var (groups, tail) := Groups(nodes, parse, 0, []);
      Separated(g, {}, groups, tail) && NodesOf(groups) + Members(tail) == Members(nodes)
      && NodesOf(groups) !! Members(tail)
    requires AllocGraph(g, s0, nodes, parse).Some?
    ensures var s, tail := AllocGraph(g, s0, nodes, parse).value, Groups(nodes, parse, 0, []).1;
      && Fits(g, s)
      && (forall t :: 0 <= t < |g| ==> s.nChildren[t] == |TailEdges(g, tail, t)|)
      && (forall i :: 0 <= i < |nodes| ==> s.data[nodes[i]].Some?)
  {
    hide Counted, Progress, Aliases, Regions, NeededOwned, OthersSuperseded, TakeoversOk, ReleasedOk, GraphOk, Groups;
    hide Separated;
    var (groups, tail) := Groups(nodes, parse, 0, []);
    AllocGraphByGroups(g, s0, nodes, parse);
    CountingStarts(g, s0, nodes, lo, hi);
    var s, h := CountFrom(g, s0, nodes, 0).value, Start(g, s0);
    var h' := PlanEnds(g, s, h, lo, hi, groups, tail);
    LeftAtEnd(g, Plan(g, s, groups, tail).value, h', nodes, NodesOf(groups), tail);
  }

  lemma LeftAtEnd(g: Graph, s: State, h: History, nodes: seq<nat>, early: set<nat>, tail: seq<nat>)
    requires Fits(g, s) && Counted(g, s, h) && Progress(g, s, h) && NodesOk(g, nodes)
    requires early + Members(tail) == Members(nodes) && early !! Members(tail)
    requires h.placed == Members(nodes) && h.done == set e | e in Edges(g) && e.node in early
    ensures forall t :: 0 <= t < |g| ==> s.nChildren[t] == |TailEdges(g, tail, t)|
    ensures forall i :: 0 <= i < |nodes| ==> s.data[nodes[i]].Some?
  {
    forall t: nat | t < |g|
      ensures Undone(g, h.done, t) == TailEdges(g, tail, t)
    {
      forall e | e in Undone(g, h.done, t)
        ensures e in TailEdges(g, tail, t)
      {
        assert g[e.node].isNode;
      }
    }
  }
}
