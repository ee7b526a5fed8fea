/** A graph planned on one heap is planned alike on any other heap of the same shape: what a
    measuring allocator found out about a graph holds when the graph gets real memory. */
module GraphReplay {
  import opened Wrappers
  import opened FreeList
  import opened Arenas
  import opened GraphAlloc
  import opened GraphInvariant
  import opened GraphPlace
  import opened GraphRelease
  import opened GraphPlan
  import opened GraphMeaning

  /** Where the two arenas start and end: the measuring one in `[lo, hi)`, the other in `[rLo, rHi)`. */
  datatype Sites = Sites(lo: nat, hi: nat, rLo: nat, rHi: nat)

  function ArenaOf(heap: Heap, hi: nat): Arena {
    Arena(heap.base, heap.alignment, hi, heap.free, map[], heap.maxSize)
  }

  ghost predicate HeapsMatch(x: Sites, m: Heap, r: Heap) {
    Moved(ArenaOf(m, x.hi), ArenaOf(r, x.rHi)) && ArenaOf(m, x.hi).Lo() == x.lo && ArenaOf(r, x.rHi).Lo() == x.rLo
  }

  /** Tensors of the planned buffer lie at the same offset, those of another buffer at the same
      address, and a view that was not initialised counts only as having memory. */
  ghost predicate SamePlace(x: Sites, m: State, r: State, t: nat)
    requires t < |m.data| == |r.data| == |m.buffer| == |r.buffer|
  {
    && m.data[t].Some? == r.data[t].Some?
    && m.buffer[t] == r.buffer[t]
    && (m.data[t].Some? && m.buffer[t] == Own ==> m.data[t].value - x.lo == r.data[t].value - x.rLo)
    && (m.data[t].Some? && m.buffer[t] == Other ==> m.data[t] == r.data[t])
  }

  ghost predicate Replays(g: Graph, x: Sites, m: State, r: State) {
    && Fits(g, m) && Fits(g, r)
    && m.nChildren == r.nChildren && m.nViews == r.nViews && m.viewSrc == r.viewSrc
    && HeapsMatch(x, m.heap, r.heap)
    && (forall t :: 0 <= t < |g| ==> SamePlace(x, m, r, t))
  }

  /** The peak stays below both sizes. */
  predicate RoomFor(x: Sites, m: Heap) {
    m.maxSize - (x.lo - m.base) < x.hi - x.lo && m.maxSize - (x.lo - m.base) < x.rHi - x.rLo
  }

  // ---------------------------------------------------------------- heaps

  lemma AllocIsStep(m: Heap, hi: nat, size: pos)
    ensures m.Alloc(size).Some? <==> Step(ArenaOf(m, hi), Op.Alloc(0, size)).Some?
    ensures m.Alloc(size).Some? ==>
      var (addr, m') := m.Alloc(size).value;
      var a := Step(ArenaOf(m, hi), Op.Alloc(0, size)).value;
      && a == ArenaOf(m', hi).(live := a.live)
      && a.live[0].addr == addr
      && m'.base == m.base && m'.alignment == m.alignment
  {
  }

  lemma AllocReplays(x: Sites, m: Heap, r: Heap, size: pos)
    requires HeapsMatch(x, m, r) && WellFormed(m.free) && m.Alloc(size).Some? && RoomFor(x, m.Alloc(size).value.1)
    ensures r.Alloc(size).Some?
    ensures var ((a, m'), (b, r')) := (m.Alloc(size).value, r.Alloc(size).value);
      HeapsMatch(x, m', r') && a - x.lo == b - x.rLo
  {
    var a, b := ArenaOf(m, x.hi), ArenaOf(r, x.rHi);
    AllocIsStep(m, x.hi, size);
    AllocIsStep(r, x.rHi, size);
    hide Heap.Alloc, Step, WellFormed, FreeList.Alloc;
    AllocShape(a, b, 0, size);
  }

  /** A range that is not free lies below the last free block. */
  lemma BelowLast(free: seq<Block>, b: Block, hi: nat)
    requires WellFormed(free) && |free| > 0 && free[|free| - 1].End() == hi && b.size > 0 && b.End() <= hi
    requires forall p :: b.Contains(p) ==> !Covers(free, p)
    ensures b.End() <= free[|free| - 1].addr
  {
    ApartFromBytes(free, b);
  }

  lemma FreeReplays(x: Sites, m: Heap, r: Heap, p: nat, q: nat, size: pos)
    requires HeapsMatch(x, m, r) && WellFormed(m.free) && m.Free(p, size).Some? && p - x.lo == q - x.rLo
    requires var b := Block(p, Padded(size, m.alignment));
      b.End() <= x.hi && forall i :: b.Contains(i) ==> !Covers(m.free, i)
    ensures r.Free(q, size).Some? && HeapsMatch(x, m.Free(p, size).value, r.Free(q, size).value)
  {
    hide AlignedOffset, FreeFrom, Padded;
    var n := Padded(size, m.alignment);
    BelowLast(m.free, Block(p, n), x.hi);
    hide WellFormed, Covers;
    var a, b := ArenaOf(m, x.hi).(live := map[0 := Block(p, n)]), ArenaOf(r, x.rHi).(live := map[0 := Block(q, n)]);
    assert LiveMatch(a, b);
    assert Moved(a, b);
    FreeFromMoved(a, b, 0, 0);
  }

  // ---------------------------------------------------------------- placing

  lemma InitViewReplays(g: Graph, x: Sites, m: State, r: State, v: nat)
    requires Replays(g, x, m, r) && v < |g| && InitView(g, m, v).Some?
    ensures InitView(g, r, v).Some? && Replays(g, x, InitView(g, m, v).value, InitView(g, r, v).value)
  {
    hide HeapsMatch, GraphOk;
    var q := m.viewSrc[v].value;
    assert SamePlace(x, m, r, q);
    var m', r' := InitView(g, m, v).value, InitView(g, r, v).value;
    forall t | 0 <= t < |g|
      ensures SamePlace(x, m', r', t)
    {
      assert SamePlace(x, m, r, t);
    }
  }

  lemma ReusableReplays(g: Graph, x: Sites, m: State, r: State, h: History, t: nat, p: nat)
    requires Replays(g, x, m, r) && Aliases(g, m, h) && t < |g| && p < |g|
    ensures Reusable(g, m, t, p) == Reusable(g, r, t, p)
  {
    assert SamePlace(x, m, r, p);
    if m.buffer[p] == Own && m.viewSrc[p].Some? {
      var q := m.viewSrc[p].value;
      assert SamePlace(x, m, r, q);
      assert m.buffer[q] == Own by {
        if IsRoot(g, p) {
          assert TakenAlias(g, m, h, p);
        } else {
          assert ViewAlias(g, m, p);
        }
      }
    }
  }

  lemma {:induction false} FindReuseReplays(g: Graph, x: Sites, m: State, r: State, h: History, t: nat, j: nat)
    requires Replays(g, x, m, r) && Aliases(g, m, h) && t < |g| && j <= |g[t].src|
    ensures FindReuse(g, m, t, j) == FindReuse(g, r, t, j)
    decreases |g[t].src| - j
  {
    if j < |g[t].src| {
      SourceInGraph(g, t, j);
      ReusableReplays(g, x, m, r, h, t, g[t].src[j]);
      FindReuseReplays(g, x, m, r, h, t, j + 1);
    }
  }

  lemma HeapPlaceReplays(g: Graph, x: Sites, m: State, r: State, t: nat)
    requires Replays(g, x, m, r) && WellFormed(m.heap.free) && t < |g|
    requires HeapPlace(g, m, t).Some? && RoomFor(x, HeapPlace(g, m, t).value.heap)
    ensures HeapPlace(g, r, t).Some? && Replays(g, x, HeapPlace(g, m, t).value, HeapPlace(g, r, t).value)
  {
    AllocReplays(x, m.heap, r.heap, g[t].size);
    hide HeapsMatch, FreeList.Alloc, WellFormed;
    var m', r' := HeapPlace(g, m, t).value, HeapPlace(g, r, t).value;
    forall u | 0 <= u < |g|
      ensures SamePlace(x, m', r', u)
    {
      assert SamePlace(x, m, r, u);
    }
  }

  lemma TakeOverReplays(g: Graph, x: Sites, m: State, r: State, t: nat, q: nat)
    requires Replays(g, x, m, r) && t < |g| && q < |g| && TakeOver(g, m, t, q).Some?
    ensures TakeOver(g, r, t, q).Some? && Replays(g, x, TakeOver(g, m, t, q).value, TakeOver(g, r, t, q).value)
  {
    var m1 := m.(viewSrc := m.viewSrc[t := Some(q)], nViews := m.nViews[q := m.nViews[q] + 1]);
    var r1 := r.(viewSrc := r.viewSrc[t := Some(q)], nViews := r.nViews[q := r.nViews[q] + 1]);
    assert Replays(g, x, m1, r1) by {
      forall u | 0 <= u < |g|
        ensures SamePlace(x, m1, r1, u)
      {
        assert SamePlace(x, m, r, u);
      }
    }
    InitViewReplays(g, x, m1, r1, t);
  }

  lemma AllocateNodeReplays(g: Graph, x: Sites, m: State, r: State, h: History, t: nat)
    requires Replays(g, x, m, r) && Aliases(g, m, h) && WellFormed(m.heap.free) && t < |g|
    requires AllocateNode(g, m, t).Some? && RoomFor(x, AllocateNode(g, m, t).value.heap)
    ensures AllocateNode(g, r, t).Some? && Replays(g, x, AllocateNode(g, m, t).value, AllocateNode(g, r, t).value)
  {
    hide HeapsMatch, GraphOk, Aliases, WellFormed, RoomFor, InitView, TakeOver, HeapPlace;
    assert SamePlace(x, m, r, t);
    FindReuseReplays(g, x, m, r, h, t, 0);
    if m.data[t].None? {
      if m.viewSrc[t].Some? {
        InitViewReplays(g, x, m, r, t);
      } else if g[t].canInplace && FindReuse(g, m, t, 0).Some? {
        var p := FindReuseSource(g, m, t, 0);
        TakeOverReplays(g, x, m, r, t, FindReuse(g, m, t, 0).value);
      } else {
        HeapPlaceReplays(g, x, m, r, t);
      }
    }
  }

  lemma ProgressReplays(g: Graph, x: Sites, m: State, r: State, h: History)
    requires Replays(g, x, m, r) && Progress(g, m, h)
    ensures Progress(g, r, h)
  {
    forall t: nat | t < |g|
      ensures m.data[t].Some? == r.data[t].Some?
    {
      assert SamePlace(x, m, r, t);
    }
    hide SamePlace, HeapsMatch;
    forall e | e in Edges(g) && e.node in h.placed
      ensures Ready(g, h, Target(g, e))
    {
    }
    forall v | v in h.placed && v < |g| && g[v].viewSrc.Some?
      ensures Ready(g, h, g[v].viewSrc.value)
    {
    }
  }

  lemma PlaceReplays(g: Graph, x: Sites, m: State, r: State, h: History, n: nat)
    requires Replays(g, x, m, r) && Inv(g, m, h, x.lo, x.hi) && CanPlace(g, h, n)
    requires PlaceFrom(g, m, n, 0).Some? && RoomFor(x, PlaceFrom(g, m, n, 0).value.heap)
    ensures PlaceFrom(g, r, n, 0).Some? && Replays(g, x, PlaceFrom(g, m, n, 0).value, PlaceFrom(g, r, n, 0).value)
  {
    hide Counted, Aliases, NeededOwned, OthersSuperseded, TakeoversOk, ReleasedOk, GraphOk;
    ProgressReplays(g, x, m, r, h);
    SourcesKept(g, m, h, n, 0);
    SourcesKept(g, r, h, n, 0);
    AllocateNodeReplays(g, x, m, r, h, n);
  }

  // ---------------------------------------------------------------- counting off

  lemma FreeNodeReplays(g: Graph, x: Sites, m: State, r: State, t: nat)
    requires Replays(g, x, m, r) && WellFormed(m.heap.free) && t < |g| && InUse(g, m, x.lo, x.hi, t)
    requires FreeNode(g, m, t).Some?
    ensures FreeNode(g, r, t).Some? && Replays(g, x, FreeNode(g, m, t).value, FreeNode(g, r, t).value)
  {
    assert SamePlace(x, m, r, t);
    if m.buffer[t] == Own && m.data[t].Some? {
      FreeReplays(x, m.heap, r.heap, m.data[t].value, r.data[t].value, g[t].size);
      hide HeapsMatch, FreeList.Free, WellFormed;
      var m', r' := FreeNode(g, m, t).value, FreeNode(g, r, t).value;
      forall u | 0 <= u < |g|
        ensures SamePlace(x, m', r', u)
      {
        assert SamePlace(x, m, r, u);
      }
    }
  }

  lemma UpdateParentReplays(g: Graph, x: Sites, m: State, r: State, p: nat)
    requires Replays(g, x, m, r) && WellFormed(m.heap.free) && p < |g|
    requires Returned(g, m, p).Some? ==> InUse(g, m, x.lo, x.hi, Returned(g, m, p).value)
    requires UpdateParent(g, m, p).Some?
    ensures UpdateParent(g, r, p).Some? && Replays(g, x, UpdateParent(g, m, p).value, UpdateParent(g, r, p).value)
  {
    hide HeapsMatch, GraphOk, WellFormed, UpdateParent, FreeNode;
    UpdateParentParts(g, m, p);
    UpdateParentParts(g, r, p);
    var m1, r1 := Discounted(g, m, p), Discounted(g, r, p);
    assert Replays(g, x, m1, r1) by {
      forall u | 0 <= u < |g|
        ensures SamePlace(x, m1, r1, u)
      {
        assert SamePlace(x, m, r, u);
      }
    }
    if Returned(g, m, p).Some? {
      FreeNodeReplays(g, x, m1, r1, Returned(g, m, p).value);
    }
  }

  lemma {:induction false} UpdateNodeReplays(g: Graph, x: Sites, m: State, r: State, h: History, n: nat, j: nat)
    requires Replays(g, x, m, r) && Inv(g, m, h, x.lo, x.hi) && n in h.group && n < |g| && j <= |g[n].src|
      && h.done !! EdgesFrom(g, n, j)
    requires UpdateFrom(g, m, n, j).Some?
    ensures UpdateFrom(g, r, n, j).Some? && Replays(g, x, UpdateFrom(g, m, n, j).value, UpdateFrom(g, r, n, j).value)
    decreases |g[n].src| - j
  {
    hide Counted, Progress, Aliases, NeededOwned, OthersSuperseded, TakeoversOk, ReleasedOk, GraphOk, Replays, InUse,
      Returned;
    if j < |g[n].src| {
      var e := Edge(n, j);
      SourceInGraph(g, n, j);
      assert EdgesFrom(g, n, j) == {e} + EdgesFrom(g, n, j + 1);
      var h1 := UpdateEdge(g, m, h, x.lo, x.hi, e);
      ReplaysFit(g, x, m, r);
      UpdateParentReplays(g, x, m, r, g[n].src[j]);
      UpdateNodeReplays(g, x, UpdateParent(g, m, g[n].src[j]).value, UpdateParent(g, r, g[n].src[j]).value, h1, n,
        j + 1);
    }
  }

  lemma {:induction false} UpdateAllReplays(g: Graph, x: Sites, m: State, r: State, h: History, ns: seq<nat>)
    requires Replays(g, x, m, r) && Inv(g, m, h, x.lo, x.hi) && InGraph(g, ns) && h.done !! EdgesOfAll(g, ns)
    requires (forall i :: 0 <= i < |ns| ==> ns[i] in h.group) && (forall i, j :: 0 <= i < j < |ns| ==> ns[i] != ns[j])
    requires UpdateAll(g, m, ns).Some?
    ensures UpdateAll(g, r, ns).Some? && Replays(g, x, UpdateAll(g, m, ns).value, UpdateAll(g, r, ns).value)
    decreases |ns|
  {
    hide Counted, Progress, Aliases, Regions, NeededOwned, OthersSuperseded, TakeoversOk, ReleasedOk, GraphOk, Replays;
    if ns != [] {
      assert EdgesOfAll(g, ns) == EdgesFrom(g, ns[0], 0) + EdgesOfAll(g, ns[1..]);
      assert EdgesFrom(g, ns[0], 0) !! EdgesOfAll(g, ns[1..]);
      var h1 := UpdateNode(g, m, h, x.lo, x.hi, ns[0], 0);
      ReplaysFit(g, x, m, r);
      UpdateNodeReplays(g, x, m, r, h, ns[0], 0);
      UpdateAllReplays(g, x, UpdateFrom(g, m, ns[0], 0).value, UpdateFrom(g, r, ns[0], 0).value, h1, ns[1..]);
    }
  }

  // ---------------------------------------------------------------- the peak only grows

  ghost predicate Grows(a: Heap, b: Heap) {
    a.base == b.base && a.maxSize <= b.maxSize
  }

  lemma AllocateNodeGrows(g: Graph, s: State, t: nat)
    requires Fits(g, s) && t < |g| && AllocateNode(g, s, t).Some?
    ensures Grows(s.heap, AllocateNode(g, s, t).value.heap)
  {
  }

  lemma {:induction false} PlaceFromGrows(g: Graph, s: State, n: nat, j: nat)
    requires Fits(g, s) && n < |g| && j <= |g[n].src| && PlaceFrom(g, s, n, j).Some?
    ensures Grows(s.heap, PlaceFrom(g, s, n, j).value.heap)
    decreases |g[n].src| - j
  {
    hide AllocateNode, GraphOk;
    if j < |g[n].src| {
      SourceInGraph(g, n, j);
      AllocateNodeGrows(g, s, g[n].src[j]);
      PlaceFromGrows(g, AllocateNode(g, s, g[n].src[j]).value, n, j + 1);
    } else {
      AllocateNodeGrows(g, s, n);
    }
  }

  lemma {:induction false} PlaceAllGrows(g: Graph, s: State, ns: seq<nat>)
    requires Fits(g, s) && InGraph(g, ns) && PlaceAll(g, s, ns).Some?
    ensures Grows(s.heap, PlaceAll(g, s, ns).value.heap)
    decreases |ns|
  {
    if ns != [] {
      var front := ns[..|ns| - 1];
      PlaceAllGrows(g, s, front);
      PlaceFromGrows(g, PlaceAll(g, s, front).value, ns[|ns| - 1], 0);
    }
  }

  lemma {:induction false} UpdateFromGrows(g: Graph, s: State, n: nat, j: nat)
    requires Fits(g, s) && n < |g| && j <= |g[n].src| && UpdateFrom(g, s, n, j).Some?
    ensures Grows(s.heap, UpdateFrom(g, s, n, j).value.heap)
    decreases |g[n].src| - j
  {
    if j < |g[n].src| {
      SourceInGraph(g, n, j);
      UpdateFromGrows(g, UpdateParent(g, s, g[n].src[j]).value, n, j + 1);
    }
  }

  lemma {:induction false} UpdateAllGrows(g: Graph, s: State, ns: seq<nat>)
    requires Fits(g, s) && InGraph(g, ns) && UpdateAll(g, s, ns).Some?
    ensures Grows(s.heap, UpdateAll(g, s, ns).value.heap)
    decreases |ns|
  {
    if ns != [] {
      UpdateFromGrows(g, s, ns[0], 0);
      UpdateAllGrows(g, UpdateFrom(g, s, ns[0], 0).value, ns[1..]);
    }
  }

  lemma {:induction false} PlanGrows(g: Graph, s: State, groups: seq<seq<nat>>, tail: seq<nat>)
    requires Fits(g, s) && AllInGraph(g, groups) && InGraph(g, tail) && Plan(g, s, groups, tail).Some?
    ensures Grows(s.heap, Plan(g, s, groups, tail).value.heap)
    decreases |groups|
  {
    if groups == [] {
      PlaceAllGrows(g, s, tail);
    } else {
      PlaceAllGrows(g, s, groups[0]);
      var s1 := PlaceAll(g, s, groups[0]).value;
      UpdateAllGrows(g, s1, groups[0]);
      PlanGrows(g, UpdateAll(g, s1, groups[0]).value, groups[1..], tail);
    }
  }

  lemma RoomBefore(x: Sites, a: Heap, b: Heap)
    requires Grows(a, b) && RoomFor(x, b)
    ensures RoomFor(x, a)
  {
  }

  // ---------------------------------------------------------------- groups

  lemma {:induction false} PlaceAllReplays(g: Graph, x: Sites, m: State, r: State, h: History, ns: seq<nat>)
    requires Replays(g, x, m, r) && Inv(g, m, h, x.lo, x.hi) && h.group == {} && GroupOk(g, h.placed, ns)
      && InGraph(g, ns)
    requires PlaceAll(g, m, ns).Some? && RoomFor(x, PlaceAll(g, m, ns).value.heap)
    ensures PlaceAll(g, r, ns).Some? && Replays(g, x, PlaceAll(g, m, ns).value, PlaceAll(g, r, ns).value)
    decreases |ns|
  {
    hide Counted, Progress, Aliases, Regions, NeededOwned, OthersSuperseded, TakeoversOk, ReleasedOk, GraphOk,
      GroupSafe, Replays, RoomFor;
    if ns != [] {
      var n, front := ns[|ns| - 1], ns[..|ns| - 1];
      var m1 := PlaceAll(g, m, front).value;
      PlaceFromGrows(g, m1, n, 0);
      RoomBefore(x, m1.heap, PlaceFrom(g, m1, n, 0).value.heap);
      ReplaysFit(g, x, m, r);
      PlaceAllReplays(g, x, m, r, h, front);
      var h1 := PlaceGroup(g, m, h, x.lo, x.hi, front);
      assert NodeOk(g, h.placed, n);
      CanPlaceNext(g, h, h1, front, n);
      ReplaysFit(g, x, m1, PlaceAll(g, r, front).value);
      PlaceReplays(g, x, m1, PlaceAll(g, r, front).value, h1, n);
    }
  }

  lemma ReplaysFit(g: Graph, x: Sites, m: State, r: State)
    requires Replays(g, x, m, r)
    ensures Fits(g, m) && Fits(g, r)
  {
  }

  lemma NothingCounted(g: Graph, s: State, h: History, ns: seq<nat>)
    requires Fits(g, s) && Progress(g, s, h) && GroupOk(g, h.placed, ns)
    ensures h.done !! EdgesOfAll(g, ns)
  {
  }

  lemma {:induction false} PlanReplays(g: Graph, x: Sites, m: State, r: State, h: History, groups: seq<seq<nat>>,
                                       tail: seq<nat>)
    requires Replays(g, x, m, r) && Inv(g, m, h, x.lo, x.hi) && h.group == {} && AllInGraph(g, groups)
      && InGraph(g, tail)
    requires Separated(g, h.placed, groups, tail)
    requires Plan(g, m, groups, tail).Some? && RoomFor(x, Plan(g, m, groups, tail).value.heap)
    ensures Plan(g, r, groups, tail).Some?
      && Replays(g, x, Plan(g, m, groups, tail).value, Plan(g, r, groups, tail).value)
    decreases |groups|
  {
    hide Counted, Progress, Aliases, Regions, NeededOwned, OthersSuperseded, TakeoversOk, ReleasedOk, GraphOk,
      GroupSafe, Replays, RoomFor;
    if groups == [] {
      PlaceAllReplays(g, x, m, r, h, tail);
    } else {
      var ns := groups[0];
      var m1 := PlaceAll(g, m, ns).value;
      var m2 := UpdateAll(g, m1, ns).value;
      PlanGrows(g, m2, groups[1..], tail);
      UpdateAllGrows(g, m1, ns);
      RoomBefore(x, m1.heap, Plan(g, m, groups, tail).value.heap);
      ReplaysFit(g, x, m, r);
      PlaceAllReplays(g, x, m, r, h, ns);
      var h1 := PlaceGroup(g, m, h, x.lo, x.hi, ns);
      var r1 := PlaceAll(g, r, ns).value;
      NothingCounted(g, m, h, ns);
      ReplaysFit(g, x, m1, r1);
      UpdateAllReplays(g, x, m1, r1, h1, ns);
      var _, h2 := WholeGroup(g, m, h, x.lo, x.hi, ns);
      PlanReplays(g, x, m2, UpdateAll(g, r1, ns).value, h2, groups[1..], tail);
    }
  }

  // ---------------------------------------------------------------- counting

  lemma {:induction false} CountEdgesReplays(g: Graph, x: Sites, m: State, r: State, n: nat, j: nat)
    requires Replays(g, x, m, r) && n < |g| && j <= |g[n].src| && CountEdges(g, m, n, j).Some?
    ensures CountEdges(g, r, n, j).Some? && Replays(g, x, CountEdges(g, m, n, j).value, CountEdges(g, r, n, j).value)
    decreases |g[n].src| - j
  {
    hide HeapsMatch, GraphOk, InitView;
    if j < |g[n].src| {
      SourceInGraph(g, n, j);
      var p := g[n].src[j];
      var m1, r1 := m.(nChildren := m.nChildren[p := m.nChildren[p] + 1]),
        r.(nChildren := r.nChildren[p := r.nChildren[p] + 1]);
      CountersReplay(g, x, m, r, m1, r1);
      assert SamePlace(x, m, r, p);
      hide Replays, SamePlace;
      if Uninitialised(m1, p) {
        InitViewReplays(g, x, m1, r1, p);
        CountEdgesReplays(g, x, InitView(g, m1, p).value, InitView(g, r1, p).value, n, j + 1);
      } else {
        CountEdgesReplays(g, x, m1, r1, n, j + 1);
      }
    }
  }

  lemma CountersReplay(g: Graph, x: Sites, m: State, r: State, m1: State, r1: State)
    requires Replays(g, x, m, r) && m1.nChildren == r1.nChildren && m1.nViews == r1.nViews
      && |m1.nChildren| == |m1.nViews| == |g|
    requires m1 == m.(nChildren := m1.nChildren, nViews := m1.nViews)
      && r1 == r.(nChildren := r1.nChildren, nViews := r1.nViews)
    ensures Replays(g, x, m1, r1)
  {
    hide HeapsMatch, GraphOk;
    forall t | 0 <= t < |g|
      ensures SamePlace(x, m1, r1, t)
    {
      assert SamePlace(x, m, r, t);
    }
  }

  lemma CountNodeReplays(g: Graph, x: Sites, m: State, r: State, n: nat)
    requires Replays(g, x, m, r) && n < |g| && CountNode(g, m, n).Some?
    ensures CountNode(g, r, n).Some? && Replays(g, x, CountNode(g, m, n).value, CountNode(g, r, n).value)
  {
    hide HeapsMatch, GraphOk, InitView, CountEdges;
    if m.viewSrc[n].None? {
      CountEdgesReplays(g, x, m, r, n, 0);
    } else {
      var q := m.viewSrc[n].value;
      var m1, r1 := m.(nViews := m.nViews[q := m.nViews[q] + 1]), r.(nViews := r.nViews[q := r.nViews[q] + 1]);
      CountersReplay(g, x, m, r, m1, r1);
      assert SamePlace(x, m, r, n);
      if m1.buffer[n] == NoBuffer && m1.data[n].Some? {
        InitViewReplays(g, x, m1, r1, n);
        CountEdgesReplays(g, x, InitView(g, m1, n).value, InitView(g, r1, n).value, n, 0);
      } else {
        CountEdgesReplays(g, x, m1, r1, n, 0);
      }
    }
  }

  lemma {:induction false} CountFromReplays(g: Graph, x: Sites, m: State, r: State, nodes: seq<nat>, i: nat)
    requires Replays(g, x, m, r) && NodesOk(g, nodes) && i <= |nodes| && CountFrom(g, m, nodes, i).Some?
    ensures CountFrom(g, r, nodes, i).Some?
      && Replays(g, x, CountFrom(g, m, nodes, i).value, CountFrom(g, r, nodes, i).value)
    decreases |nodes| - i
  {
    hide Replays, CountNode, GraphOk;
    ReplaysFit(g, x, m, r);
    if i < |nodes| {
      CountNodeReplays(g, x, m, r, nodes[i]);
      CountFromReplays(g, x, CountNode(g, m, nodes[i]).value, CountNode(g, r, nodes[i]).value, nodes, i + 1);
    }
  }

  // ---------------------------------------------------------------- the whole graph

  /** A graph that was planned on the one heap is planned on the other: the plan does not fail, and
      every tensor gets the same offset. */
  lemma MeasuredPlanReplays(g: Graph, x: Sites, m: State, r: State, nodes: seq<nat>, parse: seq<int>)
    requires Replays(g, x, m, r) && Ready0(g, m, x.lo, x.hi) && NodesOk(g, nodes) && ParseOk(nodes, parse)
    requires var (groups, tail) := Groups(nodes, parse, 0, []); Separated(g, {}, groups, tail)
    requires AllocGraph(g, m, nodes, parse).Some? && RoomFor(x, AllocGraph(g, m, nodes, parse).value.heap)
    ensures AllocGraph(g, r, nodes, parse).Some?
    ensures Replays(g, x, AllocGraph(g, m, nodes, parse).value, AllocGraph(g, r, nodes, parse).value)
  {
    hide Counted, Progress, Aliases, Regions, NeededOwned, OthersSuperseded, TakeoversOk, ReleasedOk, GraphOk, Groups,
      Replays, RoomFor;
    ReplaysFit(g, x, m, r);
    var (groups, tail) := Groups(nodes, parse, 0, []);
    AllocGraphByGroups(g, m, nodes, parse);
    AllocGraphByGroups(g, r, nodes, parse);
    CountingStarts(g, m, nodes, x.lo, x.hi);
    CountFromReplays(g, x, m, r, nodes, 0);
    var s, h := CountFrom(g, m, nodes, 0).value, Start(g, m);
    PlanReplays(g, x, s, CountFrom(g, r, nodes, 0).value, h, groups, tail);
  }

  /** The heap of an allocator that was just reset. */
  function FreshHeap(base: nat, alignment: pos, span: pos, maxSize: nat): Heap {
    Heap(base, alignment, Reset(base, alignment, span, maxSize).free, maxSize)
  }

  /** Both start from a heap just reset; the same tensors have memory, in the same other buffers. */
  ghost predicate SameStart(g: Graph, m: State, r: State, span: pos, rSpan: pos) {
    && Fits(g, m) && Fits(g, r)
    && m.nChildren == r.nChildren && m.nViews == r.nViews && m.viewSrc == r.viewSrc && m.buffer == r.buffer
    && m.heap == FreshHeap(m.heap.base, m.heap.alignment, span, m.heap.maxSize)
    && r.heap == FreshHeap(r.heap.base, m.heap.alignment, rSpan, r.heap.maxSize)
    && (forall t :: 0 <= t < |g| ==> m.buffer[t] != Own && m.data[t].Some? == r.data[t].Some?)
    && (forall t :: 0 <= t < |g| && m.buffer[t] == Other ==> m.data[t] == r.data[t])
  }

  function SitesOf(m: Heap, r: Heap, span: pos, rSpan: pos): Sites {
    var lo, rLo := ArenaOf(m, 0).Lo(), ArenaOf(r, 0).Lo();
    Sites(lo, lo + span, rLo, rLo + rSpan)
  }

  /** Two heaps just reset have the same shape, wherever they lie. */
  lemma StartReplays(g: Graph, m: State, r: State, span: pos, rSpan: pos)
    requires SameStart(g, m, r, span, rSpan)
    ensures Replays(g, SitesOf(m.heap, r.heap, span, rSpan), m, r)
  {
  }

  /** A graph that was measured computes its private-memory values in any buffer larger than the
      measured peak: planning it there succeeds, and sharing memory changes no value. */
  lemma MeasuredGraphComputes(g: Graph, kernel: Kernel, x: Sites, m: State, r: State, nodes: seq<nat>,
                              parse: seq<int>, orders: seq<seq<nat>>, m0: Memory)
    requires Replays(g, x, m, r) && Ready0(g, m, x.lo, x.hi) && Ready0(g, r, x.rLo, x.rHi)
    requires NodesOk(g, nodes) && ParseOk(nodes, parse) && AllInGraph(g, orders)
    requires var (groups, tail) := Groups(nodes, parse, 0, []);
      Separated(g, {}, groups, tail) && Orders(groups, tail, orders)
    requires AllocGraph(g, m, nodes, parse).Some? && RoomFor(x, AllocGraph(g, m, nodes, parse).value.heap)
    ensures AllocGraph(g, r, nodes, parse).Some?
    ensures var data := AllocGraph(g, r, nodes, parse).value.data;
      var init := Initial(g, r, m0);
      var (groups, tail) := Groups(nodes, parse, 0, []);
      var (mem, events) := RunAll(g, kernel, data, m0, orders);
      && AllRight(g, kernel, init, events)
      && (forall t: nat :: IsResult(g, t) && (g[t].isNode ==> t in AllMembers(groups, tail)) ==>
        Holds(g, kernel, init, data, mem, t))
  {
    hide Replays, GraphOk, Ready0, RoomFor, Groups, Separated, Orders, RunAll, AllRight;
    MeasuredPlanReplays(g, x, m, r, nodes, parse);
    SharedMemoryPreservesMeaning(g, kernel, r, x.rLo, x.rHi, nodes, parse, orders, m0);
  }
}
