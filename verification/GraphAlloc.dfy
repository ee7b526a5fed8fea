/** The graph allocator as functions on its state: which memory every tensor of a graph gets,
    and when it is given back. `GraphAllocator` in module `Galloc` is proved against these. */
module GraphAlloc {
  import opened Wrappers
  import opened FreeList
  import opened Arenas

  /** What the graph fixes about a tensor. `viewSrc` is the view source set when the graph was
      built; `layout` stands for type, shape and strides. */
  datatype Tensor = Tensor(isNode: bool, canInplace: bool, src: seq<nat>, viewSrc: Option<nat>, offs: nat, size: pos,
                           layout: nat)

  type Graph = seq<Tensor>

  datatype Buffer = NoBuffer | Own | Other

  /** The free list with the high-water mark. */
  datatype Heap = Heap(base: nat, alignment: pos, free: seq<Block>, maxSize: nat) {
    function Alloc(size: pos): Option<(nat, Heap)> {
      var n := Padded(size, alignment);
      match FreeList.Alloc(free, n)
      case None => None
      case Some((addr, rest)) =>
        Some((addr, this.(free := rest, maxSize := if addr - base + n > maxSize then addr - base + n else maxSize)))
    }

    function Free(ptr: nat, size: pos): Option<Heap> {
      match FreeList.Free(free, ptr, Padded(size, alignment))
      case None => None
      case Some(more) => Some(this.(free := more))
    }
  }

  /** Per-tensor fields written by the allocator. */
  datatype State = State(heap: Heap, nChildren: seq<int>, nViews: seq<int>, data: seq<Option<nat>>,
                         viewSrc: seq<Option<nat>>, buffer: seq<Buffer>) {
    predicate Sized(n: nat) {
      |nChildren| == |nViews| == |data| == |viewSrc| == |buffer| == n
    }
  }

  /** Sources and view sources come earlier; views are nodes that view a non-view tensor and lie
      inside it; equal layouts have equal sizes. */
  ghost predicate GraphOk(g: Graph) {
    && (forall t, j :: 0 <= t < |g| && 0 <= j < |g[t].src| ==> g[t].src[j] < t)
    && (forall t :: 0 <= t < |g| && !g[t].isNode ==> g[t].src == [])
    && (forall t :: 0 <= t < |g| ==> ViewOk(g, t))
    && (forall t, u :: 0 <= t < |g| && 0 <= u < |g| && g[t].layout == g[u].layout ==> g[t].size == g[u].size)
  }

  ghost predicate ViewOk(g: Graph, t: nat)
    requires t < |g|
  {
    match g[t].viewSrc
    case None => g[t].offs == 0
    case Some(r) => r < t && g[t].isNode && g[r].viewSrc.None? && g[t].offs + g[t].size <= g[r].size
  }

  lemma SourceInGraph(g: Graph, n: nat, j: nat)
    requires GraphOk(g) && n < |g| && j < |g[n].src|
    ensures g[n].src[j] < |g|
  {
  }

  ghost predicate Fits(g: Graph, s: State) {
    && GraphOk(g) && s.Sized(|g|)
    && (forall v :: 0 <= v < |g| && s.viewSrc[v].Some? ==> s.viewSrc[v].value < |g|)
  }

  // ---------------------------------------------------------------- placing a tensor

  function InitView(g: Graph, s: State, v: nat): Option<State>
    requires Fits(g, s) && v < |g|
  {
    if s.viewSrc[v].None? || s.data[s.viewSrc[v].value].None? then None
    else
      var r := s.viewSrc[v].value;
      Some(s.(data := s.data[v := Some(s.data[r].value + g[v].offs)], buffer := s.buffer[v := s.buffer[r]]))
  }

  /** May `t` take over the memory of its source `p`, and through which view source. */
  function Reusable(g: Graph, s: State, t: nat, p: nat): Option<nat>
    requires Fits(g, s) && t < |g| && p < |g|
  {
    if s.buffer[p] != Own then None
    else if s.data[p].Some? && s.nChildren[p] == 1 && s.nViews[p] == 0 && g[t].layout == g[p].layout then
      match s.viewSrc[p]
      case None => Some(p)
      case Some(q) => if s.nViews[q] == 1 && s.nChildren[q] == 0 && s.data[q] == s.data[p] then Some(q) else None
    else None
  }

  /** The first source from `j` on whose memory can be taken over. */
  function FindReuse(g: Graph, s: State, t: nat, j: nat): Option<nat>
    requires Fits(g, s) && t < |g| && j <= |g[t].src|
    decreases |g[t].src| - j
  {
    if j == |g[t].src| then None
    else if Reusable(g, s, t, g[t].src[j]).Some? then Reusable(g, s, t, g[t].src[j])
    else FindReuse(g, s, t, j + 1)
  }

  lemma {:induction false} FindReuseSource(g: Graph, s: State, t: nat, j: nat) returns (p: nat)
    requires Fits(g, s) && t < |g| && j <= |g[t].src| && FindReuse(g, s, t, j).Some?
    ensures p < t && p in g[t].src && Reusable(g, s, t, p) == FindReuse(g, s, t, j)
    ensures FindReuse(g, s, t, j).value < |g|
    ensures s.buffer[p] == Own && s.data[p].Some? && s.nChildren[p] == 1 && s.nViews[p] == 0
      && g[p].layout == g[t].layout
    ensures var q := FindReuse(g, s, t, j).value;
      if s.viewSrc[p].None? then q == p
      else s.viewSrc[p] == Some(q) && s.nViews[q] == 1 && s.nChildren[q] == 0 && s.data[q] == s.data[p]
    decreases |g[t].src| - j
  {
    p := g[t].src[j];
    if Reusable(g, s, t, p).None? {
      p := FindReuseSource(g, s, t, j + 1);
    }
  }

  function TakeOver(g: Graph, s: State, t: nat, r: nat): Option<State>
    requires Fits(g, s) && t < |g| && r < |g|
  {
    InitView(g, s.(viewSrc := s.viewSrc[t := Some(r)], nViews := s.nViews[r := s.nViews[r] + 1]), t)
  }

  function HeapPlace(g: Graph, s: State, t: nat): Option<State>
    requires Fits(g, s) && t < |g|
  {
    match s.heap.Alloc(g[t].size)
    case None => None
    case Some((addr, heap)) => Some(s.(heap := heap, data := s.data[t := Some(addr)], buffer := s.buffer[t := Own]))
  }

  function AllocateNode(g: Graph, s: State, t: nat): (r: Option<State>)
    requires Fits(g, s) && t < |g|
    ensures r.Some? ==> Fits(g, r.value)
  {
    if s.data[t].Some? then Some(s)
    else if s.viewSrc[t].Some? then InitView(g, s, t)
    else
      var reuse := if g[t].canInplace then FindReuse(g, s, t, 0) else None;
      if reuse.Some? then
        assert reuse.value < |g| by {
          var p := FindReuseSource(g, s, t, 0);
        }
        TakeOver(g, s, t, reuse.value)
      else HeapPlace(g, s, t)
  }

  // ---------------------------------------------------------------- what placing a tensor does

  /** Source number `j` of `t` may be taken over: its memory is the allocator's, `t` is its last consumer,
      it has no views, and the layouts agree; and if it is a view itself, it starts where its source does
      and nothing else uses that. */
  predicate CanTakeOver(g: Graph, s: State, t: nat, j: nat)
    requires Fits(g, s) && t < |g| && j < |g[t].src|
  {
    var p := g[t].src[j];
    && p < |g|
    && s.buffer[p] == Own && s.data[p].Some? && s.nChildren[p] == 1 && s.nViews[p] == 0 && g[t].layout == g[p].layout
    && (s.viewSrc[p].Some? ==>
          var q := s.viewSrc[p].value; s.nViews[q] == 1 && s.nChildren[q] == 0 && s.data[q] == s.data[p])
  }

  /** Source `k` is the first, from `j` on, that may be taken over. */
  predicate FirstToTakeOver(g: Graph, s: State, t: nat, j: nat, k: nat)
    requires Fits(g, s) && t < |g|
  {
    j <= k < |g[t].src| && CanTakeOver(g, s, t, k) && forall i :: j <= i < k ==> !CanTakeOver(g, s, t, i)
  }

  /** The tensor that becomes the view source when source `k` is taken over. */
  function Keeper(g: Graph, s: State, t: nat, k: nat): nat
    requires Fits(g, s) && t < |g| && k < |g[t].src|
  {
    var p := g[t].src[k];
    if p < |g| && s.viewSrc[p].Some? then s.viewSrc[p].value else p
  }

  /** A source is taken over exactly when one may be, and then the first of these. */
  lemma {:induction false} ReuseExactly(g: Graph, s: State, t: nat, j: nat)
    requires Fits(g, s) && t < |g| && j <= |g[t].src|
    ensures FindReuse(g, s, t, j).None? <==> forall k :: j <= k < |g[t].src| ==> !CanTakeOver(g, s, t, k)
    ensures forall k :: FirstToTakeOver(g, s, t, j, k) ==> FindReuse(g, s, t, j) == Some(Keeper(g, s, t, k))
    decreases |g[t].src| - j
  {
    if j < |g[t].src| {
      SourceInGraph(g, t, j);
      hide GraphOk;
      ReuseExactly(g, s, t, j + 1);
      assert Reusable(g, s, t, g[t].src[j]).Some? <==> CanTakeOver(g, s, t, j);
    }
  }

  /** `t` gets the address of `r` plus its offset, and the buffer of `r`; other addresses stay. */
  ghost predicate LiesIn(g: Graph, s: State, s': State, t: nat, r: nat)
    requires Fits(g, s) && t < |g| && r < |g|
  {
    && s.data[r].Some?
    && s'.data == s.data[t := Some(s.data[r].value + g[t].offs)]
    && s'.buffer == s.buffer[t := s.buffer[r]]
  }

  /** `t` gets the start of the best block, exactly its padded bytes are no longer free, and the peak
      covers them. */
  ghost predicate GetsBestBlock(g: Graph, s: State, s': State, t: nat, i: nat)
    requires Fits(g, s) && t < |g|
  {
    var n := Padded(g[t].size, s.heap.alignment);
    && i < |s.heap.free| && IsBest(s.heap.free, n, i) && s.heap.free[i].size >= n
    && s' == s.(heap := s'.heap, data := s.data[t := Some(s.heap.free[i].addr)], buffer := s.buffer[t := Own])
    && s'.heap == s.heap.(free := s'.heap.free, maxSize := s'.heap.maxSize)
    && WellFormed(s'.heap.free)
    && (forall p :: Covers(s'.heap.free, p) <==> Covers(s.heap.free, p) && !Block(s.heap.free[i].addr, n).Contains(p))
    && s'.heap.maxSize >= s.heap.maxSize && s'.heap.maxSize >= s.heap.free[i].addr - s.heap.base + n
    && (s'.heap.maxSize == s.heap.maxSize || s'.heap.maxSize == s.heap.free[i].addr - s.heap.base + n)
  }

  /** A tensor that has memory or is a view never touches the heap. */
  lemma PlacedOrView(g: Graph, s: State, t: nat)
    requires Fits(g, s) && t < |g| && (s.data[t].Some? || s.viewSrc[t].Some?)
    ensures s.data[t].Some? ==> AllocateNode(g, s, t) == Some(s)
    ensures s.data[t].None? ==>
      var r := s.viewSrc[t].value;
      && (AllocateNode(g, s, t).Some? <==> s.data[r].Some?)
      && (s.data[r].Some? ==>
            var s' := AllocateNode(g, s, t).value;
              LiesIn(g, s, s', t, r) && s' == s.(data := s'.data, buffer := s'.buffer))
  {
  }

  /** An in-place operation takes over the first source it may; `t` becomes a view. */
  lemma TakesOverFirst(g: Graph, s: State, t: nat, k: nat)
    requires Fits(g, s) && t < |g| && s.data[t].None? && s.viewSrc[t].None? && g[t].canInplace
    requires FirstToTakeOver(g, s, t, 0, k)
    ensures AllocateNode(g, s, t).Some?
    ensures var s', r := AllocateNode(g, s, t).value, Keeper(g, s, t, k);
      && r < |g| && LiesIn(g, s, s', t, r)
      && s'.viewSrc == s.viewSrc[t := Some(r)] && s'.nViews == s.nViews[r := s.nViews[r] + 1]
      && s'.nChildren == s.nChildren && s'.heap == s.heap
  {
    ReuseExactly(g, s, t, 0);
  }

  /** Any other tensor gets memory of its own, and fails to exactly when no block has room for it. */
  lemma GetsOwnMemory(g: Graph, s: State, t: nat)
    requires Fits(g, s) && t < |g| && s.data[t].None? && s.viewSrc[t].None? && WellFormed(s.heap.free)
    requires g[t].canInplace ==> forall k :: 0 <= k < |g[t].src| ==> !CanTakeOver(g, s, t, k)
    ensures AllocateNode(g, s, t).None? <==>
      forall i :: 0 <= i < |s.heap.free| ==> s.heap.free[i].size < Padded(g[t].size, s.heap.alignment)
    ensures AllocateNode(g, s, t).Some? ==> exists i: nat :: GetsBestBlock(g, s, AllocateNode(g, s, t).value, t, i)
  {
    hide GraphOk, WellFormed, Covers, IsBest, Carve, Chosen;
    ReuseExactly(g, s, t, 0);
    var n := Padded(g[t].size, s.heap.alignment);
    AllocFailsOnlyWhenNothingFits(s.heap.free, n);
    if AllocateNode(g, s, t).Some? {
      AllocTakesFreeBytes(s.heap.free, n);
      var i := AllocTakesBestBlock(s.heap.free, n);
      assert GetsBestBlock(g, s, AllocateNode(g, s, t).value, t, i);
    }
  }

  /** Sources from `j` on (only leaves can still need memory), then the node itself. */
  function PlaceFrom(g: Graph, s: State, n: nat, j: nat): (r: Option<State>)
    requires Fits(g, s) && n < |g| && j <= |g[n].src|
    ensures r.Some? ==> Fits(g, r.value)
    decreases |g[n].src| - j
  {
    if j == |g[n].src| then AllocateNode(g, s, n)
    else
      match AllocateNode(g, s, g[n].src[j])
      case None => None
      case Some(s') => PlaceFrom(g, s', n, j + 1)
  }

  /** Afterwards the tensor has memory, and so has all that had. */
  lemma NodePlaced(g: Graph, s: State, t: nat)
    requires Fits(g, s) && t < |g| && AllocateNode(g, s, t).Some?
    ensures var s' := AllocateNode(g, s, t).value;
      s'.data[t].Some? && forall u :: 0 <= u < |g| && s.data[u].Some? ==> s'.data[u] == s.data[u]
  {
    hide GraphOk;
  }

  /** Placing a node places all of its sources and the node itself. */
  lemma {:induction false} AllPlaced(g: Graph, s: State, n: nat, j: nat)
    requires Fits(g, s) && n < |g| && j <= |g[n].src| && PlaceFrom(g, s, n, j).Some?
    ensures var s' := PlaceFrom(g, s, n, j).value;
      && s'.data[n].Some? && (forall u :: 0 <= u < |g| && s.data[u].Some? ==> s'.data[u] == s.data[u])
      && (forall i :: j <= i < |g[n].src| ==> g[n].src[i] < |g| && s'.data[g[n].src[i]].Some?)
    decreases |g[n].src| - j
  {
    hide AllocateNode;
    if j == |g[n].src| {
      NodePlaced(g, s, n);
    } else {
      SourceInGraph(g, n, j);
      NodePlaced(g, s, g[n].src[j]);
      AllPlaced(g, AllocateNode(g, s, g[n].src[j]).value, n, j + 1);
    }
  }

  // ---------------------------------------------------------------- giving memory back

  function FreeNode(g: Graph, s: State, t: nat): (r: Option<State>)
    requires Fits(g, s) && t < |g|
    ensures r.Some? ==> r.value == s.(heap := r.value.heap)
  {
    if s.buffer[t] != Own || s.data[t].None? then Some(s)  // memory of another buffer
    else
      match s.heap.Free(s.data[t].value, g[t].size)
      case None => None
      case Some(heap) => Some(s.(heap := heap))
  }

  /** One consumer of `p` has been processed. */
  function UpdateParent(g: Graph, s: State, p: nat): (r: Option<State>)
    requires Fits(g, s) && p < |g|
    ensures r.Some? ==> Fits(g, r.value)
  {
    var s1 := s.(nChildren := s.nChildren[p := s.nChildren[p] - 1]);
    if s1.nChildren[p] == 0 && s1.nViews[p] == 0 then
      match s1.viewSrc[p]
      case Some(q) =>
        var s2 := s1.(nViews := s1.nViews[q := s1.nViews[q] - 1]);
        if s2.nViews[q] == 0 && s2.nChildren[q] == 0 then FreeNode(g, s2, q) else Some(s2)
      case None => FreeNode(g, s1, p)
    else Some(s1)
  }

  function UpdateFrom(g: Graph, s: State, n: nat, j: nat): (r: Option<State>)
    requires Fits(g, s) && n < |g| && j <= |g[n].src|
    ensures r.Some? ==> Fits(g, r.value)
    decreases |g[n].src| - j
  {
    if j == |g[n].src| then Some(s)
    else
      match UpdateParent(g, s, g[n].src[j])
      case None => None
      case Some(s') => UpdateFrom(g, s', n, j + 1)
  }

  // ---------------------------------------------------------------- counting

  /** A view that already has memory but was not initialised. */
  predicate Uninitialised(s: State, v: nat)
    requires v < |s.viewSrc| && v < |s.buffer| && v < |s.data|
  {
    s.viewSrc[v].Some? && s.buffer[v] == NoBuffer && s.data[v].Some?
  }

  function CountEdges(g: Graph, s: State, n: nat, j: nat): (r: Option<State>)
    requires Fits(g, s) && n < |g| && j <= |g[n].src|
    ensures r.Some? ==> Fits(g, r.value)
    decreases |g[n].src| - j
  {
    if j == |g[n].src| then Some(s)
    else
      var p := g[n].src[j];
      var s1 := s.(nChildren := s.nChildren[p := s.nChildren[p] + 1]);
      if Uninitialised(s1, p) then
        match InitView(g, s1, p)
        case None => None
        case Some(s2) => CountEdges(g, s2, n, j + 1)
      else CountEdges(g, s1, n, j + 1)
  }

  function CountNode(g: Graph, s: State, n: nat): (r: Option<State>)
    requires Fits(g, s) && n < |g|
    ensures r.Some? ==> Fits(g, r.value)
  {
    match s.viewSrc[n]
    case None => CountEdges(g, s, n, 0)
    case Some(q) =>
      var s1 := s.(nViews := s.nViews[q := s.nViews[q] + 1]);
      if s1.buffer[n] == NoBuffer && s1.data[n].Some? then
        match InitView(g, s1, n)
        case None => None
        case Some(s2) => CountEdges(g, s2, n, 0)
      else CountEdges(g, s1, n, 0)
  }

  ghost predicate NodesOk(g: Graph, nodes: seq<nat>) {
    && (forall i :: 0 <= i < |nodes| ==> nodes[i] < |g| && g[nodes[i]].isNode)
    && (forall i, j :: 0 <= i < j < |nodes| ==> nodes[i] != nodes[j])
    && (forall t :: 0 <= t < |g| && g[t].isNode ==> t in nodes)
  }

  function CountFrom(g: Graph, s: State, nodes: seq<nat>, i: nat): (r: Option<State>)
    requires Fits(g, s) && NodesOk(g, nodes) && i <= |nodes|
    ensures r.Some? ==> Fits(g, r.value)
    decreases |nodes| - i
  {
    if i == |nodes| then Some(s)
    else
      match CountNode(g, s, nodes[i])
      case None => None
      case Some(s') => CountFrom(g, s', nodes, i + 1)
  }

  // ---------------------------------------------------------------- the main loop

  /** The entries of a parse sequence are node indices, or -1 for a barrier. */
  ghost predicate ParseOk(nodes: seq<nat>, parse: seq<int>) {
    forall i :: 0 <= i < |parse| ==> -1 <= parse[i] < |nodes|
  }

  function UpdateRange(g: Graph, s: State, nodes: seq<nat>, parse: seq<int>, from: nat, to: nat): (r: Option<State>)
    requires Fits(g, s) && NodesOk(g, nodes) && ParseOk(nodes, parse)
    requires from <= to <= (if parse == [] then |nodes| else |parse|)
    requires parse != [] ==> forall i :: from <= i < to ==> parse[i] != -1
    ensures r.Some? ==> Fits(g, r.value)
    decreases if from <= to then to - from else 0
  {
    if from == to then Some(s)
    else
      match UpdateFrom(g, s, nodes[if parse == [] then from else parse[from]], 0)
      case None => None
      case Some(s') => UpdateRange(g, s', nodes, parse, from + 1, to)
  }

  function Loop(g: Graph, s: State, nodes: seq<nat>, parse: seq<int>, ind: nat, last: nat): (r: Option<State>)
    requires Fits(g, s) && NodesOk(g, nodes) && ParseOk(nodes, parse)
    requires last <= ind <= (if parse == [] then |nodes| else |parse|)
    requires parse != [] ==> forall i :: last <= i < ind ==> parse[i] != -1
    ensures r.Some? ==> Fits(g, r.value)
    decreases (if parse == [] then |nodes| else |parse|) - ind
  {
    if parse == [] then
      if ind == |nodes| then Some(s)
      else
        match PlaceFrom(g, s, nodes[ind], 0)
        case None => None
        case Some(s1) =>
          match UpdateRange(g, s1, nodes, parse, ind, ind + 1)
          case None => None
          case Some(s2) => Loop(g, s2, nodes, parse, ind + 1, ind + 1)
    else if ind == |parse| then Some(s)
    else if parse[ind] == -1 then
      match UpdateRange(g, s, nodes, parse, last, ind)
      case None => None
      case Some(s1) => Loop(g, s1, nodes, parse, ind + 1, ind + 1)
    else
      match PlaceFrom(g, s, nodes[parse[ind]], 0)
      case None => None
      case Some(s1) => Loop(g, s1, nodes, parse, ind + 1, last)
  }

  function AllocGraph(g: Graph, s: State, nodes: seq<nat>, parse: seq<int>): Option<State>
    requires Fits(g, s) && NodesOk(g, nodes) && ParseOk(nodes, parse)
  {
    match CountFrom(g, s, nodes, 0)
    case None => None
    case Some(s1) => Loop(g, s1, nodes, parse, 0, 0)
  }

  // ---------------------------------------------------------------- the same loop by groups

  /** Nodes between barriers. Without a parse sequence every node is a group of its own. The nodes
      after the last barrier form the tail, whose sources are never released. */
  function Groups(nodes: seq<nat>, parse: seq<int>, ind: nat, pend: seq<nat>): (seq<seq<nat>>, seq<nat>)
    requires ParseOk(nodes, parse) && ind <= (if parse == [] then |nodes| else |parse|)
    decreases (if parse == [] then |nodes| else |parse|) - ind
  {
    if parse == [] then
      if ind == |nodes| then ([], [])
      else
        var (groups, tail) := Groups(nodes, parse, ind + 1, []);
        ([[nodes[ind]]] + groups, tail)
    else if ind == |parse| then ([], pend)
    else if parse[ind] == -1 then
      var (groups, tail) := Groups(nodes, parse, ind + 1, []);
      ([pend] + groups, tail)
    else Groups(nodes, parse, ind + 1, pend + [nodes[parse[ind]]])
  }

  ghost predicate InGraph(g: Graph, ns: seq<nat>) {
    forall i :: 0 <= i < |ns| ==> ns[i] < |g|
  }

  function PlaceAll(g: Graph, s: State, ns: seq<nat>): (r: Option<State>)
    requires Fits(g, s) && InGraph(g, ns)
    ensures r.Some? ==> Fits(g, r.value)
    decreases |ns|
  {
    if ns == [] then Some(s)
    else
      match PlaceAll(g, s, ns[..|ns| - 1])
      case None => None
      case Some(s1) => PlaceFrom(g, s1, ns[|ns| - 1], 0)
  }

  function UpdateAll(g: Graph, s: State, ns: seq<nat>): (r: Option<State>)
    requires Fits(g, s) && InGraph(g, ns)
    ensures r.Some? ==> Fits(g, r.value)
    decreases |ns|
  {
    if ns == [] then Some(s)
    else
      match UpdateFrom(g, s, ns[0], 0)
      case None => None
      case Some(s1) => UpdateAll(g, s1, ns[1..])
  }

  ghost predicate AllInGraph(g: Graph, groups: seq<seq<nat>>) {
    forall k :: 0 <= k < |groups| ==> InGraph(g, groups[k])
  }

  function Plan(g: Graph, s: State, groups: seq<seq<nat>>, tail: seq<nat>): (r: Option<State>)
    requires Fits(g, s) && AllInGraph(g, groups) && InGraph(g, tail)
    ensures r.Some? ==> Fits(g, r.value)
    decreases |groups|
  {
    if groups == [] then PlaceAll(g, s, tail)
    else
      match PlaceAll(g, s, groups[0])
      case None => None
      case Some(s1) =>
        match UpdateAll(g, s1, groups[0])
        case None => None
        case Some(s2) => Plan(g, s2, groups[1..], tail)
  }

  lemma {:induction false} GroupsInGraph(g: Graph, nodes: seq<nat>, parse: seq<int>, ind: nat, pend: seq<nat>)
    requires ParseOk(nodes, parse) && ind <= (if parse == [] then |nodes| else |parse|)
    requires NodesOk(g, nodes) && InGraph(g, pend)
    ensures AllInGraph(g, Groups(nodes, parse, ind, pend).0) && InGraph(g, Groups(nodes, parse, ind, pend).1)
    decreases (if parse == [] then |nodes| else |parse|) - ind
  {
    if parse == [] {
      if ind < |nodes| {
        GroupsInGraph(g, nodes, parse, ind + 1, []);
      }
    } else if ind < |parse| {
      if parse[ind] == -1 {
        GroupsInGraph(g, nodes, parse, ind + 1, []);
      } else {
        GroupsInGraph(g, nodes, parse, ind + 1, pend + [nodes[parse[ind]]]);
      }
    }
  }

  /** The nodes of the parse entries `from .. to`. */
  function Picked(nodes: seq<nat>, parse: seq<int>, from: nat, to: nat): (r: seq<nat>)
    requires ParseOk(nodes, parse) && parse != [] && from <= to <= |parse|
    requires forall i :: from <= i < to ==> parse[i] != -1
    ensures |r| == to - from
    decreases if from <= to then to - from else 0
  {
    if from == to then [] else [nodes[parse[from]]] + Picked(nodes, parse, from + 1, to)
  }

  lemma {:induction false} PickedSnoc(nodes: seq<nat>, parse: seq<int>, from: nat, to: nat)
    requires ParseOk(nodes, parse) && parse != [] && from <= to < |parse|
    requires forall i :: from <= i <= to ==> parse[i] != -1
    ensures Picked(nodes, parse, from, to + 1) == Picked(nodes, parse, from, to) + [nodes[parse[to]]]
    decreases if from <= to then to - from else 0
  {
    if from < to {
      PickedSnoc(nodes, parse, from + 1, to);
    }
  }

  lemma {:induction false} PickedInGraph(g: Graph, nodes: seq<nat>, parse: seq<int>, from: nat, to: nat)
    requires ParseOk(nodes, parse) && parse != [] && from <= to <= |parse| && NodesOk(g, nodes)
    requires forall i :: from <= i < to ==> parse[i] != -1
    ensures InGraph(g, Picked(nodes, parse, from, to))
    decreases if from <= to then to - from else 0
  {
    if from < to {
      PickedInGraph(g, nodes, parse, from + 1, to);
    }
  }

  /** Barriers among the first `i` entries. */
  function Barriers(parse: seq<int>, i: nat): (n: nat)
    requires i <= |parse|
  {
    if i == 0 then 0 else Barriers(parse, i - 1) + if parse[i - 1] == -1 then 1 else 0
  }

  /** Entries `i .. j` are nodes, and nothing but barriers or the ends of the sequence is next to them. */
  ghost predicate IsRun(parse: seq<int>, i: nat, j: nat) {
    && i <= j <= |parse|
    && (forall k :: i <= k < j ==> parse[k] != -1)
    && (i > 0 ==> parse[i - 1] == -1) && (j < |parse| ==> parse[j] == -1)
  }

  lemma {:induction false} GroupGrows(nodes: seq<nat>, parse: seq<int>, ind: nat, j: nat, pend: seq<nat>)
    requires ParseOk(nodes, parse) && parse != [] && ind <= j <= |parse|
    requires forall k :: ind <= k < j ==> parse[k] != -1
    ensures Groups(nodes, parse, ind, pend) == Groups(nodes, parse, j, pend + Picked(nodes, parse, ind, j))
    decreases j - ind
  {
    if ind < j {
      GroupGrows(nodes, parse, ind + 1, j, pend + [nodes[parse[ind]]]);
      assert pend + [nodes[parse[ind]]] + Picked(nodes, parse, ind + 1, j) == pend + Picked(nodes, parse, ind, j);
    } else {
      assert pend + [] == pend;
    }
  }

  /** Where the entries stop being nodes. */
  lemma RunFrom(parse: seq<int>, ind: nat) returns (j: nat)
    requires ind <= |parse|
    ensures ind <= j <= |parse| && (forall k :: ind <= k < j ==> parse[k] != -1) && (j < |parse| ==> parse[j] == -1)
  {
    j := ind;
    while j < |parse| && parse[j] != -1
      invariant ind <= j <= |parse| && forall k :: ind <= k < j ==> parse[k] != -1
    {
      j := j + 1;
    }
  }

  lemma {:induction false} BarriersBetween(parse: seq<int>, i: nat, j: nat)
    requires i <= j <= |parse| && forall k :: i <= k < j ==> parse[k] != -1
    ensures Barriers(parse, i) == Barriers(parse, j)
    decreases j
  {
    if i < j {
      BarriersBetween(parse, i, j - 1);
    }
  }

  lemma {:induction false} GroupBetweenFrom(nodes: seq<nat>, parse: seq<int>, ind: nat, i: nat, j: nat)
    requires ParseOk(nodes, parse) && parse != [] && IsRun(parse, i, j) && ind <= i
    requires ind > 0 ==> parse[ind - 1] == -1
    ensures Barriers(parse, ind) <= Barriers(parse, i)
    ensures var (groups, tail) := Groups(nodes, parse, ind, []);
      var b := Barriers(parse, i) - Barriers(parse, ind);
      b <= |groups| && (groups + [tail])[b] == Picked(nodes, parse, i, j)
    decreases |parse| - ind
  {
    hide Picked;
    var m := RunFrom(parse, ind);
    GroupGrows(nodes, parse, ind, m, []);
    assert [] + Picked(nodes, parse, ind, m) == Picked(nodes, parse, ind, m);
    BarriersBetween(parse, ind, m);
    if ind == i {
      assert m == j;
    } else {
      assert m < i;
      GroupBetweenFrom(nodes, parse, m + 1, i, j);
    }
  }

  /** The groups are the runs of nodes between barriers, each in its place; the tail is the last run. */
  lemma GroupBetween(nodes: seq<nat>, parse: seq<int>, i: nat, j: nat)
    requires ParseOk(nodes, parse) && parse != [] && IsRun(parse, i, j)
    ensures var (groups, tail) := Groups(nodes, parse, 0, []);
      Barriers(parse, i) <= |groups| && (groups + [tail])[Barriers(parse, i)] == Picked(nodes, parse, i, j)
  {
    GroupBetweenFrom(nodes, parse, 0, i, j);
  }

  lemma {:induction false} UpdateRangeIsUpdateAll(g: Graph, s: State, nodes: seq<nat>, parse: seq<int>, from: nat,
                                                  to: nat)
    requires Fits(g, s) && NodesOk(g, nodes) && ParseOk(nodes, parse) && parse != [] && from <= to <= |parse|
    requires forall i :: from <= i < to ==> parse[i] != -1
    requires InGraph(g, Picked(nodes, parse, from, to))
    ensures UpdateRange(g, s, nodes, parse, from, to) == UpdateAll(g, s, Picked(nodes, parse, from, to))
    decreases if from <= to then to - from else 0
  {
    if from < to {
      var picked := Picked(nodes, parse, from, to);
      assert picked[0] == nodes[parse[from]] && picked[1..] == Picked(nodes, parse, from + 1, to);
      var r := UpdateFrom(g, s, picked[0], 0);
      if r.Some? {
        UpdateRangeIsUpdateAll(g, r.value, nodes, parse, from + 1, to);
      }
    }
  }

  /** The loop of the source is the plan by groups: `s` is the state in which the group that is
      open at `ind` began, and its nodes so far are the entries `last .. ind`. */
  lemma {:induction false} LoopIsPlan(g: Graph, s: State, nodes: seq<nat>, parse: seq<int>, ind: nat, last: nat)
    requires Fits(g, s) && NodesOk(g, nodes) && ParseOk(nodes, parse) && parse != []
    requires last <= ind <= |parse| && forall i :: last <= i < ind ==> parse[i] != -1
    ensures InGraph(g, Picked(nodes, parse, last, ind))
    ensures var (groups, tail) := Groups(nodes, parse, ind, Picked(nodes, parse, last, ind));
      AllInGraph(g, groups) && InGraph(g, tail)
      && Plan(g, s, groups, tail) == match PlaceAll(g, s, Picked(nodes, parse, last, ind))
                                     case None => None
                                     case Some(s1) => Loop(g, s1, nodes, parse, ind, last)
    decreases |parse| - ind
  {
    hide GraphOk, NodesOk, UpdateFrom, PlaceFrom, UpdateRange, UpdateAll;
    var pend := Picked(nodes, parse, last, ind);
    PickedInGraph(g, nodes, parse, last, ind);
    GroupsInGraph(g, nodes, parse, ind, pend);
    if ind < |parse| {
      if parse[ind] == -1 {
        UpdatesThenRest(g, s, nodes, parse, ind, last);
      } else {
        PickedSnoc(nodes, parse, last, ind);
        var more := Picked(nodes, parse, last, ind + 1);
        assert more[..|more| - 1] == pend && more[|more| - 1] == nodes[parse[ind]];
        LoopIsPlan(g, s, nodes, parse, ind + 1, last);
      }
    }
  }

  /** The barrier case of `LoopIsPlan`. */
  lemma {:induction false} UpdatesThenRest(g: Graph, s: State, nodes: seq<nat>, parse: seq<int>, ind: nat, last: nat)
    requires Fits(g, s) && NodesOk(g, nodes) && ParseOk(nodes, parse) && parse != []
    requires last <= ind < |parse| && parse[ind] == -1 && forall i :: last <= i < ind ==> parse[i] != -1
    requires InGraph(g, Picked(nodes, parse, last, ind))
    ensures var (groups, tail) := Groups(nodes, parse, ind, Picked(nodes, parse, last, ind));
      AllInGraph(g, groups) && InGraph(g, tail)
      && Plan(g, s, groups, tail) == match PlaceAll(g, s, Picked(nodes, parse, last, ind))
                                     case None => None
                                     case Some(s1) => Loop(g, s1, nodes, parse, ind, last)
    decreases |parse| - ind, 0
  {
    hide Groups, GraphOk, NodesOk, UpdateFrom, PlaceFrom, UpdateRange, UpdateAll;
    var pend := Picked(nodes, parse, last, ind);
    var (groups, tail) := Groups(nodes, parse, ind, pend);
    GroupsInGraph(g, nodes, parse, ind, pend);
    GroupsAtBarrier(nodes, parse, ind, pend);
    var rest := Groups(nodes, parse, ind + 1, []).0;
    assert groups[1..] == rest && groups[0] == pend;
    var placed := PlaceAll(g, s, pend);
    if placed.Some? {
      UpdateRangeIsUpdateAll(g, placed.value, nodes, parse, last, ind);
      var updated := UpdateAll(g, placed.value, pend);
      if updated.Some? {
        assert Picked(nodes, parse, ind + 1, ind + 1) == [];
        LoopIsPlan(g, updated.value, nodes, parse, ind + 1, ind + 1);
      }
    }
  }

  lemma GroupsAtBarrier(nodes: seq<nat>, parse: seq<int>, ind: nat, pend: seq<nat>)
    requires ParseOk(nodes, parse) && ind < |parse| && parse[ind] == -1
    ensures var (groups, tail) := Groups(nodes, parse, ind + 1, []);
      Groups(nodes, parse, ind, pend) == ([pend] + groups, tail)
  {
  }

  lemma {:induction false} SequentialIsPlan(g: Graph, s: State, nodes: seq<nat>, ind: nat)
    requires Fits(g, s) && NodesOk(g, nodes) && ind <= |nodes|
    ensures var (groups, tail) := Groups(nodes, [], ind, []);
      AllInGraph(g, groups) && tail == [] && Plan(g, s, groups, tail) == Loop(g, s, nodes, [], ind, ind)
    decreases |nodes| - ind
  {
    GroupsInGraph(g, nodes, [], ind, []);
    if ind == |nodes| {
    } else {
      var (groups, tail) := Groups(nodes, [], ind, []);
      var n := nodes[ind];
      assert groups[0] == [n] && groups[1..] == Groups(nodes, [], ind + 1, []).0;
      SequentialTail(nodes, ind + 1);
      assert [n][..0] == [] && [n][1..] == [];
      assert PlaceAll(g, s, [n]) == PlaceFrom(g, s, n, 0);
      var placed := PlaceFrom(g, s, n, 0);
      if placed.Some? {
        var r := UpdateFrom(g, placed.value, n, 0);
        assert UpdateAll(g, placed.value, [n]) == r;
        assert UpdateRange(g, placed.value, nodes, [], ind, ind + 1) == r;
        if r.Some? {
          SequentialIsPlan(g, r.value, nodes, ind + 1);
        }
      }
    }
  }

  lemma {:induction false} SequentialTail(nodes: seq<nat>, ind: nat)
    requires ind <= |nodes|
    ensures Groups(nodes, [], ind, []).1 == []
    decreases |nodes| - ind
  {
    if ind < |nodes| {
      SequentialTail(nodes, ind + 1);
    }
  }

  /** Planning a graph is counting, then placing and releasing group by group. */
  lemma AllocGraphByGroups(g: Graph, s: State, nodes: seq<nat>, parse: seq<int>)
    requires Fits(g, s) && NodesOk(g, nodes) && ParseOk(nodes, parse)
    ensures var (groups, tail) := Groups(nodes, parse, 0, []);
      AllInGraph(g, groups) && InGraph(g, tail)
      && AllocGraph(g, s, nodes, parse) == match CountFrom(g, s, nodes, 0)
                                           case None => None
                                           case Some(s1) => Plan(g, s1, groups, tail)
  {
    GroupsInGraph(g, nodes, parse, 0, []);
    var counted := CountFrom(g, s, nodes, 0);
    if counted.Some? {
      if parse == [] {
        SequentialIsPlan(g, counted.value, nodes, 0);
      } else {
        LoopIsPlan(g, counted.value, nodes, parse, 0, 0);
      }
    }
  }
}
