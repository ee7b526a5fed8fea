/** What every step of the graph allocator keeps. `History` is the proof's record of the run: it is
    not part of the allocator's state. */
module GraphInvariant {
  import opened Wrappers
  import opened FreeList
  import opened Arenas
  import opened GraphAlloc

  /** Argument `slot` of node `node`. */
  datatype Edge = Edge(node: nat, slot: nat)

  ghost predicate IsEdge(g: Graph, e: Edge) {
    e.node < |g| && e.slot < |g[e.node].src|
  }

  ghost function Edges(g: Graph): (s: set<Edge>)
    ensures forall e :: e in s <==> IsEdge(g, e)
  {
    set n: nat, j: nat | n < |g| && j < |g[n].src| :: Edge(n, j)
  }

  ghost function Target(g: Graph, e: Edge): nat
    requires IsEdge(g, e)
  {
    g[e.node].src[e.slot]
  }

  /** - placed: nodes that have been given memory; group: those placed since the last barrier
      - done: argument edges already counted off
      - released: views that have been subtracted from their source's view count
      - owner: for each region in use, the tensor whose value it holds, with the region's size */
  datatype History = History(placed: set<nat>, group: set<nat>, done: set<Edge>, released: set<nat>,
                             owner: map<nat, nat>)

  ghost function Undone(g: Graph, done: set<Edge>, t: nat): set<Edge> {
    set e | e in Edges(g) && e !in done && Target(g, e) == t
  }

  /** Tensors counted in the view count of `t`. */
  ghost function Viewers(viewSrc: seq<Option<nat>>, released: set<nat>, t: nat): set<nat> {
    set v: nat | v < |viewSrc| && viewSrc[v] == Some(t) && v !in released
  }

  ghost predicate Consumed(g: Graph, t: nat) {
    exists e :: e in Edges(g) && Target(g, e) == t
  }

  /** A node that has not been placed reads `t`. */
  ghost predicate Wanted(g: Graph, placed: set<nat>, t: nat) {
    exists e :: e in Edges(g) && Target(g, e) == t && e.node !in placed
  }

  /** Someone may still read the value: a later node, or whoever looks at the graph's results. */
  ghost predicate Expected(g: Graph, placed: set<nat>, t: nat) {
    Wanted(g, placed, t) || !Consumed(g, t)
  }

  predicate ViewOf(g: Graph, v: nat, t: nat) {
    v < |g| && g[v].viewSrc == Some(t)
  }

  ghost predicate HasView(g: Graph, t: nat) {
    exists v: nat :: ViewOf(g, v, t)
  }

  /** The value of the non-view tensor `t` must stay in memory. */
  ghost predicate Needed(g: Graph, placed: set<nat>, t: nat) {
    || Wanted(g, placed, t)
    || (exists v: nat :: ViewOf(g, v, t) && Expected(g, placed, v))
    || (!Consumed(g, t) && !HasView(g, t))
  }

  /** A tensor with memory of its own when the graph was built. */
  predicate IsRoot(g: Graph, t: nat) {
    t < |g| && g[t].viewSrc.None?
  }

  /** A root whose memory lies in the arena. */
  predicate InArena(g: Graph, s: State, t: nat)
    requires Fits(g, s)
  {
    IsRoot(g, t) && s.data[t].Some? && s.buffer[t] == Own
  }

  /** A root that took over the memory of another tensor. */
  predicate TookOver(g: Graph, s: State, x: nat)
    requires Fits(g, s)
  {
    IsRoot(g, x) && s.viewSrc[x].Some?
  }

  // ---------------------------------------------------------------- the invariant

  ghost predicate Counted(g: Graph, s: State, h: History)
    requires Fits(g, s)
  {
    forall t :: 0 <= t < |g| ==>
      s.nChildren[t] == |Undone(g, h.done, t)| && s.nViews[t] == |Viewers(s.viewSrc, h.released, t)|
  }

  ghost predicate Progress(g: Graph, s: State, h: History)
    requires Fits(g, s)
  {
    && (forall t :: 0 <= t < |g| && !g[t].isNode ==> s.data[t].Some?)
    && (forall n :: n in h.placed ==> n < |g| && g[n].isNode && s.data[n].Some?)
    && h.group <= h.placed
    && (forall e :: e in h.done ==> e in Edges(g) && e.node in h.placed)
    && (forall e :: e in Edges(g) && e.node in h.placed && e.node !in h.group ==> e in h.done)
    && (forall e :: e in Edges(g) && e.node in h.placed ==> Ready(g, h, Target(g, e)))
    && (forall v :: v in h.placed && v < |g| && g[v].viewSrc.Some? ==> Ready(g, h, g[v].viewSrc.value))
  }

  /** A leaf, or a node placed in an earlier group. */
  ghost predicate Ready(g: Graph, h: History, t: nat) {
    t < |g| && (g[t].isNode ==> t in h.placed && t !in h.group)
  }

  ghost predicate Aliases(g: Graph, s: State, h: History)
    requires Fits(g, s)
  {
    && (forall t :: 0 <= t < |g| && s.buffer[t] == Own ==> s.data[t].Some?)
    && (forall v :: 0 <= v < |g| && g[v].viewSrc.Some? ==> ViewAlias(g, s, v))
    && (forall x :: 0 <= x < |g| && TookOver(g, s, x) ==> TakenAlias(g, s, h, x))
  }

  ghost predicate ViewAlias(g: Graph, s: State, v: nat)
    requires Fits(g, s) && v < |g| && g[v].viewSrc.Some?
  {
    var r := g[v].viewSrc.value;
    && s.viewSrc[v] == Some(r)
    && (s.data[v].Some? ==>
      s.data[r].Some? && s.data[v].value == s.data[r].value + g[v].offs && s.buffer[v] == s.buffer[r])
  }

  ghost predicate TakenAlias(g: Graph, s: State, h: History, x: nat)
    requires Fits(g, s) && TookOver(g, s, x)
  {
    var q := s.viewSrc[x].value;
    && x in h.placed && q < x && InArena(g, s, q) && InArena(g, s, x)
    && s.data[x] == s.data[q] && g[x].size <= g[q].size
    && (Consumed(g, q) || HasView(g, q))
  }

  function Region(s: State, h: History, o: nat): Block
    requires o in h.owner && o < |s.data| && s.data[o].Some?
  {
    Block(s.data[o].value, h.owner[o])
  }

  function Bytes(g: Graph, s: State, t: nat): Block
    requires Fits(g, s) && t < |g| && s.data[t].Some?
  {
    Block(s.data[t].value, g[t].size)
  }

  /** Free blocks and regions in use are disjoint parts of `[lo, hi)`; memory of other buffers lies
      outside, and a node that writes there shares its bytes with no other root. */
  ghost predicate Regions(g: Graph, s: State, h: History, lo: nat, hi: nat)
    requires Fits(g, s)
  {
    && WellFormed(s.heap.free)
    && (forall p :: Covers(s.heap.free, p) ==> lo <= p < hi)
    && OwnersOk(g, s, h, lo, hi)
    && NoRegionFree(g, s, h, lo, hi)
    && RegionsApart(g, s, h, lo, hi)
    && (forall t: nat :: IsRoot(g, t) && s.data[t].Some? && s.buffer[t] != Own ==> Outside(g, s, lo, hi, t))
  }

  ghost predicate OwnersOk(g: Graph, s: State, h: History, lo: nat, hi: nat)
    requires Fits(g, s)
  {
    forall o :: o in h.owner ==> OwnerOk(g, s, h, lo, hi, o)
  }

  ghost predicate NoRegionFree(g: Graph, s: State, h: History, lo: nat, hi: nat)
    requires Fits(g, s) && OwnersOk(g, s, h, lo, hi)
  {
    forall o, p :: o in h.owner && Covers(s.heap.free, p) ==> !Region(s, h, o).Contains(p)
  }

  ghost predicate RegionsApart(g: Graph, s: State, h: History, lo: nat, hi: nat)
    requires Fits(g, s) && OwnersOk(g, s, h, lo, hi)
  {
    forall o, o' :: o in h.owner && o' in h.owner && o != o' ==> Disjoint(Region(s, h, o), Region(s, h, o'))
  }

  ghost predicate OwnerOk(g: Graph, s: State, h: History, lo: nat, hi: nat, o: nat)
    requires Fits(g, s) && o in h.owner
  {
    && InArena(g, s, o)
    && Padded(g[o].size, s.heap.alignment) <= h.owner[o]
    && lo <= s.data[o].value && Region(s, h, o).End() <= hi
    && (s.viewSrc[o].Some? ==> Padded(g[s.viewSrc[o].value].size, s.heap.alignment) <= h.owner[o])
  }

  ghost predicate Outside(g: Graph, s: State, lo: nat, hi: nat, t: nat)
    requires Fits(g, s) && t < |g| && s.data[t].Some?
  {
    && (Bytes(g, s, t).End() <= lo || hi <= s.data[t].value)
    && (g[t].isNode ==> forall u: nat :: IsRoot(g, u) && u != t && s.data[u].Some? && s.buffer[u] != Own
                                    ==> Disjoint(Bytes(g, s, t), Bytes(g, s, u)))
  }

  /** Values that must stay in the arena own their region. */
  ghost predicate NeededOwned(g: Graph, s: State, h: History)
    requires Fits(g, s)
  {
    forall t: nat :: InArena(g, s, t) && Needed(g, h.placed, t) ==> t in h.owner
  }

  ghost predicate Dead(s: State, t: nat)
    requires t < |s.nChildren| && t < |s.nViews|
  {
    s.nChildren[t] == 0 && s.nViews[t] == 0
  }

  /** All remaining reads of `t` are the arguments of `x`. */
  ghost predicate OnlyReadBy(g: Graph, done: set<Edge>, t: nat, x: nat) {
    forall e :: e in Undone(g, done, t) ==> e.node == x
  }

  /** `x`, placed in the open group, took over the memory of its argument `t`, itself an alias. */
  ghost predicate PassedOn(g: Graph, s: State, h: History, t: nat, x: nat)
    requires Fits(g, s) && t < |g|
  {
    && x in h.group && x < |g| && TookOver(g, s, x) && t in g[x].src
    && s.viewSrc[t].Some? && s.viewSrc[x] == s.viewSrc[t]
    && s.nViews[t] == 0 && OnlyReadBy(g, h.done, t, x)
  }

  /** A root without a region of its own is finished, or kept from finishing by a successor. */
  ghost predicate Superseded(g: Graph, s: State, h: History, t: nat)
    requires Fits(g, s) && t < |g|
  {
    || Dead(s, t)
    || (exists x :: x in Viewers(s.viewSrc, h.released, t) && TookOver(g, s, x))
    || (exists x: nat :: PassedOn(g, s, h, t, x))
  }

  ghost predicate OthersSuperseded(g: Graph, s: State, h: History)
    requires Fits(g, s)
  {
    forall t: nat :: InArena(g, s, t) && t !in h.owner ==> Superseded(g, s, h, t)
  }

  /** After a takeover nothing but the successor is left to wait for. */
  ghost predicate TakeoverOk(g: Graph, s: State, h: History, x: nat)
    requires Fits(g, s) && TookOver(g, s, x)
  {
    var q := s.viewSrc[x].value;
    if x in h.group then
      && OnlyReadBy(g, h.done, q, x)
      && (forall v :: v in Viewers(s.viewSrc, h.released, q) && v != x ==>
            v in g[x].src && Undone(g, h.done, v) != {} && OnlyReadBy(g, h.done, v, x) && s.nViews[v] == 0)
    else
      && Undone(g, h.done, q) == {}
      && (forall v :: v in Viewers(s.viewSrc, h.released, q) && v != x ==>
        TookOver(g, s, v) && v in h.group && x in g[v].src)
  }

  ghost predicate TakeoversOk(g: Graph, s: State, h: History)
    requires Fits(g, s)
  {
    forall x :: 0 <= x < |g| && TookOver(g, s, x) && x !in h.released ==> TakeoverOk(g, s, h, x)
  }

  ghost predicate ReleasedOk(g: Graph, s: State, h: History)
    requires Fits(g, s)
  {
    forall v :: v in h.released ==> v < |g| && s.viewSrc[v].Some? && Dead(s, v) && Consumed(g, v)
  }

  ghost predicate Inv(g: Graph, s: State, h: History, lo: nat, hi: nat) {
    && Fits(g, s)
    && Counted(g, s, h)
    && Progress(g, s, h)
    && Aliases(g, s, h)
    && Regions(g, s, h, lo, hi)
    && NeededOwned(g, s, h)
    && OthersSuperseded(g, s, h)
    && TakeoversOk(g, s, h)
    && ReleasedOk(g, s, h)
  }
}
