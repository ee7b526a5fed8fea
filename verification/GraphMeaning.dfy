/** The main theorem about the graph allocator: computing a graph in the memory it planned gives
    every tensor the value it has when all tensors own private memory. */
module GraphMeaning {
  import opened Wrappers
  import opened FreeList
  import opened Arenas
  import opened GraphAlloc
  import opened GraphInvariant
  import opened GraphPlace
  import opened GraphRelease
  import opened GraphPlan

  type Content = seq<int>

  /** What an operation computes from the bytes of its arguments. */
  type Kernel = (nat, seq<Content>) -> Content

  type Memory = int -> int

  /** An operation writes exactly the bytes of its result. */
  function Fit(v: Content, n: nat): (r: Content)
    ensures |r| == n
  {
    seq(n, i requires 0 <= i < n => if i < |v| then v[i] else 0)
  }

  // ---------------------------------------------------------------- private memory

  /** The value of `t` when every tensor that is not a view owns its memory. */
  function Value(g: Graph, kernel: Kernel, init: seq<Content>, t: nat): (r: Content)
    requires GraphOk(g) && t < |g| && |init| == |g|
    ensures |r| == g[t].size
    decreases t
  {
    if g[t].viewSrc.Some? then
      assert ViewOk(g, t);
      Value(g, kernel, init, g[t].viewSrc.value)[g[t].offs..g[t].offs + g[t].size]
    else if !g[t].isNode then Fit(init[t], g[t].size)
    else Fit(kernel(t, Values(g, kernel, init, t, g[t].src)), g[t].size)
  }

  function Values(g: Graph, kernel: Kernel, init: seq<Content>, bound: nat, ts: seq<nat>): (r: seq<Content>)
    requires GraphOk(g) && bound <= |g| && |init| == |g|
    requires forall i :: 0 <= i < |ts| ==> ts[i] < bound
    ensures |r| == |ts|
    ensures forall i :: 0 <= i < |ts| ==> r[i] == Value(g, kernel, init, ts[i])
    decreases bound, |ts|
  {
    if ts == [] then []
    else Values(g, kernel, init, bound, ts[..|ts| - 1]) + [Value(g, kernel, init, ts[|ts| - 1])]
  }

  // ---------------------------------------------------------------- planned memory

  function Load(m: Memory, a: int, n: nat): (r: Content)
    ensures |r| == n
  {
    seq(n, i requires 0 <= i < n => m(a + i))
  }

  function Store(m: Memory, a: int, v: Content): Memory {
    (p: int) => if a <= p < a + |v| then v[p - a] else m(p)
  }

  function Address(data: seq<Option<nat>>, t: nat): nat {
    if t < |data| && data[t].Some? then data[t].value else 0
  }

  function LoadTensor(g: Graph, data: seq<Option<nat>>, m: Memory, t: nat): (r: Content)
    requires t < |g|
    ensures |r| == g[t].size
  {
    Load(m, Address(data, t), g[t].size)
  }

  function Arguments(g: Graph, data: seq<Option<nat>>, m: Memory, n: nat): (r: seq<Content>)
    requires GraphOk(g) && n < |g|
    ensures |r| == |g[n].src|
  {
    seq(|g[n].src|, j requires 0 <= j < |g[n].src| => LoadTensor(g, data, m, g[n].src[j]))
  }

  /** Running a node: a view computes nothing, any other node reads its arguments and then writes. */
  function RunNode(g: Graph, kernel: Kernel, data: seq<Option<nat>>, m: Memory, n: nat): Memory
    requires GraphOk(g) && n < |g|
  {
    if g[n].viewSrc.Some? then m
    else Store(m, Address(data, n), Fit(kernel(n, Arguments(g, data, m, n)), g[n].size))
  }

  /** What a node saw and left behind. */
  datatype Event = Event(node: nat, arguments: seq<Content>, result: Content)

  function Run(g: Graph, kernel: Kernel, data: seq<Option<nat>>, m: Memory, order: seq<nat>): (Memory, seq<Event>)
    requires GraphOk(g) && InGraph(g, order)
  {
    if order == [] then (m, [])
    else
      var n := order[0];
      var m1 := RunNode(g, kernel, data, m, n);
      var (m2, events) := Run(g, kernel, data, m1, order[1..]);
      (m2, [Event(n, Arguments(g, data, m, n), LoadTensor(g, data, m1, n))] + events)
  }

  /** The event of `n` shows the private-memory values. */
  ghost predicate Right(g: Graph, kernel: Kernel, init: seq<Content>, e: Event)
    requires GraphOk(g) && |init| == |g|
  {
    && e.node < |g|
    && e.arguments == Values(g, kernel, init, e.node, g[e.node].src)
    && e.result == Value(g, kernel, init, e.node)
  }

  ghost predicate AllRight(g: Graph, kernel: Kernel, init: seq<Content>, events: seq<Event>)
    requires GraphOk(g) && |init| == |g|
  {
    forall i :: 0 <= i < |events| ==> Right(g, kernel, init, events[i])
  }

  // ---------------------------------------------------------------- bytes written in a group

  /** `t` lies outside the arena, owns a region, or lies in the region of a node other than `n`. */
  ghost predicate Sheltered(g: Graph, s: State, h: History, t: nat, n: nat)
    requires Fits(g, s)
  {
    && IsRoot(g, t) && s.data[t].Some? && t != n
    && (InArena(g, s, t) ==> t in h.owner || exists x: nat :: x != n && HeldBy(g, s, h, t, x))
  }

  /** A node writes no byte of a sheltered tensor. */
  lemma WritesApart(g: Graph, s: State, h: History, lo: nat, hi: nat, n: nat, t: nat)
    requires Inv(g, s, h, lo, hi) && GroupSafe(g, s, h) && n in h.group && IsRoot(g, n) && Sheltered(g, s, h, t, n)
    ensures s.data[n].Some? && Disjoint(Bytes(g, s, n), Bytes(g, s, t))
  {
    assert s.data[n].Some? && g[n].isNode;
    if s.buffer[n] != Own {
      assert Outside(g, s, lo, hi, n);
      if s.buffer[t] == Own {
        var b := Enclosing(g, s, h, lo, hi, n, t);
      }
    } else {
      var b := Enclosing(g, s, h, lo, hi, n, n);
      assert OwnerOk(g, s, h, lo, hi, n);
      if s.buffer[t] == Own {
        var c := OtherRegion(g, s, h, lo, hi, n, t);
      } else {
        assert Outside(g, s, lo, hi, t);
      }
    }
  }

  lemma Enclosing(g: Graph, s: State, h: History, lo: nat, hi: nat, n: nat, t: nat) returns (b: Block)
    requires Inv(g, s, h, lo, hi) && InArena(g, s, t)
    requires t in h.owner || exists x: nat :: x != n && HeldBy(g, s, h, t, x)
    ensures lo <= b.addr && b.End() <= hi && b.addr <= s.data[t].value && Bytes(g, s, t).End() <= b.End()
  {
    var o := t;
    if t !in h.owner {
      o :| o != n && HeldBy(g, s, h, t, o);
    }
    assert OwnerOk(g, s, h, lo, hi, o);
    b := Region(s, h, o);
  }

  lemma OtherRegion(g: Graph, s: State, h: History, lo: nat, hi: nat, n: nat, t: nat) returns (b: Block)
    requires Inv(g, s, h, lo, hi) && InArena(g, s, t) && InArena(g, s, n) && n in h.owner && t != n
    requires t in h.owner || exists x: nat :: x != n && HeldBy(g, s, h, t, x)
    ensures b.addr <= s.data[t].value && Bytes(g, s, t).End() <= b.End()
    ensures Disjoint(Region(s, h, n), b)
  {
    var o := t;
    if t !in h.owner {
      o :| o != n && HeldBy(g, s, h, t, o);
    }
    assert OwnerOk(g, s, h, lo, hi, o) && OwnerOk(g, s, h, lo, hi, n);
    b := Region(s, h, o);
  }

  // ---------------------------------------------------------------- addresses never change

  lemma {:induction false} PlaceFromKeeps(g: Graph, s: State, n: nat, j: nat)
    requires Fits(g, s) && n < |g| && j <= |g[n].src| && PlaceFrom(g, s, n, j).Some?
    ensures DataKept(g, s, PlaceFrom(g, s, n, j).value)
    decreases |g[n].src| - j
  {
    if j < |g[n].src| {
      PlaceFromKeeps(g, AllocateNode(g, s, g[n].src[j]).value, n, j + 1);
    }
  }

  lemma {:induction false} PlaceAllKeeps(g: Graph, s: State, ns: seq<nat>)
    requires Fits(g, s) && InGraph(g, ns) && PlaceAll(g, s, ns).Some?
    ensures DataKept(g, s, PlaceAll(g, s, ns).value)
    decreases |ns|
  {
    if ns != [] {
      PlaceAllKeeps(g, s, ns[..|ns| - 1]);
      PlaceFromKeeps(g, PlaceAll(g, s, ns[..|ns| - 1]).value, ns[|ns| - 1], 0);
    }
  }

  lemma {:induction false} UpdateFromKeeps(g: Graph, s: State, n: nat, j: nat)
    requires Fits(g, s) && n < |g| && j <= |g[n].src| && UpdateFrom(g, s, n, j).Some?
    ensures UpdateFrom(g, s, n, j).value.data == s.data
    decreases |g[n].src| - j
  {
    if j < |g[n].src| {
      UpdateFromKeeps(g, UpdateParent(g, s, g[n].src[j]).value, n, j + 1);
    }
  }

  lemma {:induction false} UpdateAllKeeps(g: Graph, s: State, ns: seq<nat>)
    requires Fits(g, s) && InGraph(g, ns) && UpdateAll(g, s, ns).Some?
    ensures UpdateAll(g, s, ns).value.data == s.data
    decreases |ns|
  {
    if ns != [] {
      UpdateFromKeeps(g, s, ns[0], 0);
      UpdateAllKeeps(g, UpdateFrom(g, s, ns[0], 0).value, ns[1..]);
    }
  }

  lemma {:induction false} PlanKeeps(g: Graph, s: State, groups: seq<seq<nat>>, tail: seq<nat>)
    requires Fits(g, s) && AllInGraph(g, groups) && InGraph(g, tail) && Plan(g, s, groups, tail).Some?
    ensures DataKept(g, s, Plan(g, s, groups, tail).value)
    decreases |groups|
  {
    hide GraphOk;
    if groups == [] {
      PlaceAllKeeps(g, s, tail);
    } else {
      PlaceAllKeeps(g, s, groups[0]);
      var s1 := PlaceAll(g, s, groups[0]).value;
      UpdateAllKeeps(g, s1, groups[0]);
      PlanKeeps(g, UpdateAll(g, s1, groups[0]).value, groups[1..], tail);
    }
  }

  // ---------------------------------------------------------------- running one group

  /** `t` holds its private-memory value. */
  ghost predicate Holds(g: Graph, kernel: Kernel, init: seq<Content>, data: seq<Option<nat>>, m: Memory, t: nat)
    requires GraphOk(g) && |init| == |g| && t < |g|
  {
    LoadTensor(g, data, m, t) == Value(g, kernel, init, t)
  }

  /** Needed values are in memory. */
  ghost predicate MemoryOk(g: Graph, kernel: Kernel, init: seq<Content>, data: seq<Option<nat>>, placed: set<nat>,
                           m: Memory)
    requires GraphOk(g) && |init| == |g|
  {
    forall t: nat :: IsRoot(g, t) && (g[t].isNode ==> t in placed) && Needed(g, placed, t) ==>
      Holds(g, kernel, init, data, m, t)
  }

  /** While the nodes `left` of the open group remain: `t` has been computed, and it is needed
      later, or an argument of a remaining node, or itself of the group. */
  ghost predicate Current(g: Graph, h: History, left: set<nat>, t: nat) {
    && IsRoot(g, t) && (g[t].isNode ==> t in h.placed && t !in left)
    && (Needed(g, h.placed, t) || ReadIn(g, left, t) || t in h.group)
  }

  ghost predicate ReadIn(g: Graph, left: set<nat>, t: nat) {
    exists e :: e in Edges(g) && e.node in left && Target(g, e) < |g| && Base(g, Target(g, e)) == t
  }

  ghost predicate GroupMemoryOk(g: Graph, kernel: Kernel, init: seq<Content>, data: seq<Option<nat>>, h: History,
                                left: set<nat>, m: Memory)
    requires GraphOk(g) && |init| == |g|
  {
    forall t: nat :: Current(g, h, left, t) ==> Holds(g, kernel, init, data, m, t)
  }

  /** `data` extends the addresses of `s`. */
  ghost predicate Extends(s: State, data: seq<Option<nat>>) {
    |data| == |s.data| && forall t :: 0 <= t < |data| && s.data[t].Some? ==> data[t] == s.data[t]
  }

  lemma ViewHolds(g: Graph, kernel: Kernel, init: seq<Content>, s: State, data: seq<Option<nat>>, m: Memory, v: nat)
    requires Fits(g, s) && |init| == |g| && Extends(s, data) && v < |g| && !IsRoot(g, v) && s.data[v].Some?
      && ViewAlias(g, s, v)
    requires g[v].viewSrc.value < |g| && Holds(g, kernel, init, data, m, g[v].viewSrc.value)
    ensures Holds(g, kernel, init, data, m, v)
  {
    PlacedViewHolds(g, kernel, init, data, m, v);
  }

  /** An argument of a node holds its value when its base does. */
  lemma ArgumentHolds(g: Graph, kernel: Kernel, init: seq<Content>, s: State, h: History, data: seq<Option<nat>>,
                      left: set<nat>, m: Memory, e: Edge)
    requires Fits(g, s) && Progress(g, s, h) && Aliases(g, s, h) && |init| == |g| && Extends(s, data)
    requires left <= h.group && GroupMemoryOk(g, kernel, init, data, h, left, m)
    requires e in Edges(g) && e.node in left
    ensures Target(g, e) < |g| && Holds(g, kernel, init, data, m, Target(g, e))
  {
    var t := Target(g, e);
    assert Ready(g, h, t);
    if IsRoot(g, t) {
      assert Base(g, t) == t && ReadIn(g, left, t);
      assert Current(g, h, left, t);
    } else {
      assert ViewOk(g, t) && ViewAlias(g, s, t);
      var r := g[t].viewSrc.value;
      assert Ready(g, h, r);
      assert Base(g, t) == r && ReadIn(g, left, r);
      assert Current(g, h, left, r);
      ViewHolds(g, kernel, init, s, data, m, t);
    }
  }

  /** The source of a view of the open group is needed. */
  lemma ViewSourceCurrent(g: Graph, s: State, h: History, left: set<nat>, v: nat)
    requires Fits(g, s) && Progress(g, s, h) && left <= h.group && v in h.group && v < |g| && !IsRoot(g, v)
    ensures g[v].viewSrc.value < |g| && Current(g, h, left, g[v].viewSrc.value)
  {
    assert ViewOk(g, v);
    var r := g[v].viewSrc.value;
    assert Ready(g, h, r);
    assert Expected(g, h.placed, v) by {
      if e :| e in Edges(g) && Target(g, e) == v {
        assert e.node !in h.placed || Ready(g, h, v);
      }
    }
    assert ViewOf(g, v, r);
  }

  lemma StoreKeeps(m: Memory, a: int, v: Content, b: int, n: nat)
    requires b + n <= a || a + |v| <= b
    ensures Load(Store(m, a, v), b, n) == Load(m, b, n)
  {
  }

  lemma StoreSets(m: Memory, a: int, v: Content)
    ensures Load(Store(m, a, v), a, |v|) == v
  {
  }

  /** What is current when `n` has run is sheltered from what `n` writes. */
  lemma CurrentSheltered(g: Graph, s: State, h: History, lo: nat, hi: nat, left: set<nat>, n: nat, t: nat)
    requires Inv(g, s, h, lo, hi) && GroupSafe(g, s, h) && left <= h.group && n in left && IsRoot(g, n)
    requires Current(g, h, left - {n}, t) && t != n
    ensures Sheltered(g, s, h, t, n)
  {
    if InArena(g, s, t) && t !in h.owner {
      assert !Needed(g, h.placed, t) && t !in h.group;
      var e :| e in Edges(g) && e.node in left - {n} && Target(g, e) < |g| && Base(g, Target(g, e)) == t;
      assert ReadSafe(g, s, h, e);
      assert e.node != n && HeldBy(g, s, h, t, e.node);
    }
  }

  /** Running one node of the open group. */
  lemma RunOne(g: Graph, kernel: Kernel, init: seq<Content>, s: State, h: History, lo: nat, hi: nat,
               data: seq<Option<nat>>, left: set<nat>, m: Memory, n: nat)
    requires Inv(g, s, h, lo, hi) && GroupSafe(g, s, h) && |init| == |g| && Extends(s, data)
    requires left <= h.group && n in left && n < |g| && GroupMemoryOk(g, kernel, init, data, h, left, m)
    ensures Arguments(g, data, m, n) == Values(g, kernel, init, n, g[n].src)
    ensures var m1 := RunNode(g, kernel, data, m, n);
      Holds(g, kernel, init, data, m1, n) && GroupMemoryOk(g, kernel, init, data, h, left - {n}, m1)
  {
    forall j | 0 <= j < |g[n].src|
      ensures LoadTensor(g, data, m, g[n].src[j]) == Value(g, kernel, init, g[n].src[j])
    {
      ArgumentHolds(g, kernel, init, s, h, data, left, m, Edge(n, j));
    }
    assert Arguments(g, data, m, n) == Values(g, kernel, init, n, g[n].src);
    if IsRoot(g, n) {
      RunOneRoot(g, kernel, init, s, h, lo, hi, data, left, m, n);
    } else {
      ViewSourceCurrent(g, s, h, left, n);
      assert ViewAlias(g, s, n);
      ViewHolds(g, kernel, init, s, data, m, n);
      forall t: nat | Current(g, h, left - {n}, t)
        ensures Current(g, h, left, t)
      {
      }
    }
  }

  lemma RunOneRoot(g: Graph, kernel: Kernel, init: seq<Content>, s: State, h: History, lo: nat, hi: nat,
                   data: seq<Option<nat>>, left: set<nat>, m: Memory, n: nat)
    requires Inv(g, s, h, lo, hi) && GroupSafe(g, s, h) && |init| == |g| && Extends(s, data)
    requires left <= h.group && n in left && IsRoot(g, n) && GroupMemoryOk(g, kernel, init, data, h, left, m)
    requires Arguments(g, data, m, n) == Values(g, kernel, init, n, g[n].src)
    ensures var m1 := RunNode(g, kernel, data, m, n);
      Holds(g, kernel, init, data, m1, n) && GroupMemoryOk(g, kernel, init, data, h, left - {n}, m1)
  {
    hide Counted, Aliases, Regions, NeededOwned, OthersSuperseded, TakeoversOk, ReleasedOk, GraphOk, GroupSafe;
    var v := Value(g, kernel, init, n);
    assert g[n].isNode;
    assert v == Fit(kernel(n, Arguments(g, data, m, n)), g[n].size);
    var m1 := RunNode(g, kernel, data, m, n);
    assert m1 == Store(m, Address(data, n), v);
    StoreSets(m, Address(data, n), v);
    forall t: nat | Current(g, h, left - {n}, t)
      ensures Holds(g, kernel, init, data, m1, t)
    {
      if t != n {
        CurrentSheltered(g, s, h, lo, hi, left, n, t);
        WritesApart(g, s, h, lo, hi, n, t);
        StoreKeeps(m, Address(data, n), v, Address(data, t), g[t].size);
        assert Current(g, h, left, t);
      }
    }
  }

  ghost predicate Distinct(ns: seq<nat>) {
    forall i, j :: 0 <= i < j < |ns| ==> ns[i] != ns[j]
  }

  /** The rest of a group, in any order. */
  lemma {:induction false} RunRest(g: Graph, kernel: Kernel, init: seq<Content>, s: State, h: History, lo: nat,
                                   hi: nat, data: seq<Option<nat>>, order: seq<nat>, m: Memory)
    requires Inv(g, s, h, lo, hi) && GroupSafe(g, s, h) && |init| == |g| && Extends(s, data)
    requires InGraph(g, order) && Distinct(order) && Members(order) <= h.group
    requires GroupMemoryOk(g, kernel, init, data, h, Members(order), m)
    ensures var (m', events) := Run(g, kernel, data, m, order);
      AllRight(g, kernel, init, events) && GroupMemoryOk(g, kernel, init, data, h, {}, m') && |events| == |order|
      && forall i :: 0 <= i < |order| ==> events[i].node == order[i]
    decreases |order|
  {
    hide Counted, Progress, Aliases, Regions, NeededOwned, OthersSuperseded, TakeoversOk, ReleasedOk, GraphOk,
      GroupSafe, GroupMemoryOk, RunNode;
    if order == [] {
      assert Members(order) == {};
    } else {
      var n := order[0];
      RunOne(g, kernel, init, s, h, lo, hi, data, Members(order), m, n);
      assert Members(order[1..]) == Members(order) - {n};
      RunRest(g, kernel, init, s, h, lo, hi, data, order[1..], RunNode(g, kernel, data, m, n));
    }
  }

  /** `order` runs the nodes of the group once each. */
  ghost predicate Interleaves(group: seq<nat>, order: seq<nat>) {
    multiset(group) == multiset(order)
  }

  lemma {:induction false} InterleavingMembers(group: seq<nat>, order: seq<nat>)
    requires Interleaves(group, order) && Distinct(group)
    ensures Distinct(order) && Members(order) == Members(group)
  {
    forall n: nat
      ensures n in group <==> n in order
    {
      assert n in multiset(group) <==> n in multiset(order);
    }
    forall i, j | 0 <= i < j < |order|
      ensures order[i] != order[j]
    {
      OccursOnce(group, order[i]);
      OccursTwice(order, i, j);
    }
  }

  lemma OccursTwice(ns: seq<nat>, i: nat, j: nat)
    requires i < j < |ns|
    ensures ns[i] == ns[j] ==> multiset(ns)[ns[i]] >= 2
  {
    assert ns == ns[..j] + ns[j..];
    assert ns[i] in ns[..j] && ns[j] in ns[j..];
  }

  lemma {:induction false} OccursOnce(ns: seq<nat>, n: nat)
    requires Distinct(ns)
    ensures multiset(ns)[n] <= 1
  {
    if ns != [] {
      assert ns == [ns[0]] + ns[1..];
      OccursOnce(ns[1..], n);
      assert ns[0] !in ns[1..];
    }
  }

  /** Barrier mode is interleaving-safe: whatever order a group runs in, every node reads and
      computes its private-memory values, and the needed values are in memory afterwards. */
  lemma RunGroup(g: Graph, kernel: Kernel, init: seq<Content>, s: State, h0: History, h: History, lo: nat, hi: nat,
                 data: seq<Option<nat>>, group: seq<nat>, order: seq<nat>, m: Memory)
    requires Inv(g, s, h, lo, hi) && GroupSafe(g, s, h) && Opened(g, h0, h, group) && |init| == |g| && Extends(s, data)
    requires GroupOk(g, h0.placed, group) && InGraph(g, group) && InGraph(g, order) && Interleaves(group, order)
    requires MemoryOk(g, kernel, init, data, h0.placed, m)
    ensures var (m', events) := Run(g, kernel, data, m, order);
      AllRight(g, kernel, init, events) && MemoryOk(g, kernel, init, data, h.placed, m')
      && |events| == |order| && forall i :: 0 <= i < |order| ==> events[i].node == order[i]
  {
    hide Counted, Progress, Aliases, Regions, NeededOwned, OthersSuperseded, TakeoversOk, ReleasedOk, GraphOk,
      GroupSafe, Run, Needed;
    InterleavingMembers(group, order);
    forall t: nat | Current(g, h, Members(order), t)
      ensures Holds(g, kernel, init, data, m, t)
    {
      StillNeeded(g, s, h0, h, group, t);
    }
    RunRest(g, kernel, init, s, h, lo, hi, data, order, m);
  }

  lemma StillNeeded(g: Graph, s: State, h0: History, h: History, group: seq<nat>, t: nat)
    requires GraphOk(g) && Opened(g, h0, h, group) && GroupOk(g, h0.placed, group) && Current(g, h, Members(group), t)
    ensures Needed(g, h0.placed, t) && (g[t].isNode ==> t in h0.placed)
  {
    if Needed(g, h.placed, t) {
      PlacedShrinksNeeds(g, h0.placed, h.placed, t);
    } else if e :| e in Edges(g) && e.node in Members(group) && Target(g, e) < |g| && Base(g, Target(g, e)) == t {
      assert NodeOk(g, h0.placed, e.node);
      assert Target(g, e) in g[e.node].src;
      ArgumentIsNeeded(g, h0, e.node, Target(g, e));
    }
  }

  // ---------------------------------------------------------------- the whole graph

  /** One order for every group, and one for the nodes after the last barrier. */
  ghost predicate Orders(groups: seq<seq<nat>>, tail: seq<nat>, orders: seq<seq<nat>>) {
    && |orders| == |groups| + 1
    && (forall k :: 0 <= k < |groups| ==> Interleaves(groups[k], orders[k]))
    && Interleaves(tail, orders[|groups|])
  }

  /** Group after group, each in its order. */
  function RunAll(g: Graph, kernel: Kernel, data: seq<Option<nat>>, m: Memory,
                  orders: seq<seq<nat>>): (Memory, seq<Event>)
    requires GraphOk(g) && AllInGraph(g, orders)
    decreases |orders|
  {
    if orders == [] then (m, [])
    else
      var (m1, first) := Run(g, kernel, data, m, orders[0]);
      var (m2, rest) := RunAll(g, kernel, data, m1, orders[1..]);
      (m2, first + rest)
  }

  ghost function AllMembers(groups: seq<seq<nat>>, tail: seq<nat>): set<nat>
    decreases |groups|
  {
    if groups == [] then Members(tail) else Members(groups[0]) + AllMembers(groups[1..], tail)
  }

  predicate ViewNode(g: Graph, v: nat) {
    v < |g| && g[v].viewSrc.Some?
  }

  /** The view lies at its offset in its source. */
  ghost predicate ViewPlaced(g: Graph, data: seq<Option<nat>>, v: nat)
    requires ViewNode(g, v)
  {
    var r := g[v].viewSrc.value;
    v < |data| && r < |data| && data[v].Some? && data[r].Some? && data[v].value == data[r].value + g[v].offs
  }

  lemma ViewsPlaced(g: Graph, s: State, h: History)
    requires Fits(g, s) && Progress(g, s, h) && Aliases(g, s, h)
    ensures forall v :: v in h.placed && ViewNode(g, v) ==> ViewPlaced(g, s.data, v)
  {
    forall v | v in h.placed && ViewNode(g, v)
      ensures ViewPlaced(g, s.data, v)
    {
      assert ViewAlias(g, s, v) && ViewOk(g, v);
    }
  }

  lemma {:induction false} RunPlan(g: Graph, kernel: Kernel, init: seq<Content>, s: State, h: History, lo: nat,
      hi: nat, groups: seq<seq<nat>>, tail: seq<nat>, orders: seq<seq<nat>>, data: seq<Option<nat>>, m: Memory)
    requires Inv(g, s, h, lo, hi) && h.group == {} && AllInGraph(g, groups) && InGraph(g, tail) && AllInGraph(g, orders)
    requires Separated(g, h.placed, groups, tail) && Orders(groups, tail, orders) && |init| == |g|
    requires Plan(g, s, groups, tail).Some? && Plan(g, s, groups, tail).value.data == data
    requires MemoryOk(g, kernel, init, data, h.placed, m)
    ensures var (m', events) := RunAll(g, kernel, data, m, orders);
      AllRight(g, kernel, init, events) && MemoryOk(g, kernel, init, data, h.placed + AllMembers(groups, tail), m')
    ensures forall v :: v in h.placed + AllMembers(groups, tail) && ViewNode(g, v) ==> ViewPlaced(g, data, v)
    decreases |groups|
  {
    hide Counted, Progress, Aliases, Regions, NeededOwned, OthersSuperseded, TakeoversOk, ReleasedOk, GraphOk,
      GroupSafe, Run, Needed, GroupOk;
    if groups == [] {
      var h1 := PlaceGroup(g, s, h, lo, hi, tail);
      RunGroup(g, kernel, init, PlaceAll(g, s, tail).value, h, h1, lo, hi, data, tail, orders[0], m);
      assert orders[1..] == [];
      ViewsPlaced(g, PlaceAll(g, s, tail).value, h1);
    } else {
      var s1 := PlaceAll(g, s, groups[0]).value;
      var s2 := UpdateAll(g, s1, groups[0]).value;
      var h1, h2 := WholeGroup(g, s, h, lo, hi, groups[0]);
      UpdateAllKeeps(g, s1, groups[0]);
      PlanKeeps(g, s2, groups[1..], tail);
      RunGroup(g, kernel, init, s1, h, h1, lo, hi, data, groups[0], orders[0], m);
      var m1 := Run(g, kernel, data, m, orders[0]).0;
      RunPlan(g, kernel, init, s2, h2, lo, hi, groups[1..], tail, orders[1..], data, m1);
      assert h2.placed + AllMembers(groups[1..], tail) == h.placed + AllMembers(groups, tail);
    }
  }

  /** A tensor that nobody consumes: it has no reader and, unless it is a view, no views. */
  ghost predicate IsResult(g: Graph, t: nat) {
    t < |g| && !Consumed(g, t) && (IsRoot(g, t) ==> !HasView(g, t))
  }

  /** Sharing memory does not change what the graph computes. For every parse sequence whose
      barriers separate dependent nodes, and every order of the nodes between two barriers, each
      node reads and computes the values it has in private memory, and at the end so does
      every placed tensor that nobody consumes. */
  lemma SharedMemoryPreservesMeaning(g: Graph, kernel: Kernel, s0: State, lo: nat, hi: nat, nodes: seq<nat>,
                                     parse: seq<int>, orders: seq<seq<nat>>, m0: Memory)
    requires Ready0(g, s0, lo, hi) && NodesOk(g, nodes) && ParseOk(nodes, parse)
    requires var (groups, tail) := Groups(nodes, parse, 0, []);
      Separated(g, {}, groups, tail) && Orders(groups, tail, orders)
    requires AllInGraph(g, orders)
    requires AllocGraph(g, s0, nodes, parse).Some?
    ensures var data := AllocGraph(g, s0, nodes, parse).value.data;
      var init := Initial(g, s0, m0);
      var (groups, tail) := Groups(nodes, parse, 0, []);
      var (m, events) := RunAll(g, kernel, data, m0, orders);
      && AllRight(g, kernel, init, events)
      && (forall t: nat :: IsResult(g, t) && (g[t].isNode ==> t in AllMembers(groups, tail)) ==>
        Holds(g, kernel, init, data, m, t))
  {
    hide Counted, Progress, Aliases, Regions, NeededOwned, OthersSuperseded, TakeoversOk, ReleasedOk, GroupSafe, Run,
      RunAll, Groups;
    var (groups, tail) := Groups(nodes, parse, 0, []);
    AllocGraphByGroups(g, s0, nodes, parse);
    CountingStarts(g, s0, nodes, lo, hi);
    var s, h := CountFrom(g, s0, nodes, 0).value, Start(g, s0);
    var data := Plan(g, s, groups, tail).value.data;
    var init := Initial(g, s0, m0);
    PlanKeeps(g, s, groups, tail);
    LeavesLoaded(g, kernel, s0, data, m0);
    RunPlan(g, kernel, init, s, h, lo, hi, groups, tail, orders, data, m0);
    var m := RunAll(g, kernel, data, m0, orders).0;
    assert {} + AllMembers(groups, tail) == AllMembers(groups, tail);
    forall t: nat | IsResult(g, t) && (g[t].isNode ==> t in AllMembers(groups, tail))
      ensures Holds(g, kernel, init, data, m, t)
    {
      ResultHolds(g, kernel, init, data, groups, tail, m, t);
    }
  }

  lemma ResultHolds(g: Graph, kernel: Kernel, init: seq<Content>, data: seq<Option<nat>>, groups: seq<seq<nat>>,
                    tail: seq<nat>, m: Memory, t: nat)
    requires GraphOk(g) && |init| == |g| && |data| == |g| && Separated(g, {}, groups, tail)
    requires IsResult(g, t) && (g[t].isNode ==> t in AllMembers(groups, tail))
    requires MemoryOk(g, kernel, init, data, AllMembers(groups, tail), m)
    requires forall v :: v in AllMembers(groups, tail) && ViewNode(g, v) ==> ViewPlaced(g, data, v)
    ensures Holds(g, kernel, init, data, m, t)
  {
    hide Separated, Holds, Value, LoadTensor, AllMembers;
    var placed := AllMembers(groups, tail);
    if IsRoot(g, t) {
      assert Needed(g, placed, t);
    } else {
      assert ViewOk(g, t) && ViewNode(g, t);
      var r := g[t].viewSrc.value;
      SourcesPlaced(g, {}, groups, tail, t);
      assert ViewOf(g, t, r) && Expected(g, placed, t);
      assert Holds(g, kernel, init, data, m, r);
      PlacedViewHolds(g, kernel, init, data, m, t);
    }
  }

  /** A view that lies at its offset holds what it should when its source does. */
  lemma PlacedViewHolds(g: Graph, kernel: Kernel, init: seq<Content>, data: seq<Option<nat>>, m: Memory, t: nat)
    requires GraphOk(g) && |init| == |g| && ViewNode(g, t) && g[t].viewSrc.value < |g| && ViewPlaced(g, data, t)
    requires Holds(g, kernel, init, data, m, g[t].viewSrc.value)
    ensures Holds(g, kernel, init, data, m, t)
  {
    assert ViewOk(g, t);
    var r, o := g[t].viewSrc.value, g[t].offs;
    var whole := LoadTensor(g, data, m, r);
    assert LoadTensor(g, data, m, t) == whole[o..o + g[t].size];
  }

  /** The source of a planned view was planned. */
  lemma {:induction false} SourcesPlaced(g: Graph, placed: set<nat>, groups: seq<seq<nat>>, tail: seq<nat>, v: nat)
    requires Separated(g, placed, groups, tail) && v in AllMembers(groups, tail) && ViewNode(g, v)
    ensures var r := g[v].viewSrc.value; r < |g| && (g[r].isNode ==> r in placed + AllMembers(groups, tail))
    decreases |groups|
  {
    if groups == [] {
      assert NodeOk(g, placed, v);
    } else if v in groups[0] {
      assert NodeOk(g, placed, v);
    } else {
      SourcesPlaced(g, placed + Members(groups[0]), groups[1..], tail, v);
    }
  }

  /** What memory holds before the graph runs. */
  function Initial(g: Graph, s0: State, m0: Memory): (r: seq<Content>)
    ensures |r| == |g|
  {
    seq(|g|, t requires 0 <= t < |g| => LoadTensor(g, s0.data, m0, t))
  }

  lemma LeavesLoaded(g: Graph, kernel: Kernel, s0: State, data: seq<Option<nat>>, m0: Memory)
    requires Fits(g, s0) && |data| == |g|
      && (forall t :: 0 <= t < |g| && !g[t].isNode ==> s0.data[t].Some? && data[t] == s0.data[t])
    ensures MemoryOk(g, kernel, Initial(g, s0, m0), data, {}, m0)
  {
    forall t: nat | IsRoot(g, t) && !g[t].isNode
      ensures Holds(g, kernel, Initial(g, s0, m0), data, m0, t)
    {
      var now := LoadTensor(g, data, m0, t);
      assert Initial(g, s0, m0)[t] == now;
      assert Fit(now, g[t].size) == now;
    }
  }

  // ---------------------------------------------------------------- without a parse sequence

  /** Every node comes after the nodes it depends on. */
  ghost predicate Topological(g: Graph, nodes: seq<nat>) {
    forall i :: 0 <= i < |nodes| ==> NodeOk(g, Members(nodes[..i]), nodes[i])
  }

  function Singletons(nodes: seq<nat>): (r: seq<seq<nat>>)
    ensures |r| == |nodes| && forall i :: 0 <= i < |r| ==> r[i] == [nodes[i]]
  {
    seq(|nodes|, i requires 0 <= i < |nodes| => [nodes[i]])
  }

  lemma {:induction false} SequentialGroups(nodes: seq<nat>, i: nat)
    requires i <= |nodes|
    ensures Groups(nodes, [], i, []) == (Singletons(nodes[i..]), [])
    decreases |nodes| - i
  {
    if i < |nodes| {
      SequentialGroups(nodes, i + 1);
      assert Singletons(nodes[i..]) == [[nodes[i]]] + Singletons(nodes[i + 1..]);
    } else {
      assert Singletons(nodes[i..]) == [];
    }
  }

  lemma {:induction false} SequentialSeparated(g: Graph, nodes: seq<nat>, i: nat)
    requires Topological(g, nodes) && i <= |nodes|
    ensures Separated(g, Members(nodes[..i]), Singletons(nodes[i..]), [])
    ensures AllMembers(Singletons(nodes[i..]), []) == Members(nodes[i..])
    decreases |nodes| - i
  {
    if i < |nodes| {
      SequentialSeparated(g, nodes, i + 1);
      var groups := Singletons(nodes[i..]);
      assert groups[0] == [nodes[i]] && groups[1..] == Singletons(nodes[i + 1..]);
      assert nodes[..i + 1] == nodes[..i] + [nodes[i]];
      assert Members(nodes[..i + 1]) == Members(nodes[..i]) + Members([nodes[i]]);
      assert nodes[i..] == [nodes[i]] + nodes[i + 1..];
      assert Members(nodes[i..]) == Members([nodes[i]]) + Members(nodes[i + 1..]);
    }
  }

  lemma {:induction false} RunSingletons(g: Graph, kernel: Kernel, data: seq<Option<nat>>, m: Memory, nodes: seq<nat>)
    requires GraphOk(g) && InGraph(g, nodes)
    ensures AllInGraph(g, Singletons(nodes) + [[]])
    ensures RunAll(g, kernel, data, m, Singletons(nodes) + [[]]) == Run(g, kernel, data, m, nodes)
    decreases |nodes|
  {
    var orders := Singletons(nodes) + [[]];
    if nodes == [] {
      assert orders[0] == [] && orders[1..] == [];
      var none: seq<Event> := [];
      assert none + none == none;
      assert RunAll(g, kernel, data, m, []) == (m, none);
      assert RunAll(g, kernel, data, m, orders) == (m, none + none);
    } else {
      var n := nodes[0];
      assert orders[0] == [n] && orders[1..] == Singletons(nodes[1..]) + [[]];
      assert [n][1..] == [];
      var m1 := RunNode(g, kernel, data, m, n);
      var event := Event(n, Arguments(g, data, m, n), LoadTensor(g, data, m1, n));
      RunSingletons(g, kernel, data, m1, nodes[1..]);
      var (m2, rest) := Run(g, kernel, data, m1, nodes[1..]);
      assert [event] + [] == [event];
      assert Run(g, kernel, data, m, [n]) == (m1, [event]);
      assert Run(g, kernel, data, m, nodes) == (m2, [event] + rest);
    }
  }

  /** Without a parse sequence the nodes run in order, and every result holds its private value. */
  lemma SequentialRunPreservesMeaning(g: Graph, kernel: Kernel, s0: State, lo: nat, hi: nat, nodes: seq<nat>,
                                      m0: Memory)
    requires Ready0(g, s0, lo, hi) && NodesOk(g, nodes) && Topological(g, nodes) && InGraph(g, nodes)
    requires AllocGraph(g, s0, nodes, []).Some?
    ensures var data := AllocGraph(g, s0, nodes, []).value.data;
      var init := Initial(g, s0, m0);
      var (m, events) := Run(g, kernel, data, m0, nodes);
      AllRight(g, kernel, init, events) && forall t: nat :: IsResult(g, t) ==> Holds(g, kernel, init, data, m, t)
  {
    hide GraphOk, RunAll, Run;
    SequentialGroups(nodes, 0);
    SequentialSeparated(g, nodes, 0);
    assert nodes[0..] == nodes && Members(nodes[..0]) == {};
    var orders := Singletons(nodes) + [[]];
    var data := AllocGraph(g, s0, nodes, []).value.data;
    RunSingletons(g, kernel, data, m0, nodes);
    SharedMemoryPreservesMeaning(g, kernel, s0, lo, hi, nodes, [], orders, m0);
  }
}
