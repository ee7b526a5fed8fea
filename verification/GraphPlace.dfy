/** Placing a node keeps the invariant of the graph allocator. */
module GraphPlace {
  import opened Wrappers
  import opened FreeList
  import opened Arenas
  import opened GraphAlloc
  import opened GraphInvariant

  /** `n` is the next node to place: what it reads or views was placed in an earlier group. */
  ghost predicate CanPlace(g: Graph, h: History, n: nat) {
    && n < |g| && g[n].isNode && n !in h.placed
    && (forall e :: e in Edges(g) && e.node == n ==> Ready(g, h, Target(g, e)))
    && (g[n].viewSrc.Some? ==> Ready(g, h, g[n].viewSrc.value))
  }

  ghost function Enter(h: History, n: nat, owner: map<nat, nat>): History {
    h.(placed := h.placed + {n}, group := h.group + {n}, owner := owner)
  }

  lemma PlacedShrinksNeeds(g: Graph, placed: set<nat>, more: set<nat>, t: nat)
    requires placed <= more && Needed(g, more, t)
    ensures Needed(g, placed, t)
  {
    if v: nat :| ViewOf(g, v, t) && Expected(g, more, v) {
      assert Expected(g, placed, v);
    }
  }

  /** An unplaced root is needed: its readers and views are unplaced too. */
  lemma UnplacedIsNeeded(g: Graph, s: State, h: History, n: nat)
    requires Fits(g, s) && Progress(g, s, h) && IsRoot(g, n) && g[n].isNode && n !in h.placed
    ensures Needed(g, h.placed, n)
  {
    if e :| e in Edges(g) && Target(g, e) == n {
      assert e.node !in h.placed;
    } else if v: nat :| ViewOf(g, v, n) {
      assert v !in h.placed;
      assert g[v].isNode by {
        assert ViewOk(g, v);
      }
      if e :| e in Edges(g) && Target(g, e) == v {
        assert e.node !in h.placed;
      }
      assert Expected(g, h.placed, v);
    }
  }

  /** What an unplaced node reads is needed. */
  lemma ArgumentIsNeeded(g: Graph, h: History, n: nat, p: nat)
    requires GraphOk(g) && n < |g| && n !in h.placed && p in g[n].src
    ensures p < n && p < |g| && Wanted(g, h.placed, p)
    ensures IsRoot(g, p) ==> Needed(g, h.placed, p)
    ensures !IsRoot(g, p) ==> IsRoot(g, g[p].viewSrc.value) && Needed(g, h.placed, g[p].viewSrc.value)
  {
    var j :| 0 <= j < |g[n].src| && g[n].src[j] == p;
    assert Edge(n, j) in Edges(g) && Target(g, Edge(n, j)) == p;
    if !IsRoot(g, p) {
      assert ViewOk(g, p);
      assert ViewOf(g, p, g[p].viewSrc.value) && Expected(g, h.placed, p);
    }
  }

  lemma ProgressPlace(g: Graph, s: State, h: History, n: nat, s': State, owner: map<nat, nat>)
    requires Fits(g, s) && Fits(g, s') && Progress(g, s, h) && CanPlace(g, h, n)
    requires s'.data[n].Some? && forall t :: 0 <= t < |g| && s.data[t].Some? ==> s'.data[t].Some?
    ensures Progress(g, s', Enter(h, n, owner))
  {
    var h' := Enter(h, n, owner);
    forall e | e in Edges(g) && e.node in h'.placed
      ensures Ready(g, h', Target(g, e))
    {
      assert Ready(g, h, Target(g, e));
    }
    forall v | v in h'.placed && v < |g| && g[v].viewSrc.Some?
      ensures Ready(g, h', g[v].viewSrc.value)
    {
      assert Ready(g, h, g[v].viewSrc.value);
    }
  }

  // ---------------------------------------------------------------- the node has memory already

  lemma PlaceKept(g: Graph, s: State, h: History, lo: nat, hi: nat, n: nat)
    requires Inv(g, s, h, lo, hi) && CanPlace(g, h, n) && s.data[n].Some?
    ensures Inv(g, s, Enter(h, n, h.owner), lo, hi)
    ensures InArena(g, s, n) ==> n in h.owner
  {
    var h' := Enter(h, n, h.owner);
    ProgressPlace(g, s, h, n, s, h.owner);
    assert Aliases(g, s, h');
    assert Regions(g, s, h', lo, hi);
    NeededPlace(g, s, h, n, s, h.owner);
    if InArena(g, s, n) {
      UnplacedIsNeeded(g, s, h, n);
    }
    SupersededPlace(g, s, h, n);
    TakeoversPlace(g, s, h, n);
  }

  lemma NeededPlace(g: Graph, s: State, h: History, n: nat, s': State, owner: map<nat, nat>)
    requires Fits(g, s) && Fits(g, s') && NeededOwned(g, s, h)
    requires forall t: nat :: InArena(g, s', t) && t != n ==> InArena(g, s, t)
    requires InArena(g, s', n) && Needed(g, h.placed + {n}, n) ==> n in owner
    requires forall t: nat :: t != n && t in h.owner && Needed(g, h.placed + {n}, t) ==> t in owner
    ensures NeededOwned(g, s', Enter(h, n, owner))
  {
    forall t: nat | InArena(g, s', t) && Needed(g, h.placed + {n}, t)
      ensures t in owner
    {
      PlacedShrinksNeeds(g, h.placed, h.placed + {n}, t);
    }
  }

  lemma SupersededPlace(g: Graph, s: State, h: History, n: nat)
    requires Fits(g, s) && OthersSuperseded(g, s, h)
    ensures OthersSuperseded(g, s, Enter(h, n, h.owner))
  {
    var h' := Enter(h, n, h.owner);
    forall t: nat | InArena(g, s, t) && t !in h.owner
      ensures Superseded(g, s, h', t)
    {
      assert Superseded(g, s, h, t);
      if x: nat :| PassedOn(g, s, h, t, x) {
        assert PassedOn(g, s, h', t, x);
      }
    }
  }

  lemma TakeoversPlace(g: Graph, s: State, h: History, n: nat)
    requires Fits(g, s) && TakeoversOk(g, s, h) && n < |g| && !TookOver(g, s, n)
    ensures TakeoversOk(g, s, Enter(h, n, h.owner))
  {
    forall x: nat | x < |g| && TookOver(g, s, x) && x !in h.released
      ensures TakeoverOk(g, s, Enter(h, n, h.owner), x)
    {
      assert TakeoverOk(g, s, h, x);
    }
  }

  // ---------------------------------------------------------------- a view

  lemma PlaceView(g: Graph, s: State, h: History, lo: nat, hi: nat, n: nat)
    requires Inv(g, s, h, lo, hi) && CanPlace(g, h, n) && s.data[n].None? && !IsRoot(g, n)
    requires InitView(g, s, n).Some?
    ensures Inv(g, InitView(g, s, n).value, Enter(h, n, h.owner), lo, hi)
  {
    hide Counted, Progress, Regions, NeededOwned, OthersSuperseded, TakeoversOk, ReleasedOk, GraphOk;
    var s' := InitView(g, s, n).value;
    assert ViewAlias(g, s, n);
    ViewFrame(g, s, h, lo, hi, n, s');
    PlaceKept(g, s', h, lo, hi, n);
  }

  /** Giving a view its address changes nothing for the roots. */
  lemma ViewFrame(g: Graph, s: State, h: History, lo: nat, hi: nat, n: nat, s': State)
    requires Inv(g, s, h, lo, hi) && n < |g| && !IsRoot(g, n) && s.data[n].None? && InitView(g, s, n) == Some(s')
    requires ViewAlias(g, s, n)
    ensures Inv(g, s', h, lo, hi)
  {
    AliasesView(g, s, h, n, s');
    RegionsView(g, s, h, lo, hi, n, s');
    assert forall t: nat :: InArena(g, s', t) <==> InArena(g, s, t);
    assert forall t: nat :: TookOver(g, s', t) <==> TookOver(g, s, t);
    forall t: nat | InArena(g, s', t) && t !in h.owner
      ensures Superseded(g, s', h, t)
    {
      assert Superseded(g, s, h, t);
      if x: nat :| PassedOn(g, s, h, t, x) {
        assert PassedOn(g, s', h, t, x);
      }
    }
    forall x: nat | x < |g| && TookOver(g, s', x) && x !in h.released
      ensures TakeoverOk(g, s', h, x)
    {
      assert TakeoverOk(g, s, h, x);
    }
  }

  lemma AliasesView(g: Graph, s: State, h: History, n: nat, s': State)
    requires Fits(g, s) && Aliases(g, s, h) && n < |g| && !IsRoot(g, n) && s.data[n].None?
      && InitView(g, s, n) == Some(s')
    ensures Aliases(g, s', h)
  {
    forall v | 0 <= v < |g| && g[v].viewSrc.Some?
      ensures ViewAlias(g, s', v)
    {
      assert ViewAlias(g, s, v) && ViewOk(g, v);
    }
    forall x | 0 <= x < |g| && TookOver(g, s', x)
      ensures TakenAlias(g, s', h, x)
    {
      assert TakenAlias(g, s, h, x);
    }
    assert ViewAlias(g, s, n);
  }

  lemma RegionsView(g: Graph, s: State, h: History, lo: nat, hi: nat, n: nat, s': State)
    requires Fits(g, s) && Regions(g, s, h, lo, hi) && n < |g| && !IsRoot(g, n) && s.data[n].None?
      && InitView(g, s, n) == Some(s')
    ensures Regions(g, s', h, lo, hi)
  {
    forall o | o in h.owner
      ensures OwnerOk(g, s', h, lo, hi, o)
      ensures s'.data[o] == s.data[o]
    {
      assert OwnerOk(g, s, h, lo, hi, o);
    }
    forall t: nat | IsRoot(g, t) && s'.data[t].Some? && s'.buffer[t] != Own
      ensures Outside(g, s', lo, hi, t)
    {
      assert Outside(g, s, lo, hi, t);
    }
  }

  // ---------------------------------------------------------------- fresh memory

  lemma PlaceFresh(g: Graph, s: State, h: History, lo: nat, hi: nat, n: nat)
    requires Inv(g, s, h, lo, hi) && CanPlace(g, h, n) && s.data[n].None? && s.viewSrc[n].None?
    requires HeapPlace(g, s, n).Some?
    ensures Inv(g, HeapPlace(g, s, n).value, Enter(h, n, h.owner[n := Padded(g[n].size, s.heap.alignment)]), lo, hi)
  {
    hide OthersSuperseded, NeededOwned, Regions, GraphOk;
    var s' := HeapPlace(g, s, n).value;
    var owner := h.owner[n := Padded(g[n].size, s.heap.alignment)];
    assert IsRoot(g, n);
    FreshAliases(g, s, h, n, s', owner);
    FreshRegions(g, s, h, lo, hi, n, s', owner);
    ProgressPlace(g, s, h, n, s', owner);
    NeededPlace(g, s, h, n, s', owner);
    FreshSuperseded(g, s, h, n, s', owner);
    forall x: nat | x < |g| && TookOver(g, s', x) && x !in h.released
      ensures TakeoverOk(g, s', Enter(h, n, owner), x)
    {
      assert TakeoverOk(g, s, h, x);
    }
  }

  lemma FreshAliases(g: Graph, s: State, h: History, n: nat, s': State, owner: map<nat, nat>)
    requires Fits(g, s) && Aliases(g, s, h) && IsRoot(g, n) && s.data[n].None? && HeapPlace(g, s, n) == Some(s')
    ensures Aliases(g, s', Enter(h, n, owner))
  {
    forall v | 0 <= v < |g| && g[v].viewSrc.Some?
      ensures ViewAlias(g, s', v)
    {
      assert ViewAlias(g, s, v);
    }
    forall x | 0 <= x < |g| && TookOver(g, s', x)
      ensures TakenAlias(g, s', Enter(h, n, owner), x)
    {
      assert TakenAlias(g, s, h, x);
    }
  }

  lemma FreshRegions(g: Graph, s: State, h: History, lo: nat, hi: nat, n: nat, s': State, owner: map<nat, nat>)
    requires Fits(g, s) && Regions(g, s, h, lo, hi) && IsRoot(g, n) && s.data[n].None? && s.viewSrc[n].None?
    requires HeapPlace(g, s, n) == Some(s') && owner == h.owner[n := Padded(g[n].size, s.heap.alignment)]
    ensures Regions(g, s', Enter(h, n, owner), lo, hi)
  {
    var h' := Enter(h, n, owner);
    var size := Padded(g[n].size, s.heap.alignment);
    var addr := s'.data[n].value;
    AllocTakesFreeBytes(s.heap.free, size);
    FreshOwners(g, s, h, lo, hi, n, s', owner);
    forall o, p | o in owner && Covers(s'.heap.free, p)
      ensures !Region(s', h', o).Contains(p)
    {
      assert o != n ==> !Region(s, h, o).Contains(p);
    }
    forall o, o' | o in owner && o' in owner && o != o'
      ensures Disjoint(Region(s', h', o), Region(s', h', o'))
    {
      assert o != n && o' != n ==> Disjoint(Region(s, h, o), Region(s, h, o'));
    }
    forall t: nat | IsRoot(g, t) && s'.data[t].Some? && s'.buffer[t] != Own
      ensures Outside(g, s', lo, hi, t)
    {
      assert Outside(g, s, lo, hi, t);
    }
  }

  lemma FreshOwners(g: Graph, s: State, h: History, lo: nat, hi: nat, n: nat, s': State, owner: map<nat, nat>)
    requires Fits(g, s) && Regions(g, s, h, lo, hi) && IsRoot(g, n) && s.data[n].None? && s.viewSrc[n].None?
    requires HeapPlace(g, s, n) == Some(s') && owner == h.owner[n := Padded(g[n].size, s.heap.alignment)]
    ensures var h' := Enter(h, n, owner);
      && OwnersOk(g, s', h', lo, hi)
      && Region(s', h', n) == Block(s'.data[n].value, Padded(g[n].size, s.heap.alignment))
      && (forall o :: o in owner && o != n ==> o in h.owner && OwnerOk(g, s, h, lo, hi, o))
      && (forall o :: o in owner && o != n ==>
        Region(s', h', o) == Region(s, h, o) && Disjoint(Region(s', h', o), Region(s', h', n)))
  {
    var h' := Enter(h, n, owner);
    var size := Padded(g[n].size, s.heap.alignment);
    var addr := s'.data[n].value;
    AllocTakesFreeBytes(s.heap.free, size);
    assert Covers(s.heap.free, addr) && Covers(s.heap.free, addr + size - 1);
    forall o | o in owner && o != n
      ensures o in h.owner && OwnerOk(g, s, h, lo, hi, o) && OwnerOk(g, s', h', lo, hi, o)
      ensures Region(s', h', o) == Region(s, h, o) && Disjoint(Region(s, h, o), Block(addr, size))
    {
      assert OwnerOk(g, s, h, lo, hi, o);
      FreeBytesOutside(g, s, h, lo, hi, o, Block(addr, size));
    }
  }

  lemma FreeBytesOutside(g: Graph, s: State, h: History, lo: nat, hi: nat, o: nat, b: Block)
    requires Fits(g, s) && Regions(g, s, h, lo, hi) && o in h.owner && b.size > 0
    requires forall p :: b.addr <= p < b.addr + b.size ==> Covers(s.heap.free, p)
    ensures Disjoint(Region(s, h, o), b)
  {
    assert OwnerOk(g, s, h, lo, hi, o);
    var c := Region(s, h, o);
    assert !c.Contains(b.addr) by {
      assert Covers(s.heap.free, b.addr);
    }
    assert !(b.addr <= c.addr < b.addr + b.size) by {
      if b.addr <= c.addr < b.addr + b.size {
        assert Covers(s.heap.free, c.addr) && c.Contains(c.addr);
      }
    }
  }

  lemma FreshSuperseded(g: Graph, s: State, h: History, n: nat, s': State, owner: map<nat, nat>)
    requires Fits(g, s) && OthersSuperseded(g, s, h) && IsRoot(g, n) && s.data[n].None?
    requires HeapPlace(g, s, n) == Some(s') && n in owner && owner.Keys >= h.owner.Keys
    ensures OthersSuperseded(g, s', Enter(h, n, owner))
  {
    var h' := Enter(h, n, owner);
    forall t: nat | InArena(g, s', t) && t !in owner
      ensures Superseded(g, s', h', t)
    {
      assert Superseded(g, s, h, t);
      if x: nat :| PassedOn(g, s, h, t, x) {
        assert PassedOn(g, s', h', t, x);
      }
    }
  }

  // ---------------------------------------------------------------- a takeover

  lemma Singleton<T>(s: set<T>, x: T, y: T)
    requires |s| == 1 && x in s && y in s
    ensures x == y
  {
    assert |s - {x}| == 0;
    assert y !in s - {x};
  }

  /** `n` takes over, through its argument `p`, memory held for `o`; `q` becomes its view source. */
  ghost predicate Takes(g: Graph, s: State, h: History, n: nat, p: nat, q: nat, o: nat)
    requires Fits(g, s)
  {
    && p < n && n < |g| && p in g[n].src && g[p].size == g[n].size && s.nChildren[p] == 1 && s.nViews[p] == 0
    && q < n && InArena(g, s, q) && o in h.owner && InArena(g, s, o) && s.data[o] == s.data[q]
    && (p == q || s.viewSrc[p] == Some(q))
    && (if IsRoot(g, p) then o == p else o == q)
    && (p == q ==> s.viewSrc[p].None?)
    && (p != q ==> s.nViews[q] == 1 && s.nChildren[q] == 0)
  }

  lemma TakesFrom(g: Graph, s: State, h: History, lo: nat, hi: nat, n: nat) returns (p: nat, q: nat, o: nat)
    requires Inv(g, s, h, lo, hi) && CanPlace(g, h, n) && FindReuse(g, s, n, 0).Some?
    ensures q == FindReuse(g, s, n, 0).value && Takes(g, s, h, n, p, q, o)
  {
    p := FindReuseSource(g, s, n, 0);
    q := FindReuse(g, s, n, 0).value;
    ArgumentIsNeeded(g, h, n, p);
    if IsRoot(g, p) {
      o := p;
      if s.viewSrc[p].Some? {
        assert TakenAlias(g, s, h, p);
      }
    } else {
      assert ViewAlias(g, s, p) && ViewOk(g, p);
      o := q;
    }
  }

  lemma TakesReleased(g: Graph, s: State, h: History, n: nat, p: nat, q: nat, o: nat)
    requires Fits(g, s) && Counted(g, s, h) && ReleasedOk(g, s, h) && Takes(g, s, h, n, p, q, o)
    ensures p !in h.released && q !in h.released
  {
  }

  /** The only remaining read of `p` is by `n`. */
  lemma TakesReads(g: Graph, s: State, h: History, n: nat, p: nat, q: nat, o: nat)
    requires Fits(g, s) && Counted(g, s, h) && Progress(g, s, h) && ReleasedOk(g, s, h) && n !in h.placed
      && Takes(g, s, h, n, p, q, o)
    ensures Undone(g, h.done, p) != {} && OnlyReadBy(g, h.done, p, n)
    ensures p == q ==> Viewers(s.viewSrc, h.released, q) == {}
    ensures p != q ==> Undone(g, h.done, q) == {} && forall v :: v in Viewers(s.viewSrc, h.released, q) ==> v == p
    ensures Viewers(s.viewSrc, h.released, p) == {}
    ensures p != q ==> p in Viewers(s.viewSrc, h.released, q)
  {
    var j :| 0 <= j < |g[n].src| && g[n].src[j] == p;
    var e := Edge(n, j);
    assert e in Edges(g) && e in Undone(g, h.done, p);
    forall e' | e' in Undone(g, h.done, p)
      ensures e'.node == n
    {
      Singleton(Undone(g, h.done, p), e, e');
    }
    TakesReleased(g, s, h, n, p, q, o);
    if p != q {
      assert p in Viewers(s.viewSrc, h.released, q);
      forall v | v in Viewers(s.viewSrc, h.released, q)
        ensures v == p
      {
        Singleton(Viewers(s.viewSrc, h.released, q), p, v);
      }
    }
  }

  /** Once `n` is placed, the value of `o` is not needed any more. */
  lemma TakesUnneeded(g: Graph, s: State, h: History, lo: nat, hi: nat, n: nat, p: nat, q: nat, o: nat)
    requires Inv(g, s, h, lo, hi) && CanPlace(g, h, n) && Takes(g, s, h, n, p, q, o)
    ensures !Needed(g, h.placed + {n}, o)
    ensures Consumed(g, q) || HasView(g, q)
  {
    TakesReads(g, s, h, n, p, q, o);
    var placed := h.placed + {n};
    var e0 :| e0 in Undone(g, h.done, p);
    assert Consumed(g, p);
    UnwantedAfter(g, s, h, n, p);
    if o == q && p != q {
      assert Undone(g, h.done, q) == {};
      UnwantedAfter(g, s, h, n, q);
      assert ViewOf(g, p, q) by {
        assert ViewAlias(g, s, p);
      }
      assert HasView(g, q);
    } else if p != q {
      assert TakenAlias(g, s, h, p);
    }
    forall v: nat | ViewOf(g, v, o)
      ensures !Expected(g, placed, v)
    {
      assert ViewAlias(g, s, v);
      if v !in h.released {
        assert v in Viewers(s.viewSrc, h.released, o);
        assert v == p;
      } else {
        assert Dead(s, v) && Consumed(g, v);
        assert Undone(g, h.done, v) == {};
        UnwantedAfter(g, s, h, n, v);
      }
    }
  }

  lemma UnwantedAfter(g: Graph, s: State, h: History, n: nat, t: nat)
    requires Fits(g, s) && Progress(g, s, h) && OnlyReadBy(g, h.done, t, n)
    ensures !Wanted(g, h.placed + {n}, t)
  {
    forall e | e in Edges(g) && Target(g, e) == t
      ensures e.node in h.placed + {n}
    {
      if e !in h.done {
        assert e in Undone(g, h.done, t);
      }
    }
  }

  ghost function Succeed(h: History, n: nat, o: nat): map<nat, nat>
    requires o in h.owner
  {
    (h.owner - {o})[n := h.owner[o]]
  }

  /** The state after a takeover, field by field. */
  ghost predicate Taken(g: Graph, s: State, n: nat, q: nat, s': State)
    requires Fits(g, s) && n < |g| && q < |g|
  {
    && Fits(g, s') && s.data[q].Some? && s.data[n].None? && s.viewSrc[n].None? && IsRoot(g, n) && q != n
    && s' == s.(viewSrc := s.viewSrc[n := Some(q)], nViews := s.nViews[q := s.nViews[q] + 1],
                data := s.data[n := s.data[q]], buffer := s.buffer[n := Own])
  }

  lemma TakenState(g: Graph, s: State, h: History, n: nat, p: nat, q: nat, o: nat)
    requires Fits(g, s) && Aliases(g, s, h) && Takes(g, s, h, n, p, q, o) && s.data[n].None? && s.viewSrc[n].None?
    ensures TakeOver(g, s, n, q).Some? && Taken(g, s, n, q, TakeOver(g, s, n, q).value)
  {
    assert IsRoot(g, n);
    assert ViewOk(g, n);
    var s' := TakeOver(g, s, n, q).value;
    assert s'.data == s.data[n := s.data[q]];
  }

  lemma PlaceTaken(g: Graph, s: State, h: History, lo: nat, hi: nat, n: nat, p: nat, q: nat, o: nat)
    requires Inv(g, s, h, lo, hi) && CanPlace(g, h, n) && Takes(g, s, h, n, p, q, o)
    requires s.data[n].None? && s.viewSrc[n].None?
    ensures TakeOver(g, s, n, q).Some? && Inv(g, TakeOver(g, s, n, q).value, Enter(h, n, Succeed(h, n, o)), lo, hi)
  {
    hide Counted, Progress, Aliases, Regions, NeededOwned, OthersSuperseded, TakeoversOk, ReleasedOk, GraphOk,
      TakeOver, Needed;
    TakenState(g, s, h, n, p, q, o);
    var s' := TakeOver(g, s, n, q).value;
    var owner := Succeed(h, n, o);
    TakesUnneeded(g, s, h, lo, hi, n, p, q, o);
    TakesReleased(g, s, h, n, p, q, o);
    TakesReads(g, s, h, n, p, q, o);
    TakenCounted(g, s, h, n, q, s', owner);
    ProgressPlace(g, s, h, n, s', owner);
    TakenAliases(g, s, h, n, p, q, o, s', owner);
    TakenRegions(g, s, h, lo, hi, n, p, q, o, s');
    NeededPlace(g, s, h, n, s', owner);
    NewNotReleased(g, s, h, n);
    TakenSuperseded(g, s, h, n, p, q, o, s');
    assert p != q ==> Viewers(s.viewSrc, h.released, q) == {p};
    TakenTakeovers(g, s, h, n, p, q, o, s', owner);
    TakenReleasedOk(g, s, h, n, p, q, o, s', owner);
  }

  lemma NewNotReleased(g: Graph, s: State, h: History, n: nat)
    requires Fits(g, s) && ReleasedOk(g, s, h) && n < |g| && s.viewSrc[n].None?
    ensures n !in h.released
  {
  }

  lemma TakenReleasedOk(g: Graph, s: State, h: History, n: nat, p: nat, q: nat, o: nat, s': State, owner: map<nat, nat>)
    requires Fits(g, s) && ReleasedOk(g, s, h) && q !in h.released && n < |g| && q < |g| && Taken(g, s, n, q, s')
    ensures ReleasedOk(g, s', Enter(h, n, owner))
  {
  }

  lemma TakenCounted(g: Graph, s: State, h: History, n: nat, q: nat, s': State, owner: map<nat, nat>)
    requires Fits(g, s) && Counted(g, s, h) && ReleasedOk(g, s, h) && n < |g| && q < |g| && Taken(g, s, n, q, s')
    ensures Counted(g, s', Enter(h, n, owner))
  {
    hide GraphOk, Undone, Viewers;
    assert n !in h.released;
    OneViewerMore(s.viewSrc, s'.viewSrc, h.released, n, q);
  }

  lemma OneViewerMore(viewSrc: seq<Option<nat>>, viewSrc': seq<Option<nat>>, released: set<nat>, n: nat, q: nat)
    requires n < |viewSrc| && viewSrc[n].None? && viewSrc' == viewSrc[n := Some(q)] && n !in released
    ensures |Viewers(viewSrc', released, q)| == |Viewers(viewSrc, released, q)| + 1
    ensures forall t: nat :: t != q ==> Viewers(viewSrc', released, t) == Viewers(viewSrc, released, t)
  {
    assert Viewers(viewSrc', released, q) == Viewers(viewSrc, released, q) + {n};
    assert n !in Viewers(viewSrc, released, q);
  }

  lemma TakenAliases(g: Graph, s: State, h: History, n: nat, p: nat, q: nat, o: nat, s': State, owner: map<nat, nat>)
    requires Fits(g, s) && Aliases(g, s, h) && Takes(g, s, h, n, p, q, o) && Taken(g, s, n, q, s')
    requires Consumed(g, q) || HasView(g, q)
    ensures Aliases(g, s', Enter(h, n, owner))
  {
    var h' := Enter(h, n, owner);
    forall v | 0 <= v < |g| && g[v].viewSrc.Some?
      ensures ViewAlias(g, s', v)
    {
      assert ViewAlias(g, s, v);
    }
    SizeFits(g, s, h, n, p, q, o);
    forall x | 0 <= x < |g| && TookOver(g, s', x)
      ensures TakenAlias(g, s', h', x)
    {
      if x != n {
        assert TakenAlias(g, s, h, x);
      }
    }
  }

  lemma SizeFits(g: Graph, s: State, h: History, n: nat, p: nat, q: nat, o: nat)
    requires Fits(g, s) && Aliases(g, s, h) && Takes(g, s, h, n, p, q, o)
    ensures g[n].size <= g[q].size && g[n].size <= g[o].size
  {
    if !IsRoot(g, p) {
      assert ViewAlias(g, s, p) && ViewOk(g, p);
    } else if p != q {
      assert TakenAlias(g, s, h, p);
    }
  }

  lemma PaddedMonotone(a: pos, b: pos, alignment: pos)
    requires a <= b
    ensures Padded(a, alignment) <= Padded(b, alignment)
  {
    AlignedOffsetIsLeast(0, a, alignment, Padded(b, alignment));
  }

  lemma TakenRegions(g: Graph, s: State, h: History, lo: nat, hi: nat, n: nat, p: nat, q: nat, o: nat, s': State)
    requires Fits(g, s) && Aliases(g, s, h) && Regions(g, s, h, lo, hi) && Takes(g, s, h, n, p, q, o)
      && Taken(g, s, n, q, s')
    ensures Regions(g, s', Enter(h, n, Succeed(h, n, o)), lo, hi)
  {
    hide GraphOk, WellFormed, Padded, Covers, Aliases, Disjoint;
    var owner := Succeed(h, n, o);
    var h' := Enter(h, n, owner);
    TakenOwners(g, s, h, lo, hi, n, p, q, o, s');
    forall u, p | u in owner && Covers(s'.heap.free, p)
      ensures !Region(s', h', u).Contains(p)
    {
      assert !Region(s, h, Before(n, o, u)).Contains(p);
    }
    forall u, v | u in owner && v in owner && u != v
      ensures Disjoint(Region(s', h', u), Region(s', h', v))
    {
      assert Disjoint(Region(s, h, Before(n, o, u)), Region(s, h, Before(n, o, v)));
    }
    forall t: nat | IsRoot(g, t) && s'.data[t].Some? && s'.buffer[t] != Own
      ensures Outside(g, s', lo, hi, t)
    {
      assert Outside(g, s, lo, hi, t);
    }
  }

  /** Who owned the region that `u` owns after `n` took over that of `o`. */
  function Before(n: nat, o: nat, u: nat): nat {
    if u == n then o else u
  }

  /** Each region is what it was, with another owner for one of them. */
  lemma TakenOwners(g: Graph, s: State, h: History, lo: nat, hi: nat, n: nat, p: nat, q: nat, o: nat, s': State)
    requires Fits(g, s) && Aliases(g, s, h) && OwnersOk(g, s, h, lo, hi) && Takes(g, s, h, n, p, q, o)
      && Taken(g, s, n, q, s')
    ensures var h' := Enter(h, n, Succeed(h, n, o));
      && OwnersOk(g, s', h', lo, hi)
      && (forall u :: u in h'.owner ==> Before(n, o, u) in h.owner && OwnerOk(g, s, h, lo, hi, Before(n, o, u)))
      && (forall u :: u in h'.owner ==> Region(s', h', u) == Region(s, h, Before(n, o, u)))
      && (forall u, v :: u in h'.owner && v in h'.owner && u != v ==> Before(n, o, u) != Before(n, o, v))
  {
    hide GraphOk, Padded, Aliases;
    var h' := Enter(h, n, Succeed(h, n, o));
    assert OwnerOk(g, s, h, lo, hi, o);
    TakenOwner(g, s, h, lo, hi, n, p, q, o, s');
    forall u | u in h'.owner
      ensures OwnerOk(g, s', h', lo, hi, u) && Before(n, o, u) in h.owner && OwnerOk(g, s, h, lo, hi, Before(n, o, u))
      ensures Region(s', h', u) == Region(s, h, Before(n, o, u))
    {
      if u != n {
        assert OwnerOk(g, s, h, lo, hi, u);
      }
    }
  }

  lemma TakenOwner(g: Graph, s: State, h: History, lo: nat, hi: nat, n: nat, p: nat, q: nat, o: nat, s': State)
    requires Fits(g, s) && Aliases(g, s, h) && OwnersOk(g, s, h, lo, hi) && Takes(g, s, h, n, p, q, o)
      && Taken(g, s, n, q, s')
    ensures OwnerOk(g, s', Enter(h, n, Succeed(h, n, o)), lo, hi, n)
  {
    assert OwnerOk(g, s, h, lo, hi, o);
    SizeFits(g, s, h, n, p, q, o);
    PaddedMonotone(g[n].size, g[o].size, s.heap.alignment);
  }

  lemma TakenSuperseded(g: Graph, s: State, h: History, n: nat, p: nat, q: nat, o: nat, s': State)
    requires Fits(g, s) && OthersSuperseded(g, s, h) && Takes(g, s, h, n, p, q, o) && Taken(g, s, n, q, s')
    requires n !in h.released && OnlyReadBy(g, h.done, p, n)
    ensures OthersSuperseded(g, s', Enter(h, n, Succeed(h, n, o)))
  {
    var h' := Enter(h, n, Succeed(h, n, o));
    assert n in Viewers(s'.viewSrc, h.released, q) && TookOver(g, s', n);
    forall t: nat | InArena(g, s', t) && t !in h'.owner
      ensures Superseded(g, s', h', t)
    {
      if t == o {
        if o != q {
          assert PassedOn(g, s', h', o, n);
        }
      } else {
        assert InArena(g, s, t) && Superseded(g, s, h, t);
        if x :| x in Viewers(s.viewSrc, h.released, t) && TookOver(g, s, x) {
          assert x in Viewers(s'.viewSrc, h.released, t) && TookOver(g, s', x);
        } else if x: nat :| PassedOn(g, s, h, t, x) {
          assert PassedOn(g, s', h', t, x);
        }
      }
    }
  }

  lemma SourceNotInGroup(g: Graph, h: History, n: nat, p: nat)
    requires GraphOk(g) && CanPlace(g, h, n) && p < |g| && p in g[n].src
    ensures p !in h.group || !g[p].isNode
  {
    var j :| 0 <= j < |g[n].src| && g[n].src[j] == p;
    assert Edge(n, j) in Edges(g) && Ready(g, h, Target(g, Edge(n, j)));
  }

  lemma TakenTakeovers(g: Graph, s: State, h: History, n: nat, p: nat, q: nat, o: nat, s': State, owner: map<nat, nat>)
    requires Fits(g, s) && Progress(g, s, h) && Aliases(g, s, h) && TakeoversOk(g, s, h) && CanPlace(g, h, n)
    requires Takes(g, s, h, n, p, q, o) && Taken(g, s, n, q, s') && n !in h.released
    requires Undone(g, h.done, p) != {} && OnlyReadBy(g, h.done, p, n)
    requires if p == q then Viewers(s.viewSrc, h.released, q) == {}
             else Undone(g, h.done, q) == {} && Viewers(s.viewSrc, h.released, q) == {p}
    ensures TakeoversOk(g, s', Enter(h, n, owner))
  {
    hide GraphOk, Undone, Aliases, Progress, CanPlace;
    SourceNotInGroup(g, h, n, p);
    TakenAlready(g, s, h);
    forall x: nat | x < |g| && TookOver(g, s', x) && x !in h.released
      ensures TakeoverOk(g, s', Enter(h, n, owner), x)
    {
      if x == n {
        NewTakeover(g, s, h, n, p, q, o, s', owner);
      } else {
        OldTakeover(g, s, h, n, p, q, o, s', owner, x);
      }
    }
  }

  lemma TakenAlready(g: Graph, s: State, h: History)
    requires Fits(g, s) && Progress(g, s, h) && Aliases(g, s, h)
    ensures forall x: nat :: x < |g| && TookOver(g, s, x) ==> x in h.placed && g[x].isNode
  {
    forall x: nat | x < |g| && TookOver(g, s, x)
      ensures x in h.placed && g[x].isNode
    {
      assert TakenAlias(g, s, h, x);
    }
  }

  lemma NewTakeover(g: Graph, s: State, h: History, n: nat, p: nat, q: nat, o: nat, s': State, owner: map<nat, nat>)
    requires Fits(g, s) && Takes(g, s, h, n, p, q, o) && Taken(g, s, n, q, s') && n !in h.released
    requires Undone(g, h.done, p) != {} && OnlyReadBy(g, h.done, p, n)
    requires if p == q then Viewers(s.viewSrc, h.released, q) == {}
             else Undone(g, h.done, q) == {} && Viewers(s.viewSrc, h.released, q) == {p}
    ensures TookOver(g, s', n) && TakeoverOk(g, s', Enter(h, n, owner), n)
  {
    hide GraphOk;
    assert Viewers(s'.viewSrc, h.released, q) == Viewers(s.viewSrc, h.released, q) + {n};
  }

  lemma OldTakeover(g: Graph, s: State, h: History, n: nat, p: nat, q: nat, o: nat, s': State, owner: map<nat, nat>,
                    x: nat)
    requires Fits(g, s) && TakeoversOk(g, s, h) && Takes(g, s, h, n, p, q, o) && Taken(g, s, n, q, s')
      && n !in h.released
    requires x < |g| && x != n && TookOver(g, s', x) && x !in h.released
    requires p !in h.group || !g[p].isNode
    requires forall x: nat :: x < |g| && TookOver(g, s, x) ==> x in h.placed && g[x].isNode
    requires Undone(g, h.done, p) != {} && OnlyReadBy(g, h.done, p, n)
    requires if p == q then Viewers(s.viewSrc, h.released, q) == {}
             else Undone(g, h.done, q) == {} && Viewers(s.viewSrc, h.released, q) == {p}
    ensures TakeoverOk(g, s', Enter(h, n, owner), x)
  {
    hide GraphOk, Undone;
    assert TakeoverOk(g, s, h, x);
    var q' := s.viewSrc[x].value;
    if q' == q {
      assert x in Viewers(s.viewSrc, h.released, q);
      assert x == p;
      assert Viewers(s'.viewSrc, h.released, q) == {p} + {n};
    } else {
      assert Viewers(s'.viewSrc, h.released, q') == Viewers(s.viewSrc, h.released, q');
    }
  }

  // ---------------------------------------------------------------- any node

  /** Sources have memory already, so placing `n` places only `n`. */
  lemma {:induction false} SourcesKept(g: Graph, s: State, h: History, n: nat, j: nat)
    requires Fits(g, s) && Progress(g, s, h) && CanPlace(g, h, n) && j <= |g[n].src|
    ensures PlaceFrom(g, s, n, j) == AllocateNode(g, s, n)
    decreases |g[n].src| - j
  {
    if j < |g[n].src| {
      assert Edge(n, j) in Edges(g) && Ready(g, h, Target(g, Edge(n, j)));
      SourcesKept(g, s, h, n, j + 1);
    }
  }

  /** The tensor whose memory `t` is a window of. */
  function Base(g: Graph, t: nat): nat
    requires t < |g|
  {
    if g[t].viewSrc.Some? then g[t].viewSrc.value else t
  }

  /** `n` took over the region that holds `b`. */
  ghost predicate HeldBy(g: Graph, s: State, h: History, b: nat, n: nat)
    requires Fits(g, s) && b < |g|
  {
    n in h.owner && n < |g| && TookOver(g, s, n) && s.data[n] == s.data[b]
      && Padded(g[b].size, s.heap.alignment) <= h.owner[n]
  }

  /** While a group is being placed, what its nodes read stays in regions of its own, except for
      arguments overwritten by their own reader, and what they write has a region of its own. */
  ghost predicate GroupSafe(g: Graph, s: State, h: History)
    requires Fits(g, s)
  {
    && (forall e :: e in h.done ==> e.node !in h.group)
    && (forall n :: n in h.group && InArena(g, s, n) ==> n in h.owner)
    && (forall e :: e in Edges(g) && e.node in h.group ==> ReadSafe(g, s, h, e))
  }

  ghost predicate ReadSafe(g: Graph, s: State, h: History, e: Edge)
    requires Fits(g, s) && IsEdge(g, e)
  {
    Target(g, e) < |g| &&
    var b := Base(g, Target(g, e));
    b < |g| && (InArena(g, s, b) ==> b in h.owner || HeldBy(g, s, h, b, e.node))
  }

  /** Placing a node keeps the invariant and the safety of the open group. */
  lemma PlaceNode(g: Graph, s: State, h: History, lo: nat, hi: nat, n: nat) returns (h': History)
    requires Inv(g, s, h, lo, hi) && GroupSafe(g, s, h) && CanPlace(g, h, n) && PlaceFrom(g, s, n, 0).Some?
    ensures Inv(g, PlaceFrom(g, s, n, 0).value, h', lo, hi) && GroupSafe(g, PlaceFrom(g, s, n, 0).value, h')
    ensures h' == Enter(h, n, h'.owner)
    ensures DataKept(g, s, PlaceFrom(g, s, n, 0).value)
  {
    hide Counted, Progress, Aliases, Regions, NeededOwned, OthersSuperseded, TakeoversOk, ReleasedOk, GraphOk,
      GroupSafe;
    SourcesKept(g, s, h, n, 0);
    var s' := PlaceFrom(g, s, n, 0).value;
    ArgumentsOwned(g, s, h, n);
    if s.data[n].Some? {
      h' := Enter(h, n, h.owner);
      PlaceKept(g, s, h, lo, hi, n);
      SafeKept(g, s, h, n, s', h');
    } else if s.viewSrc[n].Some? {
      ViewNotTaken(g, s, h, n);
      h' := Enter(h, n, h.owner);
      PlaceView(g, s, h, lo, hi, n);
      SafeKept(g, s, h, n, s', h');
    } else if g[n].canInplace && FindReuse(g, s, n, 0).Some? {
      var p, q, o := TakesFrom(g, s, h, lo, hi, n);
      h' := Enter(h, n, Succeed(h, n, o));
      PlaceTaken(g, s, h, lo, hi, n, p, q, o);
      TakenState(g, s, h, n, p, q, o);
      SafeTaken(g, s, h, lo, hi, n, p, q, o, s');
    } else {
      h' := Enter(h, n, h.owner[n := Padded(g[n].size, s.heap.alignment)]);
      PlaceFresh(g, s, h, lo, hi, n);
      SafeKept(g, s, h, n, s', h');
    }
  }

  /** Addresses are never changed. */
  ghost predicate DataKept(g: Graph, s: State, s': State) {
    |s.data| == |s'.data| && forall t :: 0 <= t < |s.data| && s.data[t].Some? ==> s'.data[t] == s.data[t]
  }

  lemma ViewNotTaken(g: Graph, s: State, h: History, n: nat)
    requires Fits(g, s) && Aliases(g, s, h) && n < |g| && n !in h.placed && s.viewSrc[n].Some?
    ensures !IsRoot(g, n)
  {
    assert !TookOver(g, s, n) || TakenAlias(g, s, h, n);
  }

  lemma ArgumentsOwned(g: Graph, s: State, h: History, n: nat)
    requires Fits(g, s) && NeededOwned(g, s, h) && CanPlace(g, h, n)
    ensures forall e :: e in Edges(g) && e.node == n ==>
      Base(g, Target(g, e)) < n && (InArena(g, s, Base(g, Target(g, e))) ==> Base(g, Target(g, e)) in h.owner)
  {
    forall e | e in Edges(g) && e.node == n
      ensures Base(g, Target(g, e)) < n
      ensures InArena(g, s, Base(g, Target(g, e))) ==> Base(g, Target(g, e)) in h.owner
    {
      ArgumentIsNeeded(g, h, n, Target(g, e));
      assert ViewOk(g, Target(g, e));
    }
  }

  lemma SafeKept(g: Graph, s: State, h: History, n: nat, s': State, h': History)
    requires Fits(g, s) && Fits(g, s') && GroupSafe(g, s, h) && CanPlace(g, h, n) && Progress(g, s, h)
    requires h' == Enter(h, n, h'.owner) && s'.viewSrc == s.viewSrc && s'.heap.alignment == s.heap.alignment
    requires forall t: nat :: t < |g| && t != n ==> s'.data[t] == s.data[t] && s'.buffer[t] == s.buffer[t]
    requires forall o :: o in h.owner && o != n ==> o in h'.owner && h'.owner[o] == h.owner[o]
    requires InArena(g, s', n) ==> n in h'.owner
    requires forall e :: e in Edges(g) && e.node == n ==>
      Base(g, Target(g, e)) < n && (InArena(g, s, Base(g, Target(g, e))) ==> Base(g, Target(g, e)) in h.owner)
    ensures GroupSafe(g, s', h')
  {
    forall e | e in Edges(g) && e.node in h'.group
      ensures ReadSafe(g, s', h', e)
    {
      if e.node != n {
        assert ReadSafe(g, s, h, e);
        BaseNotNew(g, s, h, n, e);
      }
    }
  }

  /** Nodes placed earlier do not read `n`. */
  lemma BaseNotNew(g: Graph, s: State, h: History, n: nat, e: Edge)
    requires Fits(g, s) && Progress(g, s, h) && n < |g| && g[n].isNode && n !in h.placed && e in Edges(g)
      && e.node in h.placed
    ensures Target(g, e) < |g| && Base(g, Target(g, e)) != n
  {
    var t := Target(g, e);
    assert Ready(g, h, t);
    if g[t].viewSrc.Some? {
      assert ViewOk(g, t);
      assert Ready(g, h, g[t].viewSrc.value);
    }
  }

  lemma SafeTaken(g: Graph, s: State, h: History, lo: nat, hi: nat, n: nat, p: nat, q: nat, o: nat, s': State)
    requires Inv(g, s, h, lo, hi) && GroupSafe(g, s, h) && CanPlace(g, h, n) && Takes(g, s, h, n, p, q, o)
    requires Taken(g, s, n, q, s')
    requires forall e :: e in Edges(g) && e.node == n ==>
      Base(g, Target(g, e)) < n && (InArena(g, s, Base(g, Target(g, e))) ==> Base(g, Target(g, e)) in h.owner)
    ensures GroupSafe(g, s', Enter(h, n, Succeed(h, n, o)))
  {
    hide ReadSafe;
    var h' := Enter(h, n, Succeed(h, n, o));
    OwnerNotInGroup(g, s, h, n, p, q, o);
    forall e | e in Edges(g) && e.node in h'.group
      ensures ReadSafe(g, s', h', e)
    {
      if e.node == n {
        OwnReadSafe(g, s, h, lo, hi, n, p, q, o, s', e);
      } else {
        assert ReadSafe(g, s, h, e);
        OtherReadSafe(g, s, h, n, p, q, o, s', e);
      }
    }
  }

  lemma OwnReadSafe(g: Graph, s: State, h: History, lo: nat, hi: nat, n: nat, p: nat, q: nat, o: nat, s': State,
                    e: Edge)
    requires Fits(g, s) && OwnersOk(g, s, h, lo, hi) && Takes(g, s, h, n, p, q, o) && Taken(g, s, n, q, s')
    requires IsEdge(g, e) && e.node == n && Target(g, e) < |g| && Base(g, Target(g, e)) < n
    requires InArena(g, s, Base(g, Target(g, e))) ==> Base(g, Target(g, e)) in h.owner
    ensures ReadSafe(g, s', Enter(h, n, Succeed(h, n, o)), e)
  {
    assert OwnerOk(g, s, h, lo, hi, o);
    assert Base(g, Target(g, e)) == o ==> HeldBy(g, s', Enter(h, n, Succeed(h, n, o)), o, n);
  }

  lemma OtherReadSafe(g: Graph, s: State, h: History, n: nat, p: nat, q: nat, o: nat, s': State, e: Edge)
    requires Fits(g, s) && Counted(g, s, h) && Progress(g, s, h) && Aliases(g, s, h) && ReleasedOk(g, s, h)
    requires CanPlace(g, h, n) && Takes(g, s, h, n, p, q, o) && Taken(g, s, n, q, s') && o !in h.group
    requires e in Edges(g) && e.node in h.group && h.group <= h.placed && e !in h.done && ReadSafe(g, s, h, e)
    ensures ReadSafe(g, s', Enter(h, n, Succeed(h, n, o)), e)
  {
    BaseNotNew(g, s, h, n, e);
    GroupDoesNotRead(g, s, h, n, p, q, o, e);
    var b := Base(g, Target(g, e));
    assert InArena(g, s', b) ==> InArena(g, s, b);
    assert HeldBy(g, s, h, b, e.node) ==> HeldBy(g, s', Enter(h, n, Succeed(h, n, o)), b, e.node);
  }

  lemma OwnerNotInGroup(g: Graph, s: State, h: History, n: nat, p: nat, q: nat, o: nat)
    requires Fits(g, s) && Progress(g, s, h) && Aliases(g, s, h) && CanPlace(g, h, n) && Takes(g, s, h, n, p, q, o)
    ensures o !in h.group
  {
    var j :| 0 <= j < |g[n].src| && g[n].src[j] == p;
    assert Edge(n, j) in Edges(g) && Ready(g, h, Target(g, Edge(n, j)));
    if !IsRoot(g, p) {
      assert ViewAlias(g, s, p) && ViewOk(g, p);
      assert Ready(g, h, g[p].viewSrc.value);
    }
    assert o < |g|;
  }

  /** No other node of the group reads the memory that `n` takes over. */
  lemma GroupDoesNotRead(g: Graph, s: State, h: History, n: nat, p: nat, q: nat, o: nat, e: Edge)
    requires Fits(g, s) && Counted(g, s, h) && Progress(g, s, h) && Aliases(g, s, h) && ReleasedOk(g, s, h)
    requires n !in h.placed && Takes(g, s, h, n, p, q, o)
    requires e in Edges(g) && e.node != n && e !in h.done
    ensures Target(g, e) < |g| && Base(g, Target(g, e)) != o
  {
    TakesReads(g, s, h, n, p, q, o);
    var t := Target(g, e);
    assert e in Undone(g, h.done, t);
    assert t != p;
    if !IsRoot(g, t) {
      PendingViewCounts(g, s, h, t);
    }
  }

  /** A view that is still to be read counts as a view of its source. */
  lemma PendingViewCounts(g: Graph, s: State, h: History, t: nat)
    requires Fits(g, s) && Counted(g, s, h) && Aliases(g, s, h) && ReleasedOk(g, s, h)
    requires t < |g| && !IsRoot(g, t) && Undone(g, h.done, t) != {}
    ensures t in Viewers(s.viewSrc, h.released, Base(g, t))
  {
    assert ViewAlias(g, s, t);
    assert s.nChildren[t] == |Undone(g, h.done, t)|;
  }
}
