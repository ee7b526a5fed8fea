/** Counting off an argument edge, and giving memory back, keeps the invariant of the graph
    allocator: only bytes whose value nobody can read any more return to the free list. */
module GraphRelease {
  import opened Wrappers
  import opened FreeList
  import opened Arenas
  import opened GraphAlloc
  import opened GraphInvariant

  ghost function CountOff(h: History, e: Edge): History {
    h.(done := h.done + {e})
  }

  lemma UndoneAfter(g: Graph, h: History, e: Edge)
    requires GraphOk(g) && e in Edges(g) && e !in h.done
    ensures e in Undone(g, h.done, Target(g, e))
    ensures Undone(g, h.done + {e}, Target(g, e)) == Undone(g, h.done, Target(g, e)) - {e}
    ensures forall t: nat :: t != Target(g, e) ==> Undone(g, h.done + {e}, t) == Undone(g, h.done, t)
  {
  }

  lemma FewerReads(g: Graph, h: History, e: Edge, t: nat)
    ensures Undone(g, h.done + {e}, t) <= Undone(g, h.done, t)
  {
  }

  lemma ProgressCountOff(g: Graph, s: State, h: History, e: Edge, s': State)
    requires Fits(g, s) && Progress(g, s, h) && e in Edges(g) && e.node in h.group
    requires Fits(g, s') && s'.data == s.data
    ensures Progress(g, s', CountOff(h, e))
  {
    var h' := CountOff(h, e);
    forall e' | e' in Edges(g) && e'.node in h'.placed
      ensures Ready(g, h', Target(g, e'))
    {
      assert Ready(g, h, Target(g, e'));
    }
    forall v | v in h'.placed && v < |g| && g[v].viewSrc.Some?
      ensures Ready(g, h', g[v].viewSrc.value)
    {
      assert Ready(g, h, g[v].viewSrc.value);
    }
  }

  /** The target of an edge exists. */
  lemma TargetInGraph(g: Graph, e: Edge)
    requires GraphOk(g) && e in Edges(g)
    ensures Target(g, e) < e.node < |g| && Target(g, e) in g[e.node].src && Consumed(g, Target(g, e))
  {
  }

  // ---------------------------------------------------------------- no view is released

  /** The bookkeeping of an edge whose target stays alive, or is not an alias. */
  lemma CountedOff(g: Graph, s: State, h: History, lo: nat, hi: nat, e: Edge, s': State)
    requires Inv(g, s, h, lo, hi) && e in Edges(g) && e.node in h.group && e !in h.done && Target(g, e) < |g|
    requires s' == s.(nChildren := s.nChildren[Target(g, e) := s.nChildren[Target(g, e)] - 1])
    requires Dead(s', Target(g, e)) ==> s.viewSrc[Target(g, e)].None?
    ensures Inv(g, s', CountOff(h, e), lo, hi)
  {
    hide GraphOk, Counted, Aliases, Regions, Progress, NeededOwned, OthersSuperseded, TakeoversOk, ReleasedOk;
    var p, h' := Target(g, e), CountOff(h, e);
    CountedOffCounts(g, s, h, e, s');
    ProgressCountOff(g, s, h, e, s');
    AliasesSame(g, s, h, s', h');
    RegionsSame(g, s, h, lo, hi, s', h');
    CountedOffSuperseded(g, s, h, e, s');
    CountedOffTakeovers(g, s, h, e, s');
  }

  lemma CountedOffCounts(g: Graph, s: State, h: History, e: Edge, s': State)
    requires Fits(g, s) && Counted(g, s, h) && NeededOwned(g, s, h) && ReleasedOk(g, s, h)
    requires e in Edges(g) && e !in h.done && Target(g, e) < |g|
    requires s' == s.(nChildren := s.nChildren[Target(g, e) := s.nChildren[Target(g, e)] - 1])
    ensures Counted(g, s', CountOff(h, e)) && NeededOwned(g, s', CountOff(h, e)) && ReleasedOk(g, s', CountOff(h, e))
  {
    hide GraphOk;
    UndoneAfter(g, h, e);
  }

  lemma AliasesSame(g: Graph, s: State, h: History, s': State, h': History)
    requires Fits(g, s) && Fits(g, s') && Aliases(g, s, h) && h.placed <= h'.placed
    requires s'.data == s.data && s'.buffer == s.buffer && s'.viewSrc == s.viewSrc
    ensures Aliases(g, s', h')
  {
    forall v | 0 <= v < |g| && g[v].viewSrc.Some?
      ensures ViewAlias(g, s', v)
    {
      assert ViewAlias(g, s, v);
    }
    forall x | 0 <= x < |g| && TookOver(g, s', x)
      ensures TakenAlias(g, s', h', x)
    {
      assert TakenAlias(g, s, h, x);
    }
  }

  lemma RegionsSame(g: Graph, s: State, h: History, lo: nat, hi: nat, s': State, h': History)
    requires Fits(g, s) && Fits(g, s') && Regions(g, s, h, lo, hi)
    requires s'.data == s.data && s'.buffer == s.buffer && s'.viewSrc == s.viewSrc && s'.heap == s.heap
      && h'.owner == h.owner
    ensures Regions(g, s', h', lo, hi)
  {
    forall o | o in h.owner
      ensures OwnerOk(g, s', h', lo, hi, o)
    {
      assert OwnerOk(g, s, h, lo, hi, o);
    }
    forall t: nat | IsRoot(g, t) && s'.data[t].Some? && s'.buffer[t] != Own
      ensures Outside(g, s', lo, hi, t)
    {
      assert Outside(g, s, lo, hi, t);
    }
  }

  lemma StillOnlyReadBy(g: Graph, h: History, e: Edge, t: nat, x: nat)
    requires OnlyReadBy(g, h.done, t, x)
    ensures OnlyReadBy(g, h.done + {e}, t, x)
  {
    FewerReads(g, h, e, t);
  }

  lemma CountedOffSuperseded(g: Graph, s: State, h: History, e: Edge, s': State)
    requires Fits(g, s) && Counted(g, s, h) && OthersSuperseded(g, s, h) && e in Edges(g) && e !in h.done
      && Target(g, e) < |g|
    requires s' == s.(nChildren := s.nChildren[Target(g, e) := s.nChildren[Target(g, e)] - 1])
    ensures OthersSuperseded(g, s', CountOff(h, e))
  {
    UndoneAfter(g, h, e);
    forall t: nat | InArena(g, s', t) && t !in h.owner
      ensures Superseded(g, s', CountOff(h, e), t)
    {
      assert InArena(g, s, t) && Superseded(g, s, h, t);
      if x :| x in Viewers(s.viewSrc, h.released, t) && TookOver(g, s, x) {
        assert TookOver(g, s', x);
      } else if x: nat :| PassedOn(g, s, h, t, x) {
        StillOnlyReadBy(g, h, e, t, x);
        assert PassedOn(g, s', CountOff(h, e), t, x);
      }
    }
  }

  lemma CountedOffTakeovers(g: Graph, s: State, h: History, e: Edge, s': State)
    requires Fits(g, s) && Counted(g, s, h) && TakeoversOk(g, s, h) && e in Edges(g) && e !in h.done
      && Target(g, e) < |g|
    requires s' == s.(nChildren := s.nChildren[Target(g, e) := s.nChildren[Target(g, e)] - 1])
    requires Dead(s', Target(g, e)) ==> s.viewSrc[Target(g, e)].None?
    ensures TakeoversOk(g, s', CountOff(h, e))
  {
    var h' := CountOff(h, e);
    UndoneAfter(g, h, e);
    forall x: nat | x < |g| && TookOver(g, s', x) && x !in h.released
      ensures TakeoverOk(g, s', h', x)
    {
      assert TookOver(g, s, x) && TakeoverOk(g, s, h, x);
      var q := s.viewSrc[x].value;
      if x in h.group {
        StillOnlyReadBy(g, h, e, q, x);
        forall v | v in Viewers(s.viewSrc, h.released, q) && v != x
          ensures v in g[x].src && Undone(g, h'.done, v) != {} && OnlyReadBy(g, h'.done, v, x) && s'.nViews[v] == 0
        {
          StillOnlyReadBy(g, h, e, v, x);
          if v == Target(g, e) {
            assert !Dead(s', v);
            assert |Undone(g, h'.done, v)| == s'.nChildren[v];
          }
        }
      } else {
        FewerReads(g, h, e, q);
      }
    }
  }

  // ---------------------------------------------------------------- a view is released

  ghost function LetGo(h: History, e: Edge, p: nat): History {
    h.(done := h.done + {e}, released := h.released + {p})
  }

  /** The last reader of the alias `p` is done: `p` no longer counts as a view of `q`. */
  ghost predicate LastRead(g: Graph, s: State, h: History, e: Edge, p: nat, q: nat, s': State)
    requires Fits(g, s)
  {
    && e in Edges(g) && e.node in h.group && e !in h.done && Target(g, e) == p && p < |g| && q < |g| && p != q
    && s.viewSrc[p] == Some(q) && s.nChildren[p] == 1 && s.nViews[p] == 0
    && s' == s.(nChildren := s.nChildren[p := s.nChildren[p] - 1], nViews := s.nViews[q := s.nViews[q] - 1])
  }

  lemma LetGoFacts(g: Graph, s: State, h: History, lo: nat, hi: nat, e: Edge, p: nat, q: nat, s': State)
    requires Inv(g, s, h, lo, hi) && LastRead(g, s, h, e, p, q, s')
    ensures p !in h.released && p !in h.group && p in Viewers(s.viewSrc, h.released, q)
    ensures Undone(g, h.done, p) == {e} && Viewers(s.viewSrc, h.released, p) == {}
    ensures Viewers(s.viewSrc, h.released + {p}, q) == Viewers(s.viewSrc, h.released, q) - {p}
    ensures forall t: nat :: t != q ==> Viewers(s.viewSrc, h.released + {p}, t) == Viewers(s.viewSrc, h.released, t)
  {
    hide GraphOk, Aliases, Regions, NeededOwned, OthersSuperseded, TakeoversOk;
    UndoneAfter(g, h, e);
    assert Ready(g, h, Target(g, e));
    assert |Undone(g, h.done, p) - {e}| == 0;
    assert |Viewers(s.viewSrc, h.released, p)| == 0;
    assert p !in h.group by {
      GroupAliasIsNode(g, s, h, p);
    }
  }

  lemma GroupAliasIsNode(g: Graph, s: State, h: History, p: nat)
    requires Fits(g, s) && Progress(g, s, h) && Ready(g, h, p)
    ensures p !in h.group
  {
  }

  lemma ReleasedView(g: Graph, s: State, h: History, lo: nat, hi: nat, e: Edge, p: nat, q: nat, s': State)
    requires Inv(g, s, h, lo, hi) && LastRead(g, s, h, e, p, q, s')
    ensures Inv(g, s', LetGo(h, e, p), lo, hi)
  {
    hide Aliases, Regions, OthersSuperseded, TakeoversOk, Counted, Progress, ReleasedOk, GraphOk;
    var h' := LetGo(h, e, p);
    LetGoFacts(g, s, h, lo, hi, e, p, q, s');
    UndoneAfter(g, h, e);
    LetGoCounted(g, s, h, e, p, q, s');
    LetGoProgress(g, s, h, e, p, s');
    AliasesSame(g, s, h, s', h');
    RegionsSame(g, s, h, lo, hi, s', h');
    assert NeededOwned(g, s', h');
    LetGoReleased(g, s, h, e, p, q, s');
    LetGoSuperseded(g, s, h, e, p, q, s');
    LetGoTakeovers(g, s, h, e, p, q, s');
  }

  lemma LetGoCounted(g: Graph, s: State, h: History, e: Edge, p: nat, q: nat, s': State)
    requires Fits(g, s) && Counted(g, s, h) && LastRead(g, s, h, e, p, q, s')
    requires p in Viewers(s.viewSrc, h.released, q)
    requires Viewers(s.viewSrc, h.released + {p}, q) == Viewers(s.viewSrc, h.released, q) - {p}
    requires forall t: nat :: t != q ==> Viewers(s.viewSrc, h.released + {p}, t) == Viewers(s.viewSrc, h.released, t)
    ensures Counted(g, s', LetGo(h, e, p))
  {
    UndoneAfter(g, h, e);
  }

  lemma LetGoProgress(g: Graph, s: State, h: History, e: Edge, p: nat, s': State)
    requires Fits(g, s) && Fits(g, s') && Progress(g, s, h) && e in Edges(g) && e.node in h.group && s'.data == s.data
    ensures Progress(g, s', LetGo(h, e, p))
  {
    ProgressCountOff(g, s, h, e, s);
    var h1, h' := CountOff(h, e), LetGo(h, e, p);
    forall e' | e' in Edges(g) && e'.node in h'.placed
      ensures Ready(g, h', Target(g, e'))
    {
      assert Ready(g, h1, Target(g, e'));
    }
    forall v | v in h'.placed && v < |g| && g[v].viewSrc.Some?
      ensures Ready(g, h', g[v].viewSrc.value)
    {
      assert Ready(g, h1, g[v].viewSrc.value);
    }
  }

  lemma LetGoReleased(g: Graph, s: State, h: History, e: Edge, p: nat, q: nat, s': State)
    requires Fits(g, s) && Counted(g, s, h) && ReleasedOk(g, s, h) && LastRead(g, s, h, e, p, q, s')
    requires p in Viewers(s.viewSrc, h.released, q)
    ensures ReleasedOk(g, s', LetGo(h, e, p))
  {
    TargetInGraph(g, e);
    assert q !in h.released by {
      assert s.nViews[q] == |Viewers(s.viewSrc, h.released, q)|;
    }
  }

  lemma LetGoSuperseded(g: Graph, s: State, h: History, e: Edge, p: nat, q: nat, s': State)
    requires Fits(g, s) && Counted(g, s, h) && OthersSuperseded(g, s, h) && TakeoversOk(g, s, h)
      && LastRead(g, s, h, e, p, q, s')
    requires p !in h.released && p !in h.group && p in Viewers(s.viewSrc, h.released, q)
    requires Viewers(s.viewSrc, h.released + {p}, q) == Viewers(s.viewSrc, h.released, q) - {p}
    requires forall t: nat :: t != q ==> Viewers(s.viewSrc, h.released + {p}, t) == Viewers(s.viewSrc, h.released, t)
    ensures OthersSuperseded(g, s', LetGo(h, e, p))
  {
    var h' := LetGo(h, e, p);
    forall t: nat | InArena(g, s', t) && t !in h.owner
      ensures Superseded(g, s', h', t)
    {
      assert InArena(g, s, t) && Superseded(g, s, h, t);
      if t == q {
        SourceSuperseded(g, s, h, e, p, q, s');
      } else if t != p {
        OtherSuperseded(g, s, h, e, p, q, s', t);
      }
    }
  }

  lemma OtherSuperseded(g: Graph, s: State, h: History, e: Edge, p: nat, q: nat, s': State, t: nat)
    requires Fits(g, s) && LastRead(g, s, h, e, p, q, s') && t < |g| && t != q && t != p && Superseded(g, s, h, t)
    requires Viewers(s.viewSrc, h.released + {p}, t) == Viewers(s.viewSrc, h.released, t)
    ensures Superseded(g, s', LetGo(h, e, p), t)
  {
    var h' := LetGo(h, e, p);
    if x :| x in Viewers(s.viewSrc, h.released, t) && TookOver(g, s, x) {
      assert x in Viewers(s'.viewSrc, h'.released, t) && TookOver(g, s', x);
    } else if x: nat :| PassedOn(g, s, h, t, x) {
      StillOnlyReadBy(g, h, e, t, x);
      assert PassedOn(g, s', h', t, x);
    }
  }

  /** The source of the released alias: finished, or still held by another successor. */
  lemma SourceSuperseded(g: Graph, s: State, h: History, e: Edge, p: nat, q: nat, s': State)
    requires Fits(g, s) && Counted(g, s, h) && TakeoversOk(g, s, h) && LastRead(g, s, h, e, p, q, s')
      && Superseded(g, s, h, q)
    requires p !in h.released && p !in h.group && p in Viewers(s.viewSrc, h.released, q)
    requires Viewers(s.viewSrc, h.released + {p}, q) == Viewers(s.viewSrc, h.released, q) - {p}
    ensures Superseded(g, s', LetGo(h, e, p), q)
  {
    var h' := LetGo(h, e, p);
    assert s.nViews[q] == |Viewers(s.viewSrc, h.released, q)| > 0;
    var x :| x in Viewers(s.viewSrc, h.released, q) && TookOver(g, s, x);
    if x != p {
      assert x in Viewers(s'.viewSrc, h'.released, q) && TookOver(g, s', x);
    } else {
      assert TakeoverOk(g, s, h, p);
      SuccessorReleased(g, s, h, e, p, q, s');
    }
  }

  lemma SuccessorReleased(g: Graph, s: State, h: History, e: Edge, p: nat, q: nat, s': State)
    requires Fits(g, s) && Counted(g, s, h) && LastRead(g, s, h, e, p, q, s') && TookOver(g, s, p)
      && TakeoverOk(g, s, h, p)
    requires p !in h.group && p in Viewers(s.viewSrc, h.released, q)
    requires Viewers(s.viewSrc, h.released + {p}, q) == Viewers(s.viewSrc, h.released, q) - {p}
    ensures Superseded(g, s', LetGo(h, e, p), q)
  {
    assert s.nChildren[q] == |Undone(g, h.done, q)| == 0;
    if v :| v in Viewers(s.viewSrc, h.released, q) && v != p {
      assert v in Viewers(s'.viewSrc, h.released + {p}, q) && TookOver(g, s', v);
    } else {
      assert Viewers(s.viewSrc, h.released, q) == {p};
      assert s.nViews[q] == 1;
      assert Dead(s', q);
    }
  }

  lemma LetGoTakeovers(g: Graph, s: State, h: History, e: Edge, p: nat, q: nat, s': State)
    requires Fits(g, s) && Counted(g, s, h) && TakeoversOk(g, s, h) && LastRead(g, s, h, e, p, q, s')
    requires p in Viewers(s.viewSrc, h.released, q) && Undone(g, h.done, p) == {e}
    requires Viewers(s.viewSrc, h.released + {p}, q) == Viewers(s.viewSrc, h.released, q) - {p}
    requires forall t: nat :: t != q ==> Viewers(s.viewSrc, h.released + {p}, t) == Viewers(s.viewSrc, h.released, t)
    ensures TakeoversOk(g, s', LetGo(h, e, p))
  {
    var h' := LetGo(h, e, p);
    UndoneAfter(g, h, e);
    forall x: nat | x < |g| && TookOver(g, s', x) && x !in h'.released
      ensures TakeoverOk(g, s', h', x)
    {
      assert TookOver(g, s, x) && TakeoverOk(g, s, h, x);
      var r := s.viewSrc[x].value;
      if x in h.group {
        StillOnlyReadBy(g, h, e, r, x);
        forall v | v in Viewers(s'.viewSrc, h'.released, r) && v != x
          ensures v in g[x].src && Undone(g, h'.done, v) != {} && OnlyReadBy(g, h'.done, v, x) && s'.nViews[v] == 0
        {
          assert v in Viewers(s.viewSrc, h.released, r) && v != p;
          StillOnlyReadBy(g, h, e, v, x);
          assert s.nViews[q] == |Viewers(s.viewSrc, h.released, q)|;
        }
      } else {
        FewerReads(g, h, e, r);
        assert forall v :: v in Viewers(s'.viewSrc, h'.released, r) ==> v in Viewers(s.viewSrc, h.released, r);
      }
    }
  }

  // ---------------------------------------------------------------- memory is given back

  /** `t` is finished; its bytes are the start of the region that holds the finished value of `o`. */
  ghost predicate Finished(g: Graph, s: State, h: History, t: nat, o: nat)
    requires Fits(g, s)
  {
    && IsRoot(g, t) && s.data[t].Some? && o in h.owner && InArena(g, s, o) && s.data[o] == s.data[t]
    && Padded(g[t].size, s.heap.alignment) <= h.owner[o]
    && Dead(s, o) && (Consumed(g, o) || HasView(g, o))
  }

  lemma DeadIsUnneeded(g: Graph, s: State, h: History, o: nat)
    requires Fits(g, s) && Counted(g, s, h) && Progress(g, s, h) && Aliases(g, s, h) && ReleasedOk(g, s, h)
    requires IsRoot(g, o) && Dead(s, o) && (Consumed(g, o) || HasView(g, o))
    ensures !Needed(g, h.placed, o)
  {
    DeadIsUnwanted(g, s, h, o);
    forall v: nat | ViewOf(g, v, o)
      ensures !Expected(g, h.placed, v)
    {
      assert ViewAlias(g, s, v);
      assert s.nViews[o] == |Viewers(s.viewSrc, h.released, o)|;
      assert v !in Viewers(s.viewSrc, h.released, o);
      DeadIsUnwanted(g, s, h, v);
    }
  }

  lemma DeadIsUnwanted(g: Graph, s: State, h: History, t: nat)
    requires Fits(g, s) && Counted(g, s, h) && Progress(g, s, h) && t < |g| && s.nChildren[t] == 0
    ensures !Wanted(g, h.placed, t)
  {
    assert |Undone(g, h.done, t)| == 0;
    forall e | e in Edges(g) && Target(g, e) == t
      ensures e.node in h.placed
    {
      assert e !in Undone(g, h.done, t);
    }
  }

  ghost function Vacate(h: History, o: nat): History {
    h.(owner := h.owner - {o})
  }

  /** Bytes that become free were in use, in a region whose value nobody can read any more. */
  ghost predicate OnlyUnneeded(g: Graph, s: State, h: History, s': State)
    requires Fits(g, s)
  {
    forall p :: Covers(s'.heap.free, p) && !Covers(s.heap.free, p) ==> InUnneeded(g, s, h, p)
  }

  ghost predicate InUnneeded(g: Graph, s: State, h: History, p: int)
    requires Fits(g, s)
  {
    exists o :: o in h.owner && o < |g| && s.data[o].Some? && Region(s, h, o).Contains(p) && !Needed(g, h.placed, o)
  }

  /** The range that a release of `t` returns lies in the arena, and none of it is free. */
  ghost predicate InUse(g: Graph, s: State, lo: nat, hi: nat, t: nat)
    requires Fits(g, s) && t < |g|
  {
    s.buffer[t] == Own && s.data[t].Some? ==>
      var b := Block(s.data[t].value, Padded(g[t].size, s.heap.alignment));
      lo <= b.addr && b.End() <= hi && forall p :: b.Contains(p) ==> !Covers(s.heap.free, p)
  }

  /** The free bytes of `s'` are those of `s` and the padded bytes of `t`; nothing else of the heap
      changes. */
  ghost predicate Regained(g: Graph, s: State, s': State, t: nat)
    requires Fits(g, s) && t < |g| && s.data[t].Some?
  {
    && s'.heap == s.heap.(free := s'.heap.free)
    && WellFormed(s'.heap.free)
    && (forall p :: Covers(s'.heap.free, p) <==>
      Covers(s.heap.free, p) || s.data[t].value <= p < s.data[t].value + Padded(g[t].size, s.heap.alignment))
  }

  /** Freeing bytes in use gives back exactly them, and can only fail when the table of blocks is full. */
  lemma BytesRegained(g: Graph, s: State, lo: nat, hi: nat, t: nat)
    requires Fits(g, s) && t < |g| && s.buffer[t] == Own && s.data[t].Some? && InUse(g, s, lo, hi, t)
    requires WellFormed(s.heap.free)
    ensures FreeNode(g, s, t).None? ==> |s.heap.free| >= MAX_FREE_BLOCKS
    ensures FreeNode(g, s, t).Some? ==> Regained(g, s, FreeNode(g, s, t).value, t)
  {
    FreeReturnsBytes(s.heap.free, s.data[t].value, Padded(g[t].size, s.heap.alignment));
  }

  /** Giving back the bytes of a finished tensor. */
  lemma GiveBack(g: Graph, s: State, h: History, lo: nat, hi: nat, t: nat, o: nat)
    requires Inv(g, s, h, lo, hi) && Finished(g, s, h, t, o) && s.buffer[t] == Own
    requires FreeNode(g, s, t).Some?
    ensures Inv(g, FreeNode(g, s, t).value, Vacate(h, o), lo, hi)
    ensures InUse(g, s, lo, hi, t) && Regained(g, s, FreeNode(g, s, t).value, t)
    ensures OnlyUnneeded(g, s, h, FreeNode(g, s, t).value)
  {
    hide Regained;
    var s', h' := FreeNode(g, s, t).value, Vacate(h, o);
    GiveBackRegions(g, s, h, lo, hi, t, o);
    HeapInOrder(g, s, h, lo, hi);
    BytesRegained(g, s, lo, hi, t);
    DeadIsUnneeded(g, s, h, o);
    AliasesSame(g, s, h, s', h');
    GiveBackSuperseded(g, s, h, o, s');
    GiveBackRest(g, s, h, o, s');
  }

  lemma GiveBackRest(g: Graph, s: State, h: History, o: nat, s': State)
    requires Fits(g, s) && Counted(g, s, h) && Progress(g, s, h) && NeededOwned(g, s, h) && TakeoversOk(g, s, h)
      && ReleasedOk(g, s, h)
    requires !Needed(g, h.placed, o) && s' == s.(heap := s'.heap)
    ensures Counted(g, s', Vacate(h, o)) && Progress(g, s', Vacate(h, o)) && NeededOwned(g, s', Vacate(h, o))
    ensures TakeoversOk(g, s', Vacate(h, o)) && ReleasedOk(g, s', Vacate(h, o))
  {
    var h' := Vacate(h, o);
    forall e | e in Edges(g) && e.node in h'.placed
      ensures Ready(g, h', Target(g, e))
    {
      assert Ready(g, h, Target(g, e));
    }
    forall v | v in h'.placed && v < |g| && g[v].viewSrc.Some?
      ensures Ready(g, h', g[v].viewSrc.value)
    {
      assert Ready(g, h, g[v].viewSrc.value);
    }
    forall x: nat | x < |g| && TookOver(g, s', x) && x !in h'.released
      ensures TakeoverOk(g, s', h', x)
    {
      assert TakeoverOk(g, s, h, x);
    }
  }

  lemma GiveBackSuperseded(g: Graph, s: State, h: History, o: nat, s': State)
    requires Fits(g, s) && OthersSuperseded(g, s, h) && o < |g| && Dead(s, o) && s' == s.(heap := s'.heap)
    ensures OthersSuperseded(g, s', Vacate(h, o))
  {
    forall t: nat | InArena(g, s', t) && t !in h.owner - {o}
      ensures Superseded(g, s', Vacate(h, o), t)
    {
      if t != o {
        assert Superseded(g, s, h, t);
        if x: nat :| PassedOn(g, s, h, t, x) {
          assert PassedOn(g, s', Vacate(h, o), t, x);
        }
      }
    }
  }

  lemma FinishedInUse(g: Graph, s: State, h: History, lo: nat, hi: nat, t: nat, o: nat)
    requires Fits(g, s) && Regions(g, s, h, lo, hi) && Finished(g, s, h, t, o)
    ensures InUse(g, s, lo, hi, t)
    ensures forall p :: Block(s.data[t].value, Padded(g[t].size, s.heap.alignment)).Contains(p) ==>
      Region(s, h, o).Contains(p)
  {
    assert OwnerOk(g, s, h, lo, hi, o);
  }

  lemma GiveBackRegions(g: Graph, s: State, h: History, lo: nat, hi: nat, t: nat, o: nat)
    requires Fits(g, s) && Regions(g, s, h, lo, hi) && Finished(g, s, h, t, o) && s.buffer[t] == Own
    requires FreeNode(g, s, t).Some?
    ensures Regions(g, FreeNode(g, s, t).value, Vacate(h, o), lo, hi)
    ensures InUse(g, s, lo, hi, t)
    ensures forall p :: Covers(FreeNode(g, s, t).value.heap.free, p) && !Covers(s.heap.free, p) ==>
      Region(s, h, o).Contains(p)
  {
    FinishedInUse(g, s, h, lo, hi, t, o);
    FreeReturnsBytes(s.heap.free, s.data[t].value, Padded(g[t].size, s.heap.alignment));
    hide Padded, WellFormed;
    VacatedRegions(g, s, h, lo, hi, o, FreeNode(g, s, t).value);
  }

  lemma VacatedRegions(g: Graph, s: State, h: History, lo: nat, hi: nat, o: nat, s': State)
    requires Fits(g, s) && Regions(g, s, h, lo, hi) && o in h.owner
    requires s' == s.(heap := s.heap.(free := s'.heap.free)) && WellFormed(s'.heap.free)
    requires OwnerOk(g, s, h, lo, hi, o)
    requires forall p :: Covers(s'.heap.free, p) ==> Covers(s.heap.free, p) || Region(s, h, o).Contains(p)
    ensures Regions(g, s', Vacate(h, o), lo, hi)
  {
    hide GraphOk, WellFormed, Padded, Covers;
    var h' := Vacate(h, o);
    forall u | u in h'.owner
      ensures OwnerOk(g, s', h', lo, hi, u) && Region(s', h', u) == Region(s, h, u)
    {
      assert OwnerOk(g, s, h, lo, hi, u);
    }
    assert forall p :: Covers(s'.heap.free, p) ==> lo <= p < hi;
    forall u, p | u in h'.owner && Covers(s'.heap.free, p)
      ensures !Region(s', h', u).Contains(p)
    {
      assert Disjoint(Region(s, h, u), Region(s, h, o));
    }
    forall u, v | u in h'.owner && v in h'.owner && u != v
      ensures Disjoint(Region(s', h', u), Region(s', h', v))
    {
      assert Disjoint(Region(s, h, u), Region(s, h, v));
    }
    forall u: nat | IsRoot(g, u) && s'.data[u].Some? && s'.buffer[u] != Own
      ensures Outside(g, s', lo, hi, u)
    {
      assert Outside(g, s, lo, hi, u);
    }
  }

  // ---------------------------------------------------------------- one edge

  /** A tensor with an open edge, no views and memory of its own in the arena owns its region. */
  lemma ReadRootOwned(g: Graph, s: State, h: History, e: Edge)
    requires Fits(g, s) && Counted(g, s, h) && OthersSuperseded(g, s, h)
    requires e in Edges(g) && e !in h.done && Target(g, e) < |g| && InArena(g, s, Target(g, e))
      && s.nViews[Target(g, e)] == 0
    ensures Target(g, e) in h.owner || exists x: nat :: PassedOn(g, s, h, Target(g, e), x)
  {
    var p := Target(g, e);
    if p !in h.owner {
      assert e in Undone(g, h.done, p);
      assert |Viewers(s.viewSrc, h.released, p)| == 0;
      assert Superseded(g, s, h, p);
    }
  }

  /** Released aliases were placed before the open group. */
  lemma ReleasedBefore(g: Graph, s: State, h: History, x: nat)
    requires Fits(g, s) && Counted(g, s, h) && Progress(g, s, h) && ReleasedOk(g, s, h) && x in h.released
    ensures x !in h.group
  {
    var e :| e in Edges(g) && Target(g, e) == x;
    assert s.nChildren[x] == |Undone(g, h.done, x)|;
    assert e !in Undone(g, h.done, x);
    assert Ready(g, h, x);
  }

  lemma TwoElements<T>(s: set<T>, x: T, y: T)
    requires x in s && y in s && x != y
    ensures |s| >= 2
  {
    assert y in s - {x};
    assert |s - {x}| > 0;
  }

  /** When the last view of a finished source goes, the source or that view owns the region. */
  lemma SourceOwner(g: Graph, s: State, h: History, lo: nat, hi: nat, e: Edge, p: nat, q: nat, s': State)
      returns (o: nat)
    requires Inv(g, s, h, lo, hi) && LastRead(g, s, h, e, p, q, s') && Dead(s', q) && IsRoot(g, q) && InArena(g, s, q)
    ensures Finished(g, s', LetGo(h, e, p), q, o)
  {
    LetGoFacts(g, s, h, lo, hi, e, p, q, s');
    TargetInGraph(g, e);
    assert |Viewers(s.viewSrc, h.released, q)| == 1;
    if q in h.owner {
      o := q;
      assert OwnerOk(g, s, h, lo, hi, q);
      SourceUsed(g, s, h, p, q);
    } else {
      o := p;
      assert Superseded(g, s, h, q);
      assert p in Viewers(s.viewSrc, h.released, q);
      SoleViewer(g, s, h, p, q);
      ViewerOwns(g, s, h, e, p, q);
      assert OwnerOk(g, s, h, lo, hi, p);
    }
  }

  lemma SourceUsed(g: Graph, s: State, h: History, p: nat, q: nat)
    requires Fits(g, s) && Aliases(g, s, h) && p < |g| && s.viewSrc[p] == Some(q)
    ensures Consumed(g, q) || HasView(g, q)
  {
    if IsRoot(g, p) {
      assert TookOver(g, s, p) && TakenAlias(g, s, h, p);
    } else {
      assert ViewAlias(g, s, p);
      assert ViewOf(g, p, q);
    }
  }

  /** A superseded source with a single view was taken over by that view. */
  lemma SoleViewer(g: Graph, s: State, h: History, p: nat, q: nat)
    requires Fits(g, s) && Counted(g, s, h) && q < |g| && p < |g| && Superseded(g, s, h, q)
    requires p in Viewers(s.viewSrc, h.released, q) && |Viewers(s.viewSrc, h.released, q)| == 1
    ensures TookOver(g, s, p)
  {
    assert |Viewers(s.viewSrc, h.released, q) - {p}| == 0;
    assert s.nViews[q] == 1;
    var x :| x in Viewers(s.viewSrc, h.released, q) && TookOver(g, s, x);
    assert x !in Viewers(s.viewSrc, h.released, q) - {p};
  }

  lemma ViewerOwns(g: Graph, s: State, h: History, e: Edge, p: nat, q: nat)
    requires Fits(g, s) && Counted(g, s, h) && Progress(g, s, h) && Aliases(g, s, h) && OthersSuperseded(g, s, h)
      && ReleasedOk(g, s, h)
    requires e in Edges(g) && e !in h.done && Target(g, e) == p && p < |g| && q < |g|
    requires s.nViews[p] == 0 && s.viewSrc[p] == Some(q) && TookOver(g, s, p)
    requires p in Viewers(s.viewSrc, h.released, q) && |Viewers(s.viewSrc, h.released, q)| == 1
    ensures p in h.owner && s.data[p] == s.data[q]
  {
    assert TakenAlias(g, s, h, p);
    ReadRootOwned(g, s, h, e);
    if x: nat :| PassedOn(g, s, h, p, x) {
      if x in h.released {
        ReleasedBefore(g, s, h, x);
      }
      TwoElements(Viewers(s.viewSrc, h.released, q), p, x);
    }
  }

  /** The tensor whose memory goes when one child of `p` is counted off. */
  function Returned(g: Graph, s: State, p: nat): (r: Option<nat>)
    requires Fits(g, s) && p < |g|
    ensures r.Some? ==> r.value < |g|
  {
    if s.nChildren[p] != 1 || s.nViews[p] != 0 then None
    else
      match s.viewSrc[p]
      case None => Some(p)
      case Some(q) => if s.nViews[q] == 1 && s.nChildren[q] == 0 then Some(q) else None
  }

  /** Counting off one edge keeps the invariant. */
  lemma UpdateEdge(g: Graph, s: State, h: History, lo: nat, hi: nat, e: Edge) returns (h': History)
    requires Inv(g, s, h, lo, hi) && e in Edges(g) && e.node in h.group && e !in h.done && Target(g, e) < |g|
    requires UpdateParent(g, s, Target(g, e)).Some?
    ensures Inv(g, UpdateParent(g, s, Target(g, e)).value, h', lo, hi)
    ensures h'.placed == h.placed && h'.group == h.group && h'.done == h.done + {e}
    ensures OnlyUnneeded(g, s, h, UpdateParent(g, s, Target(g, e)).value)
    ensures Returned(g, s, Target(g, e)).Some? ==> InUse(g, s, lo, hi, Returned(g, s, Target(g, e)).value)
    ensures UpdateParent(g, s, Target(g, e)).value.data == s.data
  {
    hide Counted, Progress, Aliases, Regions, NeededOwned, OthersSuperseded, TakeoversOk, ReleasedOk, GraphOk, Finished;
    var p := Target(g, e);
    var s1 := s.(nChildren := s.nChildren[p := s.nChildren[p] - 1]);
    if Dead(s1, p) && s.viewSrc[p].Some? {
      h' := UpdateAlias(g, s, h, lo, hi, e);
    } else {
      CountedOff(g, s, h, lo, hi, e, s1);
      h' := CountOff(h, e);
      if Dead(s1, p) && s.buffer[p] == Own {
        RootFinished(g, s, h, lo, hi, e, s1);
        GiveBack(g, s1, h', lo, hi, p, p);
        h' := Vacate(h', p);
      }
    }
  }

  lemma RootFinished(g: Graph, s: State, h: History, lo: nat, hi: nat, e: Edge, s1: State)
    requires Inv(g, s, h, lo, hi) && e in Edges(g) && e !in h.done && Target(g, e) < |g|
    requires s1 == s.(nChildren := s.nChildren[Target(g, e) := s.nChildren[Target(g, e)] - 1])
    requires Dead(s1, Target(g, e)) && s.viewSrc[Target(g, e)].None? && s.buffer[Target(g, e)] == Own
    ensures s.data[Target(g, e)].Some? && Finished(g, s1, CountOff(h, e), Target(g, e), Target(g, e))
  {
    var p := Target(g, e);
    TargetInGraph(g, e);
    assert InArena(g, s, p);
    ReadRootOwned(g, s, h, e);
    assert OwnerOk(g, s, h, lo, hi, p);
  }

  lemma UpdateAlias(g: Graph, s: State, h: History, lo: nat, hi: nat, e: Edge) returns (h': History)
    requires Inv(g, s, h, lo, hi) && e in Edges(g) && e.node in h.group && e !in h.done && Target(g, e) < |g|
    requires s.nChildren[Target(g, e)] == 1 && s.nViews[Target(g, e)] == 0 && s.viewSrc[Target(g, e)].Some?
    requires UpdateParent(g, s, Target(g, e)).Some?
    ensures Inv(g, UpdateParent(g, s, Target(g, e)).value, h', lo, hi)
    ensures h'.placed == h.placed && h'.group == h.group && h'.done == h.done + {e}
    ensures OnlyUnneeded(g, s, h, UpdateParent(g, s, Target(g, e)).value)
    ensures Returned(g, s, Target(g, e)).Some? ==> InUse(g, s, lo, hi, Returned(g, s, Target(g, e)).value)
    ensures UpdateParent(g, s, Target(g, e)).value.data == s.data
  {
    hide GraphOk, Counted, Progress, Regions, NeededOwned, OthersSuperseded, TakeoversOk, ReleasedOk, Finished;
    var p := Target(g, e);
    var q := s.viewSrc[p].value;
    SourceIsRoot(g, s, h, p);
    var s' := s.(nChildren := s.nChildren[p := s.nChildren[p] - 1], nViews := s.nViews[q := s.nViews[q] - 1]);
    assert LastRead(g, s, h, e, p, q, s');
    ReleasedView(g, s, h, lo, hi, e, p, q, s');
    h' := LetGo(h, e, p);
    if Dead(s', q) && s.buffer[q] == Own {
      var o := SourceOwner(g, s, h, lo, hi, e, p, q, s');
      GiveBack(g, s', h', lo, hi, q, o);
      h' := Vacate(h', o);
    }
  }

  lemma SourceIsRoot(g: Graph, s: State, h: History, p: nat)
    requires Fits(g, s) && Aliases(g, s, h) && p < |g| && s.viewSrc[p].Some?
    ensures IsRoot(g, s.viewSrc[p].value) && s.viewSrc[p].value < p
    ensures s.buffer[s.viewSrc[p].value] == Own ==> s.data[s.viewSrc[p].value].Some?
    ensures s.buffer[s.viewSrc[p].value] == Own ==> InArena(g, s, s.viewSrc[p].value)
  {
    if IsRoot(g, p) {
      assert TookOver(g, s, p) && TakenAlias(g, s, h, p);
    } else {
      assert ViewAlias(g, s, p) && ViewOk(g, p);
    }
  }

  // ---------------------------------------------------------------- memory does come back

  /** The counters after one child of `p` is counted off. */
  function Discounted(g: Graph, s: State, p: nat): State
    requires Fits(g, s) && p < |g|
  {
    var s1 := s.(nChildren := s.nChildren[p := s.nChildren[p] - 1]);
    if s1.nChildren[p] == 0 && s1.nViews[p] == 0 && s1.viewSrc[p].Some? then
      s1.(nViews := s1.nViews[s1.viewSrc[p].value := s1.nViews[s1.viewSrc[p].value] - 1])
    else s1
  }

  /** Counting off is a change of counters, and the release of at most one tensor. */
  lemma UpdateParentParts(g: Graph, s: State, p: nat)
    requires Fits(g, s) && p < |g|
    ensures Fits(g, Discounted(g, s, p))
    ensures UpdateParent(g, s, p)
         == match Returned(g, s, p)
            case None => Some(Discounted(g, s, p))
            case Some(t) => FreeNode(g, Discounted(g, s, p), t)
  {
  }

  /** What goes when an edge is counted off was in use. */
  lemma ReturnedInUse(g: Graph, s: State, h: History, lo: nat, hi: nat, e: Edge)
    requires Inv(g, s, h, lo, hi) && e in Edges(g) && e.node in h.group && e !in h.done && Target(g, e) < |g|
    ensures var p := Target(g, e);
      Returned(g, s, p).Some? ==> InUse(g, Discounted(g, s, p), lo, hi, Returned(g, s, p).value)
  {
    hide Counted, Progress, Aliases, Regions, NeededOwned, OthersSuperseded, TakeoversOk, ReleasedOk, GraphOk;
    hide Finished, InUse;
    var p, s' := Target(g, e), Discounted(g, s, Target(g, e));
    if Returned(g, s, p).Some? {
      var t := Returned(g, s, p).value;
      if s.viewSrc[p].None? {
        CountedOff(g, s, h, lo, hi, e, s');
        if s.buffer[p] == Own {
          RootFinished(g, s, h, lo, hi, e, s');
          FinishedInUse(g, s', CountOff(h, e), lo, hi, p, p);
        } else {
          NotOwnInUse(g, s', lo, hi, t);
        }
      } else {
        SourceIsRoot(g, s, h, p);
        ReleasedView(g, s, h, lo, hi, e, p, t, s');
        if s.buffer[t] == Own {
          var o := SourceOwner(g, s, h, lo, hi, e, p, t, s');
          FinishedInUse(g, s', LetGo(h, e, p), lo, hi, t, o);
        } else {
          NotOwnInUse(g, s', lo, hi, t);
        }
      }
    }
  }

  lemma NotOwnInUse(g: Graph, s: State, lo: nat, hi: nat, t: nat)
    requires Fits(g, s) && t < |g| && s.buffer[t] != Own
    ensures InUse(g, s, lo, hi, t)
  {
  }

  lemma OwnedHaveData(g: Graph, s: State, h: History)
    requires Fits(g, s) && Aliases(g, s, h)
    ensures forall t :: 0 <= t < |g| && s.buffer[t] == Own ==> s.data[t].Some?
  {
  }

  lemma HeapInOrder(g: Graph, s: State, h: History, lo: nat, hi: nat)
    requires Fits(g, s) && Regions(g, s, h, lo, hi)
    ensures WellFormed(s.heap.free)
  {
  }

  /** What counting off one child of `p` does. When it was the last and `p` has no views, `p` no longer
      counts as a view of its view source, if it has one. The memory of `p` goes or, if it has a view
      source and nothing else is left of that, the memory of this: exactly these bytes become free, when
      they are the allocator's. Otherwise the heap stays as it is. */
  ghost predicate EdgeCountedOff(g: Graph, s: State, s': State, p: nat)
    requires Fits(g, s) && p < |g|
  {
    && s'.nChildren == s.nChildren[p := s.nChildren[p] - 1]
    && s'.data == s.data && s'.buffer == s.buffer && s'.viewSrc == s.viewSrc
    && (if s.nChildren[p] == 1 && s.nViews[p] == 0 then
          (match s.viewSrc[p]
           case None =>
             && s'.nViews == s.nViews
             && (if s.buffer[p] == Own then s.data[p].Some? && Regained(g, s, s', p) else s'.heap == s.heap)
           case Some(q) =>
             && q != p && s'.nViews == s.nViews[q := s.nViews[q] - 1]
             && (if s.nViews[q] == 1 && s.nChildren[q] == 0 && s.buffer[q] == Own
                 then s.data[q].Some? && Regained(g, s, s', q) else s'.heap == s.heap))
        else s'.nViews == s.nViews && s'.heap == s.heap)
  }

  /** The last edge of a tensor gives its memory back, and this can only fail when the table of free
      blocks is full. */
  lemma LastEdgeFrees(g: Graph, s: State, h: History, lo: nat, hi: nat, e: Edge)
    requires Inv(g, s, h, lo, hi) && e in Edges(g) && e.node in h.group && e !in h.done && Target(g, e) < |g|
    ensures UpdateParent(g, s, Target(g, e)).None? ==> |s.heap.free| >= MAX_FREE_BLOCKS
    ensures UpdateParent(g, s, Target(g, e)).Some? ==>
      EdgeCountedOff(g, s, UpdateParent(g, s, Target(g, e)).value, Target(g, e))
  {
    hide Counted, Progress, Regions, NeededOwned, OthersSuperseded, TakeoversOk, ReleasedOk;
    var p := Target(g, e);
    ReturnedInUse(g, s, h, lo, hi, e);
    OwnedHaveData(g, s, h);
    HeapInOrder(g, s, h, lo, hi);
    UpdateParentParts(g, s, p);
    if s.viewSrc[p].Some? {
      SourceIsRoot(g, s, h, p);
    }
    hide GraphOk, Aliases, InUse, Padded, WellFormed, Covers, UpdateParent;
    if Returned(g, s, p).Some? && s.buffer[Returned(g, s, p).value] == Own {
      BytesRegained(g, Discounted(g, s, p), lo, hi, Returned(g, s, p).value);
    }
  }
}
