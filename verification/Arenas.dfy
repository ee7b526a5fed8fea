/** Runs of the tensor allocator: any sequence of allocations and releases on one arena. */
module Arenas {
  import opened Wrappers
  import opened FreeList

  const SIZE_MAX: nat := 0xFFFF_FFFF_FFFF_FFFF
  const TENSOR_ALIGNMENT: nat := 64

  type pos = x: int | x > 0 witness 1

  /** `live` holds, for each tensor allocated and not released, the block reserved for it. */
  datatype Arena = Arena(base: nat, alignment: pos, limit: nat, free: seq<Block>, live: map<nat, Block>, maxSize: nat) {
    /** The first aligned address. */
    function Lo(): nat { base + AlignedOffset(base, 0, alignment) }

    function Offset(addr: nat): int { addr - Lo() }
  }

  datatype Op = Alloc(id: nat, size: pos) | Free(id: nat)

  function Padded(size: pos, alignment: pos): (n: pos)
    ensures n >= size && n % alignment == 0
  {
    AlignedOffsetIsLeast(0, size, alignment, size);
    AlignedOffset(0, size, alignment)
  }

  /** It is the least multiple of the alignment that is large enough. */
  lemma PaddedIsLeast(size: pos, alignment: pos, n: nat)
    requires n >= size && n % alignment == 0
    ensures Padded(size, alignment) <= n && Padded(size, alignment) < size + alignment
  {
    AlignedOffsetIsLeast(0, size, alignment, n);
  }

  /** An arena whose single free block holds `span` bytes. */
  function Reset(base: nat, alignment: pos, span: pos, maxSize: nat): Arena {
    var lo := base + AlignedOffset(base, 0, alignment);
    Arena(base, alignment, lo + span, [Block(lo, span)], map[], maxSize)
  }

  /** `None` when the allocator aborts, when a tensor is allocated twice, and when a tensor that
      is not live is released. */
  function Step(a: Arena, op: Op): Option<Arena> {
    match op
    case Alloc(id, size) =>
      if id in a.live then None
      else
        var n := Padded(size, a.alignment);
        (match FreeList.Alloc(a.free, n)
         case None => None
         case Some((addr, free)) =>
           var used := if addr - a.base + n > a.maxSize then addr - a.base + n else a.maxSize;
           Some(a.(free := free, live := a.live[id := Block(addr, n)], maxSize := used)))
    case Free(id) =>
      if id !in a.live then None
      else
        match FreeList.Free(a.free, a.live[id].addr, a.live[id].size)
        case None => None
        case Some(free) => Some(a.(free := free, live := a.live - {id}))
  }

  function Run(ops: seq<Op>, a: Arena): Option<Arena> {
    if ops == [] then Some(a)
    else
      match Step(a, ops[0])
      case None => None
      case Some(b) => Run(ops[1..], b)
  }

  // ---------------------------------------------------------------- the invariant of every run

  ghost predicate Disjoint(b: Block, c: Block) {
    b.End() <= c.addr || c.End() <= b.addr
  }

  /** Free blocks and live blocks tile the arena, and the free list is in canonical form. */
  ghost predicate Tiled(a: Arena) {
    && WellFormed(a.free)
    && Aligned(a.free, a.alignment)
    && (forall id :: id in a.live ==> a.live[id].size > 0 && a.live[id].addr % a.alignment == 0)
    && (forall id :: id in a.live ==> a.Lo() <= a.live[id].addr && a.live[id].End() <= a.limit)
    && (forall id, id' :: id in a.live && id' in a.live && id != id' ==> Disjoint(a.live[id], a.live[id']))
    && (forall p :: Covers(a.free, p) ==> a.Lo() <= p < a.limit)
    && (forall p :: a.Lo() <= p < a.limit ==> (Covers(a.free, p) <==> !Held(a, p)))
  }

  ghost predicate Held(a: Arena, p: int) {
    exists id :: id in a.live && a.live[id].Contains(p)
  }

  lemma ResetTiles(base: nat, alignment: pos, span: pos, maxSize: nat)
    ensures Tiled(Reset(base, alignment, span, maxSize))
  {
    var a := Reset(base, alignment, span, maxSize);
    AlignedOffsetIsLeast(base, 0, alignment, 0);
    forall p
      ensures Covers(a.free, p) <==> a.Lo() <= p < a.limit
    {
      assert a.free[0].Contains(p) <==> a.Lo() <= p < a.limit;
    }
  }

  lemma LiveBytesHeld(a: Arena, id: nat, p: int)
    requires Tiled(a) && id in a.live && a.live[id].Contains(p)
    ensures Held(a, p) && !Covers(a.free, p)
  {
  }

  /** A block whose bytes are all free is disjoint from every live block. */
  lemma FreeBytesApart(a: Arena, b: Block, id: nat)
    requires Tiled(a) && id in a.live && b.size > 0
    requires forall p :: b.addr <= p < b.End() ==> Covers(a.free, p)
    ensures Disjoint(a.live[id], b)
  {
    var c := a.live[id];
    LiveBytesHeld(a, id, c.addr);
    assert Covers(a.free, b.addr);
    if c.Contains(b.addr) {
      LiveBytesHeld(a, id, b.addr);
    }
  }

  lemma AllocHeld(a: Arena, b: Arena, id: nat, c: Block, p: int)
    requires id !in a.live && b.live == a.live[id := c]
    ensures Held(b, p) <==> Held(a, p) || c.Contains(p)
  {
    assert b.live[id] == c;
    if k :| k in a.live && a.live[k].Contains(p) {
      assert k in b.live && b.live[k].Contains(p);
    }
    if k :| k in b.live && b.live[k].Contains(p) {
      assert k != id ==> k in a.live && a.live[k].Contains(p);
    }
  }

  lemma AllocTiles(a: Arena, id: nat, size: pos)
    requires Tiled(a) && Step(a, Op.Alloc(id, size)).Some?
    ensures Tiled(Step(a, Op.Alloc(id, size)).value)
  {
    var n := Padded(size, a.alignment);
    var (addr, free) := FreeList.Alloc(a.free, n).value;
    var b := Step(a, Op.Alloc(id, size)).value;
    AllocTakesFreeBytes(a.free, n);
    AllocAligned(a.free, n, a.alignment);
    assert Covers(a.free, addr) && Covers(a.free, addr + n - 1);
    forall id' | id' in a.live
      ensures Disjoint(a.live[id'], Block(addr, n))
    {
      FreeBytesApart(a, Block(addr, n), id');
    }
    forall p | a.Lo() <= p < a.limit
      ensures Covers(b.free, p) <==> !Held(b, p)
    {
      AllocHeld(a, b, id, Block(addr, n), p);
    }
  }

  lemma AllocAligned(free: seq<Block>, n: pos, alignment: pos)
    requires Aligned(free, alignment) && n % alignment == 0 && FreeList.Alloc(free, n).Some?
    ensures var (addr, after) := FreeList.Alloc(free, n).value; addr % alignment == 0 && Aligned(after, alignment)
  {
    var i := Chosen(free, n);
    SumAligned(free[i].addr, n, alignment);
  }

  lemma SumAligned(x: nat, y: nat, a: pos)
    requires x % a == 0 && y % a == 0
    ensures (x + y) % a == 0
  {
    assert x + y == (x / a + y / a) * a;
    MultipleHasNoRemainder(x / a + y / a, a);
  }

  lemma FreeTiles(a: Arena, id: nat)
    requires Tiled(a) && Step(a, Op.Free(id)).Some?
    ensures Tiled(Step(a, Op.Free(id)).value)
  {
    var c := a.live[id];
    var b := Step(a, Op.Free(id)).value;
    forall p | c.Contains(p)
      ensures !Covers(a.free, p)
    {
      assert Held(a, p);
    }
    FreeReturnsBytes(a.free, c.addr, c.size);
    FreeKeepsAlignment(a.free, 0, c.addr, c.size, a.alignment);
    forall p | a.Lo() <= p < a.limit
      ensures Held(a, p) <==> Held(b, p) || c.Contains(p)
      ensures c.Contains(p) ==> !Held(b, p)
    {
      if Held(a, p) {
        var k :| k in a.live && a.live[k].Contains(p);
        assert k != id ==> k in b.live && b.live[k].Contains(p);
      }
      if Held(b, p) {
        var k :| k in b.live && b.live[k].Contains(p);
        assert k in a.live && a.live[k].Contains(p) && k != id;
      }
    }
  }

  /** The invariant holds after every run. */
  lemma {:induction false} RunTiles(ops: seq<Op>, a: Arena)
    requires Tiled(a) && Run(ops, a).Some?
    ensures Tiled(Run(ops, a).value)
  {
    if ops != [] {
      match ops[0] {
        case Alloc(id, size) => AllocTiles(a, id, size);
        case Free(id) => FreeTiles(a, id);
      }
      RunTiles(ops[1..], Step(a, ops[0]).value);
    }
  }

  // ---------------------------------------------------------------- how many free blocks

  /** The live tensor that ends where free block `i` starts. */
  ghost function Neighbour(a: Arena, i: nat): (id: nat)
    requires Tiled(a) && 0 < i < |a.free|
    ensures id in a.live && a.live[id].Contains(a.free[i].addr - 1)
  {
    GapIsHeld(a, i);
    var id :| id in a.live && a.live[id].Contains(a.free[i].addr - 1);
    id
  }

  lemma GapIsHeld(a: Arena, i: nat)
    requires Tiled(a) && 0 < i < |a.free|
    ensures Held(a, a.free[i].addr - 1)
  {
    var p := a.free[i].addr - 1;
    assert a.free[i - 1].Contains(a.free[i - 1].addr) && a.free[i].Contains(a.free[i].addr);
    assert Covers(a.free, a.free[i - 1].addr) && Covers(a.free, a.free[i].addr);
    forall j | 0 <= j < |a.free|
      ensures !a.free[j].Contains(p)
    {
      assert j < i - 1 ==> a.free[j].End() < a.free[i - 1].addr;
      assert j > i ==> a.free[i].End() < a.free[j].addr;
      assert a.free[i - 1].End() < a.free[i].addr;
    }
  }

  lemma NeighboursDiffer(a: Arena, i: nat, j: nat)
    requires Tiled(a) && 0 < i < j < |a.free|
    ensures Neighbour(a, i) != Neighbour(a, j)
  {
    if Neighbour(a, i) == Neighbour(a, j) {
      var p := a.free[i].addr;
      assert a.free[i].Contains(p) && a.free[i].End() < a.free[j].addr;
      assert Covers(a.free, p);
      assert a.live[Neighbour(a, i)].Contains(p);
      assert Held(a, p);
    }
  }

  lemma {:induction false} NeighbourSet(a: Arena, k: nat) returns (ids: set<nat>)
    requires Tiled(a) && 0 < k <= |a.free|
    ensures ids <= a.live.Keys && |ids| == k - 1
    ensures forall id :: id in ids ==> exists i :: 0 < i < k && id == Neighbour(a, i)
  {
    if k == 1 {
      ids := {};
    } else {
      var rest := NeighbourSet(a, k - 1);
      var id := Neighbour(a, k - 1);
      forall x | x in rest
        ensures x != id
      {
        var i :| 0 < i < k - 1 && x == Neighbour(a, i);
        NeighboursDiffer(a, i, k - 1);
      }
      ids := rest + {id};
    }
  }

  /** There are at most as many free blocks as live tensors, plus one. */
  lemma FreeBlocksBounded(a: Arena)
    requires Tiled(a)
    ensures |a.free| <= |a.live| + 1
  {
    if |a.free| > 0 {
      var ids := NeighbourSet(a, |a.free|);
      SubsetIsSmaller(ids, a.live.Keys);
    }
  }

  lemma {:induction false} SubsetIsSmaller(s: set<nat>, t: set<nat>)
    requires s <= t
    ensures |s| <= |t|
  {
    if s != {} {
      var x :| x in s;
      SubsetIsSmaller(s - {x}, t - {x});
    }
  }

  /** With fewer than 256 live tensors a release never trips the block limit. */
  lemma ReleaseSucceeds(a: Arena, id: nat)
    requires Tiled(a) && id in a.live && |a.live| < MAX_FREE_BLOCKS
    ensures Step(a, Op.Free(id)).Some?
  {
    FreeBlocksBounded(a);
    if |a.free| == |a.live| + 1 {
      FullGapsMerge(a, id);
    } else {
      var c := a.live[id];
      forall p | c.Contains(p)
        ensures !Covers(a.free, p)
      {
        assert Held(a, p);
      }
      FreeReturnsBytes(a.free, c.addr, c.size);
    }
  }

  /** When every live tensor fills a gap, a released one touches a free block. */
  lemma FullGapsMerge(a: Arena, id: nat)
    requires Tiled(a) && id in a.live && |a.free| == |a.live| + 1
    ensures FreeList.Free(a.free, a.live[id].addr, a.live[id].size).Some?
  {
    var c := a.live[id];
    var ids := NeighbourSet(a, |a.free|);
    EqualSizeSubset(ids, a.live.Keys);
    var i :| 0 < i < |a.free| && id == Neighbour(a, i);
    assert c.End() == a.free[i].addr by {
      assert c.Contains(a.free[i].addr - 1);
      assert a.free[i].Contains(a.free[i].addr);
      assert Covers(a.free, a.free[i].addr);
      assert c.Contains(a.free[i].addr) ==> Held(a, a.free[i].addr);
    }
    forall p | c.Contains(p)
      ensures !Covers(a.free, p)
    {
      assert Held(a, p);
    }
    ApartFromBytes(a.free, c);
    var k := LeastNeighbour(a.free, c, i);
    FirstNeighbour(a.free, c, k);
  }

  lemma {:induction false} EqualSizeSubset(s: set<nat>, t: set<nat>)
    requires s <= t && |s| == |t|
    ensures s == t
  {
    if x :| x in t && x !in s {
      SubsetIsSmaller(s, t - {x});
    }
  }

  // ---------------------------------------------------------------- a measured size suffices

  /** Distance from the arena's aligned start to the highest byte ever used. */
  function Peak(a: Arena): int {
    a.maxSize - (a.Lo() - a.base)
  }

  /** The same arena at another place and with another end. */
  ghost predicate Moved(m: Arena, r: Arena) {
    && m.alignment == r.alignment
    && |m.free| == |r.free| > 0
    && (forall i :: 0 <= i < |m.free| ==> m.Offset(m.free[i].addr) == r.Offset(r.free[i].addr))
    && (forall i :: 0 <= i < |m.free| - 1 ==> m.free[i].size == r.free[i].size)
    && m.free[|m.free| - 1].End() == m.limit
    && r.free[|r.free| - 1].End() == r.limit
    && LiveMatch(m, r)
    && (forall id :: id in m.live ==> m.live[id].End() <= m.free[|m.free| - 1].addr)
  }

  ghost predicate LiveMatch(m: Arena, r: Arena) {
    && m.live.Keys == r.live.Keys
    && (forall id :: id in m.live ==>
      m.live[id].size == r.live[id].size && m.Offset(m.live[id].addr) == r.Offset(r.live[id].addr))
  }

  lemma {:induction false} BestFitMoved(m: Arena, r: Arena, size: nat, k: nat)
    requires Moved(m, r) && k < |m.free|
    ensures BestFit(m.free, size, k) == BestFit(r.free, size, k)
  {
    if k > 0 {
      BestFitMoved(m, r, size, k - 1);
    }
  }

  lemma PeakBounds(m: Arena, id: nat, size: pos)
    requires Step(m, Op.Alloc(id, size)).Some?
    ensures var m' := Step(m, Op.Alloc(id, size)).value;
      && m'.live == m.live[id := Block(m'.live[id].addr, Padded(size, m.alignment))]
      && m'.live[id].addr == m.free[Chosen(m.free, Padded(size, m.alignment))].addr
      && m'.free == Carve(m.free, Chosen(m.free, Padded(size, m.alignment)), Padded(size, m.alignment))
      && m.Offset(m'.live[id].addr) + Padded(size, m.alignment) <= Peak(m')
  {
  }

  lemma AllocShape(m: Arena, r: Arena, id: nat, size: pos)
    requires WellFormed(m.free) && Moved(m, r) && Step(m, Op.Alloc(id, size)).Some?
    requires var m' := Step(m, Op.Alloc(id, size)).value; Peak(m') < m.limit - m.Lo() && Peak(m') < r.limit - r.Lo()
    ensures Step(r, Op.Alloc(id, size)).Some?
    ensures var m', r' := Step(m, Op.Alloc(id, size)).value, Step(r, Op.Alloc(id, size)).value;
      SameShape(m, r, m'.free, r'.free) && m.Offset(m'.live[id].addr) == r.Offset(r'.live[id].addr)
  {
    hide Chosen, Carve, SameShape, AlignedOffset, Padded;
    var n := Padded(size, m.alignment);
    PeakBounds(m, id, size);
    var i := Chosen(m.free, n);
    RoomInBoth(m, r, id, size, i, n);
    StepWhen(r, id, size, n);
    PeakBounds(r, id, size);
    CarveMoved(m, r, i, n);
  }

  lemma StepWhen(a: Arena, id: nat, size: pos, n: pos)
    requires n == Padded(size, a.alignment)
    ensures Step(a, Op.Alloc(id, size)).Some? <==> id !in a.live && |a.free| > 0 && n <= a.free[Chosen(a.free, n)].size
  {
    hide Chosen, Carve, Padded;
  }

  /** Both arenas choose the same block, and it has room in both. */
  lemma RoomInBoth(m: Arena, r: Arena, id: nat, size: pos, i: nat, n: pos)
    requires WellFormed(m.free) && Moved(m, r) && Step(m, Op.Alloc(id, size)).Some?
    requires n == Padded(size, m.alignment) && i == Chosen(m.free, n)
    requires var m' := Step(m, Op.Alloc(id, size)).value;
      Peak(m') < m.limit - m.Lo() && Peak(m') < r.limit - r.Lo()
    ensures i == Chosen(r.free, n) && n <= m.free[i].size && n <= r.free[i].size
    ensures i == |m.free| - 1 ==> n < m.free[i].size && n < r.free[i].size
  {
    hide BestFit, AlignedOffset, Padded, WellFormed, LiveMatch;
    PeakBounds(m, id, size);
    StepWhen(m, id, size, n);
    StepKeeps(m, Op.Alloc(id, size));
    BestFitMoved(m, r, n, |m.free| - 1);
    hide Step, Carve;
  }

  lemma StepKeeps(a: Arena, op: Op)
    requires Step(a, op).Some?
    ensures var b := Step(a, op).value; b.base == a.base && b.alignment == a.alignment && b.limit == a.limit
  {
  }

  lemma LiveAfterAlloc(m: Arena, id: nat, size: pos)
    requires Step(m, Op.Alloc(id, size)).Some?
    ensures var m' := Step(m, Op.Alloc(id, size)).value;
      && m'.live.Keys == m.live.Keys + {id} && m'.live[id].size == Padded(size, m.alignment)
      && (forall k :: k in m.live ==> k != id && m'.live[k] == m.live[k])
  {
  }

  lemma AllocMoved(m: Arena, r: Arena, id: nat, size: pos)
    requires Tiled(m) && Moved(m, r) && Step(m, Op.Alloc(id, size)).Some?
    requires var m' := Step(m, Op.Alloc(id, size)).value; Peak(m') < m.limit - m.Lo() && Peak(m') < r.limit - r.Lo()
    ensures Step(r, Op.Alloc(id, size)).Some?
    ensures var m', r' := Step(m, Op.Alloc(id, size)).value, Step(r, Op.Alloc(id, size)).value;
      Moved(m', r') && m.Offset(m'.live[id].addr) == r.Offset(r'.live[id].addr)
  {
    var op := Op.Alloc(id, size);
    AllocShape(m, r, id, size);
    AllocTiles(m, id, size);
    MovedParts(m, r, op);
    LiveAfterAlloc(m, id, size);
    LiveAfterAlloc(r, id, size);
    LiveMoved(m, r, Step(m, op).value, Step(r, op).value, id);
  }

  lemma LiveMoved(m: Arena, r: Arena, m': Arena, r': Arena, id: nat)
    requires Moved(m, r) && m.Lo() == m'.Lo() && r.Lo() == r'.Lo()
    requires m'.live.Keys == m.live.Keys + {id} && r'.live.Keys == r.live.Keys + {id}
    requires forall k :: k in m.live ==> k != id && m'.live[k] == m.live[k] && r'.live[k] == r.live[k]
    requires m'.live[id].size == r'.live[id].size && m.Offset(m'.live[id].addr) == r.Offset(r'.live[id].addr)
    ensures LiveMatch(m', r')
  {
    forall k | k in m'.live
      ensures m'.live[k].size == r'.live[k].size && m'.Offset(m'.live[k].addr) == r'.Offset(r'.live[k].addr)
    {
      if k != id {
        assert k in m.live && k in r.live;
      }
    }
  }

  /** After a step, matching lists of the two arenas put everything in place again. */
  lemma MovedParts(m: Arena, r: Arena, op: Op)
    requires m.alignment == r.alignment
    requires Step(m, op).Some? && Step(r, op).Some? && Tiled(Step(m, op).value)
    requires SameShape(m, r, Step(m, op).value.free, Step(r, op).value.free)
    ensures var m', r' := Step(m, op).value, Step(r, op).value; LiveMatch(m', r') ==> Moved(m', r')
  {
    StepKeeps(m, op);
    StepKeeps(r, op);
    LastBlockOnTop(Step(m, op).value);
  }

  lemma CarveMoved(m: Arena, r: Arena, i: nat, n: pos)
    requires Moved(m, r) && i < |m.free| && n <= m.free[i].size && n <= r.free[i].size
    requires i == |m.free| - 1 ==> n < m.free[i].size && n < r.free[i].size
    ensures SameShape(m, r, Carve(m.free, i, n), Carve(r.free, i, n))
  {
    hide AlignedOffset, LiveMatch;
    var mf, rf := Carve(m.free, i, n), Carve(r.free, i, n);
    forall k | 0 <= k < |mf|
      ensures m.Offset(mf[k].addr) == r.Offset(rf[k].addr)
      ensures k < |mf| - 1 ==> mf[k].size == rf[k].size
    {
      if m.free[i].size == n {
        var from := if k < i then k else k + 1;
        assert mf[k] == m.free[from] && rf[k] == r.free[from];
      } else {
        assert k != i ==> mf[k] == m.free[k] && rf[k] == r.free[k];
      }
    }
  }

  /** When the last free block reaches the end of the arena, every live block lies below it. */
  lemma LastBlockOnTop(a: Arena)
    requires Tiled(a) && |a.free| > 0 && a.free[|a.free| - 1].End() == a.limit
    ensures forall id :: id in a.live ==> a.live[id].End() <= a.free[|a.free| - 1].addr
  {
    var last := a.free[|a.free| - 1];
    forall id | id in a.live
      ensures a.live[id].End() <= last.addr
    {
      var c := a.live[id];
      LiveBytesHeld(a, id, c.addr);
      assert !last.Contains(c.addr);
      if c.Contains(last.addr) {
        LiveBytesHeld(a, id, last.addr);
        assert last.Contains(last.addr);
      }
    }
  }

  lemma FreeMoved(m: Arena, r: Arena, id: nat)
    requires Tiled(m) && Moved(m, r) && Step(m, Op.Free(id)).Some?
    ensures Step(r, Op.Free(id)).Some?
    ensures Moved(Step(m, Op.Free(id)).value, Step(r, Op.Free(id)).value)
  {
    FreeShape(m, r, id);
    hide Step, SameShape, LiveMatch, Moved;
    FreeTiles(m, id);
    MovedParts(m, r, Op.Free(id));
  }

  lemma FreeShape(m: Arena, r: Arena, id: nat)
    requires Tiled(m) && Moved(m, r) && Step(m, Op.Free(id)).Some?
    ensures Step(r, Op.Free(id)).Some? && m.alignment == r.alignment
    ensures var m', r' := Step(m, Op.Free(id)).value, Step(r, Op.Free(id)).value;
      SameShape(m, r, m'.free, r'.free) && LiveMatch(m', r')
  {
    assert id in m.live && m.live[id].size > 0;
    FreeFromMoved(m, r, 0, id);
    hide FreeFrom, SameShape;
  }

  /** Entry `i` of the one list sits where entry `i` of the other does. */
  ghost predicate SameShape(m: Arena, r: Arena, mf: seq<Block>, rf: seq<Block>) {
    && |mf| == |rf| > 0
    && (forall i :: 0 <= i < |mf| ==> m.Offset(mf[i].addr) == r.Offset(rf[i].addr))
    && (forall i :: 0 <= i < |mf| - 1 ==> mf[i].size == rf[i].size)
    && mf[|mf| - 1].End() == m.limit
    && rf[|rf| - 1].End() == r.limit
  }

  lemma {:induction false} InsertPosMoved(m: Arena, r: Arena, from: nat, id: nat)
    requires Moved(m, r) && id in m.live && m.live[id].size > 0 && from < |m.free|
    ensures InsertPos(m.free, m.live[id].addr, from) == InsertPos(r.free, r.live[id].addr, from) < |m.free|
    decreases |m.free| - from
  {
    if m.free[from].addr < m.live[id].addr {
      assert from != |m.free| - 1;
      InsertPosMoved(m, r, from + 1, id);
    }
  }

  lemma {:induction false} FreeFromMoved(m: Arena, r: Arena, i: nat, id: nat)
    requires Moved(m, r) && id in m.live && m.live[id].size > 0 && i <= |m.free|
    requires FreeFrom(m.free, i, m.live[id].addr, m.live[id].size).Some?
    ensures FreeFrom(r.free, i, r.live[id].addr, r.live[id].size).Some?
    ensures SameShape(m, r, FreeFrom(m.free, i, m.live[id].addr, m.live[id].size).value,
                            FreeFrom(r.free, i, r.live[id].addr, r.live[id].size).value)
    decreases |m.free| - i
  {
    var c, d := m.live[id], r.live[id];
    if i == |m.free| {
      InsertPosMoved(m, r, 0, id);
    } else if m.free[i].End() == c.addr || c.End() == m.free[i].addr {
      JoinMoved(m, r, i, id);
    } else {
      TouchMoved(m, r, i, id);
      FreeFromMoved(m, r, i + 1, id);
    }
  }

  lemma TouchMoved(m: Arena, r: Arena, i: nat, id: nat)
    requires Moved(m, r) && id in m.live && m.live[id].size > 0 && i < |m.free|
    ensures m.free[i].End() == m.live[id].addr <==> r.free[i].End() == r.live[id].addr
    ensures m.live[id].End() == m.free[i].addr <==> r.live[id].End() == r.free[i].addr
    ensures m.free[i].End() == m.live[id].addr ==> i < |m.free| - 1
  {
    var last := |m.free| - 1;
    assert r.live[id].End() <= r.free[last].addr;
  }

  lemma JoinMoved(m: Arena, r: Arena, i: nat, id: nat)
    requires Moved(m, r) && id in m.live && m.live[id].size > 0 && i < |m.free|
    requires m.free[i].End() == m.live[id].addr || m.live[id].End() == m.free[i].addr
    ensures var mf := FreeFrom(m.free, i, m.live[id].addr, m.live[id].size);
      var rf := FreeFrom(r.free, i, r.live[id].addr, r.live[id].size);
      mf.Some? && rf.Some? && SameShape(m, r, mf.value, rf.value)
  {
    TouchMoved(m, r, i, id);
    if m.free[i].End() == m.live[id].addr {
      ExtendUpMoved(m, r, i, id);
    } else {
      ExtendDownMoved(m, r, i, id);
    }
  }

  lemma ExtendUpMoved(m: Arena, r: Arena, i: nat, id: nat)
    requires Moved(m, r) && id in m.live && m.live[id].size > 0 && i + 1 < |m.free|
    requires m.free[i].End() == m.live[id].addr && r.free[i].End() == r.live[id].addr
    ensures SameShape(m, r, ExtendUp(m.free, i, m.live[id].size), ExtendUp(r.free, i, r.live[id].size))
  {
    var c, d := m.live[id], r.live[id];
    assert c.End() == m.free[i + 1].addr <==> d.End() == r.free[i + 1].addr;
    if c.End() == m.free[i + 1].addr {
      assert ExtendUp(m.free, i, c.size) == Joined(m.free, i, c);
      assert ExtendUp(r.free, i, d.size) == Joined(r.free, i, d);
      JoinedMoved(m, r, i, id);
    }
  }

  lemma ExtendDownMoved(m: Arena, r: Arena, i: nat, id: nat)
    requires Moved(m, r) && id in m.live && m.live[id].size > 0 && i < |m.free|
    requires m.live[id].End() == m.free[i].addr && r.live[id].End() == r.free[i].addr
    ensures SameShape(m, r, ExtendDown(m.free, i, m.live[id].addr, m.live[id].size),
                            ExtendDown(r.free, i, r.live[id].addr, r.live[id].size))
  {
    var c, d := m.live[id], r.live[id];
    assert i > 0 ==> (m.free[i - 1].End() == c.addr <==> r.free[i - 1].End() == d.addr);
    if i > 0 && m.free[i - 1].End() == c.addr {
      assert ExtendDown(m.free, i, c.addr, c.size) == Joined(m.free, i - 1, c);
      assert ExtendDown(r.free, i, d.addr, d.size) == Joined(r.free, i - 1, d);
      JoinedMoved(m, r, i - 1, id);
    }
  }

  function Joined(f: seq<Block>, i: nat, c: Block): seq<Block>
    requires i + 1 < |f|
  {
    f[..i] + [Block(f[i].addr, f[i].size + c.size + f[i + 1].size)] + f[i + 2..]
  }

  lemma JoinedMoved(m: Arena, r: Arena, i: nat, id: nat)
    requires Moved(m, r) && id in m.live && i + 1 < |m.free|
    requires m.free[i].End() == m.live[id].addr && m.live[id].End() == m.free[i + 1].addr
    requires r.free[i].End() == r.live[id].addr && r.live[id].End() == r.free[i + 1].addr
    ensures SameShape(m, r, Joined(m.free, i, m.live[id]), Joined(r.free, i, r.live[id]))
  {
    hide AlignedOffset, LiveMatch, Joined;
    SameSize(m, r, id);
    JoinedAlike(m.free, r.free, i, m.live[id], r.live[id], m.Lo() - r.Lo());
  }

  lemma SameSize(m: Arena, r: Arena, id: nat)
    requires Moved(m, r) && id in m.live
    ensures id in r.live && r.live[id].size == m.live[id].size
  {
  }

  lemma JoinedAlike(f: seq<Block>, g: seq<Block>, i: nat, c: Block, d: Block, apart: int)
    requires i + 1 < |f| == |g| && c.size == d.size
    requires forall k :: 0 <= k < |f| ==> f[k].addr - g[k].addr == apart
    requires forall k :: 0 <= k < |f| - 1 ==> f[k].size == g[k].size
    requires f[i].End() == c.addr && c.End() == f[i + 1].addr
    requires g[i].End() == d.addr && d.End() == g[i + 1].addr
    ensures |Joined(f, i, c)| == |Joined(g, i, d)| == |f| - 1
    ensures forall k :: 0 <= k < |f| - 1 ==> Joined(f, i, c)[k].addr - Joined(g, i, d)[k].addr == apart
    ensures forall k :: 0 <= k < |f| - 2 ==> Joined(f, i, c)[k].size == Joined(g, i, d)[k].size
    ensures Joined(f, i, c)[|f| - 2].End() == f[|f| - 1].End()
    ensures Joined(g, i, d)[|f| - 2].End() == g[|f| - 1].End()
  {
    forall k | 0 <= k < |f| - 1
      ensures Joined(f, i, c)[k].addr - Joined(g, i, d)[k].addr == apart
      ensures k < |f| - 2 ==> Joined(f, i, c)[k].size == Joined(g, i, d)[k].size
    {
      assert k > i ==> Joined(f, i, c)[k] == f[k + 1] && Joined(g, i, d)[k] == g[k + 1];
    }
  }

  /** Offsets handed out, in order, from the aligned start of the arena. */
  function Offsets(ops: seq<Op>, a: Arena): seq<int>
    requires Run(ops, a).Some?
  {
    if ops == [] then []
    else
      var b := Step(a, ops[0]).value;
      (if ops[0].Alloc? then [a.Offset(b.live[ops[0].id].addr)] else []) + Offsets(ops[1..], b)
  }

  lemma {:induction false} ReplayFrom(ops: seq<Op>, m: Arena, r: Arena)
    requires Tiled(m) && Moved(m, r) && Run(ops, m).Some?
    requires var m' := Run(ops, m).value; Peak(m') < m.limit - m.Lo() && Peak(m') < r.limit - r.Lo()
    ensures Run(ops, r).Some?
    ensures Moved(Run(ops, m).value, Run(ops, r).value)
    ensures Offsets(ops, m) == Offsets(ops, r)
  {
    if ops != [] {
      var m' := Step(m, ops[0]).value;
      MaxSizeGrows(ops, m);
      MaxSizeGrows(ops[1..], m');
      RunTiles([ops[0]], m);
      match ops[0] {
        case Alloc(id, size) =>
          AllocMoved(m, r, id, size);
          AllocTiles(m, id, size);
        case Free(id) =>
          FreeMoved(m, r, id);
          FreeTiles(m, id);
      }
      ReplayFrom(ops[1..], m', Step(r, ops[0]).value);
    }
  }

  lemma {:induction false} RunPrefix(ops: seq<Op>, k: nat, a: Arena)
    requires k <= |ops| && Run(ops, a).Some?
    ensures Run(ops[..k], a).Some?
    ensures Run(ops[k..], Run(ops[..k], a).value) == Run(ops, a)
  {
    if k == 0 {
      assert ops[0..] == ops;
    } else {
      RunPrefix(ops[1..], k - 1, Step(a, ops[0]).value);
      assert ops[..k][1..] == ops[1..][..k - 1];
      assert ops[1..][k - 1..] == ops[k..];
    }
  }

  /** Measured size suffices: whatever sequence the measuring arena went through, an arena anywhere
      else whose room strictly exceeds the measured peak goes through it too, hands out the same
      offsets, and always keeps at least one free block. */
  lemma MeasuredSizeSuffices(ops: seq<Op>, mbase: nat, mspan: pos, rbase: nat, rspan: pos, alignment: pos)
    requires Run(ops, Reset(mbase, alignment, mspan, 0)).Some?
    requires Peak(Run(ops, Reset(mbase, alignment, mspan, 0)).value) < mspan
    requires Peak(Run(ops, Reset(mbase, alignment, mspan, 0)).value) < rspan
    ensures Run(ops, Reset(rbase, alignment, rspan, 0)).Some?
    ensures Offsets(ops, Reset(rbase, alignment, rspan, 0)) == Offsets(ops, Reset(mbase, alignment, mspan, 0))
    ensures forall k :: 0 <= k <= |ops| ==>
      Run(ops[..k], Reset(rbase, alignment, rspan, 0)).Some?
        && |Run(ops[..k], Reset(rbase, alignment, rspan, 0)).value.free| > 0
  {
    var m, r := Reset(mbase, alignment, mspan, 0), Reset(rbase, alignment, rspan, 0);
    ResetTiles(mbase, alignment, mspan, 0);
    ReplayFrom(ops, m, r);
    MaxSizeGrows(ops, m);
    forall k | 0 <= k <= |ops|
      ensures Run(ops[..k], r).Some? && |Run(ops[..k], r).value.free| > 0
    {
      RunPrefix(ops, k, m);
      MaxSizeGrows(ops[..k], m);
      MaxSizeGrows(ops[k..], Run(ops[..k], m).value);
      ReplayFrom(ops[..k], m, r);
    }
  }

  /** The CPU buffer made for a measured size: 64 bytes are added before the base is aligned,
      so the room left always exceeds the peak. */
  lemma CpuBufferSuffices(ops: seq<Op>, mbase: nat, rbase: nat)
    requires Run(ops, Reset(mbase, TENSOR_ALIGNMENT, SIZE_MAX / 2, 0)).Some?
    requires Run(ops, Reset(mbase, TENSOR_ALIGNMENT, SIZE_MAX / 2, 0)).value.maxSize < SIZE_MAX / 2
    ensures var measured := Run(ops, Reset(mbase, TENSOR_ALIGNMENT, SIZE_MAX / 2, 0)).value.maxSize;
      var room := measured + TENSOR_ALIGNMENT - AlignedOffset(rbase, 0, TENSOR_ALIGNMENT);
      && room > 0
      && Run(ops, Reset(rbase, TENSOR_ALIGNMENT, room, 0)).Some?
      && Offsets(ops, Reset(rbase, TENSOR_ALIGNMENT, room, 0))
        == Offsets(ops, Reset(mbase, TENSOR_ALIGNMENT, SIZE_MAX / 2, 0))
  {
    var measured := Run(ops, Reset(mbase, TENSOR_ALIGNMENT, SIZE_MAX / 2, 0)).value.maxSize;
    AlignedOffsetIsLeast(mbase, 0, TENSOR_ALIGNMENT, 0);
    AlignedOffsetIsLeast(rbase, 0, TENSOR_ALIGNMENT, 0);
    MaxSizeGrows(ops, Reset(mbase, TENSOR_ALIGNMENT, SIZE_MAX / 2, 0));
    var room := measured + TENSOR_ALIGNMENT - AlignedOffset(rbase, 0, TENSOR_ALIGNMENT);
    MeasuredSizeSuffices(ops, mbase, SIZE_MAX / 2, rbase, room, TENSOR_ALIGNMENT);
  }

  /** The spare byte is needed: an arena of exactly the measured size loses its last block, and the
      best fit then skips a block it would otherwise take. */
  lemma ExactSizeCanFail(ops: seq<Op>, measuring: Arena, exact: Arena)
    requires ops == ExactSizeOps() && measuring == Reset(0, 1, 100, 0) && exact == Reset(0, 1, 5, 0)
    ensures Run(ops, measuring).Some? && Peak(Run(ops, measuring).value) == 5
    ensures Run(ops, exact).None?
  {
    var m, r := MeasuringStates(), ExactStates();
    MeasuringRun(ops, m);
    ExactRun(ops[..7], r);
    LastStepFails(ops, r);
    if Run(ops, exact).Some? {
      RunPrefix(ops, 7, exact);
    }
  }

  lemma LastStepFails(ops: seq<Op>, r: seq<Arena>)
    requires ops == ExactSizeOps() && r == ExactStates()
    ensures Run(ops[7..], r[7]).None?
  {
    assert BestFit(r[7].free, 2, 0) == -1 && BestFit(r[7].free, 2, 1) == -1;
    assert Step(r[7], ops[7]).None?;
  }

  function MeasuringStates(): seq<Arena> {
    var a, b, c, d, e, f := Block(0, 2), Block(2, 1), Block(3, 1), Block(4, 1), Block(3, 1), Block(0, 2);
    [Reset(0, 1, 100, 0),
     Arena(0, 1, 100, [Block(2, 98)], map[0 := a], 2),
     Arena(0, 1, 100, [Block(3, 97)], map[0 := a, 1 := b], 3),
     Arena(0, 1, 100, [Block(4, 96)], map[0 := a, 1 := b, 2 := c], 4),
     Arena(0, 1, 100, [Block(5, 95)], map[0 := a, 1 := b, 2 := c, 3 := d], 5),
     Arena(0, 1, 100, [Block(0, 2), Block(5, 95)], map[1 := b, 2 := c, 3 := d], 5),
     Arena(0, 1, 100, [Block(0, 2), Block(3, 1), Block(5, 95)], map[1 := b, 3 := d], 5),
     Arena(0, 1, 100, [Block(0, 2), Block(5, 95)], map[1 := b, 3 := d, 4 := e], 5),
     Arena(0, 1, 100, [Block(5, 95)], map[1 := b, 3 := d, 4 := e, 5 := f], 5)]
  }

  lemma FirstSteps()
    ensures Follows(ExactSizeOps(), MeasuringStates(), 0, 4)
  {
    var m, ops := MeasuringStates(), ExactSizeOps();
    assert Next(m[0], ops[0], m[1]);
    assert Next(m[1], ops[1], m[2]);
    assert Next(m[2], ops[2], m[3]);
    assert Next(m[3], ops[3], m[4]);
  }

  lemma MiddleSteps()
    ensures Follows(ExactSizeOps(), MeasuringStates(), 4, 6)
  {
    var m, ops := MeasuringStates(), ExactSizeOps();
    assert Next(m[4], ops[4], m[5]);
    assert Next(m[5], ops[5], m[6]);
  }

  lemma LastSteps()
    ensures Follows(ExactSizeOps(), MeasuringStates(), 6, 8)
  {
    var m, ops := MeasuringStates(), ExactSizeOps();
    SeventhStep(m[6], m[7]);
    EighthStep(m[7], m[8]);
  }

  lemma SeventhStep(a: Arena, b: Arena)
    requires a == Arena(0, 1, 100, [Block(0, 2), Block(3, 1), Block(5, 95)], map[1 := Block(2, 1), 3 := Block(4, 1)], 5)
    requires b == a.(free := [Block(0, 2), Block(5, 95)], live := a.live[4 := Block(3, 1)])
    ensures Next(a, Op.Alloc(4, 1), b)
  {
    hide *;
    SmallestFits(a.free);
    MiddleTaken(a.free, b.free);
    OneByte();
    NextAlloc(a, 4, 1, 1, b);
  }

  lemma NextAlloc(a: Arena, id: nat, size: pos, n: pos, b: Arena)
    requires id !in a.live && |a.free| > 0 && n == Padded(size, a.alignment) && n <= a.free[Chosen(a.free, n)].size
    requires var c := a.free[Chosen(a.free, n)];
      && b.free == Carve(a.free, Chosen(a.free, n), n) && b.live == a.live[id := Block(c.addr, n)]
      && b == a.(free := b.free, live := b.live,
        maxSize := if c.addr - a.base + n > a.maxSize then c.addr - a.base + n else a.maxSize)
    ensures Next(a, Op.Alloc(id, size), b)
  {
    hide Chosen, Carve, Padded;
  }

  lemma SmallestFits(free: seq<Block>)
    requires free == [Block(0, 2), Block(3, 1), Block(5, 95)]
    ensures Chosen(free, 1) == 1
  {
    assert BestFit(free, 1, 0) == -1 && BestFit(free, 1, 1) == 0;
  }

  lemma MiddleTaken(free: seq<Block>, after: seq<Block>)
    requires free == [Block(0, 2), Block(3, 1), Block(5, 95)] && after == [Block(0, 2), Block(5, 95)]
    ensures Carve(free, 1, 1) == after
  {
  }

  lemma OneByte()
    ensures Padded(1, 1) == 1
  {
  }

  lemma EighthStep(a: Arena, b: Arena)
    requires a == MeasuringStates()[7] && b == MeasuringStates()[8]
    ensures Next(a, Op.Alloc(5, 2), b)
  {
    assert BestFit(a.free, 2, 0) == -1 && BestFit(a.free, 2, 1) == 0;
    assert Chosen(a.free, 2) == 0;
    hide BestFit, Chosen;
    assert Carve(a.free, 0, 2) == b.free;
  }

  lemma MeasuringRun(ops: seq<Op>, states: seq<Arena>)
    requires ops == ExactSizeOps() && states == MeasuringStates()
    ensures Run(ops, states[0]) == Some(states[8]) && Peak(states[8]) == 5
  {
    hide Run, Next;
    FirstSteps();
    MiddleSteps();
    LastSteps();
    RunFollows(ops, states);
  }

  function ExactStates(): seq<Arena> {
    var a, b, c, d := Block(0, 2), Block(2, 1), Block(3, 1), Block(4, 1);
    [Reset(0, 1, 5, 0),
     Arena(0, 1, 5, [Block(2, 3)], map[0 := a], 2),
     Arena(0, 1, 5, [Block(3, 2)], map[0 := a, 1 := b], 3),
     Arena(0, 1, 5, [Block(4, 1)], map[0 := a, 1 := b, 2 := c], 4),
     Arena(0, 1, 5, [], map[0 := a, 1 := b, 2 := c, 3 := d], 5),
     Arena(0, 1, 5, [Block(0, 2)], map[1 := b, 2 := c, 3 := d], 5),
     Arena(0, 1, 5, [Block(0, 2), Block(3, 1)], map[1 := b, 3 := d], 5),
     Arena(0, 1, 5, [Block(1, 1), Block(3, 1)], map[1 := b, 3 := d, 4 := Block(0, 1)], 5)]
  }

  lemma ExactFirstSteps()
    ensures Follows(ExactSizeOps()[..7], ExactStates(), 0, 4)
  {
    var r, ops := ExactStates(), ExactSizeOps();
    assert Next(r[0], ops[0], r[1]);
    assert Next(r[1], ops[1], r[2]);
    assert Next(r[2], ops[2], r[3]);
    assert Next(r[3], ops[3], r[4]);
  }

  lemma ExactLastSteps()
    ensures Follows(ExactSizeOps()[..7], ExactStates(), 4, 7)
  {
    var r, ops := ExactStates(), ExactSizeOps();
    assert Next(r[4], ops[4], r[5]);
    assert Next(r[5], ops[5], r[6]);
    assert Next(r[6], ops[6], r[7]);
  }

  lemma ExactRun(ops: seq<Op>, states: seq<Arena>)
    requires ops == ExactSizeOps()[..7] && states == ExactStates()
    ensures Run(ops, states[0]) == Some(states[7])
  {
    hide Run, Next;
    ExactFirstSteps();
    ExactLastSteps();
    RunFollows(ops, states);
  }

  /** `b` is the arena after `op`, field by field. */
  ghost predicate Next(a: Arena, op: Op, b: Arena) {
    && Step(a, op).Some?
    && Step(a, op).value.free == b.free
    && Step(a, op).value.live == b.live
    && Step(a, op).value == a.(free := b.free, live := b.live, maxSize := b.maxSize) == b
  }

  ghost predicate Follows(ops: seq<Op>, states: seq<Arena>, lo: nat, hi: nat)
    requires |states| == |ops| + 1 && hi <= |ops|
  {
    forall i :: lo <= i < hi ==> Next(states[i], ops[i], states[i + 1])
  }

  /** A sequence of arenas, each the step of the one before, is a run. */
  lemma {:induction false} RunFollows(ops: seq<Op>, states: seq<Arena>)
    requires |states| == |ops| + 1 && Follows(ops, states, 0, |ops|)
    ensures Run(ops, states[0]) == Some(states[|ops|])
  {
    if ops != [] {
      RunFollows(ops[1..], states[1..]);
    }
  }

  function ExactSizeOps(): seq<Op> {
    [Op.Alloc(0, 2), Op.Alloc(1, 1), Op.Alloc(2, 1), Op.Alloc(3, 1), Op.Free(0), Op.Free(2), Op.Alloc(4, 1),
      Op.Alloc(5, 2)]
  }

  lemma {:induction false} MaxSizeGrows(ops: seq<Op>, a: Arena)
    requires Run(ops, a).Some?
    ensures var b := Run(ops, a).value;
      a.maxSize <= b.maxSize && a.base == b.base && a.alignment == b.alignment && a.limit == b.limit
  {
    if ops != [] {
      MaxSizeGrows(ops[1..], Step(a, ops[0]).value);
    }
  }
}
