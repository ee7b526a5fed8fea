/** The best-fit free list of the tensor allocator, as functions on the array contents.
    The methods of `Tallocr` are proved against these functions; the lemmas here say what
    the functions mean. */
module FreeList {
  import opened Wrappers

  const MAX_FREE_BLOCKS := 256

  datatype Block = Block(addr: nat, size: nat) {
    function End(): nat { addr + size }

    predicate Contains(p: int) { addr <= p < End() }
  }

  /** The smallest offset not below `offset` that makes `base + offset` a multiple of the alignment. */
  function AlignedOffset(base: nat, offset: nat, alignment: nat): nat
    requires alignment > 0
  {
    offset + (alignment - (base + offset) % alignment) % alignment
  }

  /** The result is aligned and no aligned offset `o` lies below it. */
  lemma AlignedOffsetIsLeast(base: nat, offset: nat, alignment: nat, o: nat)
    requires alignment > 0
    ensures (base + AlignedOffset(base, offset, alignment)) % alignment == 0
    ensures offset <= AlignedOffset(base, offset, alignment) < offset + alignment
    ensures o >= offset && (base + o) % alignment == 0 ==> AlignedOffset(base, offset, alignment) <= o
  {
    var x := base + offset;
    var q, r := x / alignment, x % alignment;
    RemainderIsUnique(alignment, alignment, 1, 0);
    if r > 0 {
      RemainderIsUnique(alignment - r, alignment, 0, alignment - r);
      assert x + (alignment - r) == (q + 1) * alignment;
      MultipleHasNoRemainder(q + 1, alignment);
      var k := (base + o) / alignment;
      if o >= offset && (base + o) % alignment == 0 {
        assert base + o == k * alignment;
        if k <= q {
          MulMonotone(k, q, alignment);
        } else {
          MulMonotone(q + 1, k, alignment);
        }
      }
    }
  }

  lemma MultipleHasNoRemainder(q: nat, a: nat)
    requires a > 0
    ensures (q * a) % a == 0
  {
    RemainderIsUnique(q * a, a, q, 0);
  }

  lemma RemainderIsUnique(x: nat, a: nat, q: nat, r: nat)
    requires a > 0 && x == q * a + r && r < a
    ensures x / a == q && x % a == r
  {
    var q', r' := x / a, x % a;
    assert x == q' * a + r';
    if q < q' {
      MulMonotone(q + 1, q', a);
    } else if q' < q {
      MulMonotone(q' + 1, q, a);
    }
  }

  lemma MulMonotone(x: nat, y: nat, a: nat)
    requires x <= y
    ensures x * a <= y * a
  {
    assert (y - x) * a >= 0;
  }

  /** Some free block holds the byte `p`. */
  predicate Covers(free: seq<Block>, p: int) {
    exists i :: 0 <= i < |free| && free[i].Contains(p)
  }

  /** Sorted by address, non-empty, disjoint and never adjacent. */
  predicate WellFormed(free: seq<Block>) {
    && (forall i :: 0 <= i < |free| ==> free[i].size > 0)
    && (forall i, j :: 0 <= i < j < |free| ==> free[i].End() < free[j].addr)
  }

  predicate Aligned(free: seq<Block>, alignment: nat)
    requires alignment > 0
  {
    forall i :: 0 <= i < |free| ==> free[i].addr % alignment == 0
  }

  // ---------------------------------------------------------------- allocation

  /** Index chosen among the first `k` blocks: the last of the smallest ones that fit, or -1. */
  function BestFit(free: seq<Block>, size: nat, k: nat): (b: int)
    requires k <= |free|
    ensures -1 <= b < k
  {
    if k == 0 then -1
    else
      var b := BestFit(free, size, k - 1);
      if free[k - 1].size >= size && (b == -1 || free[k - 1].size <= free[b].size) then k - 1 else b
  }

  lemma {:induction false} BestFitIsBest(free: seq<Block>, size: nat, k: nat)
    requires k <= |free|
    ensures var b := BestFit(free, size, k);
      if b == -1 then
        forall i :: 0 <= i < k ==> free[i].size < size
      else
        && free[b].size >= size
        && (forall i :: 0 <= i < k && free[i].size >= size ==> free[b].size <= free[i].size)
        && (forall i :: b < i < k && free[i].size >= size ==> free[b].size < free[i].size)
  {
    if k > 0 {
      BestFitIsBest(free, size, k - 1);
    }
  }

  /** The block allocated from: best fit among all but the last, else the last. */
  function Chosen(free: seq<Block>, size: nat): (i: nat)
    requires |free| > 0
    ensures i < |free|
  {
    var b := BestFit(free, size, |free| - 1);
    if b == -1 then |free| - 1 else b
  }

  /** Take `size` bytes from the front of block `i`, dropping the block when it becomes empty. */
  function Carve(free: seq<Block>, i: nat, size: nat): seq<Block>
    requires i < |free| && size <= free[i].size
  {
    if free[i].size == size then free[..i] + free[i + 1..]
    else free[i := Block(free[i].addr + size, free[i].size - size)]
  }

  /** `None` when no block fits, and when there is no block at all. */
  function Alloc(free: seq<Block>, size: nat): Option<(nat, seq<Block>)> {
    if |free| == 0 then None
    else
      var i := Chosen(free, size);
      if free[i].size < size then None
      else Some((free[i].addr, Carve(free, i, size)))
  }

  /** Some block before the last has room. */
  predicate FitsEarly(free: seq<Block>, size: nat) {
    exists j :: 0 <= j < |free| - 1 && free[j].size >= size
  }

  /** Block `i` is a smallest one with room among the blocks before the last, and the last of these; the
      last block of all when none before it has room. */
  predicate IsBest(free: seq<Block>, size: nat, i: nat) {
    var last := |free| - 1;
    if FitsEarly(free, size) then
      && i < last && free[i].size >= size
      && (forall j :: 0 <= j < last && free[j].size >= size ==> free[i].size <= free[j].size)
      && (forall j :: i < j < last && free[j].size >= size ==> free[i].size < free[j].size)
    else i == last
  }

  /** The address returned is that of the best block. */
  lemma AllocTakesBestBlock(free: seq<Block>, size: nat) returns (i: nat)
    requires Alloc(free, size).Some?
    ensures |free| > 0 && IsBest(free, size, i) && i < |free| && free[i].size >= size
    ensures Alloc(free, size).value.0 == free[i].addr
  {
    BestFitIsBest(free, size, |free| - 1);
    i := Chosen(free, size);
  }

  /** There is only one best block. */
  lemma OneBestBlock(free: seq<Block>, size: nat, i: nat, j: nat)
    requires IsBest(free, size, i) && IsBest(free, size, j)
    ensures i == j
  {
  }

  lemma CoversConcat(a: seq<Block>, b: seq<Block>, p: int)
    ensures Covers(a + b, p) <==> Covers(a, p) || Covers(b, p)
  {
    if i :| 0 <= i < |a + b| && (a + b)[i].Contains(p) {
      assert if i < |a| then a[i].Contains(p) else b[i - |a|].Contains(p);
    }
    if i :| 0 <= i < |a| && a[i].Contains(p) {
      assert (a + b)[i].Contains(p);
    }
    if i :| 0 <= i < |b| && b[i].Contains(p) {
      assert (a + b)[|a| + i].Contains(p);
    }
  }

  lemma CoversMiddle(a: seq<Block>, b: Block, c: seq<Block>, p: int)
    ensures Covers(a + [b] + c, p) <==> Covers(a, p) || b.Contains(p) || Covers(c, p)
  {
    CoversConcat(a + [b], c, p);
    CoversConcat(a, [b], p);
    assert Covers([b], p) <==> b.Contains(p) by {
      assert [b][0] == b;
    }
  }

  lemma CarveTakesFront(free: seq<Block>, i: nat, size: nat)
    requires WellFormed(free) && i < |free| && 0 < size <= free[i].size
    ensures WellFormed(Carve(free, i, size))
    ensures forall p :: Covers(Carve(free, i, size), p) <==> Covers(free, p) && !Block(free[i].addr, size).Contains(p)
  {
    var rest := Block(free[i].addr + size, free[i].size - size);
    CarveWellFormed(free, i, size);
    hide WellFormed, Covers;
    forall p
      ensures Covers(Carve(free, i, size), p) <==> Covers(free, p) && !Block(free[i].addr, size).Contains(p)
    {
      assert free == free[..i] + [free[i]] + free[i + 1..];
      CoversMiddle(free[..i], free[i], free[i + 1..], p);
      if free[i].Contains(p) {
        OthersApart(free, i, p);
      }
      if free[i].size == size {
        CoversConcat(free[..i], free[i + 1..], p);
      } else {
        assert Carve(free, i, size) == free[..i] + [rest] + free[i + 1..];
        CoversMiddle(free[..i], rest, free[i + 1..], p);
      }
    }
  }

  lemma CarveWellFormed(free: seq<Block>, i: nat, size: nat)
    requires WellFormed(free) && i < |free| && 0 < size <= free[i].size
    ensures WellFormed(Carve(free, i, size))
  {
  }

  lemma OthersApart(free: seq<Block>, i: nat, p: int)
    requires WellFormed(free) && i < |free| && free[i].Contains(p)
    ensures !Covers(free[..i], p) && !Covers(free[i + 1..], p)
  {
  }

  /** Allocation hands out free bytes, and exactly those leave the list. */
  lemma AllocTakesFreeBytes(free: seq<Block>, size: nat)
    requires WellFormed(free) && size > 0 && Alloc(free, size).Some?
    ensures var (addr, after) := Alloc(free, size).value;
      && WellFormed(after)
      && (forall p :: addr <= p < addr + size ==> Covers(free, p))
      && (forall p :: Covers(after, p) <==> Covers(free, p) && !Block(addr, size).Contains(p))
  {
    var i := Chosen(free, size);
    CarveTakesFront(free, i, size);
    forall p | free[i].addr <= p < free[i].addr + size
      ensures Covers(free, p)
    {
      assert free[i].Contains(p);
    }
  }

  /** The allocator fails exactly when no block, the last one included, is large enough. */
  lemma AllocFailsOnlyWhenNothingFits(free: seq<Block>, size: nat)
    ensures Alloc(free, size).None? <==> forall i :: 0 <= i < |free| ==> free[i].size < size
  {
    if |free| > 0 {
      BestFitIsBest(free, size, |free| - 1);
    }
  }

  // ---------------------------------------------------------------- release

  /** Position of the first block at or above `ptr`. */
  function InsertPos(free: seq<Block>, ptr: nat, from: nat): (i: nat)
    requires from <= |free|
    ensures from <= i <= |free|
    decreases |free| - from
  {
    if from < |free| && free[from].addr < ptr then InsertPos(free, ptr, from + 1) else from
  }

  /** Block `i` grows at its end, and joins the next block when it reaches it. */
  function ExtendUp(free: seq<Block>, i: nat, size: nat): seq<Block>
    requires i < |free|
  {
    var grown := Block(free[i].addr, free[i].size + size);
    if i < |free| - 1 && grown.End() == free[i + 1].addr then
      free[..i] + [Block(grown.addr, grown.size + free[i + 1].size)] + free[i + 2..]
    else
      free[i := grown]
  }

  /** Block `i` grows at its start, and joins the previous block when that one ends there. */
  function ExtendDown(free: seq<Block>, i: nat, ptr: nat, size: nat): seq<Block>
    requires i < |free|
  {
    var grown := Block(ptr, free[i].size + size);
    if i > 0 && free[i - 1].End() == grown.addr then
      free[..i - 1] + [Block(free[i - 1].addr, free[i - 1].size + grown.size)] + free[i + 1..]
    else
      free[i := grown]
  }

  /** Release of `[ptr, ptr + size)` when blocks before `i` have been examined. The branch that
      joins block `i` with its predecessor is kept as it stands in the source. */
  function FreeFrom(free: seq<Block>, i: nat, ptr: nat, size: nat): Option<seq<Block>>
    requires i <= |free|
    decreases |free| - i
  {
    if i == |free| then
      if |free| >= MAX_FREE_BLOCKS then None
      else
        var at := InsertPos(free, ptr, 0);
        Some(free[..at] + [Block(ptr, size)] + free[at..])
    else if free[i].End() == ptr then Some(ExtendUp(free, i, size))
    else if ptr + size == free[i].addr then Some(ExtendDown(free, i, ptr, size))
    else
      FreeFrom(free, i + 1, ptr, size)
  }

  function Free(free: seq<Block>, ptr: nat, size: nat): Option<seq<Block>> {
    FreeFrom(free, 0, ptr, size)
  }

  /** The join with the predecessor (lines 199-206) is never taken: a predecessor ending at `ptr`
      would have been extended one iteration earlier. */
  lemma MergeWithPreviousIsDead(free: seq<Block>, i: nat, ptr: nat, size: nat)
    requires 0 < i < |free|
    requires free[i].End() != ptr && ptr + size == free[i].addr  // the branch is reached at i ...
    requires forall j :: 0 <= j < i ==> free[j].End() != ptr && ptr + size != free[j].addr  // ... from 0
    ensures Free(free, ptr, size) == Some(free[i := Block(ptr, free[i].size + size)])
  {
    FreeSkips(free, 0, i, ptr, size);
  }

  lemma {:induction false} FreeSkips(free: seq<Block>, i: nat, k: nat, ptr: nat, size: nat)
    requires i <= k <= |free|
    requires forall j :: i <= j < k ==> free[j].End() != ptr && ptr + size != free[j].addr
    ensures FreeFrom(free, i, ptr, size) == FreeFrom(free, k, ptr, size)
    decreases k - i
  {
    if i < k {
      FreeSkips(free, i + 1, k, ptr, size);
    }
  }

  lemma {:induction false} InsertPosSplits(free: seq<Block>, ptr: nat, from: nat)
    requires WellFormed(free) && from <= |free|
    requires forall j :: 0 <= j < from ==> free[j].addr < ptr
    ensures var at := InsertPos(free, ptr, from);
      && (forall j :: 0 <= j < at ==> free[j].addr < ptr)
      && (forall j :: at <= j < |free| ==> ptr <= free[j].addr)
    decreases |free| - from
  {
    if from < |free| && free[from].addr < ptr {
      InsertPosSplits(free, ptr, from + 1);
    }
  }

  /** `after` holds the bytes of `free` and those of `b`. */
  ghost predicate AddsBytes(free: seq<Block>, b: Block, after: seq<Block>) {
    forall p :: Covers(after, p) <==> Covers(free, p) || b.Contains(p)
  }

  /** No byte of `b` is free. */
  ghost predicate Apart(free: seq<Block>, b: Block) {
    forall j :: 0 <= j < |free| ==> free[j].End() <= b.addr || b.End() <= free[j].addr
  }

  ghost predicate Touches(b: Block, f: Block) {
    f.End() == b.addr || b.End() == f.addr
  }

  lemma ApartFromBytes(free: seq<Block>, b: Block)
    requires WellFormed(free) && b.size > 0
    requires forall p :: b.Contains(p) ==> !Covers(free, p)
    ensures Apart(free, b)
  {
    forall j | 0 <= j < |free|
      ensures free[j].End() <= b.addr || b.End() <= free[j].addr
    {
      if free[j].addr < b.addr {
        assert b.Contains(b.addr);
        assert !free[j].Contains(b.addr);
      } else if free[j].addr < b.End() {
        assert b.Contains(free[j].addr) && free[j].Contains(free[j].addr);
        assert false;
      }
    }
  }

  lemma WellFormedMiddle(a: seq<Block>, b: Block, c: seq<Block>)
    requires WellFormed(a) && b.size > 0 && WellFormed(c)
    requires forall j :: 0 <= j < |a| ==> a[j].End() < b.addr
    requires forall j :: 0 <= j < |c| ==> b.End() < c[j].addr
    ensures WellFormed(a + [b] + c)
  {
    var s := a + [b] + c;
    forall i, j | 0 <= i < j < |s|
      ensures s[i].End() < s[j].addr
    {
      if i < |a| && j > |a| {
        assert a[i].End() < b.addr;
        assert b.End() < c[j - |a| - 1].addr;
      }
    }
  }

  lemma InsertAdds(free: seq<Block>, b: Block)
    requires WellFormed(free) && b.size > 0 && Apart(free, b)
    requires forall j :: 0 <= j < |free| ==> !Touches(b, free[j])
    ensures var at := InsertPos(free, b.addr, 0);
      var after := free[..at] + [b] + free[at..];
      WellFormed(after) && AddsBytes(free, b, after)
  {
    var at := InsertPos(free, b.addr, 0);
    var low, high := free[..at], free[at..];
    InsertPosSplits(free, b.addr, 0);
    InsertSides(free, b, at);
    WellFormedMiddle(low, b, high);
    MiddleAdds(free, at, b);
  }

  lemma InsertSides(free: seq<Block>, b: Block, at: nat)
    requires WellFormed(free) && b.size > 0 && Apart(free, b) && at <= |free|
    requires forall j :: 0 <= j < |free| ==> !Touches(b, free[j])
    requires forall j :: 0 <= j < at ==> free[j].addr < b.addr
    requires forall j :: at <= j < |free| ==> b.addr <= free[j].addr
    ensures WellFormed(free[..at]) && WellFormed(free[at..])
    ensures forall j :: 0 <= j < |free[..at]| ==> free[..at][j].End() < b.addr
    ensures forall j :: 0 <= j < |free[at..]| ==> b.End() < free[at..][j].addr
  {
  }

  lemma MiddleAdds(free: seq<Block>, at: nat, b: Block)
    requires at <= |free|
    ensures AddsBytes(free, b, free[..at] + [b] + free[at..])
  {
    var after := free[..at] + [b] + free[at..];
    forall p
      ensures Covers(after, p) <==> Covers(free, p) || b.Contains(p)
    {
      assert free == free[..at] + free[at..];
      CoversConcat(free[..at], free[at..], p);
      CoversMiddle(free[..at], b, free[at..], p);
    }
  }

  lemma GrowAdds(free: seq<Block>, i: nat, b: Block)
    requires WellFormed(free) && b.size > 0 && Apart(free, b) && i < |free|
    requires free[i].End() == b.addr || b.End() == free[i].addr
    requires forall j :: 0 <= j < |free| && j != i ==> free[j].End() != b.addr && b.End() != free[j].addr
    ensures var after := free[i := Block(if b.addr < free[i].addr then b.addr else free[i].addr,
      free[i].size + b.size)];
      WellFormed(after) && AddsBytes(free, b, after)
  {
    var after := free[i := Block(if b.addr < free[i].addr then b.addr else free[i].addr, free[i].size + b.size)];
    forall p
      ensures Covers(after, p) <==> Covers(free, p) || b.Contains(p)
    {
      if Covers(free, p) {
        var j :| 0 <= j < |free| && free[j].Contains(p);
        assert after[j].Contains(p);
      }
      if b.Contains(p) {
        assert after[i].Contains(p);
      }
      if Covers(after, p) {
        var j :| 0 <= j < |after| && after[j].Contains(p);
        assert j != i ==> free[j].Contains(p);
        assert j == i && !b.Contains(p) ==> free[i].Contains(p);
      }
    }
    forall k | 0 <= k < |free| && k != i
      ensures k < i ==> free[k].End() < after[i].addr
      ensures i < k ==> after[i].End() < free[k].addr
    {
    }
  }

  lemma BridgeFits(free: seq<Block>, i: nat, joined: Block)
    requires WellFormed(free) && i + 1 < |free| && joined.addr == free[i].addr && joined.End() == free[i + 1].End()
    ensures WellFormed(free[..i] + [joined] + free[i + 2..])
  {
    WellFormedMiddle(free[..i], joined, free[i + 2..]);
  }

  lemma BridgeAdds(free: seq<Block>, i: nat, b: Block)
    requires WellFormed(free) && b.size > 0 && i + 1 < |free|
    requires free[i].End() == b.addr && b.End() == free[i + 1].addr
    ensures var after := free[..i] + [Block(free[i].addr, free[i].size + b.size + free[i + 1].size)] + free[i + 2..];
      WellFormed(after) && AddsBytes(free, b, after)
  {
    var joined := Block(free[i].addr, free[i].size + b.size + free[i + 1].size);
    var after := free[..i] + [joined] + free[i + 2..];
    assert free == free[..i] + [free[i]] + free[i + 1..];
    assert free[i + 1..] == [] + [free[i + 1]] + free[i + 2..];
    BridgeFits(free, i, joined);
    hide WellFormed, Covers;
    forall p
      ensures Covers(after, p) <==> Covers(free, p) || b.Contains(p)
    {
      CoversMiddle(free[..i], free[i], free[i + 1..], p);
      CoversMiddle([], free[i + 1], free[i + 2..], p);
      CoversMiddle(free[..i], joined, free[i + 2..], p);
    }
  }

  /** Releasing bytes that are not free adds exactly those bytes and keeps the list well formed. */
  lemma FreeReturnsBytes(free: seq<Block>, ptr: nat, size: nat)
    requires WellFormed(free) && size > 0
    requires forall p :: ptr <= p < ptr + size ==> !Covers(free, p)
    ensures Free(free, ptr, size).Some? ==>
      var after := Free(free, ptr, size).value;
      && WellFormed(after)
      && AddsBytes(free, Block(ptr, size), after)
      && |after| <= |free| + 1
    ensures |free| < MAX_FREE_BLOCKS ==> Free(free, ptr, size).Some?
  {
    var b := Block(ptr, size);
    ApartFromBytes(free, b);
    if i :| 0 <= i < |free| && Touches(b, free[i]) {
      var k := LeastNeighbour(free, b, i);
      FirstNeighbour(free, b, k);
    } else {
      assert forall j :: 0 <= j < |free| ==> !Touches(b, free[j]);
      FreeSkips(free, 0, |free|, ptr, size);
      InsertAdds(free, b);
    }
  }

  lemma {:induction false} LeastNeighbour(free: seq<Block>, b: Block, i: nat) returns (k: nat)
    requires i < |free| && Touches(b, free[i])
    ensures k < |free| && Touches(b, free[k])
    ensures forall j :: 0 <= j < k ==> !Touches(b, free[j])
    decreases i
  {
    if j :| 0 <= j < i && Touches(b, free[j]) {
      k := LeastNeighbour(free, b, j);
    } else {
      k := i;
    }
  }

  /** The first block that touches `b` decides the result. */
  lemma FirstNeighbour(free: seq<Block>, b: Block, i: nat)
    requires WellFormed(free) && b.size > 0 && Apart(free, b)
    requires i < |free| && Touches(b, free[i])
    requires forall j :: 0 <= j < i ==> !Touches(b, free[j])
    ensures Free(free, b.addr, b.size).Some?
    ensures var after := Free(free, b.addr, b.size).value;
      WellFormed(after) && AddsBytes(free, b, after) && |after| <= |free| + 1
  {
    FreeSkips(free, 0, i, b.addr, b.size);
    if free[i].End() == b.addr && i + 1 < |free| && b.End() == free[i + 1].addr {
      BridgeStep(free, b, i);
      BridgeAdds(free, i, b);
    } else {
      OnlyNeighbour(free, b, i);
      GrowAdds(free, i, b);
    }
  }

  lemma BridgeStep(free: seq<Block>, b: Block, i: nat)
    requires i + 1 < |free| && free[i].End() == b.addr && b.End() == free[i + 1].addr
    ensures FreeFrom(free, i, b.addr, b.size)
         == Some(free[..i] + [Block(free[i].addr, free[i].size + b.size + free[i + 1].size)] + free[i + 2..])
  {
  }

  lemma OnlyNeighbour(free: seq<Block>, b: Block, i: nat)
    requires WellFormed(free) && b.size > 0 && Apart(free, b) && i < |free|
    requires free[i].End() == b.addr || b.End() == free[i].addr
    requires forall k :: 0 <= k < i ==> free[k].End() != b.addr && b.End() != free[k].addr
    requires !(free[i].End() == b.addr && i + 1 < |free| && b.End() == free[i + 1].addr)
    ensures forall j :: 0 <= j < |free| && j != i ==> free[j].End() != b.addr && b.End() != free[j].addr
    ensures FreeFrom(free, i, b.addr, b.size)
         == Some(free[i := Block(if b.addr < free[i].addr then b.addr else free[i].addr, free[i].size + b.size)])
  {
    assert i > 0 ==> free[i - 1].End() != b.addr;
    forall j | i < j < |free|
      ensures free[j].End() != b.addr && b.End() != free[j].addr
    {
      assert i + 1 < j ==> free[i].End() < free[i + 1].addr && free[i + 1].End() < free[j].addr;
    }
  }

  lemma FreeKeepsAlignment(free: seq<Block>, i: nat, ptr: nat, size: nat, alignment: nat)
    requires alignment > 0 && i <= |free| && Aligned(free, alignment) && ptr % alignment == 0
    ensures FreeFrom(free, i, ptr, size).Some? ==> Aligned(FreeFrom(free, i, ptr, size).value, alignment)
    decreases |free| - i
  {
  }

  // ---------------------------------------------------------------- canonical form

  /** A well-formed list is determined by the bytes it covers. */
  lemma {:induction false} SameBytesSameList(a: seq<Block>, b: seq<Block>)
    requires WellFormed(a) && WellFormed(b)
    requires forall p :: Covers(a, p) <==> Covers(b, p)
    ensures a == b
    decreases |a|
  {
    if |a| == 0 || |b| == 0 {
      if |a| > 0 {
        FirstByteCovered(a);
      }
      if |b| > 0 {
        FirstByteCovered(b);
      }
    } else {
      HeadsAgree(a, b);
      TailCovers(a);
      TailCovers(b);
      SameBytesSameList(a[1..], b[1..]);
      assert a == [a[0]] + a[1..] && b == [b[0]] + b[1..];
    }
  }

  lemma FirstByteCovered(a: seq<Block>)
    requires WellFormed(a) && |a| > 0
    ensures Covers(a, a[0].addr)
    ensures forall p :: Covers(a, p) ==> a[0].addr <= p
  {
    assert a[0].Contains(a[0].addr);
  }

  lemma HeadsAgree(a: seq<Block>, b: seq<Block>)
    requires WellFormed(a) && WellFormed(b) && |a| > 0 && |b| > 0
    requires forall p :: Covers(a, p) <==> Covers(b, p)
    ensures a[0] == b[0]
  {
    FirstByteCovered(a);
    FirstByteCovered(b);
    if a[0].End() < b[0].End() {
      LongerHeadCoversMore(a, b);
    } else if b[0].End() < a[0].End() {
      LongerHeadCoversMore(b, a);
    }
  }

  lemma LongerHeadCoversMore(a: seq<Block>, b: seq<Block>)
    requires WellFormed(a) && |a| > 0 && |b| > 0
    requires a[0].addr == b[0].addr && a[0].End() < b[0].End()
    ensures exists p :: Covers(b, p) && !Covers(a, p)
  {
    assert b[0].Contains(a[0].End());
    assert Covers(b, a[0].End()) && !Covers(a, a[0].End());
  }

  lemma TailCovers(a: seq<Block>)
    requires WellFormed(a) && |a| > 0
    ensures WellFormed(a[1..])
    ensures forall p :: Covers(a[1..], p) <==> Covers(a, p) && !a[0].Contains(p)
  {
    forall p
      ensures Covers(a[1..], p) <==> Covers(a, p) && !a[0].Contains(p)
    {
      if Covers(a[1..], p) {
        var j :| 0 <= j < |a[1..]| && a[1..][j].Contains(p);
        assert a[j + 1].Contains(p);
      }
      if Covers(a, p) && !a[0].Contains(p) {
        var j :| 0 <= j < |a| && a[j].Contains(p);
        assert a[1..][j - 1].Contains(p);
      }
    }
  }

  /** Releasing what was just allocated restores the list exactly. */
  lemma FreeUndoesAlloc(free: seq<Block>, size: nat)
    requires WellFormed(free) && size > 0 && Alloc(free, size).Some?
    requires |free| <= MAX_FREE_BLOCKS
    ensures var (addr, after) := Alloc(free, size).value; Free(after, addr, size) == Some(free)
  {
    var i := Chosen(free, size);
    var (addr, after) := Alloc(free, size).value;
    AllocTakesFreeBytes(free, size);
    FreeReturnsBytes(after, addr, size);
    if free[i].size != size {
      ApartFromBytes(after, Block(addr, size));
      var k := LeastNeighbour(after, Block(addr, size), i);
      FirstNeighbour(after, Block(addr, size), k);
    }
    var again := Free(after, addr, size).value;
    forall p
      ensures Covers(again, p) <==> Covers(free, p)
    {
    }
    SameBytesSameList(again, free);
  }
}
