/** The tensor allocator: a fixed array of free blocks updated in place. */
module Tallocr {
  import opened Wrappers
  import opened FreeList
  import opened Arenas

  /** Growing block `i` at its end is overwriting it, once more when it joins the next block, which
      is then dropped. */
  lemma GrownUp(s: seq<Block>, i: nat, n: pos, grown: Block, joined: Block)
    requires i < |s| && grown == Block(s[i].addr, s[i].size + n)
    requires i + 1 < |s| ==> joined == Block(grown.addr, grown.size + s[i + 1].size)
    ensures i + 1 < |s| && grown.End() == s[i + 1].addr ==>
      ExtendUp(s, i, n) == s[i := grown][i := joined][..i + 1] + s[i := grown][i := joined][i + 2..]
    ensures !(i + 1 < |s| && grown.End() == s[i + 1].addr) ==> ExtendUp(s, i, n) == s[i := grown]
  {
  }

  /** The same for growing at its start, and the previous block. */
  lemma GrownDown(s: seq<Block>, i: nat, ptr: nat, n: pos, grown: Block, joined: Block)
    requires i < |s| && grown == Block(ptr, s[i].size + n)
    requires i > 0 ==> joined == Block(s[i - 1].addr, s[i - 1].size + grown.size)
    ensures i > 0 && s[i - 1].End() == ptr ==>
      ExtendDown(s, i, ptr, n) == s[i := grown][i - 1 := joined][..i] + s[i := grown][i - 1 := joined][i + 1..]
    ensures !(i > 0 && s[i - 1].End() == ptr) ==> ExtendDown(s, i, ptr, n) == s[i := grown]
  {
  }

  class TensorAllocator {
    const base: nat
    const bufferSize: nat
    const alignment: pos
    const freeBlocks: array<Block>
    var nFreeBlocks: nat
    var maxSize: nat
    var measure: bool

    ghost predicate Valid()
      reads this
    {
      freeBlocks.Length == MAX_FREE_BLOCKS && nFreeBlocks <= MAX_FREE_BLOCKS
        && AlignedOffset(base, 0, alignment) <= bufferSize
    }

    /** The free list: the first `nFreeBlocks` entries. */
    function Contents(): seq<Block>
      reads this, freeBlocks
      requires Valid()
    {
      freeBlocks[..nFreeBlocks]
    }

    /** A buffer of `size` bytes at `data`; the buffer is large enough to hold an aligned address. */
    constructor (data: nat, size: nat, alignment: pos)
      requires AlignedOffset(data, 0, alignment) < size
      ensures Valid() && fresh(freeBlocks)
      ensures base == data && bufferSize == size && this.alignment == alignment && maxSize == 0 && !measure
      ensures Contents() == Arenas.Reset(data, alignment, size - AlignedOffset(data, 0, alignment), 0).free
    {
      base, bufferSize, this.alignment := data, size, alignment;
      freeBlocks := new Block[MAX_FREE_BLOCKS](_ => Block(0, 0));
      nFreeBlocks, maxSize, measure := 0, 0, false;
      new;
      Reset();
    }

    method Reset()
      requires Valid()
      modifies this`nFreeBlocks, freeBlocks
      ensures Valid()
      ensures Contents() == [Block(base + AlignedOffset(base, 0, alignment),
                                   if measure then SIZE_MAX / 2 else bufferSize - AlignedOffset(base, 0, alignment))]
    {
      nFreeBlocks := 1;
      var alignOffset := AlignedOffset(base, 0, alignment);
      if measure {
        // half of the address space, so that sizes cannot overflow
        freeBlocks[0] := Block(base + alignOffset, SIZE_MAX / 2);
      } else {
        freeBlocks[0] := Block(base + alignOffset, bufferSize - alignOffset);
      }
    }

    /** Drop entry `i`, moving the later ones down. */
    method RemoveAt(i: nat)
      requires Valid() && i < nFreeBlocks
      modifies this`nFreeBlocks, freeBlocks
      ensures Valid() && Contents() == old(Contents()[..i] + Contents()[i + 1..])
    {
      nFreeBlocks := nFreeBlocks - 1;
      for j := i to nFreeBlocks
        invariant nFreeBlocks == old(nFreeBlocks) - 1 && Valid()
        invariant forall k :: 0 <= k < i ==> freeBlocks[k] == old(freeBlocks[k])
        invariant forall k :: i <= k < j ==> freeBlocks[k] == old(freeBlocks[k + 1])
        invariant forall k :: j <= k <= nFreeBlocks ==> freeBlocks[k] == old(freeBlocks[k])
      {
        freeBlocks[j] := freeBlocks[j + 1];
      }
    }

    /** The best fit among all blocks but the last, else the last. */
    method ChooseBlock(n: pos) returns (bestFit: nat)
      requires Valid() && nFreeBlocks >= 1
      ensures bestFit == Chosen(Contents(), n) && IsBest(Contents(), n, bestFit)
    {
      var best, bestFitSize := -1, 0;
      for i := 0 to nFreeBlocks - 1
        invariant best == BestFit(Contents(), n, i)
        invariant best != -1 ==> bestFitSize == freeBlocks[best].size
      {
        var block := freeBlocks[i];
        // no size exceeds SIZE_MAX, the source's initial bestFitSize
        if block.size >= n && (best == -1 || block.size <= bestFitSize) {
          best, bestFitSize := i, block.size;
        }
      }
      bestFit := if best == -1 then nFreeBlocks - 1 else best;
      BestFitIsBest(Contents(), n, nFreeBlocks - 1);
    }

    /** Take the front of block `i`, removing the block when nothing is left. */
    method TakeFrom(i: nat, n: pos) returns (addr: nat)
      requires Valid() && i < nFreeBlocks && freeBlocks[i].size >= n
      modifies this`nFreeBlocks, freeBlocks
      ensures Valid() && addr == old(Contents()[i].addr) && Contents() == Carve(old(Contents()), i, n)
    {
      var block := freeBlocks[i];
      addr := block.addr;
      freeBlocks[i] := Block(block.addr + n, block.size - n);
      if freeBlocks[i].size == 0 {
        RemoveAt(i);
      }
    }

    /** `None` is the "not enough space" abort. Without free blocks the source reads the entry
        before the array, so one is required. */
    method AllocBytes(size: pos) returns (r: Option<nat>)
      requires Valid() && nFreeBlocks >= 1
      modifies this`nFreeBlocks, this`maxSize, freeBlocks
      ensures Valid()
      ensures match FreeList.Alloc(old(Contents()), Padded(size, alignment))
        case None => r.None? && Contents() == old(Contents()) && maxSize == old(maxSize)
        case Some((addr, free)) =>
          && r == Some(addr) && Contents() == free
          && (exists i :: 0 <= i < |old(Contents())| && IsBest(old(Contents()), Padded(size, alignment), i)
                          && addr == old(Contents())[i].addr)
          && maxSize == if addr - base + Padded(size, alignment) > old(maxSize)
                        then addr - base + Padded(size, alignment) else old(maxSize)
    {
      var n := AlignedOffset(0, size, alignment);
      assert n == Padded(size, alignment);
      var bestFit := ChooseBlock(n);
      if freeBlocks[bestFit].size < n {
        return None;
      }
      var addr := TakeFrom(bestFit, n);
      if addr - base + n > maxSize {
        maxSize := addr - base + n;
      }
      r := Some(addr);
    }

    method SetAt(i: nat, b: Block)
      requires Valid() && i < nFreeBlocks
      modifies freeBlocks
      ensures Contents() == old(Contents())[i := b]
    {
      freeBlocks[i] := b;
    }

    method GrowUp(i: nat, n: pos)
      requires Valid() && i < nFreeBlocks
      modifies this`nFreeBlocks, freeBlocks
      ensures Valid() && Contents() == ExtendUp(old(Contents()), i, n)
    {
      hide ExtendUp, AlignedOffset;
      ghost var free := Contents();
      var block := freeBlocks[i];
      var grown := Block(block.addr, block.size + n);
      SetAt(i, grown);
      if i < nFreeBlocks - 1 && grown.End() == freeBlocks[i + 1].addr {
        assert freeBlocks[i + 1] == Contents()[i + 1] == free[i + 1];
        var joined := Block(grown.addr, grown.size + freeBlocks[i + 1].size);
        SetAt(i, joined);
        RemoveAt(i + 1);
        GrownUp(free, i, n, grown, joined);
      } else {
        assert i + 1 < nFreeBlocks ==> freeBlocks[i + 1] == Contents()[i + 1] == free[i + 1];
        GrownUp(free, i, n, grown, if i + 1 < |free| then Block(grown.addr, grown.size + free[i + 1].size) else grown);
      }
    }

    method GrowDown(i: nat, ptr: nat, n: pos)
      requires Valid() && i < nFreeBlocks
      modifies this`nFreeBlocks, freeBlocks
      ensures Valid() && Contents() == ExtendDown(old(Contents()), i, ptr, n)
    {
      hide ExtendDown, AlignedOffset;
      ghost var free := Contents();
      var grown := Block(ptr, freeBlocks[i].size + n);
      SetAt(i, grown);
      assert freeBlocks[i] == Contents()[i] == grown;
      if i > 0 && freeBlocks[i - 1].End() == ptr {
        assert freeBlocks[i - 1] == Contents()[i - 1] == free[i - 1];
        var joined := Block(freeBlocks[i - 1].addr, freeBlocks[i - 1].size + grown.size);
        SetAt(i - 1, joined);
        RemoveAt(i);
        GrownDown(free, i, ptr, n, grown, joined);
      } else {
        assert i > 0 ==> freeBlocks[i - 1] == Contents()[i - 1] == free[i - 1];
        GrownDown(free, i, ptr, n, grown, if i > 0 then Block(free[i - 1].addr, free[i - 1].size + grown.size)
          else grown);
      }
    }

    /** Extend block `i` by the released bytes when they touch it. */
    method JoinWith(i: nat, ptr: nat, n: pos) returns (done: bool)
      requires Valid() && i < nFreeBlocks
      modifies this`nFreeBlocks, freeBlocks
      ensures Valid()
      ensures done ==>
        FreeFrom(old(Contents()), i, ptr, n).Some? && Contents() == FreeFrom(old(Contents()), i, ptr, n).value
      ensures !done ==>
        Contents() == old(Contents()) && FreeFrom(Contents(), i, ptr, n) == FreeFrom(Contents(), i + 1, ptr, n)
    {
      var block := freeBlocks[i];
      if block.addr + block.size == ptr {
        GrowUp(i, n);
        done := true;
      } else if ptr + n == block.addr {
        GrowDown(i, ptr, n);
        done := true;
      } else {
        done := false;
      }
    }

    /** `false` is the "out of free blocks" abort. */
    method FreeBytes(ptr: nat, size: pos) returns (ok: bool)
      requires Valid()
      modifies this`nFreeBlocks, freeBlocks
      ensures Valid()
      ensures match FreeList.Free(old(Contents()), ptr, Padded(size, alignment))
        case None => !ok && Contents() == old(Contents())
        case Some(free) => ok && Contents() == free
    {
      var n := AlignedOffset(0, size, alignment);
      assert n == Padded(size, alignment);
      ghost var before := Contents();
      var i := 0;
      while i < nFreeBlocks
        invariant Valid() && i <= nFreeBlocks && Contents() == before
        invariant FreeFrom(before, 0, ptr, n) == FreeFrom(before, i, ptr, n)
        decreases |before| - i
      {
        var done := JoinWith(i, ptr, n);
        if done {
          return true;
        }
        i := i + 1;
      }
      if nFreeBlocks >= MAX_FREE_BLOCKS {
        return false;
      }
      var insertPos := 0;
      while insertPos < nFreeBlocks && freeBlocks[insertPos].addr < ptr
        invariant insertPos <= nFreeBlocks
        invariant InsertPos(before, ptr, 0) == InsertPos(before, ptr, insertPos)
      {
        insertPos := insertPos + 1;
      }
      InsertAt(insertPos, Block(ptr, n));
      ok := true;
    }

    /** Make room at `at` by moving the later entries up. */
    method InsertAt(at: nat, b: Block)
      requires Valid() && at <= nFreeBlocks < MAX_FREE_BLOCKS
      modifies this`nFreeBlocks, freeBlocks
      ensures Valid() && Contents() == old(Contents()[..at] + [b] + Contents()[at..])
    {
      ghost var before := Contents();
      ghost var target := before[..at] + [b] + before[at..];
      var i := nFreeBlocks;
      while i > at
        invariant at <= i <= nFreeBlocks == |before|
        invariant forall k :: 0 <= k < i ==> freeBlocks[k] == before[k]
        invariant forall k :: i < k <= nFreeBlocks ==> freeBlocks[k] == target[k]
      {
        assert target[i] == before[i - 1];
        freeBlocks[i] := freeBlocks[i - 1];
        i := i - 1;
      }
      freeBlocks[at] := b;
      nFreeBlocks := nFreeBlocks + 1;
      assert forall k :: 0 <= k < at ==> target[k] == before[k];
      assert Contents() == target;
    }
  }
}
