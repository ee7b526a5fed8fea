/** The graph allocator: counters and tensor fields updated in place, memory taken from and given
    back to a tensor allocator. The hash table is an injective map from tensors to slots, so
    tensors are named by their slot. */
module Galloc {
  import opened Wrappers
  import opened FreeList
  import opened Arenas
  import opened Tallocr
  import opened GraphAlloc

  lemma NodeInGraph(g: Graph, nodes: seq<nat>, i: nat)
    requires NodesOk(g, nodes) && i < |nodes|
    ensures nodes[i] < |g|
  {
  }

  class GraphAllocator {
    const g: Graph
    const talloc: TensorAllocator
    var nChildren: seq<int>
    var nViews: seq<int>
    var data: seq<Option<nat>>
    var viewSrc: seq<Option<nat>>
    var buffer: seq<Buffer>

    ghost predicate Valid()
      reads this, talloc, talloc.freeBlocks
    {
      talloc.Valid() && Fits(g, View())
    }

    ghost function View(): State
      reads this, talloc, talloc.freeBlocks
      requires talloc.Valid()
    {
      State(Heap(talloc.base, talloc.alignment, talloc.Contents(), talloc.maxSize), nChildren, nViews, data, viewSrc,
        buffer)
    }

    /** The abort or the new state that a specification function asks for. */
    ghost predicate Became(r: Option<State>, ok: bool)
      reads this, talloc, talloc.freeBlocks
      requires talloc.Valid()
    {
      ok == r.Some? && (ok ==> View() == r.value)
    }

    constructor (g: Graph, talloc: TensorAllocator, data: seq<Option<nat>>, buffer: seq<Buffer>)
      requires GraphOk(g) && talloc.Valid() && |data| == |buffer| == |g|
      ensures Valid() && this.g == g && this.talloc == talloc
      ensures View() == State(Heap(talloc.base, talloc.alignment, talloc.Contents(), talloc.maxSize),
                              seq(|g|, _ => 0), seq(|g|, _ => 0), data,
                                seq(|g|, i requires 0 <= i < |g| => g[i].viewSrc), buffer)
    {
      this.g, this.talloc, this.data, this.buffer := g, talloc, data, buffer;
      nChildren, nViews := seq(|g|, _ => 0), seq(|g|, _ => 0);
      viewSrc := seq(|g|, i requires 0 <= i < |g| => g[i].viewSrc);
      new;
      assert Fits(g, View()) by {
        forall v | 0 <= v < |g| && viewSrc[v].Some?
          ensures viewSrc[v].value < |g|
        {
          assert ViewOk(g, v);
        }
      }
    }

    method InitView(v: nat) returns (ok: bool)
      requires Valid() && v < |g|
      modifies this`data, this`buffer
      ensures talloc.Valid() && Became(GraphAlloc.InitView(g, old(View()), v), ok) && (!ok ==> View() == old(View()))
    {
      if viewSrc[v].None? || data[viewSrc[v].value].None? {
        return false;
      }
      var r := viewSrc[v].value;
      data := data[v := Some(data[r].value + g[v].offs)];
      buffer := buffer[v := buffer[r]];
      ok := true;
    }

    /** Look for a source whose memory `t` may take over. */
    method FindSource(t: nat) returns (reuse: Option<nat>)
      requires Valid() && t < |g|
      ensures reuse == FindReuse(g, View(), t, 0)
    {
      ghost var s := View();
      for j := 0 to |g[t].src|
        invariant View() == s
        invariant FindReuse(g, s, t, 0) == FindReuse(g, s, t, j)
      {
        var p := g[t].src[j];
        if buffer[p] != Own {
          continue;
        }
        if data[p].Some? && nChildren[p] == 1 && nViews[p] == 0 && g[t].layout == g[p].layout {
          if viewSrc[p].Some? {
            var q := viewSrc[p].value;
            if nViews[q] == 1 && nChildren[q] == 0 && data[q] == data[p] {
              return Some(q);
            }
          } else {
            return Some(p);
          }
        }
      }
      reuse := None;
    }

    method AllocateNode(t: nat) returns (ok: bool)
      requires Valid() && t < |g|
      modifies this, talloc, talloc.freeBlocks
      ensures talloc.Valid() && Became(GraphAlloc.AllocateNode(g, old(View()), t), ok)
      ensures ok ==> Valid()
    {
      ghost var s := View();
      if data[t].Some? {
        return true;
      }
      if viewSrc[t].Some? {
        ok := InitView(t);
        return;
      }
      if g[t].canInplace {
        var reuse := FindSource(t);
        if reuse.Some? {
          ghost var p := FindReuseSource(g, s, t, 0);
          var r := reuse.value;
          viewSrc := viewSrc[t := Some(r)];
          nViews := nViews[r := nViews[r] + 1];
          ok := InitView(t);
          return;
        }
      }
      ok := TakeMemory(t);
    }

    method TakeMemory(t: nat) returns (ok: bool)
      requires Valid() && t < |g|
      modifies this`data, this`buffer, talloc, talloc.freeBlocks
      ensures talloc.Valid() && Became(HeapPlace(g, old(View()), t), ok)
    {
      if talloc.nFreeBlocks == 0 {
        // the source would read the entry before the first block: the model stops here
        return false;
      }
      var addr := talloc.AllocBytes(g[t].size);
      if addr.None? {
        return false;
      }
      data := data[t := addr];
      buffer := buffer[t := Own];
      ok := true;
    }

    method FreeNode(t: nat) returns (ok: bool)
      requires Valid() && t < |g|
      modifies talloc, talloc.freeBlocks
      ensures talloc.Valid() && Became(GraphAlloc.FreeNode(g, old(View()), t), ok)
    {
      if buffer[t] != Own || data[t].None? {
        return true;  // memory of another buffer
      }
      ok := talloc.FreeBytes(data[t].value, g[t].size);
    }

    method UpdateParent(p: nat) returns (ok: bool)
      requires Valid() && p < |g|
      modifies this`nChildren, this`nViews, talloc, talloc.freeBlocks
      ensures talloc.Valid() && Became(GraphAlloc.UpdateParent(g, old(View()), p), ok)
      ensures ok ==> Valid()
    {
      nChildren := nChildren[p := nChildren[p] - 1];
      ok := true;
      if nChildren[p] == 0 && nViews[p] == 0 {
        if viewSrc[p].Some? {
          var q := viewSrc[p].value;
          nViews := nViews[q := nViews[q] - 1];
          if nViews[q] == 0 && nChildren[q] == 0 {
            ok := FreeNode(q);
          }
        } else {
          ok := FreeNode(p);
        }
      }
    }

    method CountNode(n: nat) returns (ok: bool)
      requires Valid() && n < |g|
      modifies this
      ensures talloc.Valid() && Became(GraphAlloc.CountNode(g, old(View()), n), ok)
      ensures ok ==> Valid()
    {
      if viewSrc[n].Some? {
        var q := viewSrc[n].value;
        nViews := nViews[q := nViews[q] + 1];
        if buffer[n] == NoBuffer && data[n].Some? {
          ok := InitView(n);
          if !ok {
            return;
          }
        }
      }
      ok := CountSources(n);
    }

    method CountSources(n: nat) returns (ok: bool)
      requires Valid() && n < |g|
      modifies this
      ensures talloc.Valid() && Became(CountEdges(g, old(View()), n, 0), ok)
      ensures ok ==> Valid()
    {
      hide GraphOk;
      ghost var s := View();
      for j := 0 to |g[n].src|
        invariant Valid()
        invariant CountEdges(g, s, n, 0) == CountEdges(g, View(), n, j)
      {
        SourceInGraph(g, n, j);
        var p := g[n].src[j];
        nChildren := nChildren[p := nChildren[p] + 1];
        if viewSrc[p].Some? && buffer[p] == NoBuffer && data[p].Some? {
          ok := InitView(p);
          if !ok {
            return;
          }
        }
      }
      ok := true;
    }

    method Place(n: nat) returns (ok: bool)
      requires Valid() && n < |g|
      modifies this, talloc, talloc.freeBlocks
      ensures talloc.Valid() && Became(PlaceFrom(g, old(View()), n, 0), ok)
      ensures ok ==> Valid()
    {
      hide GraphOk, GraphAlloc.AllocateNode;
      ghost var s := View();
      for j := 0 to |g[n].src|
        invariant Valid()
        invariant PlaceFrom(g, s, n, 0) == PlaceFrom(g, View(), n, j)
      {
        SourceInGraph(g, n, j);
        ok := AllocateNode(g[n].src[j]);
        if !ok {
          return;
        }
      }
      ok := AllocateNode(n);
    }

    method UpdateSources(n: nat) returns (ok: bool)
      requires Valid() && n < |g|
      modifies this`nChildren, this`nViews, talloc, talloc.freeBlocks
      ensures talloc.Valid() && Became(UpdateFrom(g, old(View()), n, 0), ok)
      ensures ok ==> Valid()
    {
      hide GraphOk, GraphAlloc.UpdateParent;
      ghost var s := View();
      for j := 0 to |g[n].src|
        invariant Valid()
        invariant UpdateFrom(g, s, n, 0) == UpdateFrom(g, View(), n, j)
      {
        SourceInGraph(g, n, j);
        ok := UpdateParent(g[n].src[j]);
        if !ok {
          return;
        }
      }
      ok := true;
    }

    method CountAll(nodes: seq<nat>) returns (ok: bool)
      requires Valid() && NodesOk(g, nodes)
      modifies this
      ensures talloc.Valid() && Became(CountFrom(g, old(View()), nodes, 0), ok)
      ensures ok ==> Valid()
    {
      hide GraphOk;
      ghost var s := View();
      for i := 0 to |nodes|
        invariant Valid()
        invariant CountFrom(g, s, nodes, 0) == CountFrom(g, View(), nodes, i)
      {
        ok := CountNode(nodes[i]);
        if !ok {
          return;
        }
      }
      ok := true;
    }

    method UpdateNodes(nodes: seq<nat>, parse: seq<int>, from: nat, to: nat) returns (ok: bool)
      requires Valid() && NodesOk(g, nodes) && ParseOk(nodes, parse)
      requires from <= to <= (if parse == [] then |nodes| else |parse|)
      requires parse != [] ==> forall i :: from <= i < to ==> parse[i] != -1
      modifies this`nChildren, this`nViews, talloc, talloc.freeBlocks
      ensures talloc.Valid() && Became(UpdateRange(g, old(View()), nodes, parse, from, to), ok)
      ensures ok ==> Valid()
    {
      hide GraphOk, NodesOk, UpdateFrom;
      ghost var s := View();
      for i := from to to
        invariant Valid()
        invariant UpdateRange(g, s, nodes, parse, from, to) == UpdateRange(g, View(), nodes, parse, i, to)
      {
        var nodeI := if parse == [] then i else parse[i];
        NodeInGraph(g, nodes, nodeI);
        ok := UpdateSources(nodes[nodeI]);
        if !ok {
          return;
        }
      }
      ok := true;
    }

    /** Plan a graph. With a parse sequence, nodes are placed in its order and memory is given back
        only at barriers; without one, after every node. */
    method AllocGraph(nodes: seq<nat>, parse: seq<int>) returns (ok: bool)
      requires Valid() && NodesOk(g, nodes) && ParseOk(nodes, parse)
      modifies this, talloc, talloc.freeBlocks
      ensures talloc.Valid() && Became(GraphAlloc.AllocGraph(g, old(View()), nodes, parse), ok)
    {
      hide GraphOk, NodesOk, UpdateRange, PlaceFrom, UpdateFrom, CountFrom, View;
      ok := CountAll(nodes);
      if !ok {
        return;
      }
      ghost var s := View();
      var lastBarrierPos := 0;
      var n := if parse != [] then |parse| else |nodes|;
      var ind := 0;
      while ind < n
        invariant Valid() && lastBarrierPos <= ind <= n
        invariant parse == [] ==> lastBarrierPos == ind
        invariant parse != [] ==> forall i :: lastBarrierPos <= i < ind ==> parse[i] != -1
        invariant Loop(g, s, nodes, parse, 0, 0) == Loop(g, View(), nodes, parse, ind, lastBarrierPos)
      {
        if parse == [] || parse[ind] != -1 {
          NodeInGraph(g, nodes, if parse == [] then ind else parse[ind]);
          ok := Place(nodes[if parse == [] then ind else parse[ind]]);
          if !ok {
            return;
          }
        }
        if parse == [] || parse[ind] == -1 {
          ok := UpdateNodes(nodes, parse, if parse == [] then ind else lastBarrierPos,
            if parse == [] then ind + 1 else ind);
          if !ok {
            return;
          }
          lastBarrierPos := ind + 1;
        }
        ind := ind + 1;
      }
      ok := true;
    }
  }
}
