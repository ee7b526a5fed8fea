# A verified model of memory planning, scheduling, quantisation and small protocols in ggml

This Dafny project models the parts of the C and C++ code that are hardest to get right by reading,
and proves what they are for. `dafny verify dfyconfig.toml` checks all of it.

| part | modules | main results |
|---|---|---|
| free list of the tensor allocator | `FreeList`, `Arenas`, `Tallocr` | the arena is tiled after every sequence; the measured size suffices |
| graph allocator | `GraphAlloc`, `GraphInvariant`, `GraphPlace`, `GraphRelease`, `GraphPlan`, `GraphMeaning`, `GraphReplay`, `GraphExample`, `Galloc` | sharing memory does not change what a graph computes, in any order within barrier groups; a measured plan replays in real memory |
| multi-backend scheduler | `Sched`, `SchedMeaning` | splitting, copying and rewiring preserve what a graph computes; splitting succeeds exactly within its limits |
| searches for scales | `WeightedFit`, `QkxQuants`, `SymmetricQuants` | closed forms are optimal; searches keep the best they try |
| super-blocks of 256 | `KBlocks`, `KMeaning`, `KDequant`, `KDots`, `KLanes`, `KActivations`, `KPacking` | integer dot products are exact and do not wrap; packing loses nothing; word-parallel decoding is right |
| blocks of 32 | `SmallBlocks`, `SmallFormats`, `SmallRows`, `SmallExact`, `SimdDot` | quantising a dequantised row changes nothing; the vector dot product is exact, and exactly when |
| layer pipeline over MPI | `Mpi`, `MpiRing` | the ring never deadlocks and gives the sequential result |
| OpenCL work-group kernel | `WorkGroup`, `WorkGroupRun`, `WorkGroupFormats` | race-free; the first cell ends as the dot product over the quantised row |
| fetch-and-modify atomics | `CasLoop` | linearizable and lock-free |

`Wrappers` holds the option type, `Reals` absolute values, products and dot products of reals.

The form follows the source. Algorithms that the source runs on values or in expressions are
functions; objects it updates in place are classes (`TensorAllocator`, `GraphAllocator`,
`Scheduler`, `Graph`) and buffers it fills are arrays. Each method is proved to do what a function
of the old state says, and the properties are proved of that function. Protocols between threads,
ranks or work-items are transition systems, and their properties hold of every run.

## Hypotheses

- *Arithmetic.* Floating-point numbers are reals and block scales are stored unrounded. Integers are
  unbounded except where a width matters: the dot products of super-blocks compute in `int8`,
  `int16` and `int32` types whose bounds are checked at every operation, and packed data are
  bit-vectors. `nearest_int` rounds to the nearest integer, ties to even. `QK_K` is 256.
- *Tensor allocator.* Sizes are positive and alignments positive. An operation the source would
  abort, or one on an empty free list (where line 109 of ggml-alloc.c would index -1), ends a run.
  Tensors are given by identity, and the hash table by distinct slots.
- *Graph allocator.* Tensors are numbered in topological order. Leaves have memory before the graph
  is allocated. Views are nodes, lie inside a source that is not itself a view, and only an in-place
  node writes through a view. One tensor allocator serves the graph. Each operation reads its sources
  before it writes. An execution order has all nodes of a barrier group before those of the next.
- *Scheduler.* Buffers belong to known backends, with one allocator each. View operations have one
  source; other views sit on the allocator of their source. Some node has no view source. Every node
  can be assigned by the first two passes. The assignment starts empty. Where the
  source aborts, at the limit on splits or on inputs of a split, `ok` is false; `Sched.WithinLimits`
  says when, in terms of the graph.
- *Scale searches.* Weights are not negative, and the steps tried by `make_qkx2_quants` are positive
  (`rmin + nmax > 0`, `rdelta >= 0`), as all callers have it.
- *MPI.* A layer reads earlier work only through its input, at its first or second source; only the
  first node reads the tokens; all ranks hold the same leaves otherwise. Message sizes agree.
- *Work group.* The group size is a power of two; the number of columns is even and a multiple of the
  block size.
- *Atomics.* A load and a compare-and-exchange are atomic steps on one cell, and other writers of
  the cell use the same operations.

The comments at lines 1471 and 1822 of ggml-quants.c say that scales are always positive once the
minimum is deducted; that they are never negative is a theorem here.

The comment at lines 131-137 of ggml-mpi.c promises each rank a slice for any number of layers; the
code keeps the promise exactly when `Mpi.Divisible` holds. With five layers on four ranks
(`Mpi.LayersRunOut`) the last two ranks of the ring, 3 and 0, get none. Rank 0 finds no input layer
and leaves the graph alone. Rank 3 finds no output layer, but the code adds one to the index before
it tests it, so -1 becomes 0 and the test passes: by the contract of `Mpi.Graph.CutSlice`, `ok` holds
and the node count is -4.

## Model

| member | source | states |
|---|---|---|
| `FreeList.AlignedOffsetIsLeast` | ggml-alloc.c:21-25 | The offset added is the least one that makes the sum with the base a multiple of the alignment |
| `FreeList.AllocTakesBestBlock` | ggml-alloc.c:93-117 | The address is that of a smallest block with room among all before the last, the last of these; of the last block when none before it has room |
| `FreeList.OneBestBlock` | ggml-alloc.c:93-117 | There is only one such block |
| `FreeList.AllocTakesFreeBytes` | ggml-alloc.c:82-152 | An allocation is aligned, takes bytes that were all free, removes exactly those from the list, and keeps the list well formed |
| `FreeList.AllocFailsOnlyWhenNothingFits` | ggml-alloc.c:93-117 | It fails exactly when no block of the list, the last included, is large enough |
| `FreeList.MergeWithPreviousIsDead` | ggml-alloc.c:190-210 | When a freed range joins the end of no earlier block, the branch that merges a grown block with the block before it cannot be taken |
| `FreeList.FreeReturnsBytes` | ggml-alloc.c:156-225 | Freeing a range adds exactly its bytes to the list and keeps it sorted, non-empty, disjoint and never adjacent; it succeeds while the table has room |
| `FreeList.FreeKeepsAlignment` | ggml-alloc.c:156-225 | Freeing an aligned range keeps every block start aligned |
| `FreeList.SameBytesSameList` | ggml-alloc.c:82-225 | Two well-formed lists with the same bytes are the same list: the free list is a canonical form |
| `FreeList.FreeUndoesAlloc` | ggml-alloc.c:82-225 | Freeing what was just allocated gives back the very same list |
| `Arenas.PaddedIsLeast` | ggml-alloc.c:82-83 | Sizes are padded to the least multiple of the alignment |
| `Arenas.ResetTiles` | ggml-alloc.c:227-237 | A reset arena is one free block after base alignment, and satisfies the tiling invariant |
| `Arenas.AllocTiles` | ggml-alloc.c:82-152 | An allocation keeps the tiling: free blocks and live padded allocations cover the arena without overlap |
| `Arenas.FreeTiles` | ggml-alloc.c:156-225 | A release keeps the tiling |
| `Arenas.RunTiles` | ggml-alloc.c:82-237 | The tiling holds after every sequence of allocations and releases |
| `Arenas.FreeBlocksBounded` | ggml-alloc.c:212-224 | There are at most as many free blocks as live allocations, plus one |
| `Arenas.ReleaseSucceeds` | ggml-alloc.c:212-213 | With fewer than 256 live allocations a release never runs into the limit on free blocks |
| `Arenas.AllocMoved` | ggml-alloc.c:82-152 | An allocation picks the same offset in a measuring and in a real arena whose free lists have the same shape, and keeps that shape |
| `Arenas.FreeMoved` | ggml-alloc.c:156-225 | A release does the same to both |
| `Arenas.MeasuredSizeSuffices` | ggml-alloc.c:93-152 | Every sequence replays in any arena larger than the measured peak: same offsets, no failure, and the free list is never empty |
| `Arenas.CpuBufferSuffices` | ggml-backend.c:263-270 | A CPU buffer of the measured size, with its 64 spare bytes, is large enough wherever it lies (sizes: 917-922) |
| `Arenas.ExactSizeCanFail` | ggml-alloc.c:93-117 | A sequence that does not replay in an arena of exactly the measured size: best fit skips the last block |
| `Tallocr.TensorAllocator.constructor` | ggml-alloc.c:239-261 | A new allocator is a reset one |
| `Tallocr.TensorAllocator.Reset` | ggml-alloc.c:227-237 | The list is the single aligned block again; the peak is left as it was |
| `Tallocr.TensorAllocator.ChooseBlock` | ggml-alloc.c:93-117 | The loop finds the smallest block with room before the last, the last of several, and else the last block |
| `Tallocr.TensorAllocator.AllocBytes` | ggml-alloc.c:82-152 | In place on the array of blocks: the address is that of the best block, list and peak are those of `FreeList.Alloc`; it fails exactly when that does |
| `Tallocr.TensorAllocator.FreeBytes` | ggml-alloc.c:156-225 | In place, with its early returns: list and outcome are those of `FreeList.Free`; on failure nothing changes |
| `Tallocr.TensorAllocator.JoinWith` | ggml-alloc.c:174-210 | One round of the search for a neighbour |
| `Tallocr.TensorAllocator.RemoveAt` | ggml-alloc.c:125-133 | Shifts the blocks behind down by one |
| `Tallocr.TensorAllocator.InsertAt` | ggml-alloc.c:214-224 | Shifts the blocks behind up by one |
| `GraphAlloc.FindReuseSource` | ggml-alloc.c:476-509 | A parent is taken over only if it is owned and placed, its last consumer is this node, it has no views, and the layouts agree; through a view, only if the view starts where its source does and nothing else uses the source |
| `GraphAlloc.ReuseExactly` | ggml-alloc.c:476-509 | A source is taken over exactly when some source meets these conditions, and then it is the first that does |
| `GraphAlloc.TakesOverFirst` | ggml-alloc.c:474-509 | An in-place operation takes over the first such source: it becomes a view of it, or of what that is a view of, at its address; the heap is untouched |
| `GraphAlloc.GetsOwnMemory` | ggml-alloc.c:474-518 | Any other tensor without memory gets the best block; exactly its padded bytes leave the free list, the peak covers them, and it fails exactly when no block has room |
| `GraphAlloc.PlacedOrView` | ggml-alloc.c:469-474 | A tensor with memory is left alone; a view gets the address of its source plus its offset, and its buffer |
| `GraphAlloc.AllPlaced` | ggml-alloc.c:567-579 | After a node is placed all its sources and the node itself have memory, and addresses given before stay |
| `GraphAlloc.LoopIsPlan` | ggml-alloc.c:557-634 | Walking the parse sequence is the same as placing and counting off one barrier group after the other |
| `GraphAlloc.GroupBetween` | ggml-alloc.c:557-592 | The groups are the runs of nodes between barriers, each in its place, and the nodes after the last barrier are the tail |
| `GraphAlloc.SequentialIsPlan` | ggml-alloc.c:557-634 | Without a parse sequence every node is a group of its own |
| `GraphAlloc.AllocGraphByGroups` | ggml-alloc.c:528-636 | The whole allocation is the count of children and views followed by the groups |
| `Galloc.GraphAllocator.InitView` | ggml-alloc.c:449-467 | A view gets the buffer of its source and the address of its source plus its offset |
| `Galloc.GraphAllocator.FindSource` | ggml-alloc.c:476-512 | The search over the sources finds what `GraphAlloc.FindReuse` says |
| `Galloc.GraphAllocator.AllocateNode` | ggml-alloc.c:469-520 | Views, reuse in place, or fresh memory, as `GraphAlloc.AllocateNode` |
| `Galloc.GraphAllocator.CountAll` | ggml-alloc.c:532-555 | Children and views counted, views of placed sources initialised |
| `Galloc.GraphAllocator.UpdateParent` | ggml-alloc.c:608-629 | One child less, as `GraphAlloc.UpdateParent`; `GraphRelease.LastEdgeFrees` says what that does to counters and free bytes |
| `Galloc.GraphAllocator.UpdateNodes` | ggml-alloc.c:586-634 | The nodes since the last barrier, counted off in order |
| `Galloc.GraphAllocator.AllocGraph` | ggml-alloc.c:528-636 | The loops over nodes and parse sequence leave the state of `GraphAlloc.AllocGraph` |
| `GraphPlan.CountingStarts` | ggml-alloc.c:532-555 | After counting, `n_children` is the number of consumer edges of every tensor, `n_views` the number of its views, and the invariant holds |
| `GraphPlace.PlaceNode` | ggml-alloc.c:469-520 | Placing a node keeps the invariant, and what the members of its group write stays apart from what any of them reads |
| `GraphPlace.PlaceTaken` | ggml-alloc.c:488-509 | The invariant in the case of memory taken over in place |
| `GraphRelease.UpdateEdge` | ggml-alloc.c:597-629 | Counting off one edge keeps the invariant, and bytes return to the free list only if no tensor still to be read lies in them |
| `GraphRelease.GiveBack` | ggml-alloc.c:522-526 | Afterwards the free bytes are those before and the padded bytes of the tensor; none of these was free, and they belonged to a tensor nobody needs |
| `GraphRelease.LastEdgeFrees` | ggml-alloc.c:608-629 | When the last edge of a tensor without views is counted off, exactly its padded bytes become free if they are the allocator's; if it is a view, its source has one view less, and with the last one and no children the source's bytes become free; otherwise the heap is unchanged; it fails only when the table of free blocks is full |
| `GraphPlan.WholeGroup` | ggml-alloc.c:557-634 | A barrier group placed and counted off keeps the invariant |
| `GraphPlan.CountsAtEnd` | ggml-alloc.c:557-634 | At the end every node has memory, and `n_children` counts only the edges of nodes after the last barrier |
| `GraphMeaning.WritesApart` | ggml-alloc.c:557-634 | Within a group no node writes bytes that another one reads or writes |
| `GraphMeaning.RunGroup` | ggml-alloc.c:557-634 | The nodes of a group may run in any order: all compute the right values |
| `GraphMeaning.SharedMemoryPreservesMeaning` | ggml-alloc.c:469-636 | With barriers between dependent nodes: in the memory chosen, and in any order within each group, every node computes the value it has when every tensor owns its memory; results are still there at the end |
| `GraphMeaning.SequentialRunPreservesMeaning` | ggml-alloc.c:469-636 | The same for graph order without a parse sequence |
| `GraphReplay.FreeReplays` | ggml-alloc.c:156-225 | Releasing any range that is in use, even part of an allocation, does the same to two heaps of the same shape |
| `GraphReplay.AllocReplays` | ggml-alloc.c:82-152 | An allocation gets the same offset in both |
| `GraphReplay.MeasuredPlanReplays` | ggml-alloc.c:528-636 | A graph planned on a measuring heap is planned on any heap of the same shape with more room than the measured peak: no failure, the same offset for every tensor, the same counters and takeovers |
| `GraphReplay.MeasuredGraphComputes` | ggml-alloc.c:528-636 | And the graph so planned computes its private-memory values in the real memory |
| `GraphExample.SecondTakesOver` | ggml-alloc.c:476-509 | A concrete node that takes over the memory of its source |
| `GraphExample.MemoryIsShared` | ggml-alloc.c:528-636 | A concrete graph that meets all hypotheses and in which two nodes share memory |
| `GraphExample.ReplayedElsewhere` | ggml-alloc.c:528-636 | Measured once, the same graph is planned in an arena one byte larger than the peak |
| `Sched.BestWins` | ggml-backend.c:501-524 | Of the sources with a backend, the one followed has none after it of higher priority and at least its size, and none before it of at least its priority and its size |
| `Sched.BestFollows` | ggml-backend.c:501-524 | The scan starts at the first source with a backend and moves on to the next one of strictly higher priority that is not smaller, as often as there is one; the backend at the end is the result |
| `Sched.FollowsOne` | ggml-backend.c:501-524 | These rules leave one answer |
| `Sched.AssignedIffAnchored` | ggml-backend.c:487-660 | After the second pass a tensor has an allocator exactly when it or a transitive source lies in a buffer, or is a view of one that does |
| `Sched.ViewsFollowRoots` | ggml-backend.c:601-678 | Every view is assigned like the tensor whose memory it lies in |
| `Sched.Scheduler.AssignFromBuffers` | ggml-backend.c:601-627 | First pass: a tensor in a buffer is on that buffer's backend, a view is where its source lies, a node with neither follows its sources, of which only those in buffers count; anything else stays without |
| `Sched.Scheduler.AssignFromSources` | ggml-backend.c:630-660 | Second pass: nodes left over follow their sources, of which all assigned so far count |
| `Sched.Scheduler.AssignRest` | ggml-backend.c:663-677 | Third pass: assigned tensors keep their allocator and every gap takes that of its first user; then every source of every node is assigned |
| `Sched.FilledGaps` | ggml-backend.c:663-677 | What the third pass fills: exactly the sources without an allocator, each by the first node that reads it |
| `Sched.Scheduler.RewireArgument` | ggml-backend.c:706-742 | A source on another backend is replaced by its copy there; at most one copy is made for each tensor and backend; it fails exactly when the source is foreign and the split is full of inputs |
| `Sched.Scheduler.CutGraph` | ggml-backend.c:680-791 | Fourth pass: succeeds exactly when no run of nodes on one backend uses more foreign arguments than a split takes and the backend changes fewer times than there are splits; there is one split more than changes; the splits tile the nodes in order; all nodes of a split but view operations sit on its allocator, with all their arguments; inputs are exactly the foreign arguments |
| `Sched.LimitsByRuns` | ggml-backend.c:689-727 | The limits checked while cutting are limits on the graph: on every run of nodes on one backend, and on the number of changes |
| `Sched.Scheduler.SplitGraph` | ggml-backend.c:581-791 | The four passes together: every tensor is on the backend the rules of the first two passes give it, gaps are filled, and cutting succeeds exactly within the limits |
| `SchedMeaning.CopyingRefreshes` | ggml-backend.c:815-831 | After a split's inputs are copied every copy holds what its original holds |
| `SchedMeaning.SplitRuns` | ggml-backend.c:833-845 | A split computes what its nodes compute in the original graph |
| `SchedMeaning.SplittingPreservesMeaning` | ggml-backend.c:680-850 | Copying inputs and running nodes, split after split, computes the same values and contents as the original graph run in order on one memory |
| `SchedMeaning.InputsProducedEarlier` | ggml-backend.c:721-742 | The memory of every input belongs to a leaf or to a node of an earlier split |
| `WeightedFit.ErrorIsQuadratic` | ggml-quants.c:1412-1441 | The weighted squared error is a quadratic form in scale and minimum whose coefficients are the five running sums |
| `WeightedFit.NearestIntIs` | ggml-quants.c:1191-1196 | Rounding finds the nearest whole number, the even one of two, and there is no other |
| `WeightedFit.ClosedFormIsOptimal` | ggml-quants.c:1416-1427 | For fixed levels the closed form minimises the weighted squared error over all scales and all minima up to zero |
| `WeightedFit.CovariancePositive` | ggml-quants.c:1416-1421 | Weighted Chebyshev inequality: levels that follow the values have non-negative covariance with them, positive when the levels differ |
| `WeightedFit.ClosedFormScale` | ggml-quants.c:1416-1427 | So the scale of the closed form is positive, as the comment at 1471 expects, and its minimum lies below the greatest value |
| `QkxQuants.MakeQkx2Quants` | ggml-quants.c:1364-1443 | The result is what is kept last. Kept first is the rounding between minimum and maximum. Step i rounds the values, above the minimum kept so far, with a scale that takes the range to `rmin + rdelta * i + nmax`; if these levels vary and their least squares fit has a smaller error, squared or absolute, it replaces what is kept. So the error is at most that of every step's fit. Levels fit, the scale is never negative, the minimum never positive; a block of one value is exact |
| `QkxQuants.SearchStep` | ggml-quants.c:1404-1440 | One step, in these terms, for every scale and all levels that meet the description |
| `QkxQuants.AtMostAnyFit` | ggml-quants.c:1404-1440 | With squared errors the result is no worse than the levels of any step with any scale and any minimum up to zero |
| `QkxQuants.SearchIsTried` | ggml-quants.c:1400-1441 | What is kept is plain rounding or one of the candidates tried, with the optimum for its levels |
| `QkxQuants.TryStep` | ggml-quants.c:1404-1424 | One candidate: its levels are those its step gives; a fit is found exactly when the denominator of the closed form is positive; then its scale is positive, its minimum at most zero, and both are optimal for these levels |
| `QkxQuants.FitIsOptimal` | ggml-quants.c:1419-1427 | What the code computes as scale and minimum is the optimum for the levels of the candidate |
| `SymmetricQuants.BestScale` | ggml-quants.c:1198-1319 | For fixed levels the quotient of the two sums is the best scale |
| `SymmetricQuants.LargerQuotientIsBetter` | ggml-quants.c:1251-1256 | The comparison of cross products that the code makes holds exactly when the error is smaller |
| `SymmetricQuants.ImproveOne` | ggml-quants.c:1288-1303 | The level is changed exactly when the first moment of the other levels is positive and the error of the best scale falls; it becomes the number that solves `v * a == x * b` for the moments of the others, rounded; the running sums stay true and the denominator positive |
| `SymmetricQuants.ProposalIsBest` | ggml-quants.c:1289-1293 | The number that the proposal rounds is the best of all real levels while the others stay fixed |
| `SymmetricQuants.PassInTurn` | ggml-quants.c:1286-1304 | A pass reconsiders the levels in order, each with those before it as they have become |
| `SymmetricQuants.PassDescends` | ggml-quants.c:1286-1304 | A pass changes nothing exactly when no single proposal improves; otherwise the error falls strictly |
| `SymmetricQuants.DescentEnds` | ggml-quants.c:1285-1308 | After any number of passes either no single proposal improves or every pass so far lowered the error |
| `SymmetricQuants.MakeQ3Quants` | ggml-quants.c:1262-1319 | The plain levels are the values rounded with the scale that takes the first value of largest magnitude to `-nmax`; the result is that of five passes over them, although the code stops at the first pass without change; scale the best for the levels, the error strictly below that of the plain ones unless nothing changed |
| `SymmetricQuants.MakeQxQuants` | ggml-quants.c:1198-1260 | The nineteen steps take the first value of largest magnitude to `-(nmax + step / 10)`; weights are squares or ones by the parity of the kind; for a positive kind the error is at most that of the levels of any step with any scale; for a negative one the scale is the mean of the best and the plain one; for zero the plain one |
| `KBlocks.UnpackScales3` | ggml-quants.c:1729-1734 | The masked 32-bit decoding of the twelve scale bytes gives, for each of the sixteen scales, what the per-index expression at 1638-1639 gives |
| `KBlocks.UnpackScales4` | ggml-quants.c:5647-5652 | The masked 32-bit decoding gives what `get_scale_min_k4` (1446-1453) gives for each scale and minimum |
| `KDequant.Dequantize2` | ggml-quants.c:1535-1585 | Writes the 256 values of the block, in order, and nothing else |
| `KDequant.Dequantize3` | ggml-quants.c:1711-1757 | The same for three bits, with the mask of high bits |
| `KDequant.Dequantize4` | ggml-quants.c:1917-1941 | The same for four bits |
| `KDequant.Dequantize5` | ggml-quants.c:2117-2150 | The same for five bits |
| `KDequant.Dequantize6` | ggml-quants.c:2263-2292 | The same for six bits, four interleaved planes |
| `KDequant.DequantizeRow2` | ggml-quants.c:1535-1585 | Any number of blocks: the row of reals the blocks stand for |
| `KDequant.DequantizeRow3` | ggml-quants.c:1711-1757 | Any number of blocks: the row of reals the blocks stand for |
| `KDequant.DequantizeRow4` | ggml-quants.c:1917-1941 | Any number of blocks: the row of reals the blocks stand for |
| `KDequant.DequantizeRow5` | ggml-quants.c:2117-2150 | Any number of blocks: the row of reals the blocks stand for |
| `KDequant.DequantizeRow6` | ggml-quants.c:2263-2292 | Any number of blocks: the row of reals the blocks stand for |
| `KDots.GroupShares` | ggml-quants.c:4089-4092 | Sums of products with `bsums` are sums over the elements, when `bsums` are the true group sums |
| `KDots.BlockDot` | ggml-quants.c:4081-4118 | One block: the two integer sums and the block scales give the sum of products of dequantised elements; when the activation scale is zero `bsums` may be anything |
| `KDots.AddGroup2` | ggml-quants.c:4103-4110 | A group of sixteen in 32-bit integers, without wrap-around |
| `KDots.Dot2` | ggml-quants.c:4078-4118 | Two bits: for any number of blocks the result is the dot product of the dequantised rows, without wrap-around |
| `KLanes.AddEight` | ggml-quants.c:4924-4926 | Eight products in sixteen bits, scaled and added in 32: nothing wraps, and the eight sums grow by the eight scaled terms |
| `KLanes.Decode3` | ggml-quants.c:4896-4915 | The eight-bit levels equal the dequantiser's |
| `KLanes.Decode5` | ggml-quants.c:6341-6352 | The eight-bit levels equal the dequantiser's |
| `KLanes.Decode6` | ggml-quants.c:7124-7134 | The eight-bit levels equal the dequantiser's |
| `KLanes.Dot3` | ggml-quants.c:4884-4936 | Three bits: exact |
| `KLanes.Dot4` | ggml-quants.c:5626-5679 | Four bits: exact, mins by way of `bsums` |
| `KLanes.Dot5` | ggml-quants.c:6327-6385 | Five bits: exact |
| `KLanes.Dot6` | ggml-quants.c:7111-7150 | Six bits: exact |
| `KActivations.QuantizeBlock8` | ggml-quants.c:2329-2363 | Scale zero exactly for all-zero input, and then `bsums` keep their old content; otherwise the scale takes the first element of largest magnitude to level -128, every level is the nearest, the even one of two, or 127 above that, and the group sums are true |
| `KActivations.QuantizeRow8` | ggml-quants.c:2329-2363 | The same for every block of the row; whatever the blocks held, afterwards they are fit for the integer dot products |
| `KPacking.PackScales3` | ggml-quants.c:1617-1631 | Six-bit scales packed into twelve bytes come back |
| `KPacking.PackScales4` | ggml-quants.c:1844-1857 | Six-bit scales and mins packed into twelve bytes come back |
| `KPacking.Pack2` | ggml-quants.c:1488-1523 | Two-bit levels with scales and mins come back |
| `KPacking.Pack3` | ggml-quants.c:1681-1699 | Three-bit levels with scales come back |
| `KPacking.Pack4` | ggml-quants.c:1906-1910 | Four-bit levels with scales and mins come back |
| `KPacking.Pack5` | ggml-quants.c:2045-2064 | Five-bit levels with scales and mins come back |
| `KPacking.Pack6` | ggml-quants.c:2232-2246 | Six-bit levels come back |
| `SmallBlocks.SymClose` | ggml-quants.c:428-460 | Levels fit; each value within half a step, or a step at the clipped end; the extreme value gets level zero |
| `SmallBlocks.SymProjection` | ggml-quants.c:428-460 | Quantising the dequantised values gives the same scale and levels |
| `SmallBlocks.OffsetClose` | ggml-quants.c:466-500 | Levels fit without clipping; each value within half a step; both ends exact |
| `SmallBlocks.OffsetProjection` | ggml-quants.c:466-500 | The same scale, minimum and levels again |
| `SmallBlocks.EightClose` | ggml-quants.c:607-630 | Levels lie between -127 and 127; each value within half a step |
| `SmallBlocks.EightProjection` | ggml-quants.c:607-630 | The same scale and levels again for one block |
| `SmallFormats.PackingBack` | ggml-quants.c:536-541 | Nibbles and fifth bits decode to the levels they were packed from |
| `SmallFormats.SymBlockProjection` | ggml-quants.c:428-545 | q4_0 and q5_0: quantising a dequantised block gives the same block, byte for byte |
| `SmallFormats.OffsetBlockProjection` | ggml-quants.c:466-599 | q4_1 and q5_1: the same |
| `SmallFormats.EightBlockProjection` | ggml-quants.c:607-1182 | q8_0: the same, through the values `dequantize_row_q8_0` writes |
| `SmallExact.SymBlockHolds` | ggml-quants.c:428-545 | q4_0 and q5_0: the scale takes the first value of largest magnitude to level 0; every level is the nearest, halves up, or the last one; zeros get scale zero |
| `SmallExact.OffsetBlockHolds` | ggml-quants.c:466-599 | q4_1 and q5_1: minimum the least value, scale the range over the number of steps, every level the nearest, halves up |
| `SmallExact.EightBlockHolds` | ggml-quants.c:607-630 | q8_0: the scale is the largest magnitude over 127, every level the nearest, halves away from zero |
| `SmallRows.SymBlockOf` | ggml-quants.c:428-545 | Each block of a row is the block of its 32 values |
| `SmallRows.OffsetBlockOf` | ggml-quants.c:466-599 | The same |
| `SmallRows.EightBlockOf` | ggml-quants.c:607-630 | The same |
| `SmallRows.SymRowProjection` | ggml-quants.c:428-545 | q4_0 and q5_0: the same for any row of blocks |
| `SmallRows.OffsetRowProjection` | ggml-quants.c:466-599 | q4_1 and q5_1: the same for any row of blocks |
| `SmallRows.EightRowProjection` | ggml-quants.c:607-1182 | q8_0: the same for any row of blocks; no level is -128 |
| `SmallRows.QuantizeRowQ4_0` | ggml-quants.c:428-460 | In place over any number of blocks: the row of blocks of the specification |
| `SmallRows.QuantizeRowQ4_1` | ggml-quants.c:466-500 | In place over any number of blocks: the row of blocks of the specification |
| `SmallRows.QuantizeRowQ5_0` | ggml-quants.c:506-549 | In place over any number of blocks: the row of blocks of the specification |
| `SmallRows.QuantizeRowQ5_1` | ggml-quants.c:555-599 | In place over any number of blocks, without the clipping the four-bit format has |
| `SmallRows.QuantizeRowQ8_0` | ggml-quants.c:607-630 | In place over any number of blocks: the row of blocks of the specification |
| `SmallRows.DequantizeRowQ4_0` | ggml-quants.c:1074-1092 | Writes the values the blocks stand for, block after block |
| `SmallRows.DequantizeRowQ4_1` | ggml-quants.c:1094-1113 | Writes the values the blocks stand for, block after block |
| `SmallRows.DequantizeRowQ5_0` | ggml-quants.c:1115-1139 | Writes the values the blocks stand for, block after block |
| `SmallRows.DequantizeRowQ5_1` | ggml-quants.c:1141-1166 | Writes the values the blocks stand for, block after block |
| `SmallRows.DequantizeRowQ8_0` | ggml-quants.c:1168-1182 | Writes the values the blocks stand for, block after block |
| `SimdDot.NoSaturation` | ggml-quants.c:54-63 | The saturating sum of two products of an absolute value and a signed byte never saturates |
| `SimdDot.LanesExactIff` | ggml-quants.c:54-63 | The eight lanes sum to the dot product exactly when no negative byte meets -128 |
| `SimdDot.WrongAtMinimum` | ggml-quants.c:54-63 | A block with -128 for which the vector code is wrong |
| `SimdDot.QuantisedAreRight` | ggml-quants.c:607-630 | Activations never below -127, as `SmallRows.EightRowProjection` shows of every quantised row, make every product right |
| `SimdDot.BitByteMeans` | ggml-quants.c:94-104 | `bytes_from_bits_32` spreads bit j to byte j |
| `SimdDot.VectorsAreLevels` | ggml-quants.c:2593-2597 | The vectors hold the levels moved down by half their range (five bits: 3151-3154) |
| `SimdDot.DotVectors` | ggml-quants.c:3670-3691 | For any number of blocks the eight real lanes sum to the scalar result |
| `SimdDot.DotScalar` | ggml-quants.c:3714-3724 | The scalar loop of q8_0 |
| `SimdDot.DotPaired` | ggml-quants.c:2800-2817 | The scalar loop that takes both halves of a packed block at once gives, for any number of blocks, the dot product of the unpacked levels with their scales (five bits: 3265-3287) |
| `SimdDot.UnpackedValues` | ggml-quants.c:2800-2817 | The unpacked levels stand for the values the dequantiser gets from the block |
| `SimdDot.ProductsOfValues` | ggml-quants.c:2800-2817 | In a block the scaled sum of products of levels is the dot product of the dequantised values |
| `SimdDot.DotOfRows` | ggml-quants.c:3714-3724 | Over all blocks the scalar result is the dot product of the two dequantised rows |
| `SimdDot.PackedDotOfRows` | ggml-quants.c:2800-2817 | And so it is for rows packed in four or five bits |
| `Mpi.SlicesExistIff` | ggml-mpi.c:155-171 | Every rank gets a non-empty slice exactly when `(size - 1) * n_per_node < n_layers` |
| `Mpi.LayersRunOut` | ggml-mpi.c:155-171 | Five layers on four ranks: rank 0 finds no input and rank 3 gets an end before its start |
| `Mpi.SliceRange` | ggml-mpi.c:155-168 | With the least number of layers for each rank that is enough: where the slice of each rank starts and ends, in terms of the layer inputs, missing ones counting as node -1 |
| `Mpi.SlicesMeet` | ggml-mpi.c:155-171 | The last node of a slice is the input of the next |
| `Mpi.EachNodeOnce` | ggml-mpi.c:130-137 | Every node is computed by exactly one rank |
| `Mpi.SequentialSolves` | ggml-mpi.c:183-186 | The sequential values solve the equations of the graph |
| `Mpi.SliceRuns` | ggml-mpi.c:173-193 | The shifted and rewired slice, given its input, computes the sequential values |
| `Mpi.Graph.Attach` | ggml-mpi.c:173-181 | In place: the first two sources that name the slice's input are redirected |
| `Mpi.Graph.Shift` | ggml-mpi.c:183-187 | In place: the nodes of the slice follow node 0, in order |
| `Mpi.Graph.CutSlice` | ggml-mpi.c:154-196 | It succeeds exactly when both indices pass the tests of the source; then the graph is the rank's slice, and its node count the difference of the indices, even when that is not positive; otherwise the graph is unchanged |
| `MpiRing.StepKeepsInv` | ggml-mpi.c:139-152 | Every send, receive and computation keeps the invariant of ranks and channels |
| `MpiRing.NoDeadlock` | ggml-mpi.c:139-152 | Before the end some rank can always move, even with synchronous sends |
| `MpiRing.PipelineIsSequential` | ggml-mpi.c:105-216 | Every run has at most six steps for each rank, can go on to the end, and leaves each rank with the sequential values of its nodes |
| `WorkGroup.ElementOfColumn` | ggml-opencl.cpp:760-762 | Block and quant index lead to the column's own element |
| `WorkGroup.PairsCoverRow` | ggml-opencl.cpp:759-771 | The pairs of columns use every column once |
| `WorkGroup.ItemsSharePairs` | ggml-opencl.cpp:759-771 | The strides of the items share the pairs among them |
| `WorkGroup.HalvesAdded` | ggml-opencl.cpp:776-781 | One level of the tree adds the upper half to the lower |
| `WorkGroupRun.MoveKeepsInv` | ggml-opencl.cpp:757-781 | Every single access to shared memory keeps the invariant |
| `WorkGroupRun.ReleaseKeepsInv` | ggml-opencl.cpp:774-780 | At every barrier the sum carries over to the next level |
| `WorkGroupRun.NoRace` | ggml-opencl.cpp:757-781 | Between barriers no item is about to write a cell that another is about to read or write |
| `WorkGroupRun.KernelComputesRow` | ggml-opencl.cpp:747-786 | For every power-of-two size, every order of accesses and every dequantiser that gets the values of the row: the run is bounded, never stuck, and ends with the dot product in the first cell |
| `WorkGroupFormats.PairQ4_0` | ggml-opencl.cpp:121-131 | The two elements of a pair of columns are what the dequantiser gets from their block |
| `WorkGroupFormats.PairQ4_1` | ggml-opencl.cpp:132-143 | The same |
| `WorkGroupFormats.PairQ5_0` | ggml-opencl.cpp:144-157 | The same |
| `WorkGroupFormats.PairQ5_1` | ggml-opencl.cpp:158-172 | The same |
| `WorkGroupFormats.PairQ8_0` | ggml-opencl.cpp:173-181 | The same, for neighbouring elements |
| `WorkGroupFormats.PairF16` | ggml-opencl.cpp:182-185 | The same, without blocks |
| `WorkGroupFormats.FormatDecodes` | ggml-opencl.cpp:759-771 | The kernel built for any of the six formats gets, for every pair of columns, the values the row stands for, and never leaves the rows |
| `WorkGroupFormats.KernelOfFormat` | ggml-opencl.cpp:747-786 | For each of the six formats, every complete run of the kernel built on its dequantiser leaves in the first cell the dot product of the vector with the row that the blocks stand for |
| `CasLoop.StepLinearized` | atomic_windows.h:432-438 | Every load and every exchange keeps: cell and results are those of the completed calls one after the other |
| `CasLoop.CompletedBits` | atomic_windows.h:432-438 | A completed call leaves in each bit of the cell the conjunction, disjunction or difference of what was there and its argument |
| `CasLoop.CallBegins` | atomic_windows.h:432-438 | A call begins with its first load and its entry records that time, whatever fails or is loaded again in between |
| `CasLoop.FailureMeansChange` | atomic_windows.h:213-216 | A failed exchange means another thread changed the cell since the load |
| `CasLoop.Linearizable` | atomic_windows.h:432-438 | For any threads and interleaving the cell is the fold of the completed calls in the order of their exchanges, each call returned the value just before its own, in the order its thread made its calls, and took effect after it began |
| `CasLoop.LockFree` | atomic_windows.h:432-438 | Among any `2 n + 1` steps of `n` threads some call completes |

## Left out

- Several allocators in one graph allocation (`ggml_gallocr_alloc_graph_n`), and hash entries that go stale when a smaller graph reuses a larger table.
- A leaf that first gets memory during graph allocation (line 574 of ggml-alloc.c): an earlier node may write the bytes it is given.
- Complete reclamation: after an in-place node over a smaller view the bytes behind the view are not returned. The invariant says what is returned, not that everything is.
- GraphMeaning.SharedMemoryPreservesMeaning: assumes that the parse sequence separates dependent nodes by barriers; other sequences are not safe to run in another order.
- Rounding of scales to half precision, and of sums in single precision.
- `make_qkx1_quants`, the sampling of importance matrices, and the outer quantisers of super-blocks between the scale search and the packing.
- The formats with `QK_K` 64, and the vector code of other instruction sets than AVX; of AVX the dot products of super-blocks.
- KPacking.Pack6: its scales are stored as they are, so only the levels need packing.
- KActivations.QuantizeBlock8: returns the new block instead of writing its fields; `KActivations.QuantizeRow8` writes the array.
- OpenCL kernels for super-blocks, where work-items share a cell of the reduction, and all host code.
- CasLoop.Linearizable: the write-back of the expected value that section 7.17.7.4 of C11 asks for is not modelled, since the code does not do it and the loop does not need it.
- Weak memory orders: steps on the cell are sequentially consistent.
- Timings, printing, debug checks, backend tables, `malloc` and `free`, the Python converters.
