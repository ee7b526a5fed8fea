/** The ring of ranks: every run ends, with the sequential result at rank 0. */
module MpiRing {
  import opened Wrappers
  import opened Mpi

  datatype Action = Send | Recv | Compute

  /** `pc` actions are done; `offered` while a send is under way. */
  datatype Rank = Rank(pc: nat, offered: bool, data: seq<Content>)

  /** `channel[r]` holds what rank `r` has sent and its neighbour has not yet received. */
  datatype State = State(ranks: seq<Rank>, channel: seq<Option<Content>>)

  /** `synchronous` sends complete only when received; others may complete at any time. */
  datatype World = World(p: Plan, kernel: Kernel, data: seq<Content>, size: nat, synchronous: bool)

  ghost predicate WorldOk(w: World) {
    PlanOk(w.p) && LayersOk(w.p) && |w.data| == |w.p.ts| && w.size > 0 && Divisible(|w.p.inputs|, w.size)
  }

  function Program(r: nat, size: nat): seq<Action> {
    if size == 1 then [Compute] else if r == 0 then [Send, Recv, Compute] else [Recv, Compute, Send]
  }

  function Pending(w: World, r: nat, k: Rank): Option<Action> {
    var program := Program(r, w.size);
    if k.pc < |program| then Some(program[k.pc]) else None
  }

  ghost predicate StateShape(w: World, st: State) {
    |st.ranks| == |st.channel| == w.size && forall r :: 0 <= r < w.size ==> |st.ranks[r].data| == |w.p.ts|
  }

  function First(w: World, r: nat): nat
    requires WorldOk(w) && r < w.size
  {
    SliceBounds(w.p, r, w.size);
    From(w.p, r, w.size)
  }

  function Bound(w: World, r: nat): (n: nat)
    requires WorldOk(w) && r < w.size
    ensures First(w, r) < n <= w.p.n
  {
    SliceBounds(w.p, r, w.size);
    To(w.p, r, w.size)
  }

  /** What rank `r` sends: rank 0 the tokens, the others the last node of their slice. */
  function Outgoing(w: World, r: nat, k: Rank): Content
    requires WorldOk(w) && r < w.size && |k.data| == |w.p.ts|
  {
    if r == 0 then k.data[w.p.tokens]
    else
      var nodes := SliceNodes(First(w, r), Bound(w, r));
      k.data[nodes[|nodes| - 1]]
  }

  /** Rank 1 receives the tokens, the others into node 0. */
  function Slot(w: World, r: nat): nat {
    if r == 1 then w.p.tokens else 0
  }

  function Worked(w: World, r: nat, k: Rank): (d: seq<Content>)
    requires WorldOk(w) && r < w.size && |k.data| == |w.p.ts|
    ensures |d| == |k.data|
  {
    SliceSources(w.p, First(w, r), Bound(w, r));
    RunTo(Slice(w.p, First(w, r), Bound(w, r)), w.p.n, w.kernel, k.data, SliceNodes(First(w, r), Bound(w, r)),
      Bound(w, r) - First(w, r))
  }

  /** Rank that sends to `r`. */
  function Prev(r: nat, size: nat): (q: nat)
    requires r < size
    ensures q < size && Next(q, size) == r
  {
    if r == 0 then size - 1 else r - 1
  }

  // ---------------------------------------------------------------- steps

  datatype Step = Offer(r: nat) | Complete(r: nat) | Deliver(r: nat) | Work(r: nat)

  ghost predicate Enabled(w: World, st: State, step: Step)
    requires StateShape(w, st)
  {
    step.r < w.size &&
    var k := st.ranks[step.r];
    match step
    case Offer(r) => Pending(w, r, k) == Some(Send) && !k.offered && st.channel[r].None?
    case Complete(r) => k.offered && (w.synchronous ==> st.channel[r].None?)
    case Deliver(r) => Pending(w, r, k) == Some(Recv) && st.channel[Prev(r, w.size)].Some?
    case Work(r) => Pending(w, r, k) == Some(Compute)
  }

  function Apply(w: World, st: State, step: Step): (st': State)
    requires WorldOk(w) && StateShape(w, st) && Enabled(w, st, step)
    ensures StateShape(w, st')
  {
    var r := step.r;
    var k := st.ranks[r];
    match step
    case Offer(_) => State(st.ranks[r := k.(offered := true)], st.channel[r := Some(Outgoing(w, r, k))])
    case Complete(_) => st.(ranks := st.ranks[r := k.(pc := k.pc + 1, offered := false)])
    case Deliver(_) =>
      var q := Prev(r, w.size);
      State(st.ranks[r := k.(pc := k.pc + 1, data := k.data[Slot(w, r) := st.channel[q].value])], st.channel[q := None])
    case Work(_) => st.(ranks := st.ranks[r := k.(pc := k.pc + 1, data := Worked(w, r, k))])
  }

  /** All ranks start from the same leaves; only rank 0 need have the tokens. */
  ghost predicate Initial(w: World, st: State)
    requires WorldOk(w)
  {
    && StateShape(w, st)
    && (forall r :: 0 <= r < w.size ==>
      st.ranks[r].pc == 0 && !st.ranks[r].offered && st.channel[r].None? && Leaves(w, r, st.ranks[r].data))
  }

  ghost predicate Leaves(w: World, r: nat, data: seq<Content>)
    requires WorldOk(w) && |data| == |w.p.ts|
  {
    forall t :: w.p.n <= t < |data| && (t == w.p.tokens ==> r == 0) ==> data[t] == w.data[t]
  }

  // ---------------------------------------------------------------- what holds throughout

  function Result(w: World): (v: seq<Content>)
    requires WorldOk(w)
    ensures |v| == |w.p.ts|
  {
    Sequential(w.p, w.kernel, w.data)
  }

  predicate HasOffered(w: World, r: nat, k: Rank) {
    w.size > 1 && (k.offered || k.pc > if r == 0 then 0 else 2)
  }

  predicate HasReceived(w: World, r: nat, k: Rank) {
    w.size > 1 && k.pc > if r == 0 then 1 else 0
  }

  predicate HasComputed(w: World, r: nat, k: Rank) {
    k.pc > if w.size == 1 then 0 else if r == 0 then 2 else 1
  }

  ghost predicate RankOk(w: World, r: nat, k: Rank)
    requires WorldOk(w) && r < w.size && |k.data| == |w.p.ts|
  {
    && k.pc <= |Program(r, w.size)| && (k.offered ==> Pending(w, r, k) == Some(Send))
    && Leaves(w, r, k.data)
    && (HasReceived(w, r, k) && !HasComputed(w, r, k) ==> Prepared(w.p, Result(w), k.data, First(w, r)))
    && (HasComputed(w, r, k) ==> Computed(w.p, Result(w), k.data, First(w, r), Bound(w, r) - First(w, r)))
  }

  /** What travels from `r`. */
  function Message(w: World, r: nat): Content
    requires WorldOk(w) && r < w.size
  {
    if r == 0 then w.data[w.p.tokens] else Result(w)[Bound(w, r) - 1]
  }

  ghost predicate ChannelOk(w: World, st: State, r: nat)
    requires WorldOk(w) && StateShape(w, st) && r < w.size
  {
    var n := Next(r, w.size);
    && (st.channel[r].Some? <==> HasOffered(w, r, st.ranks[r]) && !HasReceived(w, n, st.ranks[n]))
    && (HasReceived(w, n, st.ranks[n]) ==> HasOffered(w, r, st.ranks[r]))
    && (st.channel[r].Some? ==> st.channel[r].value == Message(w, r))
  }

  ghost predicate Inv(w: World, st: State)
    requires WorldOk(w)
  {
    && StateShape(w, st)
    && (forall r :: 0 <= r < w.size ==> RankOk(w, r, st.ranks[r]) && ChannelOk(w, st, r))
  }

  lemma InitialInv(w: World, st: State)
    requires WorldOk(w) && Initial(w, st)
    ensures Inv(w, st)
  {
  }

  // ---------------------------------------------------------------- one rank at a time

  /** The values computed are a solution, and the leaves keep theirs. */
  lemma ResultSolves(w: World)
    requires WorldOk(w)
    ensures Solves(w.p, w.kernel, w.data, Result(w), w.p.n)
  {
    SequentialSolves(w.p, w.kernel, w.data, w.p.n);
  }

  lemma OfferedMessage(w: World, r: nat, k: Rank)
    requires WorldOk(w) && r < w.size && |k.data| == |w.p.ts| && RankOk(w, r, k) && Pending(w, r, k) == Some(Send)
    ensures Outgoing(w, r, k) == Message(w, r)
  {
    if r > 0 {
      SliceBounds(w.p, r, w.size);
      LongSlice(w.p, r, w.size);
    }
  }

  /** The slice of a rank other than 0 has an input and an output. */
  lemma LongSlice(p: Plan, r: nat, size: nat)
    requires PlanOk(p) && 0 < r < size && Divisible(|p.inputs|, size)
    ensures From(p, r, size) + 1 < To(p, r, size)
  {
    SliceBounds(p, r, size);
    PerRankPositive(|p.inputs|, size);
    var k, per := Index(r, size), PerRank(|p.inputs|, size);
    assert (k + 1) * per == k * per + per;
  }

  lemma DeliveredOk(w: World, r: nat, k: Rank)
    requires WorldOk(w) && r < w.size && |k.data| == |w.p.ts| && RankOk(w, r, k) && Pending(w, r, k) == Some(Recv)
    ensures RankOk(w, r, k.(pc := k.pc + 1, data := k.data[Slot(w, r) := Message(w, Prev(r, w.size))]))
  {
    ResultSolves(w);
    SliceBounds(w.p, r, w.size);
    var q := Prev(r, w.size);
    if q > 0 {
      SlicesMeet(w.p, q, w.size);
    }
  }

  lemma ReadyToWork(w: World, r: nat, k: Rank)
    requires WorldOk(w) && r < w.size && |k.data| == |w.p.ts| && RankOk(w, r, k) && Pending(w, r, k) == Some(Compute)
    ensures Prepared(w.p, Result(w), k.data, First(w, r))
  {
    hide LayersOk, Sequential;
    if w.size == 1 {
      ResultSolves(w);
      SliceBounds(w.p, r, w.size);
    }
  }

  lemma WorkedOk(w: World, r: nat, k: Rank)
    requires WorldOk(w) && r < w.size && |k.data| == |w.p.ts| && RankOk(w, r, k) && Pending(w, r, k) == Some(Compute)
    ensures RankOk(w, r, k.(pc := k.pc + 1, data := Worked(w, r, k)))
  {
    hide LayersOk, Sequential, Slice, SliceNodes, RunTo, Prepared, Computed, PerRank, Solves;
    ResultSolves(w);
    SliceBounds(w.p, r, w.size);
    var from, to := First(w, r), Bound(w, r);
    ReadyToWork(w, r, k);
    SliceSources(w.p, from, to);
    SliceRuns(w.p, w.kernel, w.data, Result(w), k.data, Index(r, w.size) * PerRank(|w.p.inputs|, w.size), to,
      to - from);
  }

  // ---------------------------------------------------------------- runs

  /** Only the rank that moved and its two channels need checking. */
  lemma Elsewhere(w: World, st: State, st': State, r: nat)
    requires WorldOk(w) && Inv(w, st) && StateShape(w, st') && r < w.size
    requires forall q :: 0 <= q < w.size && q != r ==> st'.ranks[q] == st.ranks[q]
    requires forall q :: 0 <= q < w.size && q != r && q != Prev(r, w.size) ==> st'.channel[q] == st.channel[q]
    requires RankOk(w, r, st'.ranks[r]) && ChannelOk(w, st', r) && ChannelOk(w, st', Prev(r, w.size))
    ensures Inv(w, st')
  {
    hide WorldOk, RankOk, Message, HasOffered, HasReceived, HasComputed;
    forall q | 0 <= q < w.size
      ensures RankOk(w, q, st'.ranks[q]) && ChannelOk(w, st', q)
    {
      assert RankOk(w, q, st.ranks[q]) && ChannelOk(w, st, q);
      if Next(q, w.size) == r {
        assert q == Prev(r, w.size);
      }
    }
  }

  /** The flags are those before, but for the one now set. */
  predicate SameFlags(w: World, r: nat, k: Rank, k': Rank, offers: bool, receives: bool) {
    && HasOffered(w, r, k') == (offers || HasOffered(w, r, k))
    && HasReceived(w, r, k') == (receives || HasReceived(w, r, k))
  }

  /** The flags of a rank say how far it is. */
  lemma Flags(w: World, r: nat, k: Rank, d: seq<Content>)
    requires WorldOk(w) && r < w.size && |k.data| == |w.p.ts| && RankOk(w, r, k)
    ensures Pending(w, r, k) == Some(Send) ==>
      w.size > 1 && (HasOffered(w, r, k) <==> k.offered) && SameFlags(w, r, k, k.(offered := true), true, false)
    ensures k.offered ==>
      w.size > 1 && HasOffered(w, r, k) && SameFlags(w, r, k, k.(pc := k.pc + 1, offered := false), true, false)
    ensures Pending(w, r, k) == Some(Recv) ==>
      w.size > 1 && !HasReceived(w, r, k) && SameFlags(w, r, k, k.(pc := k.pc + 1, data := d), false, true)
    ensures Pending(w, r, k) == Some(Compute) ==> SameFlags(w, r, k, k.(pc := k.pc + 1, data := d), false, false)
  {
    hide WorldOk, Leaves, Prepared, Computed, First, Bound, Result;
  }

  lemma OfferedOk(w: World, r: nat, k: Rank)
    requires WorldOk(w) && r < w.size && |k.data| == |w.p.ts| && RankOk(w, r, k)
    ensures Pending(w, r, k) == Some(Send) ==> RankOk(w, r, k.(offered := true))
    ensures k.offered ==> RankOk(w, r, k.(pc := k.pc + 1, offered := false))
  {
    hide WorldOk, Leaves, Prepared, Computed, First, Bound, Result;
  }

  /** The rank offered, and its message is in the channel. */
  lemma ChannelsAfterOffer(w: World, st: State, st': State, r: nat)
    requires WorldOk(w) && StateShape(w, st) && StateShape(w, st') && w.size > 1 && r < w.size
    requires ChannelOk(w, st, r) && ChannelOk(w, st, Prev(r, w.size))
    requires st'.channel == st.channel[r := Some(Message(w, r))] && !HasOffered(w, r, st.ranks[r])
    requires forall i :: 0 <= i < w.size && i != r ==> st'.ranks[i] == st.ranks[i]
    requires SameFlags(w, r, st.ranks[r], st'.ranks[r], true, false)
    ensures ChannelOk(w, st', r) && ChannelOk(w, st', Prev(r, w.size))
  {
    hide WorldOk, Message, HasOffered, HasReceived;
    assert Prev(r, w.size) != r && Next(r, w.size) != r;
  }

  lemma OfferKeepsInv(w: World, st: State, r: nat)
    requires WorldOk(w) && Inv(w, st) && Enabled(w, st, Offer(r))
    ensures Inv(w, Apply(w, st, Offer(r)))
  {
    hide WorldOk, RankOk, ChannelOk, Message, HasOffered, HasReceived, SameFlags, Pending, Worked, Outgoing, Slot;
    var k, st' := st.ranks[r], Apply(w, st, Offer(r));
    assert RankOk(w, r, k) && ChannelOk(w, st, r) && ChannelOk(w, st, Prev(r, w.size));
    Flags(w, r, k, k.data);
    OfferedOk(w, r, k);
    OfferedMessage(w, r, k);
    ChannelsAfterOffer(w, st, st', r);
    Elsewhere(w, st, st', r);
  }

  /** What the rank has offered and received is what it had before. */
  lemma ChannelsAfterComplete(w: World, st: State, st': State, r: nat)
    requires WorldOk(w) && StateShape(w, st) && StateShape(w, st') && w.size > 1 && r < w.size
    requires ChannelOk(w, st, r) && ChannelOk(w, st, Prev(r, w.size)) && st'.channel == st.channel
    requires forall i :: 0 <= i < w.size && i != r ==> st'.ranks[i] == st.ranks[i]
    requires SameFlags(w, r, st.ranks[r], st'.ranks[r], true, false) && HasOffered(w, r, st.ranks[r])
    ensures ChannelOk(w, st', r) && ChannelOk(w, st', Prev(r, w.size))
  {
    hide WorldOk, Message, HasOffered, HasReceived;
    assert Prev(r, w.size) != r && Next(r, w.size) != r;
  }

  lemma CompleteKeepsInv(w: World, st: State, r: nat)
    requires WorldOk(w) && Inv(w, st) && Enabled(w, st, Complete(r))
    ensures Inv(w, Apply(w, st, Complete(r)))
  {
    hide WorldOk, RankOk, ChannelOk, Message, SameFlags, Pending;
    var k, st' := st.ranks[r], Apply(w, st, Complete(r));
    assert RankOk(w, r, k) && ChannelOk(w, st, r) && ChannelOk(w, st, Prev(r, w.size));
    Flags(w, r, k, k.data);
    OfferedOk(w, r, k);
    ChannelsAfterComplete(w, st, st', r);
    Elsewhere(w, st, st', r);
  }

  /** The rank received, and the channel it received from is empty. */
  lemma ChannelsAfterDeliver(w: World, st: State, st': State, r: nat)
    requires WorldOk(w) && StateShape(w, st) && StateShape(w, st') && w.size > 1 && r < w.size
    requires ChannelOk(w, st, r) && ChannelOk(w, st, Prev(r, w.size)) && st.channel[Prev(r, w.size)].Some?
    requires st'.channel == st.channel[Prev(r, w.size) := None]
    requires forall i :: 0 <= i < w.size && i != r ==> st'.ranks[i] == st.ranks[i]
    requires SameFlags(w, r, st.ranks[r], st'.ranks[r], false, true)
    ensures ChannelOk(w, st', r) && ChannelOk(w, st', Prev(r, w.size))
  {
    hide WorldOk, Message, HasOffered, HasReceived;
    assert Prev(r, w.size) != r && Next(r, w.size) != r;
  }

  lemma DeliverKeepsInv(w: World, st: State, r: nat)
    requires WorldOk(w) && Inv(w, st) && Enabled(w, st, Deliver(r))
    ensures Inv(w, Apply(w, st, Deliver(r)))
  {
    hide WorldOk, RankOk, ChannelOk, Message, SameFlags, Pending;
    assert Slot(w, r) < |w.p.ts| by {
      TokensAreLeaf(w);
    }
    var k, st', q := st.ranks[r], Apply(w, st, Deliver(r)), Prev(r, w.size);
    assert RankOk(w, r, k) && ChannelOk(w, st, r) && ChannelOk(w, st, q);
    InTransit(w, st, q);
    Flags(w, r, k, k.data[Slot(w, r) := Message(w, q)]);
    DeliveredOk(w, r, k);
    ChannelsAfterDeliver(w, st, st', r);
    Elsewhere(w, st, st', r);
  }

  lemma TokensAreLeaf(w: World)
    requires WorldOk(w)
    ensures 0 < w.p.tokens < |w.p.ts|
  {
  }

  lemma InTransit(w: World, st: State, r: nat)
    requires WorldOk(w) && StateShape(w, st) && r < w.size && ChannelOk(w, st, r) && st.channel[r].Some?
    ensures st.channel[r].value == Message(w, r)
  {
  }

  lemma WorkKeepsInv(w: World, st: State, r: nat)
    requires WorldOk(w) && Inv(w, st) && Enabled(w, st, Work(r))
    ensures Inv(w, Apply(w, st, Work(r)))
  {
    hide WorldOk, RankOk, ChannelOk, Message, SameFlags, Pending, Worked;
    var k, st', q := st.ranks[r], Apply(w, st, Work(r)), Prev(r, w.size);
    assert RankOk(w, r, k) && ChannelOk(w, st, r) && ChannelOk(w, st, q);
    Flags(w, r, k, Worked(w, r, k));
    WorkedOk(w, r, k);
    ChannelsAfterWork(w, st, st', r);
    Elsewhere(w, st, st', r);
  }

  lemma ChannelsAfterWork(w: World, st: State, st': State, r: nat)
    requires WorldOk(w) && StateShape(w, st) && StateShape(w, st') && r < w.size
    requires ChannelOk(w, st, r) && ChannelOk(w, st, Prev(r, w.size)) && st'.channel == st.channel
    requires forall i :: 0 <= i < w.size && i != r ==> st'.ranks[i] == st.ranks[i]
    requires SameFlags(w, r, st.ranks[r], st'.ranks[r], false, false)
    ensures ChannelOk(w, st', r) && ChannelOk(w, st', Prev(r, w.size))
  {
    hide WorldOk, Message, HasOffered, HasReceived;
  }

  lemma StepKeepsInv(w: World, st: State, step: Step)
    requires WorldOk(w) && Inv(w, st) && Enabled(w, st, step)
    ensures Inv(w, Apply(w, st, step))
  {
    hide Inv, WorldOk, Enabled, Apply;
    match step
    case Offer(r) => OfferKeepsInv(w, st, r);
    case Complete(r) => CompleteKeepsInv(w, st, r);
    case Deliver(r) => DeliverKeepsInv(w, st, r);
    case Work(r) => WorkKeepsInv(w, st, r);
  }

  predicate Finished(w: World, st: State)
    requires StateShape(w, st)
  {
    forall r :: 0 <= r < w.size ==> st.ranks[r].pc == |Program(r, w.size)|
  }

  /** Where a rank stands, by what it has to do next. */
  lemma Standing(w: World, r: nat, k: Rank)
    requires WorldOk(w) && r < w.size && |k.data| == |w.p.ts| && RankOk(w, r, k)
    ensures Pending(w, r, k) == Some(Recv) ==> w.size > 1 && (r > 0 || k.pc > 0)
    ensures r > 0 && w.size > 1 && !HasReceived(w, r, k) ==> Pending(w, r, k) == Some(Recv)
    ensures r == 0 && w.size > 1 && k.pc > 0 && !HasReceived(w, r, k) ==> Pending(w, r, k) == Some(Recv)
    ensures w.size > 1 && k.pc == |Program(r, w.size)| ==> HasOffered(w, r, k)
    ensures r == 0 && w.size > 1 && k.pc > 0 ==> HasOffered(w, r, k) && !k.offered
    ensures Pending(w, r, k).None? ==> k.pc == |Program(r, w.size)| && k.pc > 0
    ensures k.offered ==> w.size > 1 && Pending(w, r, k) == Some(Send)
    ensures Pending(w, r, k) == Some(Send) ==> w.size > 1 && (HasOffered(w, r, k) <==> k.offered)
    ensures Pending(w, r, k) == Some(Recv) ==> !HasReceived(w, r, k)
  {
    hide WorldOk, Leaves, Prepared, Computed, First, Bound, Result;
  }

  /** A message sent and not yet received is in the channel. */
  lemma Deliverable(w: World, st: State, r: nat)
    requires WorldOk(w) && Inv(w, st) && r < w.size && Pending(w, r, st.ranks[r]) == Some(Recv)
    requires HasOffered(w, Prev(r, w.size), st.ranks[Prev(r, w.size)])
    ensures Enabled(w, st, Deliver(r))
  {
    hide WorldOk, RankOk, Message, HasOffered, HasReceived, Pending, Next;
    var q := Prev(r, w.size);
    assert RankOk(w, r, st.ranks[r]) && ChannelOk(w, st, q);
    Standing(w, r, st.ranks[r]);
  }

  lemma SentNotReceived(w: World, st: State, r: nat)
    requires WorldOk(w) && StateShape(w, st) && r < w.size && ChannelOk(w, st, r) && st.channel[r].Some?
    ensures !HasReceived(w, Next(r, w.size), st.ranks[Next(r, w.size)]) && HasOffered(w, r, st.ranks[r])
    ensures Prev(Next(r, w.size), w.size) == r
  {
    hide WorldOk, Message, HasReceived, HasOffered;
  }

  /** A rank in the middle of a send can complete it, or its neighbour can receive. */
  lemma SendMoves(w: World, st: State, r: nat) returns (step: Step)
    requires WorldOk(w) && Inv(w, st) && r < w.size && Pending(w, r, st.ranks[r]) == Some(Send)
    requires r + 1 == w.size ==> st.ranks[0].pc > 0
    ensures Enabled(w, st, step)
  {
    hide WorldOk, RankOk, ChannelOk, Message, HasOffered, HasReceived, Pending, Next;
    var k, n := st.ranks[r], Next(r, w.size);
    assert RankOk(w, r, k) && RankOk(w, n, st.ranks[n]) && ChannelOk(w, st, r);
    Standing(w, r, k);
    Standing(w, n, st.ranks[n]);
    if st.channel[r].None? {
      step := if k.offered then Complete(r) else Offer(r);
    } else {
      SentNotReceived(w, st, r);
      Deliverable(w, st, n);
      step := Deliver(n);
    }
  }

  /** Some step is always possible before the end, even when sends are synchronous. */
  lemma NoDeadlock(w: World, st: State) returns (step: Step)
    requires WorldOk(w) && Inv(w, st) && !Finished(w, st)
    ensures Enabled(w, st, step)
  {
    hide WorldOk, RankOk, ChannelOk, HasOffered, HasReceived, Program, Pending;
    var r: nat := 0;
    if st.ranks[0].pc > 0 {
      r := FirstUnfinished(w, st, 1);
      if r == w.size {
        r := 0;
      }
    }
    var k, q := st.ranks[r], Prev(r, w.size);
    assert RankOk(w, r, k) && RankOk(w, q, st.ranks[q]) && RankOk(w, 0, st.ranks[0]);
    Standing(w, r, k);
    Standing(w, q, st.ranks[q]);
    Standing(w, 0, st.ranks[0]);
    assert st.ranks[r].pc == 0 || st.ranks[r].pc != |Program(r, w.size)|;
    var action := Pending(w, r, k);
    if action == Some(Send) {
      step := SendMoves(w, st, r);
    } else if action == Some(Recv) {
      Deliverable(w, st, r);
      step := Deliver(r);
    } else {
      assert action.Some? && action.value.Compute?;
      step := Work(r);
    }
  }

  /** The first unfinished rank from `r` on, all before it being done. */
  lemma {:induction false} FirstUnfinished(w: World, st: State, r: nat) returns (q: nat)
    requires StateShape(w, st) && 0 < r <= w.size && forall i :: 0 < i < r ==> st.ranks[i].pc == |Program(i, w.size)|
    ensures r <= q <= w.size && forall i :: 0 < i < q ==> st.ranks[i].pc == |Program(i, w.size)|
    ensures q < w.size ==> st.ranks[q].pc != |Program(q, w.size)|
    decreases w.size - r
  {
    q := r;
    if r < w.size && st.ranks[r].pc == |Program(r, w.size)| {
      q := FirstUnfinished(w, st, r + 1);
    }
  }

  /** What is left to do, counted twice for each action and less one for a send under way. */
  function Left(w: World, st: State, r: nat): int
    requires StateShape(w, st) && r <= w.size
  {
    if r == 0 then 0
    else
      Left(w, st, r - 1)
      + 2 * (|Program(r - 1, w.size)| - st.ranks[r - 1].pc) - (if st.ranks[r - 1].offered then 1 else 0)
  }

  lemma {:induction false} LeftShrinks(w: World, st: State, step: Step, r: nat)
    requires WorldOk(w) && StateShape(w, st) && Enabled(w, st, step) && r <= w.size
    requires step.Work? || step.Deliver? ==> !st.ranks[step.r].offered
    ensures Left(w, Apply(w, st, step), r)
      == Left(w, st, r) - (if step.r >= r then 0 else if step.Offer? || step.Complete? then 1 else 2)
  {
    if r > 0 {
      hide WorldOk, Worked, Outgoing;
      LeftShrinks(w, st, step, r - 1);
    }
  }

  lemma StepShrinks(w: World, st: State, step: Step)
    requires WorldOk(w) && Inv(w, st) && Enabled(w, st, step)
    ensures Left(w, Apply(w, st, step), w.size) < Left(w, st, w.size)
  {
    assert RankOk(w, step.r, st.ranks[step.r]);
    LeftShrinks(w, st, step, w.size);
  }

  lemma {:induction false} LeftNatural(w: World, st: State, r: nat)
    requires WorldOk(w) && Inv(w, st) && r <= w.size
    ensures Left(w, st, r) >= 0
  {
    hide WorldOk, ChannelOk, Leaves, Prepared, Computed;
    if r > 0 {
      LeftNatural(w, st, r - 1);
      assert RankOk(w, r - 1, st.ranks[r - 1]);
    }
  }

  lemma {:induction false} LeftAtFirst(w: World, st: State, r: nat)
    requires WorldOk(w) && Initial(w, st) && r <= w.size
    ensures Left(w, st, r) <= 6 * r
  {
    if r > 0 {
      hide WorldOk, Leaves;
      LeftAtFirst(w, st, r - 1);
    }
  }

  // ---------------------------------------------------------------- every run

  ghost predicate IsRun(w: World, st: State, steps: seq<Step>)
    requires WorldOk(w) && StateShape(w, st)
    decreases |steps|
  {
    steps == [] || (Enabled(w, st, steps[0]) && IsRun(w, Apply(w, st, steps[0]), steps[1..]))
  }

  ghost function End(w: World, st: State, steps: seq<Step>): (e: State)
    requires WorldOk(w) && StateShape(w, st) && IsRun(w, st, steps)
    ensures StateShape(w, e)
    decreases |steps|
  {
    if steps == [] then st else End(w, Apply(w, st, steps[0]), steps[1..])
  }

  lemma {:induction false} RunKeepsInv(w: World, st: State, steps: seq<Step>)
    requires WorldOk(w) && StateShape(w, st) && Inv(w, st) && IsRun(w, st, steps)
    ensures Inv(w, End(w, st, steps)) && |steps| <= Left(w, st, w.size) - Left(w, End(w, st, steps), w.size)
    decreases |steps|
  {
    hide WorldOk, Inv, Apply, Left;
    if steps != [] {
      StepKeepsInv(w, st, steps[0]);
      StepShrinks(w, st, steps[0]);
      RunKeepsInv(w, Apply(w, st, steps[0]), steps[1..]);
    }
  }

  /** The pipeline computes what one machine would: whatever the interleaving, and whether or not
      sends are synchronous, a run has at most six steps for each rank; it can always go on until
      all ranks are done; and then every rank has the sequential values of all nodes it computes.
      Rank 0 has the last ones. */
  lemma PipelineIsSequential(w: World, st: State, steps: seq<Step>)
    requires WorldOk(w) && Initial(w, st) && IsRun(w, st, steps)
    ensures |steps| <= 6 * w.size
    ensures var e := End(w, st, steps);
      && (!Finished(w, e) ==> exists step :: Enabled(w, e, step))
      && (Finished(w, e) ==> forall r: nat, t: nat :: r < w.size && t < w.p.n && Computes(w.p, r, w.size, t) ==>
        e.ranks[r].data[t] == Result(w)[t])
  {
    var e := End(w, st, steps);
    InitialInv(w, st);
    RunKeepsInv(w, st, steps);
    LeftAtFirst(w, st, w.size);
    LeftNatural(w, e, w.size);
    if Finished(w, e) {
      forall r: nat, t: nat | r < w.size && t < w.p.n && Computes(w.p, r, w.size, t)
        ensures e.ranks[r].data[t] == Result(w)[t]
      {
        FinishedRank(w, e, r, t);
      }
    } else {
      var step := NoDeadlock(w, e);
    }
  }

  lemma FinishedRank(w: World, e: State, r: nat, t: nat)
    requires WorldOk(w) && Inv(w, e) && Finished(w, e) && r < w.size && t < w.p.n && Computes(w.p, r, w.size, t)
    ensures e.ranks[r].data[t] == Result(w)[t]
  {
    hide Leaves, Prepared;
    assert RankOk(w, r, e.ranks[r]);
    assert HasComputed(w, r, e.ranks[r]);
  }
}
