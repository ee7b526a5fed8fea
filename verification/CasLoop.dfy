/** Fetch-and-modify by compare-and-exchange: every run is equivalent to one where the calls happen
    one at a time, and some call always completes. */
module CasLoop {
  type Word = bv64

  datatype Op = And | Or | Xor

  function Modify(op: Op, was: Word, arg: Word): Word {
    match op
    case And => was & arg
    case Or => was | arg
    case Xor => was ^ arg
  }

  datatype Call = Call(op: Op, arg: Word)

  /** A completed call: who made it, what it returned, and how many had completed when it began. */
  datatype Entry = Entry(thread: nat, call: Call, returned: Word, began: nat)

  /** Between two steps of its loop a thread either has no value, or has loaded one; `began` and `at`
      count the calls completed when its current call began and when it loaded. */
  datatype Mode = Idle | Retrying(began: nat) | Loaded(began: nat, seen: Word, at: nat)

  datatype Thread = Thread(todo: seq<Call>, mode: Mode, done: seq<(Call, Word)>)

  datatype State = State(initial: Word, cell: Word, threads: seq<Thread>, log: seq<Entry>)

  // ---------------------------------------------------------------- steps

  datatype Step = Load(t: nat) | CompareExchange(t: nat)

  predicate Enabled(s: State, step: Step) {
    && step.t < |s.threads|
    && var th := s.threads[step.t];
      th.todo != [] && (step.CompareExchange? <==> th.mode.Loaded?)
  }

  function Began(s: State, th: Thread): nat {
    if th.mode.Idle? then |s.log| else th.mode.began
  }

  /** A failed exchange does not hand the cell's value back: the loop loads it again. */
  function Apply(s: State, step: Step): (s': State)
    requires Enabled(s, step)
  {
    var t := step.t;
    var th := s.threads[t];
    match step
    case Load(_) => s.(threads := s.threads[t := th.(mode := Loaded(Began(s, th), s.cell, |s.log|))])
    case CompareExchange(_) =>
      var call := th.todo[0];
      if s.cell == th.mode.seen then
        s.(cell := Modify(call.op, th.mode.seen, call.arg),
           threads := s.threads[t := Thread(th.todo[1..], Idle, th.done + [(call, th.mode.seen)])],
           log := s.log + [Entry(t, call, th.mode.seen, th.mode.began)])
      else
        s.(threads := s.threads[t := th.(mode := Retrying(th.mode.began))])
  }

  predicate Succeeds(s: State, step: Step)
    requires Enabled(s, step)
  {
    step.CompareExchange? && s.cell == s.threads[step.t].mode.seen
  }

  /** A call begins with its first load, and its time of beginning stays until it completes, whatever steps
      there are, failed exchanges and new loads among them. */
  lemma CallBegins(s: State, step: Step, t: nat)
    requires Enabled(s, step) && t < |s.threads|
    ensures var m, m' := s.threads[t].mode, Apply(s, step).threads[t].mode;
      && |Apply(s, step).threads| == |s.threads|
      && (m.Idle? ==> m' == if step == Load(t) then Loaded(|s.log|, s.cell, |s.log|) else Idle)
      && (!m.Idle? && !m'.Idle? ==> m'.began == m.began)
      && (!m.Idle? && m'.Idle? ==>
            step == CompareExchange(t) && Apply(s, step).log
              == s.log + [Entry(t, s.threads[t].todo[0], m.seen, m.began)])
      && (step.t == t && step.Load? ==> m' == Loaded(m'.began, s.cell, |s.log|))
  {
  }

  // ---------------------------------------------------------------- bit by bit

  predicate LowBit(w: Word) {
    w & 1 == 1
  }

  function Halved(w: Word): Word {
    w >> 1
  }

  /** Bit `k` of a word, the lowest being bit 0. */
  predicate Bit(w: Word, k: nat) {
    if k == 0 then LowBit(w) else Bit(Halved(w), k - 1)
  }

  /** What a call leaves in a bit, from what was there and the same bit of its argument. */
  predicate LeavesBit(op: Op, was: bool, arg: bool, now: bool) {
    match op
    case And => now == (was && arg)
    case Or => now == (was || arg)
    case Xor => now == (was != arg)
  }

  lemma LowAnd(a: Word, b: Word)
    ensures LowBit(a & b) <==> LowBit(a) && LowBit(b)
  {
  }

  lemma HalvedAnd(a: Word, b: Word)
    ensures Halved(a & b) == Halved(a) & Halved(b)
  {
  }

  lemma LowOr(a: Word, b: Word)
    ensures LowBit(a | b) <==> LowBit(a) || LowBit(b)
  {
  }

  lemma HalvedOr(a: Word, b: Word)
    ensures Halved(a | b) == Halved(a) | Halved(b)
  {
  }

  lemma LowXor(a: Word, b: Word)
    ensures LowBit(a ^ b) <==> (LowBit(a) != LowBit(b))
  {
  }

  lemma HalvedXor(a: Word, b: Word)
    ensures Halved(a ^ b) == Halved(a) ^ Halved(b)
  {
  }

  lemma ModifiedWord(op: Op, was: Word, arg: Word)
    ensures op.And? ==> Modify(op, was, arg) == was & arg
    ensures op.Or? ==> Modify(op, was, arg) == was | arg
    ensures op.Xor? ==> Modify(op, was, arg) == was ^ arg
  {
  }

  lemma ModifiedLow(op: Op, was: Word, arg: Word)
    ensures LeavesBit(op, LowBit(was), LowBit(arg), LowBit(Modify(op, was, arg)))
  {
    hide LowBit, Modify;
    ModifiedWord(op, was, arg);
    match op
    case And => LowAnd(was, arg);
    case Or => LowOr(was, arg);
    case Xor => LowXor(was, arg);
  }

  lemma ModifiedHalf(op: Op, was: Word, arg: Word)
    ensures Halved(Modify(op, was, arg)) == Modify(op, Halved(was), Halved(arg))
  {
    hide Halved, Modify;
    ModifiedWord(op, was, arg);
    ModifiedWord(op, Halved(was), Halved(arg));
    match op
    case And => HalvedAnd(was, arg);
    case Or => HalvedOr(was, arg);
    case Xor => HalvedXor(was, arg);
  }

  lemma {:induction false} ModifiedBit(op: Op, was: Word, arg: Word, k: nat)
    ensures LeavesBit(op, Bit(was, k), Bit(arg, k), Bit(Modify(op, was, arg), k))
    decreases k
  {
    hide Modify, Halved, LowBit, LeavesBit;
    if k == 0 {
      ModifiedLow(op, was, arg);
    } else {
      ModifiedHalf(op, was, arg);
      ModifiedBit(op, Halved(was), Halved(arg), k - 1);
    }
  }

  /** A call that completes leaves in every bit of the cell what its operation says. */
  lemma CompletedBits(s: State, step: Step, k: nat)
    requires Enabled(s, step) && Succeeds(s, step)
    ensures var call := s.threads[step.t].todo[0];
      LeavesBit(call.op, Bit(s.cell, k), Bit(call.arg, k), Bit(Apply(s, step).cell, k))
  {
    hide Modify, Bit, LeavesBit;
    var call := s.threads[step.t].todo[0];
    ModifiedBit(call.op, s.cell, call.arg, k);
  }

  predicate Initial(s: State) {
    s.cell == s.initial && s.log == [] && forall t :: 0 <= t < |s.threads| ==>
      s.threads[t].mode == Idle && s.threads[t].done == []
  }

  // ---------------------------------------------------------------- the sequential meaning

  /** The cell after the first `n` completed calls, one after the other. */
  function Fold(initial: Word, log: seq<Entry>, n: nat): Word
    requires n <= |log|
  {
    if n == 0 then initial else Modify(log[n - 1].call.op, Fold(initial, log, n - 1), log[n - 1].call.arg)
  }

  /** The calls of thread `t` among the first `n`, with what they returned. */
  function CallsOf(log: seq<Entry>, t: nat, n: nat): seq<(Call, Word)>
    requires n <= |log|
  {
    if n == 0 then []
    else CallsOf(log, t, n - 1) + if log[n - 1].thread == t then [(log[n - 1].call, log[n - 1].returned)] else []
  }

  ghost predicate EntryOk(s: State, i: nat)
    requires i < |s.log|
  {
    s.log[i].returned == Fold(s.initial, s.log, i) && s.log[i].began <= i
  }

  ghost predicate ThreadOk(s: State, t: nat)
    requires t < |s.threads|
  {
    var th := s.threads[t];
    && th.done == CallsOf(s.log, t, |s.log|)
    && (!th.mode.Idle? ==> th.mode.began <= |s.log| && th.todo != [] && NotSince(s, t, th.mode.began))
    && (th.mode.Loaded? ==>
      th.mode.began <= th.mode.at <= |s.log| && th.mode.seen == Fold(s.initial, s.log, th.mode.at))
  }

  ghost predicate NotSince(s: State, t: nat, from: nat) {
    forall i :: from <= i < |s.log| ==> s.log[i].thread != t
  }

  /** The cell holds the fold of the completed calls; each returned the value just before its own;
      each thread got its results in the order of its calls, every call taking effect after it
      began. */
  ghost predicate Linearized(s: State) {
    && s.cell == Fold(s.initial, s.log, |s.log|)
    && (forall i :: 0 <= i < |s.log| ==> EntryOk(s, i))
    && (forall t :: 0 <= t < |s.threads| ==> ThreadOk(s, t))
  }

  lemma {:induction false} FoldPrefix(initial: Word, log: seq<Entry>, e: Entry, n: nat)
    requires n <= |log|
    ensures Fold(initial, log + [e], n) == Fold(initial, log, n)
  {
    if n > 0 {
      hide Modify;
      FoldPrefix(initial, log, e, n - 1);
    }
  }

  lemma {:induction false} CallsPrefix(log: seq<Entry>, e: Entry, t: nat, n: nat)
    requires n <= |log|
    ensures CallsOf(log + [e], t, n) == CallsOf(log, t, n)
  {
    if n > 0 {
      CallsPrefix(log, e, t, n - 1);
    }
  }

  /** The log with one more entry: what held of the entries before still holds. */
  lemma EntriesAfter(s: State, s': State, e: Entry)
    requires s'.initial == s.initial && s'.log == s.log + [e] && (forall i :: 0 <= i < |s.log| ==> EntryOk(s, i))
    requires e.returned == Fold(s.initial, s.log, |s.log|) && e.began <= |s.log|
    ensures forall i :: 0 <= i < |s'.log| ==> EntryOk(s', i)
  {
    hide Modify;
    forall i | 0 <= i < |s'.log|
      ensures EntryOk(s', i)
    {
      FoldPrefix(s.initial, s.log, e, i);
      if i < |s.log| {
        assert EntryOk(s, i);
      }
    }
  }

  lemma ThreadAfter(s: State, s': State, e: Entry, u: nat)
    requires s'.initial == s.initial && s'.log == s.log + [e] && |s'.threads| == |s.threads| && u < |s.threads|
      && ThreadOk(s, u)
    requires if u == e.thread
      then s'.threads[u].mode.Idle? && s'.threads[u].done == s.threads[u].done + [(e.call, e.returned)]
        else s'.threads[u] == s.threads[u]
    ensures ThreadOk(s', u)
  {
    hide Fold;
    CallsPrefix(s.log, e, u, |s.log|);
    if s.threads[u].mode.Loaded? {
      FoldPrefix(s.initial, s.log, e, s.threads[u].mode.at);
    }
  }

  lemma SuccessLinearized(s: State, step: Step)
    requires Linearized(s) && Enabled(s, step) && Succeeds(s, step)
    ensures Linearized(Apply(s, step))
  {
    hide Modify;
    var s', t := Apply(s, step), step.t;
    assert ThreadOk(s, t);
    var e := s'.log[|s.log|];
    assert s'.log == s.log + [e];
    FoldPrefix(s.initial, s.log, e, |s.log|);
    EntriesAfter(s, s', e);
    forall u | 0 <= u < |s.threads|
      ensures ThreadOk(s', u)
    {
      assert ThreadOk(s, u);
      ThreadAfter(s, s', e, u);
    }
  }

  lemma StepLinearized(s: State, step: Step)
    requires Linearized(s) && Enabled(s, step)
    ensures Linearized(Apply(s, step))
  {
    hide Modify;
    if Succeeds(s, step) {
      SuccessLinearized(s, step);
    } else {
      var s' := Apply(s, step);
      forall i | 0 <= i < |s'.log|
        ensures EntryOk(s', i)
      {
        assert EntryOk(s, i);
      }
      forall u | 0 <= u < |s.threads|
        ensures ThreadOk(s', u)
      {
        assert ThreadOk(s, u);
      }
    }
  }

  // ---------------------------------------------------------------- failed exchanges

  /** Some other thread's call changed the cell. */
  ghost predicate ChangedBy(s: State, i: nat, t: nat)
    requires i < |s.log|
  {
    s.log[i].thread != t && Fold(s.initial, s.log, i + 1) != Fold(s.initial, s.log, i)
  }

  lemma {:induction false} SomeChange(s: State, from: nat, end: nat) returns (i: nat)
    requires from <= end <= |s.log| && Fold(s.initial, s.log, from) != Fold(s.initial, s.log, end)
    ensures from <= i < end && Fold(s.initial, s.log, i + 1) != Fold(s.initial, s.log, i)
    decreases end
  {
    hide Modify;
    assert end != from;
    if Fold(s.initial, s.log, end - 1) != Fold(s.initial, s.log, end) {
      i := end - 1;
    } else {
      i := SomeChange(s, from, end - 1);
    }
  }

  /** An exchange fails only because another thread changed the cell since the load. */
  lemma FailureMeansChange(s: State, t: nat) returns (i: nat)
    requires Linearized(s) && Enabled(s, CompareExchange(t)) && !Succeeds(s, CompareExchange(t))
    ensures s.threads[t].mode.at <= i < |s.log| && ChangedBy(s, i, t)
  {
    assert ThreadOk(s, t);
    i := SomeChange(s, s.threads[t].mode.at, |s.log|);
  }

  // ---------------------------------------------------------------- runs

  ghost predicate IsRun(s: State, steps: seq<Step>)
    decreases |steps|
  {
    steps == [] || (Enabled(s, steps[0]) && IsRun(Apply(s, steps[0]), steps[1..]))
  }

  ghost function End(s: State, steps: seq<Step>): State
    requires IsRun(s, steps)
    decreases |steps|
  {
    if steps == [] then s else End(Apply(s, steps[0]), steps[1..])
  }

  lemma {:induction false} RunLinearized(s: State, steps: seq<Step>)
    requires Linearized(s) && IsRun(s, steps)
    ensures Linearized(End(s, steps)) && End(s, steps).initial == s.initial
    decreases |steps|
  {
    hide Linearized, Apply, Enabled;
    if steps != [] {
      StepLinearized(s, steps[0]);
      KeepsInitial(s, steps[0]);
      RunLinearized(Apply(s, steps[0]), steps[1..]);
    }
  }

  lemma KeepsInitial(s: State, step: Step)
    requires Enabled(s, step)
    ensures Apply(s, step).initial == s.initial && |Apply(s, step).threads| == |s.threads|
      && |Apply(s, step).log| >= |s.log|
    ensures |Apply(s, step).log| == |s.log| + if Succeeds(s, step) then 1 else 0
  {
  }

  /** For any threads, calls and interleaving: the cell is the fold of the completed calls in the
      order of their successful exchanges, and each call returned the value just before its own. */
  lemma Linearizable(s: State, steps: seq<Step>)
    requires Initial(s) && IsRun(s, steps)
    ensures var e := End(s, steps);
      && e.cell == Fold(s.initial, e.log, |e.log|)
      && (forall i :: 0 <= i < |e.log| ==> e.log[i].returned == Fold(s.initial, e.log, i) && e.log[i].began <= i)
      && (forall t :: 0 <= t < |e.threads| ==> e.threads[t].done == CallsOf(e.log, t, |e.log|))
  {
    RunLinearized(s, steps);
    var e := End(s, steps);
    forall i | 0 <= i < |e.log|
      ensures e.log[i].returned == Fold(s.initial, e.log, i) && e.log[i].began <= i
    {
      assert EntryOk(e, i);
    }
    forall t | 0 <= t < |e.threads|
      ensures e.threads[t].done == CallsOf(e.log, t, |e.log|)
    {
      assert ThreadOk(e, t);
    }
  }

  // ---------------------------------------------------------------- progress

  /** Steps a thread can take before it must succeed, if nobody changes the cell. */
  function Rank(s: State, t: nat): nat
    requires t < |s.threads|
  {
    var m := s.threads[t].mode;
    if !m.Loaded? then 1 else if m.seen == s.cell then 0 else 2
  }

  function Ranks(s: State, n: nat): nat
    requires n <= |s.threads|
  {
    if n == 0 then 0 else Ranks(s, n - 1) + Rank(s, n - 1)
  }

  lemma {:induction false} RanksDrop(s: State, step: Step, n: nat)
    requires Enabled(s, step) && !Succeeds(s, step) && n <= |s.threads|
    ensures Ranks(Apply(s, step), n) == Ranks(s, n) - if step.t < n then 1 else 0
  {
    if n > 0 {
      RanksDrop(s, step, n - 1);
    }
  }

  lemma {:induction false} RanksBound(s: State, n: nat)
    requires n <= |s.threads|
    ensures Ranks(s, n) <= 2 * n
  {
    if n > 0 {
      RanksBound(s, n - 1);
    }
  }

  lemma {:induction false} QuietRun(s: State, steps: seq<Step>)
    requires IsRun(s, steps) && |End(s, steps).log| == |s.log|
    ensures |steps| <= Ranks(s, |s.threads|)
    decreases |steps|
  {
    if steps != [] {
      hide Apply, Enabled;
      var s' := Apply(s, steps[0]);
      KeepsInitial(s, steps[0]);
      LogGrows(s', steps[1..]);
      RanksDropAll(s, steps[0]);
      QuietRun(s', steps[1..]);
    }
  }

  lemma RanksDropAll(s: State, step: Step)
    requires Enabled(s, step) && !Succeeds(s, step)
    ensures Ranks(Apply(s, step), |s.threads|) == Ranks(s, |s.threads|) - 1
  {
    RanksDrop(s, step, |s.threads|);
  }

  lemma {:induction false} LogGrows(s: State, steps: seq<Step>)
    requires IsRun(s, steps)
    ensures |End(s, steps).log| >= |s.log|
    decreases |steps|
  {
    if steps != [] {
      hide Apply, Enabled;
      KeepsInitial(s, steps[0]);
      LogGrows(Apply(s, steps[0]), steps[1..]);
    }
  }

  /** Lock-free: among any `2 * n + 1` consecutive steps of `n` threads, from whatever state, some
      call completes. */
  lemma LockFree(s: State, steps: seq<Step>)
    requires IsRun(s, steps) && |steps| > 2 * |s.threads|
    ensures |End(s, steps).log| > |s.log|
  {
    LogGrows(s, steps);
    RanksBound(s, |s.threads|);
    if |End(s, steps).log| == |s.log| {
      QuietRun(s, steps);
    }
  }
}
