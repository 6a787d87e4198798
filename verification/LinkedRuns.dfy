/** Runs of the sequential queue: what every sequence of calls reports, and how many nodes it takes. */
module LinkedRuns {
  import opened NodePool
  import opened NodeLists
  import opened Fifo
  import opened LinkedQueue

  // ---- what calls must report ----------------------------------------------------------------

  /** One call, made under thread id t. */
  datatype Op = EnqOp(t: nat, v: int, m: Malloc) | DeqOp(t: nat)

  /** What a call reports on a queue that holds q, with `free` nodes in the caller's free list: an
      append fails exactly when there is no free node and allocation refuses. */
  function Outcome(q: seq<int>, free: nat, op: Op): (e: Event)
    ensures e.t == op.t && Apply(Some(q), e).Some?
  {
    match op
    case EnqOp(t, v, m) => if m.Refused? && free == 0 then Internal(t) else Append(t, v)
    case DeqOp(t) => if |q| == 0 then SawEmpty(t) else Remove(t, q[0])
  }

  function FreeAfter(free: nat, e: Event): nat {
    if e.Remove? then free + 1 else if e.Append? && free > 0 then free - 1 else free
  }

  /** The values queued after a log. */
  function Queued(log: seq<Event>): seq<int> { if Replay(log).Some? then Replay(log).value else [] }

  /** The size of thread t's free list after a log. */
  function Spare(log: seq<Event>, t: nat): nat {
    if |log| == 0 then 0
    else
      var e, free := log[|log| - 1], Spare(log[..|log| - 1], t);
      if e.t == t then FreeAfter(free, e) else free
  }

  /** The log that a sequence of calls must produce. */
  function SpecLog(ops: seq<Op>): (log: seq<Event>)
    ensures |log| == |ops|
  {
    if |ops| == 0 then []
    else
      var log, op := SpecLog(ops[..|ops| - 1]), ops[|ops| - 1];
      log + [Outcome(Queued(log), Spare(log, op.t), op)]
  }

  /** Which is a log of a FIFO queue. */
  lemma {:induction false} SpecIsFifo(ops: seq<Op>)
    ensures Replay(SpecLog(ops)).Some?
  {
    if |ops| > 0 {
      var log, op := SpecLog(ops[..|ops| - 1]), ops[|ops| - 1];
      SpecIsFifo(ops[..|ops| - 1]);
      ReplayStep(log, Outcome(Queued(log), Spare(log, op.t), op));
    }
  }

  function Spares(log: seq<Event>, n: nat): (c: seq<nat>)
    ensures |c| == n && forall t | 0 <= t < n :: c[t] == Spare(log, t)
  {
    seq(n, t requires 0 <= t < n => Spare(log, t))
  }

  lemma SparesStep(log: seq<Event>, e: Event, n: nat)
    requires e.t < n
    ensures Spares(log + [e], n) == Spares(log, n)[e.t := FreeAfter(Spare(log, e.t), e)]
  {
    assert (log + [e])[..|log|] == log;
  }

  // ---- calls ---------------------------------------------------------------------------------

  /** The number of nodes allocated after a call that reports e: only an append that found the free
      list empty allocates. */
  function AllocatedAfter(nodes: nat, free: nat, e: Event): nat {
    nodes + if e.Append? && free == 0 then 1 else 0
  }

  method PerformEnq(q: Queue, t: nat, v: int, m: Malloc) returns (e: Event)
    requires q.Valid() && t < q.n && q.Settled()
    modifies q, q.freeHead, q.freeSize
    ensures q.Valid() && q.Settled()
    ensures var free := old(FreeCounts(q.Memory()));
            && e == Outcome(old(Contents(q.Memory())), free[t], EnqOp(t, v, m))
            && |q.next| == AllocatedAfter(old(|q.next|), free[t], e)
            && FreeCounts(q.Memory()) == free[t := FreeAfter(free[t], e)]
    ensures Apply(Some(old(Contents(q.Memory()))), e) == Some(Contents(q.Memory()))
  {
    q.TopIsFirst(t);
    ghost var h := q.Memory();
    var code := q.Enqueue(v, t, m);
    e := if code == 1 then Append(t, v) else Internal(t);
    if code == 1 { ShorterCounts(h, q.Memory(), t); }
  }

  method PerformDeq(q: Queue, t: nat) returns (e: Event)
    requires q.Valid() && t < q.n && q.Settled()
    modifies q, q.freeHead, q.freeSize
    ensures q.Valid() && q.Settled() && |q.next| == old(|q.next|)
    ensures var free := old(FreeCounts(q.Memory()));
            && e == Outcome(old(Contents(q.Memory())), free[t], DeqOp(t))
            && FreeCounts(q.Memory()) == free[t := FreeAfter(free[t], e)]
    ensures Apply(Some(old(Contents(q.Memory()))), e) == Some(Contents(q.Memory()))
  {
    ghost var h := q.Memory();
    var code, v := q.Dequeue(t);
    e := if code == 1 then Remove(t, v) else SawEmpty(t);
    if code == 1 { LongerCounts(h, q.Memory(), t, h.head); }
  }

  /** One call on the sequential queue: the event a FIFO queue must report, and the effect on
      contents, allocation and free lists that goes with it. */
  method Perform(q: Queue, op: Op) returns (e: Event)
    requires q.Valid() && op.t < q.n && q.Settled()
    modifies q, q.freeHead, q.freeSize
    ensures q.Valid() && q.Settled()
    ensures var free := old(FreeCounts(q.Memory()));
            && e == Outcome(old(Contents(q.Memory())), free[op.t], op)
            && |q.next| == AllocatedAfter(old(|q.next|), free[op.t], e)
            && FreeCounts(q.Memory()) == free[op.t := FreeAfter(free[op.t], e)]
    ensures Apply(Some(old(Contents(q.Memory()))), e) == Some(Contents(q.Memory()))
  {
    match op
    case EnqOp(t, v, m) => e := PerformEnq(q, t, v, m);
    case DeqOp(t) => e := PerformDeq(q, t);
  }

  // ---- runs ----------------------------------------------------------------------------------

  /** The log accounts for what the queue holds and for every free list. */
  predicate Accounts(log: seq<Event>, h: Heap) {
    Replay(log) == Some(Contents(h)) && FreeCounts(h) == Spares(log, |h.freeHead|)
  }

  lemma CallAccounted(ops: seq<Op>, k: nat, h: Heap, e: Event, h': Heap)
    requires k < |ops| && ops[k].t < |h.freeHead| == |h'.freeHead| && Accounts(SpecLog(ops[..k]), h)
    requires e == Outcome(Contents(h), FreeCounts(h)[ops[k].t], ops[k])
    requires Apply(Some(Contents(h)), e) == Some(Contents(h'))
    requires FreeCounts(h') == FreeCounts(h)[ops[k].t := FreeAfter(FreeCounts(h)[ops[k].t], e)]
    ensures SpecLog(ops[..k + 1]) == SpecLog(ops[..k]) + [e] && Accounts(SpecLog(ops[..k + 1]), h')
  {
    assert ops[..k + 1][..k] == ops[..k];
    ReplayStep(SpecLog(ops[..k]), e);
    SparesStep(SpecLog(ops[..k]), e, |h.freeHead|);
  }

  /** Calls under any thread ids, one after the other: the outcomes are exactly those of a FIFO
      queue with these free lists, and the nodes allocated are one more than the queued values and
      the free nodes together. */
  method RunSequential(n: nat, ops: seq<Op>) returns (q: Queue, log: seq<Event>)
    requires forall k | 0 <= k < |ops| :: ops[k].t < n
    ensures q.Valid() && q.Settled() && q.n == n
    ensures log == SpecLog(ops) && Accounts(log, q.Memory())
    ensures |q.next| == 1 + |Contents(q.Memory())| + SizesBelow(q.Memory(), n)
  {
    q := new Queue(n);
    log := [];
    assert Accounts([], q.Memory());
    for k := 0 to |ops|
      invariant q.Valid() && q.Settled() && q.n == n && fresh(q) && fresh(q.freeHead) && fresh(q.freeSize)
      invariant log == SpecLog(ops[..k]) && Accounts(log, q.Memory())
    {
      ghost var h := q.Memory();
      var e := Perform(q, ops[k]);
      CallAccounted(ops, k, h, e, q.Memory());
      log := log + [e];
    }
    assert ops[..|ops|] == ops;
    AllocatedNodes(q.Memory(), q.l, n);
  }

  // ---- the high-water mark -------------------------------------------------------------------

  /** The longest the queue has been in the course of a log. */
  function Peak(log: seq<Event>): nat {
    if |log| == 0 then 0
    else
      var p := Peak(log[..|log| - 1]);
      if Replay(log).Some? && |Replay(log).value| > p then |Replay(log).value| else p
  }

  lemma PeakStep(log: seq<Event>, e: Event)
    ensures Peak(log + [e]) ==
            var q := Replay(log + [e]); if q.Some? && |q.value| > Peak(log) then |q.value| else Peak(log)
  {
    assert (log + [e])[..|log|] == log;
  }

  /** While one thread id is used, the free nodes make up the difference between the longest and the
      current length of the queue. */
  lemma {:induction false} SpareIsSlack(ops: seq<Op>, tid: nat)
    requires forall k | 0 <= k < |ops| :: ops[k].t == tid
    ensures Peak(SpecLog(ops)) == |Queued(SpecLog(ops))| + Spare(SpecLog(ops), tid)
  {
    if |ops| > 0 {
      var log, op := SpecLog(ops[..|ops| - 1]), ops[|ops| - 1];
      var e := Outcome(Queued(log), Spare(log, tid), op);
      SpareIsSlack(ops[..|ops| - 1], tid);
      SpecIsFifo(ops[..|ops| - 1]);
      assert (log + [e])[..|log|] == log;
      PeakStep(log, e);
    }
  }

  lemma {:induction false} OthersHaveNone(ops: seq<Op>, tid: nat, u: nat)
    requires u != tid && forall k | 0 <= k < |ops| :: ops[k].t == tid
    ensures Spare(SpecLog(ops), u) == 0
  {
    if |ops| > 0 { OthersHaveNone(ops[..|ops| - 1], tid, u); }
  }

  lemma {:induction false} OneSize(h: Heap, tid: nat, t: nat)
    requires t <= |h.freeSize| && tid < |h.freeSize| && forall u: nat | u < t && u != tid :: h.freeSize[u] == 0
    ensures SizesBelow(h, t) == if tid < t then h.freeSize[tid] else 0
  {
    if t > 0 { OneSize(h, tid, t - 1); }
  }

  lemma SizeIsSpare(q: Queue, log: seq<Event>, t: nat)
    requires q.Valid() && t < q.n && Accounts(log, q.Memory())
    ensures q.freeSize[t] == Spare(log, t)
  {
    FreeNodesAreListed(q.Memory(), q.l, q.n, t);
    assert FreeCounts(q.Memory())[t] == Spares(log, q.n)[t];
  }

  /** Calls under one thread id: the nodes ever allocated are one more than the greatest length the
      queue has had. */
  method RunOneThread(n: nat, tid: nat, ops: seq<Op>) returns (q: Queue, log: seq<Event>)
    requires tid < n && forall k | 0 <= k < |ops| :: ops[k].t == tid
    ensures q.Valid() && q.Settled() && q.n == n
    ensures log == SpecLog(ops) && Accounts(log, q.Memory())
    ensures |q.next| == 1 + Peak(log)
  {
    q, log := RunSequential(n, ops);
    forall u: nat | u < n && u != tid ensures q.freeSize[u] == 0 {
      SizeIsSpare(q, log, u);
      OthersHaveNone(ops, tid, u);
    }
    SizeIsSpare(q, log, tid);
    OneSize(q.Memory(), tid, n);
    SpareIsSlack(ops, tid);
  }
}
