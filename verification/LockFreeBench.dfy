/** The benchmark on the lock-free queue. */
module LockFreeBench {
  import opened NodeLists
  import opened Fifo
  import opened FifoCalls
  import opened LockFree
  import opened LockFreeInvariant
  import opened LockFreeTheorems
  import opened BenchLog
  import opened Checksum

  // ---- the log of a run ----------------------------------------------------------------------

  lemma EventIsOrderly(s: State, g: History, t: nat, c: Choice)
    requires NoteSized(s, g) && t < |s.loc| && Knows(s, g, t)
    ensures OrderlyAt(Since(g.log, t), Emit(s, t, c))
  {
  }

  lemma {:induction false} RunIsOrderly(n: nat, sched: seq<Move>)
    requires Schedule(n, sched)
    ensures Orderly(Run(n, sched).1.log)
  {
    if |sched| > 0 {
      var front, m := sched[..|sched| - 1], sched[|sched| - 1];
      var (s, g) := Run(n, front);
      LastStep(n, sched);
      RunIsOrderly(n, front);
      Reachable(n, front);
      EventIsOrderly(s, g, m.t, m.c);
      OrderlyStep(g.log, Emit(s, m.t, m.c));
    }
  }

  lemma {:induction false} LogThreads(n: nat, sched: seq<Move>)
    requires Schedule(n, sched)
    ensures forall i | 0 <= i < |Run(n, sched).1.log| :: Run(n, sched).1.log[i].t < n
  {
    if |sched| > 0 {
      LogThreads(n, sched[..|sched| - 1]);
      LastStep(n, sched);
    }
  }

  predicate AllIdle(s: State) { forall t | 0 <= t < |s.loc| :: s.loc[t].pc.Idle? }

  lemma IdleIsQuiet(n: nat, sched: seq<Move>, k: nat)
    requires Schedule(n, sched) && k <= |sched| && AllIdle(StateAt(n, sched, k))
    ensures Quiet(HistoryAt(n, sched, k).log)
  {
    var (s, g) := Run(n, sched[..k]);
    Reachable(n, sched[..k]);
    LogThreads(n, sched[..k]);
    forall t: nat ensures Since(g.log, t) == [] {
      if t < n { assert Knows(s, g, t); } else { StrangerIsSilent(g.log, n, t); }
    }
  }

  // ---- the checksum --------------------------------------------------------------------------

  /** The benchmark's correctness check passes on every run of the lock-free queue: n threads that
      generate values as the benchmark does run in any order up to step k, where all are idle;
      then thread 0 dequeues until a call reports failure. */
  lemma BenchmarkPasses(n: nat, sched: seq<Move>, k: nat, drain: seq<Event>, counts: seq<nat>)
    requires Schedule(n, sched) && k <= |sched| && AllIdle(StateAt(n, sched, k))
    requires Driven(Run(n, sched).1.log, n)
    requires Run(n, sched).1.log == HistoryAt(n, sched, k).log + drain && Draining(drain)
    requires |counts| == n && forall t: nat | t < n :: counts[t] == EnqCount(HistoryAt(n, sched, k).log, t)
    ensures var log := HistoryAt(n, sched, k).log;
            var total := Accumulated(Total(log, n), Drained(log, drain));
            && total == Word(Counted(counts, n, n))
            && (Counted(counts, n, n) < 0x1_0000_0000_0000_0000 ==> total == Counted(counts, n, n))
  {
    var log, all := HistoryAt(n, sched, k).log, Run(n, sched).1.log;
    RunIsOrderly(n, sched);
    RefinesFifo(n, sched);
    IdleIsQuiet(n, sched, k);
    LogThreads(n, sched);
    assert all[|all| - 1].t < n;
    CheckPasses(log, drain, counts, n);
  }

  /** And at every moment of such a run each producer's values have left the queue in order and
      without a gap. */
  lemma ProducersInOrder(n: nat, sched: seq<Move>, t: nat)
    requires Schedule(n, sched) && Driven(Run(n, sched).1.log, n) && t < n
    ensures var log, out := Run(n, sched).1.log, From(Removed(Run(n, sched).1.log), n, t);
            && out == Batch(|out|, n, t)
            && out + From(Contents(Run(n, sched).0.h), n, t) == Batch(Share(log, t), n, t)
  {
    RunIsOrderly(n, sched);
    RefinesFifo(n, sched);
    InOrder(Run(n, sched).1.log, n, t);
  }

  // ---- free-list insertions ------------------------------------------------------------------

  /** Nodes thread t has unlinked and not yet put on its free list. */
  function Owed(s: State, t: nat): nat
    requires Thread(s, t)
  {
    var x := s.loc[t];
    |s.retired[t]| + (if x.pc.DeqRetire? then 1 else 0) + (if x.pc.Recycle? || x.pc.PushFree? then |x.todo| else 0)
  }

  predicate Balanced(s: State, log: seq<Event>, t: nat)
    requires Thread(s, t)
  {
    s.loc[t].insertions + Owed(s, t) == |Consumed(log, t)|
  }

  lemma ConsumedStep(log: seq<Event>, e: Event, t: nat)
    ensures |Consumed(log + [e], t)| == |Consumed(log, t)| + if e.Remove? && e.t == t then 1 else 0
  {
    assert (log + [e])[..|log|] == log;
  }

  lemma ReclaimingOwes(s: State, t: nat, c: Choice)
    requires Thread(s, t) && Reclaiming(s.loc[t].pc) && (s.loc[t].pc.PushFree? ==> |s.loc[t].todo| > 0)
    ensures Step(s, t, c).loc[t].insertions + Owed(Step(s, t, c), t) == s.loc[t].insertions + Owed(s, t)
    ensures !Emit(s, t, c).Remove?
  {
  }

  lemma RemovingOwes(s: State, t: nat, c: Choice)
    requires Thread(s, t) && (s.loc[t].pc.DeqAdvance? || s.loc[t].pc.DeqRetire?)
    ensures Step(s, t, c).loc[t].insertions + Owed(Step(s, t, c), t)
            == s.loc[t].insertions + Owed(s, t) + if Emit(s, t, c).Remove? then 1 else 0
  {
  }

  lemma OthersOwe(s: State, t: nat, c: Choice)
    requires Thread(s, t) && !Reclaiming(s.loc[t].pc) && !s.loc[t].pc.DeqAdvance? && !s.loc[t].pc.DeqRetire?
    ensures Step(s, t, c).loc[t].insertions == s.loc[t].insertions && Owed(Step(s, t, c), t) == Owed(s, t)
    ensures !Emit(s, t, c).Remove?
  {
  }

  /** What thread t owes or has inserted grows by one exactly when it removes a value. */
  lemma OwedStep(s: State, t: nat, c: Choice)
    requires Thread(s, t) && (s.loc[t].pc.PushFree? ==> |s.loc[t].todo| > 0)
    ensures Step(s, t, c).loc[t].insertions + Owed(Step(s, t, c), t)
            == s.loc[t].insertions + Owed(s, t) + if Emit(s, t, c).Remove? then 1 else 0
  {
    if Reclaiming(s.loc[t].pc) { ReclaimingOwes(s, t, c); }
    else if s.loc[t].pc.DeqAdvance? || s.loc[t].pc.DeqRetire? { RemovingOwes(s, t, c); }
    else { OthersOwe(s, t, c); }
  }

  lemma BalanceStep(s: State, log: seq<Event>, t: nat, c: Choice, u: nat)
    requires Thread(s, t) && u < |s.loc| && Balanced(s, log, u) && (s.loc[t].pc.PushFree? ==> |s.loc[t].todo| > 0)
    ensures Balanced(Step(s, t, c), log + [Emit(s, t, c)], u)
  {
    ConsumedStep(log, Emit(s, t, c), u);
    OwedStep(s, t, c);
  }

  lemma {:induction false} RunIsBalanced(n: nat, sched: seq<Move>, u: nat)
    requires Schedule(n, sched) && u < n
    ensures Balanced(Run(n, sched).0, Run(n, sched).1.log, u)
  {
    if |sched| > 0 {
      var front, m := sched[..|sched| - 1], sched[|sched| - 1];
      var (s, g) := Run(n, front);
      LastStep(n, sched);
      RunIsBalanced(n, front, u);
      Reachable(n, front);
      assert Knows(s, g, m.t);
      BalanceStep(s, g.log, m.t, m.c, u);
    }
  }

  /** Between calls, a thread's free-list insertions equal its successful calls of `deq`. */
  lemma InsertionsAreDequeues(n: nat, sched: seq<Move>, t: nat)
    requires Schedule(n, sched) && t < n && Run(n, sched).0.loc[t].pc.Idle?
    ensures Run(n, sched).0.loc[t].insertions == |Dequeued(Run(n, sched).1.log, t)|
  {
    RunIsBalanced(n, sched, t);
    RunIsOrderly(n, sched);
    DequeuesTallied(Run(n, sched).1.log, t);
    Reachable(n, sched);
    assert Knows(Run(n, sched).0, Run(n, sched).1, t);
  }
}
