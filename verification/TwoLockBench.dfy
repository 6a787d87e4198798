/** The benchmark on the two-lock queue, wherever that recycles the old sentinel. */
module TwoLockBench {
  import opened NodeLists
  import opened Fifo
  import opened FifoCalls
  import opened TwoLock
  import opened TwoLockInvariant
  import opened TwoLockTheorems
  import opened BenchLog
  import opened Checksum

  // ---- the log of a run ----------------------------------------------------------------------

  lemma EventIsOrderly(s: State, g: History, t: nat, c: Choice, late: bool)
    requires NoteSized(s, g) && t < |s.loc| && Knows(s, g, t, late)
    ensures OrderlyAt(Since(g.log, t), Emit(s, t, c, late))
  {
  }

  lemma {:induction false} RunIsOrderly(n: nat, sched: seq<Move>, late: bool)
    requires Schedule(n, sched)
    ensures Orderly(Run(n, sched, late).1.log)
  {
    if |sched| > 0 {
      var front, m := sched[..|sched| - 1], sched[|sched| - 1];
      var (s, g) := Run(n, front, late);
      LastStep(n, sched, late);
      RunIsOrderly(n, front, late);
      Reachable(n, front, late);
      EventIsOrderly(s, g, m.t, m.c, late);
      OrderlyStep(g.log, Emit(s, m.t, m.c, late));
    }
  }

  lemma {:induction false} LogThreads(n: nat, sched: seq<Move>, late: bool)
    requires Schedule(n, sched)
    ensures forall i | 0 <= i < |Run(n, sched, late).1.log| :: Run(n, sched, late).1.log[i].t < n
  {
    if |sched| > 0 {
      LogThreads(n, sched[..|sched| - 1], late);
      LastStep(n, sched, late);
    }
  }

  predicate AllIdle(s: State) { forall t | 0 <= t < |s.loc| :: s.loc[t].pc.Idle? }

  lemma IdleIsQuiet(n: nat, sched: seq<Move>, late: bool, k: nat)
    requires Schedule(n, sched) && k <= |sched| && AllIdle(Run(n, sched[..k], late).0)
    ensures Quiet(Run(n, sched[..k], late).1.log)
  {
    var (s, g) := Run(n, sched[..k], late);
    Reachable(n, sched[..k], late);
    LogThreads(n, sched[..k], late);
    forall t: nat ensures Since(g.log, t) == [] {
      if t < n { assert Knows(s, g, t, late); } else { StrangerIsSilent(g.log, n, t); }
    }
  }

  // ---- the checksum --------------------------------------------------------------------------

  /** The benchmark's correctness check passes on every run of the two-lock queue: n threads that
      generate values as the benchmark does run in any order up to step k, where all are idle;
      then thread 0 dequeues until a call reports failure. */
  lemma BenchmarkPasses(n: nat, sched: seq<Move>, late: bool, k: nat, drain: seq<Event>, counts: seq<nat>)
    requires Schedule(n, sched) && k <= |sched| && AllIdle(Run(n, sched[..k], late).0)
    requires Driven(Run(n, sched, late).1.log, n)
    requires Run(n, sched, late).1.log == Run(n, sched[..k], late).1.log + drain && Draining(drain)
    requires |counts| == n && forall t: nat | t < n :: counts[t] == EnqCount(Run(n, sched[..k], late).1.log, t)
    ensures var log := Run(n, sched[..k], late).1.log;
            var total := Accumulated(Total(log, n), Drained(log, drain));
            && total == Word(Counted(counts, n, n))
            && (Counted(counts, n, n) < 0x1_0000_0000_0000_0000 ==> total == Counted(counts, n, n))
  {
    var log, all := Run(n, sched[..k], late).1.log, Run(n, sched, late).1.log;
    RunIsOrderly(n, sched, late);
    RefinesFifo(n, sched, late);
    IdleIsQuiet(n, sched, late, k);
    LogThreads(n, sched, late);
    assert all[|all| - 1].t < n;
    CheckPasses(log, drain, counts, n);
  }

  /** And at every moment of such a run each producer's values have left the queue in order and
      without a gap. */
  lemma ProducersInOrder(n: nat, sched: seq<Move>, late: bool, t: nat)
    requires Schedule(n, sched) && Driven(Run(n, sched, late).1.log, n) && t < n
    ensures var log, out := Run(n, sched, late).1.log, From(Removed(Run(n, sched, late).1.log), n, t);
            && out == Batch(|out|, n, t)
            && out + From(Contents(Run(n, sched, late).0.h), n, t) == Batch(Share(log, t), n, t)
  {
    RunIsOrderly(n, sched, late);
    RefinesFifo(n, sched, late);
    InOrder(Run(n, sched, late).1.log, n, t);
  }

  // ---- free-list insertions ------------------------------------------------------------------

  predicate Balanced(s: State, log: seq<Event>, t: nat, late: bool)
    requires Thread(s, t)
  {
    s.loc[t].insertions + (if Owes(s.loc[t], late) then 1 else 0) == |Consumed(log, t)|
  }

  lemma BalanceStep(s: State, g: History, t: nat, c: Choice, late: bool, u: nat)
    requires NoteSized(s, g) && t < |s.loc| && u < |s.loc| && Balanced(s, g.log, u, late) && Knows(s, g, t, late)
    ensures Balanced(Step(s, t, c, late), g.log + [Emit(s, t, c, late)], u, late)
  {
    assert (g.log + [Emit(s, t, c, late)])[..|g.log|] == g.log;
  }

  lemma {:induction false} RunIsBalanced(n: nat, sched: seq<Move>, late: bool, u: nat)
    requires Schedule(n, sched) && u < n
    ensures Balanced(Run(n, sched, late).0, Run(n, sched, late).1.log, u, late)
  {
    if |sched| > 0 {
      var front, m := sched[..|sched| - 1], sched[|sched| - 1];
      var (s, g) := Run(n, front, late);
      LastStep(n, sched, late);
      RunIsBalanced(n, front, late, u);
      Reachable(n, front, late);
      assert Knows(s, g, m.t, late);
      BalanceStep(s, g, m.t, m.c, late, u);
    }
  }

  /** Between calls, a thread's free-list insertions equal its successful calls of `deq`. */
  lemma InsertionsAreDequeues(n: nat, sched: seq<Move>, late: bool, t: nat)
    requires Schedule(n, sched) && t < n && Run(n, sched, late).0.loc[t].pc.Idle?
    ensures Run(n, sched, late).0.loc[t].insertions == |Dequeued(Run(n, sched, late).1.log, t)|
  {
    RunIsBalanced(n, sched, late, t);
    RunIsOrderly(n, sched, late);
    DequeuesTallied(Run(n, sched, late).1.log, t);
    Reachable(n, sched, late);
    assert Knows(Run(n, sched, late).0, Run(n, sched, late).1, t, late);
  }
}
