/** The benchmark's checksum: unsigned 64-bit sums of what was dequeued, during the run and in the
    drain that follows it, against the sum that the counters of successful enqueues predict. */
module Checksum {
  import opened Fifo
  import opened FifoCalls
  import opened BenchLog

  /** Conversion to `uint64_t`. */
  function Word(x: int): int { x % 0x1_0000_0000_0000_0000 }

  /** A word is below 2^64; two sums have the same word exactly when they differ by a multiple of 2^64;
      and a sum below 2^64 is its own word. */
  lemma WordIsResidue(a: int, b: int)
    ensures 0 <= Word(a) < 0x1_0000_0000_0000_0000
    ensures Word(a) == Word(b) <==> (a - b) % 0x1_0000_0000_0000_0000 == 0
    ensures 0 <= a < 0x1_0000_0000_0000_0000 ==> Word(a) == a
  {
  }

  lemma WordAdd(a: int, b: int)
    ensures Word(Word(a) + b) == Word(a + b)
  {
  }

  lemma WordPlus(a: int, b: int)
    ensures Word(Word(a) + Word(b)) == Word(a + b)
  {
    WordAdd(a, Word(b));
    WordAdd(b, a);
  }

  function Sum(s: seq<int>): int { if |s| == 0 then 0 else Sum(s[..|s| - 1]) + s[|s| - 1] }

  lemma {:induction false} SumConcat(a: seq<int>, b: seq<int>)
    ensures Sum(a + b) == Sum(a) + Sum(b)
  {
    if |b| == 0 {
      assert a + b == a;
    } else {
      SumConcat(a, b[..|b| - 1]);
      assert (a + b)[..|a + b| - 1] == a + b[..|b| - 1];
    }
  }

  /** `sum += (uint64_t)v` for each value in turn. */
  function Accumulated(start: int, s: seq<int>): int {
    if |s| == 0 then start else Word(Accumulated(start, s[..|s| - 1]) + Word(s[|s| - 1]))
  }

  lemma {:induction false} AccumulatedIsSum(start: int, s: seq<int>, base: int)
    requires start == Word(base)
    ensures Accumulated(start, s) == Word(base + Sum(s))
  {
    if |s| > 0 {
      AccumulatedIsSum(start, s[..|s| - 1], base);
      WordPlus(base + Sum(s[..|s| - 1]), s[|s| - 1]);
    }
  }

  /** `total_dequeue_sum` once threads 0 to k - 1 have added their sums. */
  function Total(log: seq<Event>, k: nat): int {
    if k == 0 then 0 else Word(Total(log, k - 1) + Accumulated(0, Dequeued(log, k - 1)))
  }

  // ---- what the expected sum should be -------------------------------------------------------

  function Counted(counts: seq<nat>, n: nat, k: nat): int
    requires k <= |counts|
  {
    if k == 0 then 0 else Counted(counts, n, k - 1) + Sum(Batch(counts[k - 1], n, k - 1))
  }

  lemma DoubleStep(k: int, n: int, t: int)
    ensures n * (k - 1) * (k - 2) + 2 * (k - 1) * t + 2 * ((k - 1) * n + t) == n * k * (k - 1) + 2 * k * t
  {
    calc {
      n * (k - 1) * (k - 2) + 2 * (k - 1) * t + 2 * ((k - 1) * n + t);
      n * (k - 1) * (k - 2) + n * (k - 1) * 2 + 2 * k * t;
      n * (k - 1) * k + 2 * k * t;
    }
  }

  /** Twice the sum of thread t's first k values. */
  lemma {:induction false} BatchSum(k: nat, n: nat, t: nat)
    ensures 2 * Sum(Batch(k, n, t)) == n * k * (k - 1) + 2 * k * t
  {
    if k > 0 {
      BatchSum(k - 1, n, t);
      assert Batch(k, n, t)[..k - 1] == Batch(k - 1, n, t);
      DoubleStep(k, n, t);
    }
  }

  /** What the counters predict, in closed form: twice the sum over threads t of
      n * c * (c - 1) / 2 + c * t, where c is thread t's counter. */
  function Doubled(counts: seq<nat>, n: nat, k: nat): int
    requires k <= |counts|
  {
    if k == 0 then 0
    else
      var c: int := counts[k - 1];
      Doubled(counts, n, k - 1) + n * c * (c - 1) + 2 * c * (k - 1)
  }

  lemma {:induction false} CountedClosed(counts: seq<nat>, n: nat, k: nat)
    requires k <= |counts|
    ensures 2 * Counted(counts, n, k) == Doubled(counts, n, k) && Counted(counts, n, k) >= 0
  {
    if k > 0 {
      CountedClosed(counts, n, k - 1);
      BatchSum(counts[k - 1], n, k - 1);
      NotNegative(Batch(counts[k - 1], n, k - 1));
    }
  }

  lemma {:induction false} NotNegative(s: seq<int>)
    requires forall i | 0 <= i < |s| :: s[i] >= 0
    ensures Sum(s) >= 0
  {
    if |s| > 0 { NotNegative(s[..|s| - 1]); }
  }

  /** The two loops that compute `expected_sum` from the counters: the sum they predict, modulo 2^64. */
  method ExpectedSum(counts: seq<nat>) returns (expected: int)
    ensures expected == Word(Counted(counts, |counts|, |counts|))
    ensures 0 <= expected < 0x1_0000_0000_0000_0000
    ensures (expected - Counted(counts, |counts|, |counts|)) % 0x1_0000_0000_0000_0000 == 0
    ensures Counted(counts, |counts|, |counts|) < 0x1_0000_0000_0000_0000 ==>
              expected == Counted(counts, |counts|, |counts|)
  {
    var n := |counts|;
    expected := 0;
    for tid := 0 to n
      invariant expected == Word(Counted(counts, n, tid))
    {
      for i := 0 to counts[tid]
        invariant expected == Word(Counted(counts, n, tid) + Sum(Batch(i, n, tid)))
      {
        assert Batch(i + 1, n, tid)[..i] == Batch(i, n, tid);
        WordAdd(Counted(counts, n, tid) + Sum(Batch(i, n, tid)), Generated(i, n, tid));
        expected := Word(expected + i * n + tid);
      }
    }
    CountedClosed(counts, n, n);
    WordIsResidue(expected, Counted(counts, n, n));
  }

  // ---- sums over threads ---------------------------------------------------------------------

  function SumConsumed(log: seq<Event>, k: nat): int {
    if k == 0 then 0 else SumConsumed(log, k - 1) + Sum(Consumed(log, k - 1))
  }

  function SumProduced(log: seq<Event>, k: nat): int {
    if k == 0 then 0 else SumProduced(log, k - 1) + Sum(Produced(log, k - 1))
  }

  /** One more event, seen by one thread. */
  lemma OneMoreOf(log: seq<Event>, front: seq<Event>, e: Event, t: nat)
    requires log == front + [e]
    ensures Sum(Consumed(log, t)) == Sum(Consumed(front, t)) + if e.Remove? && e.t == t then e.v else 0
    ensures Sum(Produced(log, t)) == Sum(Produced(front, t)) + if e.Append? && e.t == t then e.v else 0
  {
    assert log[..|log| - 1] == front;
    if e.Remove? && e.t == t {
      SumPush(Consumed(front, t), e.v);
      assert Produced(log, t) == Produced(front, t);
    } else if e.Append? && e.t == t {
      SumPush(Produced(front, t), e.v);
      assert Consumed(log, t) == Consumed(front, t);
    } else {
      assert Consumed(log, t) == Consumed(front, t) && Produced(log, t) == Produced(front, t);
    }
  }

  /** And by all of them. */
  lemma {:induction false} OneMoreConsumed(log: seq<Event>, front: seq<Event>, e: Event, k: nat)
    requires log == front + [e]
    ensures SumConsumed(log, k) == SumConsumed(front, k) + if e.Remove? && e.t < k then e.v else 0
  {
    if k > 0 {
      var t := k - 1;
      OneMoreConsumed(log, front, e, t);
      OneMoreOf(log, front, e, t);
      assert SumConsumed(log, k) == SumConsumed(log, t) + Sum(Consumed(log, t));
      assert SumConsumed(front, k) == SumConsumed(front, t) + Sum(Consumed(front, t));
    }
  }

  lemma {:induction false} OneMoreProduced(log: seq<Event>, front: seq<Event>, e: Event, k: nat)
    requires log == front + [e]
    ensures SumProduced(log, k) == SumProduced(front, k) + if e.Append? && e.t < k then e.v else 0
  {
    if k > 0 {
      var t := k - 1;
      OneMoreProduced(log, front, e, t);
      OneMoreOf(log, front, e, t);
      assert SumProduced(log, k) == SumProduced(log, t) + Sum(Produced(log, t));
      assert SumProduced(front, k) == SumProduced(front, t) + Sum(Produced(front, t));
    }
  }

  lemma {:induction false} NoneConsumed(k: nat)
    ensures SumConsumed([], k) == 0 && SumProduced([], k) == 0
  {
    if k > 0 { NoneConsumed(k - 1); }
  }

  lemma SumPush(s: seq<int>, v: int)
    ensures Sum(s + [v]) == Sum(s) + v
  {
    assert (s + [v])[..|s|] == s;
  }

  /** What the threads took adds up to what the queue gave. */
  lemma {:induction false} ConsumedIsRemoved(log: seq<Event>, n: nat)
    requires forall k | 0 <= k < |log| :: log[k].t < n
    ensures SumConsumed(log, n) == Sum(Removed(log))
  {
    if |log| == 0 {
      NoneConsumed(n);
    } else {
      var front, e := log[..|log| - 1], log[|log| - 1];
      ConsumedIsRemoved(front, n);
      OneMoreConsumed(log, front, e, n);
      if e.Remove? { SumPush(Removed(front), e.v); } else { assert Removed(log) == Removed(front); }
    }
  }

  /** What the threads put adds up to what the queue got. */
  lemma {:induction false} ProducedIsAppended(log: seq<Event>, n: nat)
    requires forall k | 0 <= k < |log| :: log[k].t < n
    ensures SumProduced(log, n) == Sum(Appended(log))
  {
    if |log| == 0 {
      NoneConsumed(n);
    } else {
      var front, e := log[..|log| - 1], log[|log| - 1];
      ProducedIsAppended(front, n);
      OneMoreProduced(log, front, e, n);
      if e.Append? { SumPush(Appended(front), e.v); } else { assert Appended(log) == Appended(front); }
    }
  }

  /** With no call in progress, the counters predict what went into the queue. */
  lemma {:induction false} CountsPredict(log: seq<Event>, counts: seq<nat>, n: nat, k: nat)
    requires Orderly(log) && Driven(log, n) && Quiet(log) && k <= |counts|
    requires forall t: nat | t < |counts| :: counts[t] == EnqCount(log, t)
    ensures SumProduced(log, k) == Counted(counts, n, k)
  {
    if k > 0 {
      CountsPredict(log, counts, n, k - 1);
      EnqueuesTallied(log, n, k - 1);
      assert Since(log, k - 1) == [];
    }
  }

  function SumDequeued(log: seq<Event>, k: nat): int {
    if k == 0 then 0 else SumDequeued(log, k - 1) + Sum(Dequeued(log, k - 1))
  }

  lemma {:induction false} DequeuedIsConsumed(log: seq<Event>, k: nat)
    requires Orderly(log) && Quiet(log)
    ensures SumDequeued(log, k) == SumConsumed(log, k)
  {
    if k > 0 {
      DequeuedIsConsumed(log, k - 1);
      DequeuesTallied(log, k - 1);
      assert Since(log, k - 1) == [];
    }
  }

  lemma {:induction false} TotalIsSum(log: seq<Event>, k: nat)
    ensures Total(log, k) == Word(SumDequeued(log, k))
  {
    if k > 0 {
      var mine := Dequeued(log, k - 1);
      TotalIsSum(log, k - 1);
      AccumulatedIsSum(0, mine, 0);
      assert Accumulated(0, mine) == Word(Sum(mine)) == Word(Word(Sum(mine)));
      WordPlus(SumDequeued(log, k - 1), Sum(mine));
    }
  }

  lemma ThreadsOf(log: seq<Event>, n: nat)
    requires Driven(log, n)
    ensures forall k | 0 <= k < |log| :: log[k].t < n
  {
    forall k: nat | k < |log| ensures log[k].t < n { assert DrivenAt(log[..k], log[k], n); }
  }

  /** At any moment between calls, what was dequeued and what is still queued add up to what the
      counters of successful enqueues predict. */
  lemma SumsAgree(log: seq<Event>, counts: seq<nat>, n: nat)
    requires Orderly(log) && Driven(log, n) && Quiet(log) && Replay(log).Some?
    requires |counts| == n && forall t: nat | t < n :: counts[t] == EnqCount(log, t)
    ensures SumDequeued(log, n) + Sum(Replay(log).value) == Counted(counts, n, n)
  {
    ThreadsOf(log, n);
    NothingLost(log);
    SumConcat(Removed(log), Replay(log).value);
    ConsumedIsRemoved(log, n);
    ProducedIsAppended(log, n);
    CountsPredict(log, counts, n, n);
    DequeuedIsConsumed(log, n);
  }

  // ---- the drain -----------------------------------------------------------------------------

  /** Thread 0 dequeuing. */
  predicate DrainEvent(e: Event) { e.t == 0 && !e.Append? && !(e.Invoke? && e.call.Enq?) }

  ghost predicate DrainEvents(drain: seq<Event>) { forall k: nat | k < |drain| :: DrainEvent(drain[k]) }

  /** After the threads have joined, thread 0 dequeues until a call reports failure. */
  ghost predicate Draining(drain: seq<Event>) {
    && DrainEvents(drain)
    && |drain| > 0 && drain[|drain| - 1].Return? && drain[|drain| - 1].code == 0
  }

  /** What the drain adds to the accumulator. */
  function Drained(log: seq<Event>, drain: seq<Event>): seq<int> {
    if |drain| == 0 then []
    else
      var front, e := drain[..|drain| - 1], drain[|drain| - 1];
      Drained(log, front) + if e.Return? && e.code == 1 && !IsEnq(Since(log + front, 0)) then [e.v] else []
  }

  /** Thread 0 is dequeuing, and if it has just seen the queue empty then it still is. */
  predicate DrainState(log: seq<Event>) {
    var s := Since(log, 0);
    !IsEnq(s) && Replay(log).Some? && (|s| > 1 && Searching(s, 0) ==> Replay(log) == Some([]))
  }

  lemma DrainStep(log: seq<Event>, e: Event)
    requires DrainState(log) && OrderlyAt(Since(log, 0), e) && Replay(log + [e]).Some?
    requires DrainEvent(e)
    ensures DrainState(log + [e])
    ensures e.Return? && e.code == 0 ==> Replay(log + [e]) == Some([])
  {
    ReplayStep(log, e);
    SinceStep(log, e, 0);
    var s := Since(log, 0);
    if e.Remove? { assert (s + [e])[|s|] == e; }
    if e.Invoke? { assert Since(log + [e], 0) == [e]; }
  }

  lemma LogFront(log: seq<Event>, e: Event)
    requires Orderly(log + [e]) && Replay(log + [e]).Some?
    ensures Orderly(log) && Replay(log).Some? && OrderlyAt(Since(log, e.t), e)
  {
    assert (log + [e])[..|log|] == log;
    OrderlyFront(log + [e]);
    PrefixReplays(log + [e], |log|);
  }

  /** The drain without its last event. */
  lemma DrainFront(log: seq<Event>, drain: seq<Event>)
    requires |drain| > 0 && Orderly(log + drain) && Replay(log + drain).Some? && DrainEvents(drain)
    ensures var before, e := log + drain[..|drain| - 1], drain[|drain| - 1];
            && log + drain == before + [e] && DrainEvent(e) && OrderlyAt(Since(before, 0), e)
            && Orderly(before) && Replay(before).Some? && DrainEvents(drain[..|drain| - 1])
  {
    var before, e := log + drain[..|drain| - 1], drain[|drain| - 1];
    assert log + drain == before + [e] && DrainEvent(e);
    LogFront(before, e);
  }

  /** When the drain reports failure, the queue is empty. */
  lemma {:induction false} DrainEmpties(log: seq<Event>, drain: seq<Event>)
    requires Orderly(log + drain) && Replay(log + drain).Some? && DrainState(log) && DrainEvents(drain)
    ensures DrainState(log + drain)
    ensures Draining(drain) ==> Replay(log + drain) == Some([])
  {
    if |drain| == 0 {
      assert log + drain == log;
    } else {
      DrainFront(log, drain);
      DrainEmpties(log, drain[..|drain| - 1]);
      DrainStep(log + drain[..|drain| - 1], drain[|drain| - 1]);
    }
  }

  /** The drain takes values out and puts none in; only thread 0's calls return. */
  lemma {:induction false} DrainTakes(log: seq<Event>, drain: seq<Event>, t: nat)
    requires DrainEvents(drain)
    ensures Appended(log + drain) == Appended(log)
    ensures Dequeued(log + drain, t) == Dequeued(log, t) + if t == 0 then Drained(log, drain) else []
  {
    if |drain| == 0 {
      assert log + drain == log;
    } else {
      var front, all := drain[..|drain| - 1], log + drain;
      assert all[..|all| - 1] == log + front && all[|all| - 1] == drain[|drain| - 1];
      DrainTakes(log, front, t);
    }
  }

  lemma DrainAddsTo(log: seq<Event>, drain: seq<Event>, t: nat)
    requires DrainEvents(drain)
    ensures Sum(Dequeued(log + drain, t)) == Sum(Dequeued(log, t)) + if t == 0 then Sum(Drained(log, drain)) else 0
  {
    DrainTakes(log, drain, t);
    if t == 0 { SumConcat(Dequeued(log, 0), Drained(log, drain)); }
    else { assert Dequeued(log, t) + [] == Dequeued(log, t); }
  }

  lemma {:induction false} DrainAdds(log: seq<Event>, drain: seq<Event>, k: nat)
    requires DrainEvents(drain)
    ensures SumDequeued(log + drain, k) == SumDequeued(log, k) + if k > 0 then Sum(Drained(log, drain)) else 0
  {
    if k > 0 {
      DrainAdds(log, drain, k - 1);
      DrainAddsTo(log, drain, k - 1);
    }
  }

  lemma {:induction false} DrainLeavesOthers(log: seq<Event>, drain: seq<Event>, t: nat)
    requires t > 0 && forall k: nat | k < |drain| :: drain[k].t == 0
    ensures Since(log + drain, t) == Since(log, t)
  {
    if |drain| == 0 {
      assert log + drain == log;
    } else {
      var front, all := drain[..|drain| - 1], log + drain;
      assert all[..|all| - 1] == log + front && all[|all| - 1] == drain[|drain| - 1];
      DrainLeavesOthers(log, front, t);
    }
  }

  lemma DrainEndsQuiet(log: seq<Event>, drain: seq<Event>)
    requires Quiet(log) && Draining(drain)
    ensures Quiet(log + drain)
  {
    forall t: nat ensures Since(log + drain, t) == [] {
      if t > 0 { DrainLeavesOthers(log, drain, t); }
    }
  }

  /** After the drain, everything that was enqueued has been dequeued. */
  lemma DrainCompletes(log: seq<Event>, drain: seq<Event>, counts: seq<nat>, n: nat)
    requires Orderly(log + drain) && Driven(log + drain, n) && Replay(log + drain).Some?
    requires Quiet(log) && Draining(drain)
    requires |counts| == n > 0 && forall t: nat | t < n :: counts[t] == EnqCount(log, t)
    ensures SumDequeued(log, n) + Sum(Drained(log, drain)) == Counted(counts, n, n)
  {
    FrontOf(log, drain, n);
    DrainEndsQuiet(log, drain);
    assert DrainState(log) by { assert Since(log, 0) == []; }
    DrainEmpties(log, drain);
    DrainTakes(log, drain, 0);
    DrainAdds(log, drain, n);
    NothingLost(log + drain);
    assert Removed(log + drain) == Appended(log);
    ThreadsOf(log + drain, n);
    ThreadsOf(log, n);
    ConsumedIsRemoved(log + drain, n);
    DequeuedIsConsumed(log + drain, n);
    ProducedIsAppended(log, n);
    CountsPredict(log, counts, n, n);
  }

  /** The check tells the truth: the accumulated total equals the expected word exactly when what was
      returned and what was drained add up, modulo 2^64, to the expected sum. */
  lemma CheckDetects(log: seq<Event>, drained: seq<int>, n: nat, expected: int)
    ensures Accumulated(Total(log, n), drained) == Word(expected)
            <==> (SumDequeued(log, n) + Sum(drained) - expected) % 0x1_0000_0000_0000_0000 == 0
  {
    TotalIsSum(log, n);
    AccumulatedIsSum(Total(log, n), drained, SumDequeued(log, n));
    WordIsResidue(SumDequeued(log, n) + Sum(drained), expected);
  }

  lemma WholeSum(log: seq<Event>, drained: seq<int>, n: nat, expected: int)
    requires SumDequeued(log, n) + Sum(drained) == expected
    ensures Accumulated(Total(log, n), drained) == Word(expected)
  {
    TotalIsSum(log, n);
    AccumulatedIsSum(Total(log, n), drained, SumDequeued(log, n));
  }

  /** The correctness check passes: for every run of n threads, `total_dequeue_sum` after the drain
      is `expected_sum`. */
  lemma CheckPasses(log: seq<Event>, drain: seq<Event>, counts: seq<nat>, n: nat)
    requires Orderly(log + drain) && Driven(log + drain, n) && Replay(log + drain).Some?
    requires Quiet(log) && Draining(drain)
    requires |counts| == n > 0 && forall t: nat | t < n :: counts[t] == EnqCount(log, t)
    ensures Accumulated(Total(log, n), Drained(log, drain)) == Word(Counted(counts, n, n))
    ensures Counted(counts, n, n) < 0x1_0000_0000_0000_0000 ==>
              Accumulated(Total(log, n), Drained(log, drain)) == Counted(counts, n, n)
  {
    DrainCompletes(log, drain, counts, n);
    WholeSum(log, Drained(log, drain), n, Counted(counts, n, n));
    CountedClosed(counts, n, n);
    WordIsResidue(Counted(counts, n, n), 0);
  }

  lemma FrontOf(log: seq<Event>, drain: seq<Event>, n: nat)
    requires Orderly(log + drain) && Driven(log + drain, n) && Replay(log + drain).Some?
    ensures Orderly(log) && Driven(log, n) && Replay(log).Some?
  {
    var all := log + drain;
    assert all[..|log|] == log;
    PrefixReplays(all, |log|);
    forall k: nat | k < |log| ensures OrderlyAt(Since(log[..k], log[k].t), log[k]) && DrivenAt(log[..k], log[k], n) {
      assert all[..k] == log[..k] && all[k] == log[k];
    }
  }
}
