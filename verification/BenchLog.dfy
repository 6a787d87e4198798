/** What the benchmark may conclude from its counters and sums, whichever of the queues it drives
    and however the threads interleave.  Everything here speaks about the log of a run. */
module BenchLog {
  import opened Fifo
  import opened FifoCalls
  import opened Division

  // ---- the benchmark's bookkeeping, read off the log ------------------------------------------

  /** The value thread t of n enqueues after k successful enqueues. */
  function Generated(k: nat, n: nat, t: nat): nat { k * n + t }

  /** The first k of them. */
  function Batch(k: nat, n: nat, t: nat): (s: seq<int>)
    ensures |s| == k && forall i: nat | i < k :: s[i] == Generated(i, n, t)
  {
    seq(k, i requires i >= 0 => Generated(i, n, t))
  }

  /** The call in progress is an `enq`. */
  predicate IsEnq(s: seq<Event>) { |s| > 0 && s[0].Invoke? && s[0].call.Enq? }

  /** `enq_count`: the calls of `enq` that returned 1. */
  function EnqCount(log: seq<Event>, t: nat): nat {
    if |log| == 0 then 0
    else
      var front, e := log[..|log| - 1], log[|log| - 1];
      EnqCount(front, t) + if e.Return? && e.t == t && e.code == 1 && IsEnq(Since(front, t)) then 1 else 0
  }

  /** The values that thread t's calls of `deq` returned; `deq_count` is their number. */
  function Dequeued(log: seq<Event>, t: nat): seq<int> {
    if |log| == 0 then []
    else
      var front, e := log[..|log| - 1], log[|log| - 1];
      Dequeued(front, t) + if e.Return? && e.t == t && e.code == 1 && !IsEnq(Since(front, t)) then [e.v] else []
  }

  /** What thread t put into the queue, and what it took out. */
  function Produced(log: seq<Event>, t: nat): seq<int> {
    if |log| == 0 then []
    else
      var e := log[|log| - 1];
      Produced(log[..|log| - 1], t) + if e.Append? && e.t == t then [e.v] else []
  }

  function Consumed(log: seq<Event>, t: nat): seq<int> {
    if |log| == 0 then []
    else
      var e := log[|log| - 1];
      Consumed(log[..|log| - 1], t) + if e.Remove? && e.t == t then [e.v] else []
  }

  // ---- well-behaved logs ---------------------------------------------------------------------

  /** A thread calls when it is between calls, and its events belong to the call in progress. */
  predicate OrderlyAt(s: seq<Event>, e: Event) {
    match e
    case Invoke(t, _) => s == []
    case Append(t, v) => s == [Invoke(t, Enq(v))]
    case Remove(t, _) => Searching(s, t)
    case SawEmpty(t) => Searching(s, t)
    case Return(t, code, v) => Fulfils(s, t, code, v)
    case Internal(_) => true
  }

  /** The benchmark's choice of values: an `enq` of thread t passes the value its counter says. */
  predicate DrivenAt(front: seq<Event>, e: Event, n: nat) {
    e.t < n && (e.Invoke? && e.call.Enq? ==> e.call.v == Generated(EnqCount(front, e.t), n, e.t))
  }

  ghost predicate Orderly(log: seq<Event>) {
    forall k: nat | k < |log| :: OrderlyAt(Since(log[..k], log[k].t), log[k])
  }

  ghost predicate Driven(log: seq<Event>, n: nat) {
    forall k: nat | k < |log| :: DrivenAt(log[..k], log[k], n)
  }

  lemma OrderlyStep(log: seq<Event>, e: Event)
    requires Orderly(log) && OrderlyAt(Since(log, e.t), e)
    ensures Orderly(log + [e])
  {
    var log' := log + [e];
    forall k: nat | k < |log'| ensures OrderlyAt(Since(log'[..k], log'[k].t), log'[k]) {
      if k < |log| { assert log'[..k] == log[..k]; } else { assert log'[..k] == log; }
    }
  }

  lemma OrderlyFront(log: seq<Event>)
    requires Orderly(log) && |log| > 0
    ensures Orderly(log[..|log| - 1])
    ensures OrderlyAt(Since(log[..|log| - 1], log[|log| - 1].t), log[|log| - 1])
  {
    var front := log[..|log| - 1];
    forall k: nat | k < |front| ensures OrderlyAt(Since(front[..k], front[k].t), front[k]) {
      assert front[..k] == log[..k] && front[k] == log[k];
    }
  }

  lemma DrivenFront(log: seq<Event>, n: nat)
    requires Driven(log, n) && |log| > 0
    ensures Driven(log[..|log| - 1], n)
    ensures DrivenAt(log[..|log| - 1], log[|log| - 1], n)
  {
    var front := log[..|log| - 1];
    forall k: nat | k < |front| ensures DrivenAt(front[..k], front[k], n) {
      assert front[..k] == log[..k] && front[k] == log[k];
    }
  }

  // ---- counters and what happened to the queue -----------------------------------------------

  /** How thread t's counter, its call in progress and what it put into the queue fit together. */
  predicate EnqTally(s: seq<Event>, count: nat, produced: seq<int>, n: nat, t: nat) {
    if !IsEnq(s) then produced == Batch(count, n, t)
    else
      var v := Generated(count, n, t);
      || (s == [Invoke(t, Enq(v))] && produced == Batch(count, n, t))
      || (s == [Invoke(t, Enq(v)), Append(t, v)] && produced == Batch(count + 1, n, t))
  }

  predicate DeqTally(s: seq<Event>, dequeued: seq<int>, consumed: seq<int>, t: nat) {
    if s == [] || IsEnq(s) || Searching(s, t) then consumed == dequeued
    else
      var e := s[|s| - 1];
      e.Remove? && Searching(s[..|s| - 1], t) && consumed == dequeued + [e.v]
  }

  lemma {:induction false} EnqueuesTallied(log: seq<Event>, n: nat, t: nat)
    requires Orderly(log) && Driven(log, n)
    ensures EnqTally(Since(log, t), EnqCount(log, t), Produced(log, t), n, t)
  {
    if |log| > 0 {
      var front, e := log[..|log| - 1], log[|log| - 1];
      OrderlyFront(log);
      DrivenFront(log, n);
      EnqueuesTallied(front, n, t);
      var c := EnqCount(front, t);
      assert Batch(c + 1, n, t) == Batch(c, n, t) + [Generated(c, n, t)];
    }
  }

  /** One event of thread t itself. */
  lemma DeqTallyStep(s: seq<Event>, dequeued: seq<int>, consumed: seq<int>, e: Event, t: nat)
    requires e.t == t && OrderlyAt(s, e) && DeqTally(s, dequeued, consumed, t)
    ensures DeqTally(if e.Internal? then s else if e.Return? then [] else s + [e],
                     dequeued + if e.Return? && e.code == 1 && !IsEnq(s) then [e.v] else [],
                     consumed + if e.Remove? then [e.v] else [], t)
  {
    assert dequeued + [] == dequeued && consumed + [] == consumed;
    match e
    case Invoke(_, _) => assert s + [e] == [e];
    case Append(_, v) => assert IsEnq(s + [e]);
    case Remove(_, v) => assert (s + [e])[..|s|] == s && (s + [e])[|s|] == e && !Searching(s + [e], t);
    case SawEmpty(_) => assert Searching(s + [e], t);
    case Return(_, code, v) => assert code == 1 && !IsEnq(s) ==> s[|s| - 1] == Remove(t, v);
    case Internal(_) =>
  }

  lemma {:induction false} DequeuesTallied(log: seq<Event>, t: nat)
    requires Orderly(log)
    ensures DeqTally(Since(log, t), Dequeued(log, t), Consumed(log, t), t)
  {
    if |log| > 0 {
      OrderlyFront(log);
      DequeuesTallied(log[..|log| - 1], t);
      if log[|log| - 1].t == t {
        DeqTallyStep(Since(log[..|log| - 1], t), Dequeued(log[..|log| - 1], t), Consumed(log[..|log| - 1], t),
                     log[|log| - 1], t);
      }
    }
  }

  /** No thread is inside a call. */
  ghost predicate Quiet(log: seq<Event>) { forall t: nat :: Since(log, t) == [] }

  lemma {:induction false} StrangerIsSilent(log: seq<Event>, n: nat, t: nat)
    requires n <= t && forall k | 0 <= k < |log| :: log[k].t < n
    ensures Since(log, t) == []
  {
    if |log| > 0 { StrangerIsSilent(log[..|log| - 1], n, t); }
  }

  // ---- producers -----------------------------------------------------------------------------

  /** The values of s that thread t of n produced. */
  function From(s: seq<int>, n: nat, t: nat): seq<int>
    requires n > 0
  {
    if |s| == 0 then [] else From(s[..|s| - 1], n, t) + if s[|s| - 1] % n == t then [s[|s| - 1]] else []
  }

  lemma {:induction false} FromConcat(a: seq<int>, b: seq<int>, n: nat, t: nat)
    requires n > 0
    ensures From(a + b, n, t) == From(a, n, t) + From(b, n, t)
  {
    if |b| == 0 {
      assert a + b == a;
    } else {
      FromConcat(a, b[..|b| - 1], n, t);
      assert (a + b)[..|a + b| - 1] == a + b[..|b| - 1];
    }
  }

  /** A value tells its producer and its place among that producer's values. */
  lemma ProducerOf(k: nat, n: nat, t: nat)
    requires t < n
    ensures Generated(k, n, t) % n == t && Generated(k, n, t) / n == k
  {
    var v := Generated(k, n, t);
    OneQuotient(v / n, v % n, k, t, n);
  }

  /** Each value tells its producer, so the queue's history splits by producer. */
  lemma {:induction false} AppendedFrom(log: seq<Event>, n: nat, t: nat)
    requires Orderly(log) && Driven(log, n) && t < n
    ensures From(Appended(log), n, t) == Produced(log, t)
  {
    if |log| > 0 {
      var front, e := log[..|log| - 1], log[|log| - 1];
      OrderlyFront(log);
      DrivenFront(log, n);
      AppendedFrom(front, n, t);
      if e.Append? {
        EnqueuesTallied(front, n, e.t);
        assert Since(front, e.t)[0] == Invoke(e.t, Enq(e.v));
        ProducerOf(EnqCount(front, e.t), n, e.t);
        FromConcat(Appended(front), [e.v], n, t);
        assert From([e.v], n, t) == if e.v % n == t then [e.v] else [];
      } else {
        assert Appended(log) == Appended(front) && Produced(log, t) == Produced(front, t);
      }
    }
  }

  /** What thread t has put into the queue so far, in order. */
  function Share(log: seq<Event>, t: nat): nat { |Produced(log, t)| }

  lemma ProducedIsBatch(log: seq<Event>, n: nat, t: nat)
    requires Orderly(log) && Driven(log, n)
    ensures Produced(log, t) == Batch(Share(log, t), n, t)
  {
    EnqueuesTallied(log, n, t);
  }

  lemma PrefixOfBatch(a: seq<int>, b: seq<int>, k: nat, n: nat, t: nat)
    requires a + b == Batch(k, n, t)
    ensures a == Batch(|a|, n, t)
  {
    assert |a| <= k;
    forall i: nat | i < |a| ensures a[i] == Generated(i, n, t) { assert a[i] == (a + b)[i]; }
  }

  /** Each producer's values leave the queue in the order it made them, without a gap: the ones
      dequeued so far are its first ones, and the ones still queued are the rest. */
  lemma InOrder(log: seq<Event>, n: nat, t: nat)
    requires Orderly(log) && Driven(log, n) && Replay(log).Some? && t < n
    ensures var out := From(Removed(log), n, t);
            && out == Batch(|out|, n, t)
            && out + From(Replay(log).value, n, t) == Batch(Share(log, t), n, t)
  {
    NothingLost(log);
    AppendedFrom(log, n, t);
    ProducedIsBatch(log, n, t);
    FromConcat(Removed(log), Replay(log).value, n, t);
    PrefixOfBatch(From(Removed(log), n, t), From(Replay(log).value, n, t), Share(log, t), n, t);
  }

  lemma BatchRises(k: nat, n: nat, t: nat, i: nat, j: nat)
    requires i < j < k && n > 0
    ensures Batch(k, n, t)[i] < Batch(k, n, t)[j]
  {
    MoreMultiples(j, i, n);
  }

  lemma SplitAt(s: seq<int>, i: nat, n: nat, t: nat)
    requires n > 0 && i < |s| && s[i] % n == t
    ensures From(s, n, t) == From(s[..i], n, t) + [s[i]] + From(s[i + 1..], n, t)
  {
    FromConcat(s[..i] + [s[i]], s[i + 1..], n, t);
    FromConcat(s[..i], [s[i]], n, t);
    assert From([s[i]], n, t) == [s[i]];
    assert s == s[..i] + [s[i]] + s[i + 1..];
  }

  /** The values enqueued are pairwise distinct, and of one producer's values the earlier is smaller. */
  lemma Rising(log: seq<Event>, n: nat, i: nat, j: nat)
    requires Orderly(log) && Driven(log, n) && n > 0
    requires i < j < |Appended(log)| && Appended(log)[i] % n == Appended(log)[j] % n
    ensures Appended(log)[i] < Appended(log)[j]
  {
    var s := Appended(log);
    var t := s[i] % n;
    AppendedFrom(log, n, t);
    ProducedIsBatch(log, n, t);
    SplitAt(s, i, n, t);
    var rest := s[i + 1..];
    SplitAt(rest, j - i - 1, n, t);
    var a := |From(s[..i], n, t)|;
    var b := a + 1 + |From(rest[..j - i - 1], n, t)|;
    assert From(s, n, t)[a] == s[i] && From(s, n, t)[b] == s[j];
    BatchRises(Share(log, t), n, t, a, b);
  }

  lemma ValuesDistinct(log: seq<Event>, n: nat, i: nat, j: nat)
    requires Orderly(log) && Driven(log, n) && n > 0 && i < |Appended(log)| && j < |Appended(log)|
    ensures Appended(log)[i] == Appended(log)[j] <==> i == j
  {
    if i < j && Appended(log)[i] == Appended(log)[j] { Rising(log, n, i, j); }
    if j < i && Appended(log)[i] == Appended(log)[j] { Rising(log, n, j, i); }
  }
}
