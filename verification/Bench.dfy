/** The benchmark's loops, run by one thread on the sequential queue: the version for which the
    benchmark insists on a single thread. */
module Bench {
  import opened NodePool
  import opened NodeLists
  import opened LinkedQueue
  import opened BenchLog
  import opened Checksum

  /** Thread t's k-th to (k + m - 1)-th values. */
  function Following(k: nat, m: nat, n: nat, t: nat): (s: seq<int>)
    ensures |s| == m && forall i: nat | i < m :: s[i] == Generated(k + i, n, t)
  {
    seq(m, i requires i >= 0 => Generated(k + i, n, t))
  }

  lemma BatchGrows(k: nat, m: nat, n: nat, t: nat)
    ensures Batch(k, n, t) + Following(k, m, n, t) == Batch(k + m, n, t)
  {
    var s := Batch(k, n, t) + Following(k, m, n, t);
    forall i: nat | i < k + m ensures s[i] == Batch(k + m, n, t)[i] {
      if i >= k { assert s[i] == Following(k, m, n, t)[i - k]; }
    }
  }

  /** The queue holds what it held, and the thread's next i values. */
  predicate PutSoFar(was: seq<int>, now: seq<int>, count: nat, i: nat, n: nat, t: nat) {
    now == was + Following(count, i, n, t)
  }

  lemma PutOne(was: seq<int>, now: seq<int>, count: nat, i: nat, n: nat, t: nat)
    requires PutSoFar(was, now, count, i, n, t)
    ensures PutSoFar(was, now + [Generated(count + i, n, t)], count, i + 1, n, t)
  {
    assert Following(count, i + 1, n, t) == Following(count, i, n, t) + [Generated(count + i, n, t)];
  }

  function Least(a: nat, b: nat): nat { if a < b then a else b }

  /** Thread t's free nodes. */
  function Free(h: Heap, t: nat): nat
    requires t < |h.freeHead|
  {
    |FreeNodes(h, t)|
  }

  lemma FreeShorter(h: Heap, h': Heap, t: nat)
    requires t < |h.freeHead| && FreeLists(h') == Shorter(FreeLists(h), t)
    ensures t < |h'.freeHead| && Free(h', t) == if Free(h, t) > 0 then Free(h, t) - 1 else 0
  {
    assert |FreeLists(h')| == |h'.freeHead| == |h.freeHead|;
    assert Free(h', t) == |FreeLists(h')[t]| && Free(h, t) == |FreeLists(h)[t]|;
  }

  lemma FreeLonger(h: Heap, h': Heap, t: nat, p: Ptr)
    requires t < |h.freeHead| && FreeLists(h') == FreeLists(h)[t := [p] + FreeLists(h)[t]]
    ensures t < |h'.freeHead| && Free(h', t) == Free(h, t) + 1
  {
    assert |FreeLists(h')| == |h'.freeHead| == |h.freeHead|;
    assert Free(h', t) == |FreeLists(h')[t]| && Free(h, t) == |FreeLists(h)[t]|;
  }

  /** What allocation would do at a call: `mallocs` lists the calls, afterwards it succeeds. */
  function MallocAt(mallocs: seq<Malloc>, call: nat): Malloc {
    if call < |mallocs| then mallocs[call] else Fresh(0, NULL)
  }

  /** How many calls fail, from the given one on, until `size` have succeeded: a call fails when the
      free list is empty and allocation refuses. */
  function Refusals(free: nat, size: nat, mallocs: seq<Malloc>, call: nat): (r: nat)
    ensures r <= if call < |mallocs| then |mallocs| - call else 0
    decreases |mallocs| - call
  {
    if size == 0 || call >= |mallocs| then 0
    else if free == 0 && mallocs[call].Refused? then 1 + Refusals(0, size, mallocs, call + 1)
    else Refusals(if free > 0 then free - 1 else 0, size - 1, mallocs, call + 1)
  }

  /** The refusals in calls a to b - 1. */
  function Refused(mallocs: seq<Malloc>, a: nat, b: nat): nat
    requires a <= b
    decreases b - a
  {
    if a == b then 0 else (if MallocAt(mallocs, a).Refused? then 1 else 0) + Refused(mallocs, a + 1, b)
  }

  lemma {:induction false} NoneRefused(mallocs: seq<Malloc>, a: nat, b: nat)
    requires |mallocs| <= a <= b
    ensures Refused(mallocs, a, b) == 0
    decreases b - a
  {
    if a < b { NoneRefused(mallocs, a + 1, b); }
  }

  /** Counted in one go: the failures are the refusals among the calls that find the free list empty. */
  lemma {:induction false} RefusalsCounted(free: nat, size: nat, mallocs: seq<Malloc>, call: nat)
    ensures var end := call + size + Refusals(free, size, mallocs, call);
            Refusals(free, size, mallocs, call) == Refused(mallocs, Least(call + free, end), end)
    decreases |mallocs| - call
  {
    var end := call + size + Refusals(free, size, mallocs, call);
    if size > 0 {
      if call >= |mallocs| {
        NoneRefused(mallocs, Least(call + free, end), end);
      } else if free == 0 && mallocs[call].Refused? {
        RefusalsCounted(0, size, mallocs, call + 1);
      } else {
        RefusalsCounted(if free > 0 then free - 1 else 0, size - 1, mallocs, call + 1);
      }
    }
  }

  /** After i successes and `failed` failures, with `free` nodes at hand: `all` failures in the end. */
  predicate FailedSoFar(all: nat, size: nat, mallocs: seq<Malloc>, call: nat, i: nat, failed: nat, free: nat) {
    i <= size && failed + Refusals(free, size - i, mallocs, call + i + failed) == all
  }

  /** One call of `enq` for the i-th value of a batch that found `was`: 1 and the value is appended,
      or 0, exactly when the free list is empty and allocation refused. */
  method EnqueueNext(q: Queue, n: nat, tid: nat, count: nat, i: nat, m: Malloc, ghost was: seq<int>)
    returns (success: nat)
    requires q.Valid() && q.Settled() && tid < q.n
    requires PutSoFar(was, Contents(q.Memory()), count, i, n, tid)
    modifies q, q.freeHead, q.freeSize
    ensures q.Valid() && q.Settled() && success <= 1
    ensures success == 0 <==> old(Free(q.Memory(), tid)) == 0 && m.Refused?
    ensures Free(q.Memory(), tid) == old(Free(q.Memory(), tid)) - Least(success, old(Free(q.Memory(), tid)))
    ensures PutSoFar(was, Contents(q.Memory()), count, i + success, n, tid)
  {
    ghost var h := q.Memory();
    q.TopIsFirst(tid);
    PutOne(was, Contents(h), count, i, n, tid);
    success := q.Enqueue(Generated(count + i, n, tid), tid, m);
    if success == 1 { FreeShorter(h, q.Memory(), tid); }
  }

  /** One turn of the enqueue loop. */
  method EnqueueTurn(q: Queue, n: nat, tid: nat, size: nat, count: nat, mallocs: seq<Malloc>, call: nat,
    i: nat, failed: nat, ghost was: seq<int>, ghost all: nat)
    returns (i': nat, failed': nat)
    requires q.Valid() && q.Settled() && tid < q.n && i < size
    requires PutSoFar(was, Contents(q.Memory()), count, i, n, tid)
    requires FailedSoFar(all, size, mallocs, call, i, failed, Free(q.Memory(), tid))
    modifies q, q.freeHead, q.freeSize
    ensures q.Valid() && q.Settled() && ((i' == i + 1 && failed' == failed) || (i' == i && failed' == failed + 1))
    ensures i' == i ==> call + i + failed < |mallocs|
    ensures Free(q.Memory(), tid) == old(Free(q.Memory(), tid)) - Least(i' - i, old(Free(q.Memory(), tid)))
    ensures PutSoFar(was, Contents(q.Memory()), count, i', n, tid)
    ensures FailedSoFar(all, size, mallocs, call, i', failed', Free(q.Memory(), tid))
  {
    var success := EnqueueNext(q, n, tid, count, i, MallocAt(mallocs, call + i + failed), was);
    i', failed' := i + success, failed + (1 - success);
  }

  /** The enqueue loop: an unsuccessful call is repeated with the same value.  `call` counts the
      calls before it. */
  method EnqueueBatch(q: Queue, n: nat, tid: nat, size: nat, count: nat, mallocs: seq<Malloc>, call: nat)
    returns (count': nat, failed: nat)
    requires q.Valid() && q.Settled() && tid < q.n
    modifies q, q.freeHead, q.freeSize
    ensures q.Valid() && q.Settled()
    ensures count' == count + size && failed == Refusals(old(Free(q.Memory(), tid)), size, mallocs, call)
    ensures Free(q.Memory(), tid) == old(Free(q.Memory(), tid)) - Least(size, old(Free(q.Memory(), tid)))
    ensures Contents(q.Memory()) == old(Contents(q.Memory())) + Following(count, size, n, tid)
  {
    ghost var was, free := Contents(q.Memory()), Free(q.Memory(), tid);
    ghost var all := Refusals(free, size, mallocs, call);
    var i := 0;
    failed := 0;
    assert was + Following(count, 0, n, tid) == was;
    while i < size
      invariant q.Valid() && q.Settled() && Free(q.Memory(), tid) == free - Least(i, free)
      invariant PutSoFar(was, Contents(q.Memory()), count, i, n, tid)
      invariant FailedSoFar(all, size, mallocs, call, i, failed, Free(q.Memory(), tid))
      decreases size - i, |mallocs| - (call + i + failed)
    {
      i, failed := EnqueueTurn(q, n, tid, size, count, mallocs, call, i, failed, was, all);
    }
    count' := count + i;
  }

  /** What has been taken off the queue, and what it adds to the sum. */
  predicate TakenSoFar(was: seq<int>, taken: seq<int>, now: seq<int>, start: int, sum: int) {
    was == taken + now && sum == Accumulated(start, taken)
  }

  lemma TakenOne(was: seq<int>, taken: seq<int>, v: int, now: seq<int>, start: int, sum: int)
    requires TakenSoFar(was, taken, [v] + now, start, sum)
    ensures TakenSoFar(was, taken + [v], now, start, Word(sum + Word(v)))
  {
    assert taken + ([v] + now) == taken + [v] + now;
    assert (taken + [v])[..|taken|] == taken;
  }

  /** One call of `deq`, by a thread that has taken some values already. */
  method DequeueNext(q: Queue, tid: nat, sum: int, ghost was: seq<int>, ghost taken: seq<int>, ghost start: int)
    returns (success: nat, sum': int, ghost taken': seq<int>)
    requires q.Valid() && q.Settled() && tid < q.n
    requires TakenSoFar(was, taken, Contents(q.Memory()), start, sum)
    modifies q, q.freeHead, q.freeSize
    ensures q.Valid() && q.Settled() && success <= 1 && |taken'| == |taken| + success
    ensures TakenSoFar(was, taken', Contents(q.Memory()), start, sum')
    ensures success == 0 ==> Contents(q.Memory()) == []
    ensures Free(q.Memory(), tid) == old(Free(q.Memory(), tid)) + success
  {
    ghost var h := q.Memory();
    var value;
    taken', sum' := taken, sum;
    success, value := q.Dequeue(tid);
    if success == 1 {
      TakenOne(was, taken, value, Contents(q.Memory()), start, sum);
      sum' := Word(sum' + Word(value));
      taken' := taken + [value];
      FreeLonger(h, q.Memory(), tid, h.head);
    }
  }

  /** The dequeue loop: the values taken are the first of the queue, in order. */
  method DequeueBatch(q: Queue, tid: nat, size: nat, sum: int)
    returns (succeeded: nat, failed: nat, sum': int, ghost taken: seq<int>)
    requires q.Valid() && q.Settled() && tid < q.n
    modifies q, q.freeHead, q.freeSize
    ensures q.Valid() && q.Settled()
    ensures taken + Contents(q.Memory()) == old(Contents(q.Memory()))
    ensures succeeded == |taken| == Least(size, |old(Contents(q.Memory()))|) && succeeded + failed == size
    ensures Free(q.Memory(), tid) == old(Free(q.Memory(), tid)) + succeeded
    ensures sum' == Accumulated(sum, taken)
  {
    ghost var was, free := Contents(q.Memory()), Free(q.Memory(), tid);
    succeeded, failed, sum', taken := 0, 0, sum, [];
    for i := 0 to size
      invariant q.Valid() && q.Settled()
      invariant succeeded == |taken| == Least(i, |was|) && succeeded + failed == i
      invariant Free(q.Memory(), tid) == free + succeeded
      invariant TakenSoFar(was, taken, Contents(q.Memory()), sum, sum')
    {
      var success;
      success, sum', taken := DequeueNext(q, tid, sum', was, taken, sum);
      succeeded, failed := succeeded + success, failed + (1 - success);
    }
  }

  /** The drain: dequeue until a call fails. */
  method Drain(q: Queue, tid: nat, total: int) returns (total': int)
    requires q.Valid() && q.Settled() && tid < q.n
    modifies q, q.freeHead, q.freeSize
    ensures q.Valid() && q.Settled() && Contents(q.Memory()) == []
    ensures total' == Accumulated(total, old(Contents(q.Memory())))
  {
    ghost var was, taken := Contents(q.Memory()), [];
    var ok := 1;
    total' := total;
    while ok == 1
      invariant q.Valid() && q.Settled() && ok <= 1
      invariant TakenSoFar(was, taken, Contents(q.Memory()), total, total')
      invariant ok == 0 ==> Contents(q.Memory()) == []
      decreases ok, |was| - |taken|
    {
      ok, total', taken := DequeueNext(q, tid, total', was, taken, total);
    }
    assert taken + [] == taken;
  }

  function EnqTotal(rounds: seq<(nat, nat)>): nat {
    if |rounds| == 0 then 0 else EnqTotal(rounds[..|rounds| - 1]) + rounds[|rounds| - 1].0
  }

  function DeqTotal(rounds: seq<(nat, nat)>): nat {
    if |rounds| == 0 then 0 else DeqTotal(rounds[..|rounds| - 1]) + rounds[|rounds| - 1].1
  }

  /** How many values the dequeue batches take: each as many as it asks for or as there are. */
  function Taken(rounds: seq<(nat, nat)>): (d: nat)
    ensures d <= EnqTotal(rounds)
  {
    if |rounds| == 0 then 0
    else
      var before := Taken(rounds[..|rounds| - 1]);
      before + Least(rounds[|rounds| - 1].1, EnqTotal(rounds) - before)
  }

  /** The counters of the run, and the nodes in the thread's free list. */
  datatype Tally = Tally(enq: nat, deq: nat, failedEnq: nat, failedDeq: nat, free: nat)

  /** One more round: the enqueue batch uses up what is free, each value dequeued gives a node back. */
  function NextTally(y: Tally, r: (nat, nat), mallocs: seq<Malloc>): (y': Tally)
    requires y.deq <= y.enq
    ensures y'.deq <= y'.enq
  {
    var got := Least(r.1, y.enq - y.deq + r.0);
    Tally(y.enq + r.0, y.deq + got, y.failedEnq + Refusals(y.free, r.0, mallocs, y.enq + y.failedEnq),
          y.failedDeq + (r.1 - got), y.free - Least(r.0, y.free) + got)
  }

  function Tallied(rounds: seq<(nat, nat)>, mallocs: seq<Malloc>): (y: Tally)
    ensures y.deq <= y.enq && y.failedEnq <= |mallocs|
  {
    if |rounds| == 0 then Tally(0, 0, 0, 0, 0)
    else NextTally(Tallied(rounds[..|rounds| - 1], mallocs), rounds[|rounds| - 1], mallocs)
  }

  lemma TalliedMore(rounds: seq<(nat, nat)>, k: nat, mallocs: seq<Malloc>)
    requires k < |rounds|
    ensures Tallied(rounds[..k + 1], mallocs) == NextTally(Tallied(rounds[..k], mallocs), rounds[k], mallocs)
  {
    assert rounds[..k + 1][..k] == rounds[..k];
  }

  lemma {:induction false} TallyMeans(rounds: seq<(nat, nat)>, mallocs: seq<Malloc>)
    ensures var y := Tallied(rounds, mallocs);
            y.enq == EnqTotal(rounds) && y.deq == Taken(rounds) && y.deq + y.failedDeq == DeqTotal(rounds)
  {
    if |rounds| > 0 { TallyMeans(rounds[..|rounds| - 1], mallocs); }
  }

  lemma {:induction false} AccumulatedOn(start: int, a: seq<int>, b: seq<int>)
    ensures Accumulated(Accumulated(start, a), b) == Accumulated(start, a + b)
  {
    if |b| == 0 {
      assert a + b == a;
    } else {
      AccumulatedOn(start, a, b[..|b| - 1]);
      assert (a + b)[..|a + b| - 1] == a + b[..|b| - 1];
    }
  }

  /** What has been dequeued and what is queued, and what the sum is. */
  ghost predicate Consistent(enqCount: nat, deqCount: nat, sum: int, out: seq<int>, queued: seq<int>) {
    && out + queued == Batch(enqCount, 1, 0) && |out| == deqCount
    && sum == Accumulated(0, out)
  }

  lemma StillQueued(enqCount: nat, deqCount: nat, sum: int, out: seq<int>, queued: seq<int>)
    requires Consistent(enqCount, deqCount, sum, out, queued)
    ensures |queued| == enqCount - deqCount
  {
    assert |out + queued| == enqCount;
  }

  lemma OutGrows(out: seq<int>, was: seq<int>, next: seq<int>, taken: seq<int>, rest: seq<int>)
    requires taken + rest == was + next
    ensures out + taken + rest == out + was + next
  {
    assert out + taken + rest == out + (taken + rest);
    assert out + was + next == out + (was + next);
  }

  lemma RoundDone(enqCount: nat, deqCount: nat, sum: int, out: seq<int>, was: seq<int>, size: nat,
    taken: seq<int>, rest: seq<int>)
    requires taken + rest == was + Following(enqCount, size, 1, 0)
    requires Consistent(enqCount, deqCount, sum, out, was)
    ensures Consistent(enqCount + size, deqCount + |taken|, Accumulated(sum, taken), out + taken, rest)
  {
    OutGrows(out, was, Following(enqCount, size, 1, 0), taken, rest);
    BatchGrows(enqCount, size, 1, 0);
    AccumulatedOn(0, out, taken);
  }

  /** An enqueue batch, then a dequeue batch. */
  method Round(q: Queue, sizes: (nat, nat), count: nat, mallocs: seq<Malloc>, call: nat, sum: int)
    returns (count': nat, failedEnq: nat, got: nat, failedDeq: nat, sum': int, ghost taken: seq<int>)
    requires q.Valid() && q.Settled() && q.n == 1
    modifies q, q.freeHead, q.freeSize
    ensures q.Valid() && q.Settled()
    ensures count' == count + sizes.0 && failedEnq == Refusals(old(Free(q.Memory(), 0)), sizes.0, mallocs, call)
    ensures Free(q.Memory(), 0) == old(Free(q.Memory(), 0)) - Least(sizes.0, old(Free(q.Memory(), 0))) + got
    ensures taken + Contents(q.Memory()) == old(Contents(q.Memory())) + Following(count, sizes.0, 1, 0)
    ensures got == |taken| == Least(sizes.1, |old(Contents(q.Memory()))| + sizes.0) && failedDeq == sizes.1 - got
    ensures sum' == Accumulated(sum, taken)
  {
    count', failedEnq := EnqueueBatch(q, 1, 0, sizes.0, count, mallocs, call);
    got, failedDeq, sum', taken := DequeueBatch(q, 0, sizes.1, sum);
  }

  /** One round of the timed loop, with the counters. */
  method CountedRound(q: Queue, r: (nat, nat), y: Tally, mallocs: seq<Malloc>, sum: int, ghost out: seq<int>)
    returns (y': Tally, sum': int, ghost out': seq<int>)
    requires q.Valid() && q.Settled() && q.n == 1 && y.deq <= y.enq && y.free == Free(q.Memory(), 0)
    requires Consistent(y.enq, y.deq, sum, out, Contents(q.Memory()))
    modifies q, q.freeHead, q.freeSize
    ensures q.Valid() && q.Settled() && y' == NextTally(y, r, mallocs) && y'.free == Free(q.Memory(), 0)
    ensures Consistent(y'.enq, y'.deq, sum', out', Contents(q.Memory()))
  {
    ghost var was := Contents(q.Memory());
    var count, fe, got, fd;
    ghost var taken;
    StillQueued(y.enq, y.deq, sum, out, was);
    count, fe, got, fd, sum', taken := Round(q, r, y.enq, mallocs, y.enq + y.failedEnq, sum);
    y' := Tally(count, y.deq + got, y.failedEnq + fe, y.failedDeq + fd, y.free - Least(r.0, y.free) + got);
    out' := out + taken;
    RoundDone(y.enq, y.deq, sum, out, was, r.0, taken, Contents(q.Memory()));
  }

  /** The timed loop. */
  method Rounds(q: Queue, rounds: seq<(nat, nat)>, mallocs: seq<Malloc>)
    returns (y: Tally, sum: int, ghost out: seq<int>)
    requires q.Valid() && q.Settled() && q.n == 1 && Contents(q.Memory()) == [] && Free(q.Memory(), 0) == 0
    modifies q, q.freeHead, q.freeSize
    ensures q.Valid() && q.Settled() && y == Tallied(rounds, mallocs)
    ensures Consistent(y.enq, y.deq, sum, out, Contents(q.Memory()))
  {
    y, sum, out := Tally(0, 0, 0, 0, 0), 0, [];
    for k := 0 to |rounds|
      invariant q.Valid() && q.Settled() && y == Tallied(rounds[..k], mallocs) && y.free == Free(q.Memory(), 0)
      invariant Consistent(y.enq, y.deq, sum, out, Contents(q.Memory()))
    {
      y, sum, out := CountedRound(q, rounds[k], y, mallocs, sum, out);
      TalliedMore(rounds, k, mallocs);
    }
    assert rounds[..|rounds|] == rounds;
  }

  /** `rounds` are the batch sizes drawn until the time was up.  `out` is what the batches dequeued
      and `drained` what the drain found: together, in order, the values that were enqueued.  The
      total accumulates both, and equals what the counter of successful enqueues predicts; at the end
      every node of the queue is freed once. */
  method RunBenchmark(rounds: seq<(nat, nat)>, mallocs: seq<Malloc>)
    returns (enqCount: nat, deqCount: nat, failedEnq: nat, failedDeq: nat, total: int, expected: int,
             q: Queue, freed: seq<Ptr>, ghost out: seq<int>, ghost drained: seq<int>)
    ensures enqCount == EnqTotal(rounds) && failedEnq == Tallied(rounds, mallocs).failedEnq <= |mallocs|
    ensures deqCount == Taken(rounds) == |out| && failedDeq == DeqTotal(rounds) - Taken(rounds)
    ensures out + drained == Batch(enqCount, 1, 0)
    ensures total == Accumulated(Accumulated(0, out), drained) == expected == Word(Sum(Batch(enqCount, 1, 0)))
    ensures 0 <= total < 0x1_0000_0000_0000_0000
    ensures enqCount * (enqCount - 1) / 2 < 0x1_0000_0000_0000_0000 ==> total == enqCount * (enqCount - 1) / 2
    ensures q.Valid() && Contents(q.Memory()) == []
    ensures forall a :: multiset(freed)[a] == if 0 <= a < |q.next| then 1 else 0
  {
    q := new Queue(1);
    var y, sum;
    y, sum, out := Rounds(q, rounds, mallocs);
    enqCount, deqCount, failedEnq, failedDeq := y.enq, y.deq, y.failedEnq, y.failedDeq;
    TallyMeans(rounds, mallocs);
    drained := Contents(q.Memory());
    expected := ExpectedSum([enqCount]);
    ExpectedIsTotal(enqCount, out, drained);
    total := Drain(q, 0, sum);
    freed := q.DestroyQueue();
  }

  lemma ExpectedIsTotal(enqCount: nat, out: seq<int>, drained: seq<int>)
    requires out + drained == Batch(enqCount, 1, 0)
    ensures Accumulated(Accumulated(0, out), drained) == Word(Sum(Batch(enqCount, 1, 0)))
    ensures Counted([enqCount], 1, 1) == Sum(Batch(enqCount, 1, 0)) == enqCount * (enqCount - 1) / 2
  {
    BatchSum(enqCount, 1, 0);
    AccumulatedOn(0, out, drained);
    AccumulatedIsSum(0, Batch(enqCount, 1, 0), 0);
    assert Counted([enqCount], 1, 0) == 0;
  }
}
