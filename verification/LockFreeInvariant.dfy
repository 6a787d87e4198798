/** What is true in every reachable state of the lock-free queue.  `Global` speaks about memory and
    the log, `Knows` about one thread: for each place in the code, exactly what the thread may rely
    on there.  `Steady` is what a step of any other thread leaves it. */
module LockFreeInvariant {
  import opened NodePool
  import opened Fifo
  import opened LockFree

  /** The operation of thread v, if it is in one, began after position k was unlinked. */
  predicate Past(s: State, g: History, v: nat, k: int)
    requires v < |s.loc| == |g.marks|
  {
    InOp(s.loc[v].pc) ==> k < g.marks[v].base
  }

  /** No position from the operation's beginning on has been recycled. */
  ghost predicate Reserved(l: Ledger, base: nat) {
    base <= l.hi && forall k: nat | base <= k < |l.stage| :: !l.stage[k].Reclaimed?
  }

  predicate HasFirst(l: Ledger, m: Mark, x: Local) { m.base <= m.fi <= l.hi < |l.chain| && x.first == l.chain[m.fi] }

  predicate HasLast(l: Ledger, m: Mark, x: Local) { m.base <= m.li <= l.ti < |l.chain| && x.last == l.chain[m.li] }

  /** The local `next` is the successor of position k. */
  predicate HasNext(l: Ledger, k: nat, p: Ptr) { k + 1 < |l.chain| && p == l.chain[k + 1] }

  /** The thread's last look at its loop's top lies no later than the given tally. */
  predicate Looked(m: Mark, now: nat) { m.began <= m.round <= now && m.restarts <= m.round - m.began + m.spurious }

  /** The node an enqueuer is preparing; `done` 0: taken, 1: value written, 2: link cleared. */
  predicate Preparing(s: State, l: Ledger, t: nat, x: Local, done: nat)
    requires t < |l.hand| == |l.taken| == |s.retired|
  {
    && l.hand[t] == x.node != NULL && l.taken[t] == -1 && s.retired[t] == []
    && (done >= 1 ==> Data(s.h, x.node) == x.arg)
    && (done >= 2 ==> Next(s.h, x.node) == NULL)
  }

  /** Nothing in the thread's hands and nothing waiting to be recycled. */
  predicate Clean(s: State, l: Ledger, t: nat)
    requires t < |l.hand| == |l.taken| == |s.retired|
  {
    l.hand[t] == NULL && l.taken[t] == -1 && s.retired[t] == []
  }

  /** The thread has unlinked its `first` and holds the record of it in `r`. */
  predicate Unlinked(l: Ledger, t: nat, m: Mark, r: seq<Ptr>)
    requires t < |l.hand| == |l.taken|
  {
    l.hand[t] == NULL && l.taken[t] == m.fi < l.hi < |l.chain| && r == [l.chain[m.fi]]
  }

  ghost predicate Cleared(s: State, g: History, t: nat, upTo: nat)
    requires t < |s.loc| == |g.marks|
  {
    forall v: nat | v < upTo && v < |s.loc| && v != t :: Past(s, g, v, g.marks[t].fi)
  }

  predicate Done(log: seq<Event>, t: nat, x: Local) {
    Fulfils(Since(log, t), t, x.code, x.val) && (x.code == 1 || Dequeuing(log, t))
  }

  /** A `deq` that has removed the value it will return. */
  predicate Took(log: seq<Event>, t: nat, x: Local) {
    var q := Since(log, t);
    Done(log, t, x) && x.code == 1 && |q| > 0 && q[|q| - 1] == Remove(t, x.val)
  }

  predicate Enqueuing(log: seq<Event>, t: nat, x: Local) { Since(log, t) == [Invoke(t, Enq(x.arg))] }

  predicate Dequeuing(log: seq<Event>, t: nat) { Searching(Since(log, t), t) }

  predicate InEnqLoop(s: State, g: History, t: nat)
    requires NoteSized(s, g) && t < |s.loc|
  {
    var x, m, l := s.loc[t], g.marks[t], g.l;
    && Preparing(s, l, t, x, 2)
    && Enqueuing(g.log, t, x)
    && m.began <= Changed(l)
  }

  predicate InDeqLoop(s: State, g: History, t: nat)
    requires NoteSized(s, g) && t < |s.loc|
  {
    && Clean(s, g.l, t)
    && Dequeuing(g.log, t)
    && g.marks[t].began <= Changed(g.l)
  }

  /** What thread t knows where it stands in `enq`. */
  predicate KnowsEnq(s: State, g: History, t: nat)
    requires NoteSized(s, g) && t < |s.loc|
  {
    var x, m, l, h := s.loc[t], g.marks[t], g.l, s.h;
    match x.pc
    case EnqBegin => Clean(s, l, t) && Enqueuing(g.log, t, x)
    case EnqTake => Clean(s, l, t) && Enqueuing(g.log, t, x) && m.began <= Changed(l) && m.restarts == 0
    case EnqData => Preparing(s, l, t, x, 0) && Enqueuing(g.log, t, x) && m.began <= Changed(l) && m.restarts == 0
    case EnqClear => Preparing(s, l, t, x, 1) && Enqueuing(g.log, t, x) && m.began <= Changed(l) && m.restarts == 0
    case EnqTail => InEnqLoop(s, g, t) && m.restarts <= Changed(l) - m.began + m.spurious
    case EnqNext => InEnqLoop(s, g, t) && HasLast(l, m, x) && Looked(m, l.hi + m.li + |l.chain|)
    case EnqCheck =>
      && InEnqLoop(s, g, t) && HasLast(l, m, x) && Looked(m, l.hi + m.li + |l.chain|)
      && (if x.next == NULL then Looked(m, l.hi + m.li + m.li + 1) else HasNext(l, m.li, x.next))
    case EnqLink => InEnqLoop(s, g, t) && HasLast(l, m, x) && Looked(m, l.hi + m.li + m.li + 1)
    case EnqHelp =>
      && InEnqLoop(s, g, t) && HasLast(l, m, x) && HasNext(l, m.li, x.next)
      && Looked(m, l.hi + m.li + |l.chain|)
    case EnqSwing =>
      && Clean(s, l, t) && HasLast(l, m, x) && HasNext(l, m.li, x.node)
      && Since(g.log, t) == [Invoke(t, Enq(x.arg)), Append(t, x.arg)]
    case _ => true
  }

  /** What thread t knows where it stands in `deq`. */
  predicate KnowsDeq(s: State, g: History, t: nat)
    requires NoteSized(s, g) && t < |s.loc|
  {
    var x, m, l := s.loc[t], g.marks[t], g.l;
    match x.pc
    case DeqBegin => Clean(s, l, t) && Dequeuing(g.log, t)
    case DeqHead => InDeqLoop(s, g, t) && m.restarts <= Changed(l) - m.began + m.spurious
    case DeqTail => InDeqLoop(s, g, t) && HasFirst(l, m, x) && Looked(m, m.fi + l.ti + |l.chain|)
    case DeqNext =>
      && InDeqLoop(s, g, t) && HasFirst(l, m, x) && HasLast(l, m, x) && m.fi <= m.li
      && Looked(m, m.fi + m.li + |l.chain|)
    case DeqCheck =>
      && InDeqLoop(s, g, t) && HasFirst(l, m, x) && HasLast(l, m, x) && m.fi <= m.li
      && Looked(m, m.fi + m.li + |l.chain|)
      && (if x.next == NULL then m.fi == m.li && |Since(g.log, t)| > 1 else HasNext(l, m.fi, x.next))
    case DeqHelp =>
      && InDeqLoop(s, g, t) && HasLast(l, m, x) && HasNext(l, m.li, x.next)
      && Looked(m, m.fi + m.li + |l.chain|) && m.fi <= l.hi
    case DeqData =>
      && InDeqLoop(s, g, t) && HasFirst(l, m, x) && m.fi < l.ti && HasNext(l, m.fi, x.next)
      && Looked(m, m.fi + l.ti + |l.chain|)
    case DeqAdvance =>
      && InDeqLoop(s, g, t) && HasFirst(l, m, x) && m.fi < l.ti && HasNext(l, m.fi, x.next)
      && Looked(m, m.fi + l.ti + |l.chain|)
      && m.fi + 1 < |l.vals| && x.val == l.vals[m.fi + 1]
    case DeqRetire => Unlinked(l, t, m, [x.first]) && s.retired[t] == [] && Took(g.log, t, x.(code := 1))
    case _ => true
  }

  /** What thread t knows outside the two loops: between calls and in `mm_op_end`. */
  ghost predicate KnowsEnd(s: State, g: History, t: nat)
    requires NoteSized(s, g) && t < |s.loc|
  {
    var x, m, l := s.loc[t], g.marks[t], g.l;
    match x.pc
    case Idle => Clean(s, l, t) && Since(g.log, t) == []
    case OpEnd => Done(g.log, t, x) && (Clean(s, l, t) || (Took(g.log, t, x) && Unlinked(l, t, m, s.retired[t])))
    case WaitLoad => Took(g.log, t, x) && Unlinked(l, t, m, s.retired[t]) && x.i <= |s.loc| && Cleared(s, g, t, x.i)
    case WaitSpin =>
      && Took(g.log, t, x) && Unlinked(l, t, m, s.retired[t]) && Cleared(s, g, t, x.i)
      && x.i < |s.loc| && x.i != t && Odd(x.seen) && (s.ctr[x.i] == x.seen || Past(s, g, x.i, m.fi))
    case Detach => Took(g.log, t, x) && Unlinked(l, t, m, s.retired[t]) && Cleared(s, g, t, |s.loc|)
    case Recycle =>
      && Took(g.log, t, x) && s.retired[t] == []
      && (if |x.todo| == 0 then Clean(s, l, t) else Unlinked(l, t, m, x.todo) && Cleared(s, g, t, |s.loc|))
    case PushFree =>
      && Took(g.log, t, x) && s.retired[t] == [] && l.taken[t] == -1
      && |x.todo| == 1 && l.hand[t] == x.todo[0] != NULL && Next(s.h, x.todo[0]) == s.h.freeHead[t]
    case _ => true
  }

  /** What thread t knows wherever it stands. */
  ghost predicate KnowsAlways(s: State, g: History, t: nat)
    requires NoteSized(s, g) && t < |s.loc|
  {
    && (Odd(s.ctr[t]) <==> InOp(s.loc[t].pc))
    && s.retiredCount[t] == |s.retired[t]|
    && (InOp(s.loc[t].pc) ==> Reserved(g.l, g.marks[t].base))
  }

  ghost predicate Knows(s: State, g: History, t: nat)
    requires NoteSized(s, g) && t < |s.loc|
  {
    KnowsAlways(s, g, t) && KnowsEnq(s, g, t) && KnowsDeq(s, g, t) && KnowsEnd(s, g, t)
  }

  /** The queue the ledger stands for. */
  function Queue(l: Ledger): seq<int>
    requires l.hi < |l.vals|
  {
    l.vals[l.hi + 1..]
  }

  ghost predicate Global(s: State, g: History) {
    && NoteSized(s, g)
    && Pool(s.h, g.l, |s.loc|)
    && g.l.hi <= g.l.ti && |g.l.chain| <= g.l.ti + 2
    && Replay(g.log) == Some(Queue(g.l))
    && AllFulfilled(g.log)
  }

  ghost predicate Inv(s: State, g: History) {
    && Global(s, g)
    && forall t: nat | t < |s.loc| :: Knows(s, g, t)
  }

  // ---- what a step of one thread leaves the others -------------------------------------------

  /** The ledger only moves forward. */
  predicate Grows(l: Ledger, l': Ledger) {
    && l.chain <= l'.chain && l.vals <= l'.vals
    && l.hi <= l'.hi < |l'.chain| && l.ti <= l'.ti < |l'.chain|
  }

  /** Everything that is thread u's own is as it was. */
  predicate Untouched(s: State, g: History, s': State, g': History, u: nat)
    requires NoteSized(s, g) && NoteSized(s', g') && u < |s.loc| == |s'.loc|
  {
    && s'.loc[u] == s.loc[u] && s'.ctr[u] == s.ctr[u]
    && s'.retired[u] == s.retired[u] && s'.retiredCount[u] == s.retiredCount[u]
    && g'.marks[u] == g.marks[u]
    && g'.l.hand[u] == g.l.hand[u] && g'.l.taken[u] == g.l.taken[u]
    && s'.h.freeHead[u] == s.h.freeHead[u]
    && (g.l.hand[u] != NULL ==>
          && Data(s'.h, g.l.hand[u]) == Data(s.h, g.l.hand[u])
          && Next(s'.h, g.l.hand[u]) == Next(s.h, g.l.hand[u]))
    && Since(g'.log, u) == Since(g.log, u)
  }

  /** Thread v's step does not make it hold an older position than before. */
  predicate Onward(s: State, g: History, s': State, g': History, v: nat, k: int)
    requires NoteSized(s, g) && NoteSized(s', g') && v < |s.loc| == |s'.loc|
  {
    && (Past(s, g, v, k) ==> Past(s', g', v, k))
    && (s'.ctr[v] == s.ctr[v] || (Odd(s.ctr[v]) ==> Past(s', g', v, k)))
  }

  lemma EnqSteady(s: State, g: History, s': State, g': History, u: nat)
    requires NoteSized(s, g) && NoteSized(s', g') && u < |s.loc| == |s'.loc|
    requires KnowsEnq(s, g, u) && Grows(g.l, g'.l) && Untouched(s, g, s', g', u)
    ensures KnowsEnq(s', g', u)
  {
  }

  lemma DeqReadSteady(s: State, g: History, s': State, g': History, u: nat)
    requires NoteSized(s, g) && NoteSized(s', g') && u < |s.loc| == |s'.loc|
    requires s.loc[u].pc.DeqTail? || s.loc[u].pc.DeqNext? || s.loc[u].pc.DeqCheck?
    requires KnowsDeq(s, g, u) && Grows(g.l, g'.l) && Untouched(s, g, s', g', u)
    ensures KnowsDeq(s', g', u)
  {
  }

  lemma DeqSteady(s: State, g: History, s': State, g': History, u: nat)
    requires NoteSized(s, g) && NoteSized(s', g') && u < |s.loc| == |s'.loc|
    requires KnowsDeq(s, g, u) && Grows(g.l, g'.l) && Untouched(s, g, s', g', u)
    ensures KnowsDeq(s', g', u)
  {
    if s.loc[u].pc.DeqTail? || s.loc[u].pc.DeqNext? || s.loc[u].pc.DeqCheck? { DeqReadSteady(s, g, s', g', u); }
  }

  lemma EndSteady(s: State, g: History, s': State, g': History, u: nat)
    requires NoteSized(s, g) && NoteSized(s', g') && u < |s.loc| == |s'.loc|
    requires KnowsEnd(s, g, u) && Grows(g.l, g'.l) && Untouched(s, g, s', g', u)
    requires g.marks[u].fi < g.l.hi ==> forall v: nat | v < |s.loc| && v != u :: Onward(s, g, s', g', v, g.marks[u].fi)
    ensures KnowsEnd(s', g', u)
  {
    if g.marks[u].fi < g.l.hi {
      forall v: nat, n: nat | v < n && v < |s.loc| && v != u && Cleared(s, g, u, n)
        ensures Past(s', g', v, g.marks[u].fi)
      {
        assert Past(s, g, v, g.marks[u].fi) && Onward(s, g, s', g', v, g.marks[u].fi);
      }
    }
    if s.loc[u].pc.WaitSpin? { assert Onward(s, g, s', g', s.loc[u].i, g.marks[u].fi); }
  }
}
