/** What is true in every reachable state of the two-lock queue, in either variant. */
module TwoLockInvariant {
  import opened NodePool
  import opened Fifo
  import opened TwoLock

  // ---- who holds which lock ------------------------------------------------------------------

  predicate HoldsEnq(pc: Pc) {
    pc.EnqTake? || pc.EnqData? || pc.EnqClear? || pc.EnqLink? || pc.EnqSwing? || pc.EnqUnlock?
    || pc.TailPeek? || pc.TailFix? || pc.TailUnlock?
  }

  predicate HoldsDeq(pc: Pc, late: bool) {
    pc.DeqHead? || pc.DeqNext? || pc.DeqTest? || pc.DeqData? || pc.DeqMove? || pc.DeqPeek?
    || pc.TailLock? || pc.TailPeek? || pc.TailFix? || pc.TailUnlock? || pc.DeqUnlock?
    || (!late && (pc.Recycle? || pc.PushFree?))
  }

  /** An enqueuer has linked its node and not yet moved the tail. */
  predicate Swinging(s: State) { 0 <= s.enqLock < |s.loc| && s.loc[s.enqLock].pc.EnqSwing? }

  /** A dequeuer has moved the head and not yet made sure of the tail. */
  predicate Unsure(s: State) {
    0 <= s.deqLock < |s.loc| && (s.loc[s.deqLock].pc.DeqPeek? || s.loc[s.deqLock].pc.TailLock?)
  }

  // ---- what a thread knows -------------------------------------------------------------------

  predicate Clean(l: Ledger, t: nat)
    requires t < |l.hand| == |l.taken|
  {
    l.hand[t] == NULL && l.taken[t] == -1
  }

  predicate Preparing(s: State, l: Ledger, t: nat, done: nat)
    requires Thread(s, t) && |s.loc| == |l.hand| == |l.taken|
  {
    var x := s.loc[t];
    && l.hand[t] == x.node != NULL && l.taken[t] == -1
    && (done >= 1 ==> Data(s.h, x.node) == x.arg)
    && (done >= 2 ==> Next(s.h, x.node) == NULL)
  }

  /** The thread has unlinked its sentinel, the position before head if it still has the lock. */
  predicate Unlinked(l: Ledger, t: nat, x: Local)
    requires t < |l.hand| == |l.taken|
  {
    l.hand[t] == NULL && 0 <= l.taken[t] < l.hi < |l.chain| && x.first == l.chain[l.taken[t]]
  }

  predicate Enqueuing(log: seq<Event>, t: nat, x: Local) { Since(log, t) == [Invoke(t, Enq(x.arg))] }

  predicate Dequeuing(log: seq<Event>, t: nat) { Searching(Since(log, t), t) }

  predicate Done(log: seq<Event>, t: nat, x: Local) { Fulfils(Since(log, t), t, x.code, x.val) }

  /** The local `next` is the node behind the sentinel. */
  predicate HasNext(l: Ledger, x: Local) {
    l.hi + 1 < |l.chain| && x.first == l.chain[l.hi] && x.next == l.chain[l.hi + 1] && x.next != NULL
  }

  predicate KnowsEnq(s: State, g: History, t: nat)
    requires NoteSized(s, g) && t < |s.loc|
  {
    var x, l := s.loc[t], g.l;
    match x.pc
    case EnqLock => Clean(l, t) && Enqueuing(g.log, t, x)
    case EnqTake => Clean(l, t) && Enqueuing(g.log, t, x)
    case EnqData => Preparing(s, l, t, 0) && Enqueuing(g.log, t, x)
    case EnqClear => Preparing(s, l, t, 1) && Enqueuing(g.log, t, x)
    case EnqLink => Preparing(s, l, t, 2) && Enqueuing(g.log, t, x)
    case EnqSwing =>
      && Clean(l, t) && |l.chain| > 0 && x.node == l.chain[|l.chain| - 1]
      && Since(g.log, t) == [Invoke(t, Enq(x.arg)), Append(t, x.arg)]
    case EnqUnlock => Clean(l, t) && Done(g.log, t, x)
    case _ => true
  }

  predicate KnowsDeq(s: State, g: History, t: nat, late: bool)
    requires NoteSized(s, g) && t < |s.loc|
  {
    var x, l := s.loc[t], g.l;
    match x.pc
    case Idle => Clean(l, t) && Since(g.log, t) == []
    case DeqLock => Clean(l, t) && Dequeuing(g.log, t)
    case DeqHead => Clean(l, t) && Dequeuing(g.log, t)
    case DeqNext => Clean(l, t) && Dequeuing(g.log, t) && x.first == s.h.head
    case DeqTest =>
      && Clean(l, t) && Dequeuing(g.log, t)
      && (if x.next == NULL then |Since(g.log, t)| > 1 else HasNext(l, x))
    case DeqData => Clean(l, t) && Dequeuing(g.log, t) && HasNext(l, x)
    case DeqMove =>
      && Clean(l, t) && Dequeuing(g.log, t) && HasNext(l, x)
      && l.hi + 1 < |l.vals| && x.val == l.vals[l.hi + 1]
    case DeqUnlock =>
      && Done(g.log, t, x)
      && (if late && x.code == 1 then Unlinked(l, t, x) && l.taken[t] < l.ti else Clean(l, t))
    case _ => true
  }

  predicate KnowsTail(s: State, g: History, t: nat)
    requires NoteSized(s, g) && t < |s.loc|
  {
    var x, l := s.loc[t], g.l;
    match x.pc
    case DeqPeek => Done(g.log, t, x) && x.code == 1 && Unlinked(l, t, x) && l.taken[t] + 1 == l.hi
    case TailLock => Done(g.log, t, x) && x.code == 1 && Unlinked(l, t, x) && l.taken[t] + 1 == l.hi
    case TailPeek => Done(g.log, t, x) && x.code == 1 && Unlinked(l, t, x) && l.taken[t] < l.ti
    case TailFix => Done(g.log, t, x) && x.code == 1 && Unlinked(l, t, x) && l.taken[t] < l.ti && l.hi + 1 == |l.chain|
    case TailUnlock => Done(g.log, t, x) && x.code == 1 && Unlinked(l, t, x) && l.taken[t] < l.ti
    case Recycle => Done(g.log, t, x) && x.code == 1 && Unlinked(l, t, x) && l.taken[t] < l.ti
    case PushFree =>
      && Done(g.log, t, x) && x.code == 1
      && l.hand[t] == x.first != NULL && l.taken[t] == -1 && Next(s.h, x.first) == s.h.freeHead[t]
    case _ => true
  }

  predicate KnowsLocks(s: State, t: nat, late: bool)
    requires Thread(s, t)
  {
    && (HoldsEnq(s.loc[t].pc) <==> s.enqLock == t)
    && (HoldsDeq(s.loc[t].pc, late) <==> s.deqLock == t)
  }

  predicate Knows(s: State, g: History, t: nat, late: bool)
    requires NoteSized(s, g) && t < |s.loc|
  {
    KnowsLocks(s, t, late) && KnowsEnq(s, g, t) && KnowsDeq(s, g, t, late) && KnowsTail(s, g, t)
  }

  function Queue(l: Ledger): seq<int>
    requires l.hi < |l.vals|
  {
    l.vals[l.hi + 1..]
  }

  /** Memory, the handshake of head and tail, and the log. */
  ghost predicate Global(s: State, g: History) {
    && NoteSized(s, g)
    && Pool(s.h, g.l, |s.loc|)
    && |g.l.chain| == g.l.ti + (if Swinging(s) then 2 else 1)
    && (g.l.hi <= g.l.ti || Unsure(s))
    && -1 <= s.enqLock < |s.loc| && -1 <= s.deqLock < |s.loc|
    && Replay(g.log) == Some(Queue(g.l))
    && AllFulfilled(g.log)
  }

  ghost predicate Inv(s: State, g: History, late: bool) {
    && Global(s, g)
    && forall t: nat | t < |s.loc| :: Knows(s, g, t, late)
  }

  // ---- what a step leaves the others ---------------------------------------------------------

  predicate Grows(l: Ledger, l': Ledger) {
    && l.chain <= l'.chain && l.vals <= l'.vals
    && l.hi <= l'.hi < |l'.chain| && l.ti <= l'.ti < |l'.chain|
  }

  /** What thread u may rely on: its own things stay, and what a lock protects stays while it holds
      the lock. */
  predicate Untouched(s: State, g: History, s': State, g': History, u: nat)
    requires NoteSized(s, g) && NoteSized(s', g') && u < |s.loc| == |s'.loc|
  {
    && s'.loc[u] == s.loc[u]
    && (s'.enqLock == u <==> s.enqLock == u)
    && (s'.deqLock == u <==> s.deqLock == u)
    && g'.l.hand[u] == g.l.hand[u] && g'.l.taken[u] == g.l.taken[u]
    && s'.h.freeHead[u] == s.h.freeHead[u]
    && (g.l.hand[u] != NULL ==>
          && Data(s'.h, g.l.hand[u]) == Data(s.h, g.l.hand[u])
          && Next(s'.h, g.l.hand[u]) == Next(s.h, g.l.hand[u]))
    && Since(g'.log, u) == Since(g.log, u)
    && (s.enqLock == u ==> |g'.l.chain| == |g.l.chain|)
    && (s.deqLock == u ==> g'.l.hi == g.l.hi && s'.h.head == s.h.head)
  }

  lemma KnowsSteady(s: State, g: History, s': State, g': History, u: nat, late: bool)
    requires NoteSized(s, g) && NoteSized(s', g') && u < |s.loc| == |s'.loc|
    requires Knows(s, g, u, late) && Grows(g.l, g'.l) && Untouched(s, g, s', g', u)
    ensures Knows(s', g', u, late)
  {
    EnqSteady(s, g, s', g', u, late);
    DeqSteady(s, g, s', g', u, late);
  }

  lemma EnqSteady(s: State, g: History, s': State, g': History, u: nat, late: bool)
    requires NoteSized(s, g) && NoteSized(s', g') && u < |s.loc| == |s'.loc|
    requires KnowsLocks(s, u, late) && KnowsEnq(s, g, u) && KnowsTail(s, g, u)
    requires Grows(g.l, g'.l) && Untouched(s, g, s', g', u)
    ensures KnowsEnq(s', g', u) && KnowsTail(s', g', u)
  {
  }

  lemma DeqSteady(s: State, g: History, s': State, g': History, u: nat, late: bool)
    requires NoteSized(s, g) && NoteSized(s', g') && u < |s.loc| == |s'.loc|
    requires KnowsLocks(s, u, late) && KnowsDeq(s, g, u, late)
    requires Grows(g.l, g'.l) && Untouched(s, g, s', g', u)
    ensures KnowsDeq(s', g', u, late)
  {
  }
}
