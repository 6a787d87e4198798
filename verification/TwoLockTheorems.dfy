/** What the two-lock queue guarantees, for any number of threads, any schedule, and wherever the
    old sentinel is recycled. */
module TwoLockTheorems {
  import opened NodePool
  import opened NodeLists
  import opened Fifo
  import opened TwoLock
  import opened TwoLockInvariant
  import opened TwoLockSteps

  function Run(n: nat, sched: seq<Move>, late: bool): (r: (State, History))
    requires Schedule(n, sched)
    ensures NoteSized(r.0, r.1) && |r.0.loc| == n
    decreases |sched|, 1
  {
    if |sched| == 0 then (Init(n), InitHistory(n)) else LastMove(n, sched, late)
  }

  function LastMove(n: nat, sched: seq<Move>, late: bool): (r: (State, History))
    requires Schedule(n, sched) && |sched| > 0
    ensures NoteSized(r.0, r.1) && |r.0.loc| == n
    decreases |sched|, 0
  {
    var (s, g) := Run(n, sched[..|sched| - 1], late);
    var m := sched[|sched| - 1];
    (Step(s, m.t, m.c, late), Note(s, g, m.t, m.c, late))
  }

  /** A run ends with the step of its last move. */
  lemma LastStep(n: nat, sched: seq<Move>, late: bool)
    requires Schedule(n, sched) && |sched| > 0
    ensures var r, m := Run(n, sched[..|sched| - 1], late), sched[|sched| - 1];
            Run(n, sched, late) == (Step(r.0, m.t, m.c, late), Note(r.0, r.1, m.t, m.c, late))
  {
    assert Run(n, sched, late) == LastMove(n, sched, late);
  }

  lemma LaterIsOneStep(n: nat, sched: seq<Move>, j: nat, late: bool)
    requires Schedule(n, sched) && 0 < j <= |sched|
    ensures var (s, g) := Run(n, sched[..j - 1], late); var m := sched[j - 1];
            Run(n, sched[..j], late) == (Step(s, m.t, m.c, late), Note(s, g, m.t, m.c, late))
  {
    assert sched[..j][..j - 1] == sched[..j - 1];
    LastStep(n, sched[..j], late);
  }

  lemma InitInv(n: nat, late: bool)
    ensures Inv(Init(n), InitHistory(n), late)
  {
    var s, g := Init(n), InitHistory(n);
    forall k: nat | k < |g.l.chain| ensures StageAt(g.l, k) && LinkedAt(s.h, g.l, k) { }
    forall t: nat | t < n ensures TakenAt(g.l, t) && TopAt(s.h, g.l, t) && HandAt(g.l, t) { }
    forall a: nat | a < |g.l.own| ensures OwnerAt(g.l, a) { }
    forall t: nat | t < n ensures Knows(s, g, t, late) { }
    assert Queue(g.l) == [];
  }

  lemma {:induction false} Reachable(n: nat, sched: seq<Move>, late: bool)
    requires Schedule(n, sched)
    ensures Inv(Run(n, sched, late).0, Run(n, sched, late).1, late)
  {
    if |sched| == 0 {
      InitInv(n, late);
    } else {
      var (s, g) := Run(n, sched[..|sched| - 1], late);
      Reachable(n, sched[..|sched| - 1], late);
      StepKeepsInv(s, g, sched[|sched| - 1].t, sched[|sched| - 1].c, late);
      LastStep(n, sched, late);
    }
  }

  // ---- the queue -----------------------------------------------------------------------------

  /** Every run replays on a sequential FIFO queue, ending with what memory holds, and every call
      that returned did exactly the one change it reports, within its own duration. */
  lemma RefinesFifo(n: nat, sched: seq<Move>, late: bool)
    requires Schedule(n, sched)
    ensures Replay(Run(n, sched, late).1.log) == Some(Contents(Run(n, sched, late).0.h))
    ensures AllFulfilled(Run(n, sched, late).1.log)
  {
    Reachable(n, sched, late);
    LiveNodesAreChain(Run(n, sched, late).0.h, Run(n, sched, late).1.l, n);
  }

  // ---- the handshake of head and tail --------------------------------------------------------

  /** Head and tail agree: tail is the last node, or the last but one while an enqueuer is between
      its two writes. */
  predicate TailInside(s: State, ps: seq<Ptr>) {
    |ps| > 0 && ps[0] == s.h.head &&
    if Swinging(s) then |ps| > 1 && s.h.tail == ps[|ps| - 2] else s.h.tail == ps[|ps| - 1]
  }

  /** Head has overtaken tail: an enqueuer is between its two writes, head is exactly one node
      ahead and the only node left, and the dequeuer has not obtained the enqueue lock. */
  predicate HeadAhead(s: State, ps: seq<Ptr>) {
    Swinging(s) && Unsure(s) && ps == [s.h.head] && Next(s.h, s.h.tail) == s.h.head
  }

  lemma HandshakeIn(s: State, g: History, late: bool)
    requires Inv(s, g, late)
    ensures var ps := g.l.chain[g.l.hi..]; TailInside(s, ps) || HeadAhead(s, ps)
  {
    var ps := g.l.chain[g.l.hi..];
    if g.l.hi <= g.l.ti {
      assert ps[g.l.ti - g.l.hi] == s.h.tail;
    } else {
      var d := s.deqLock;
      assert Knows(s, g, d, late) && TakenAt(g.l, d) && LinkedAt(s.h, g.l, g.l.taken[d]);
    }
  }

  /** The two-lock handshake, in every reachable state. */
  lemma Handshake(n: nat, sched: seq<Move>, late: bool)
    requires Schedule(n, sched)
    ensures var s := Run(n, sched, late).0; TailInside(s, LiveNodes(s.h)) || HeadAhead(s, LiveNodes(s.h))
  {
    var (s, g) := Run(n, sched, late);
    Reachable(n, sched, late);
    LiveNodesAreChain(s.h, g.l, n);
    HandshakeIn(s, g, late);
  }

  /** The write `tail = head` never changes `tail`. */
  lemma TailFixIsIdle(n: nat, sched: seq<Move>, late: bool, t: nat)
    requires Schedule(n, sched) && t < n && Run(n, sched, late).0.loc[t].pc.TailFix?
    ensures Run(n, sched, late).0.h.tail == Run(n, sched, late).0.h.head
    ensures Contents(Run(n, sched, late).0.h) == []
  {
    var (s, g) := Run(n, sched, late);
    Reachable(n, sched, late);
    assert Knows(s, g, t, late);
    LiveNodesAreChain(s.h, g.l, n);
  }

  /** A sentinel is never recycled while head or tail still points to it. */
  lemma RecycledIsDetached(n: nat, sched: seq<Move>, late: bool, t: nat)
    requires Schedule(n, sched) && t < n
    requires Run(n, sched, late).0.loc[t].pc.Recycle? || Run(n, sched, late).0.loc[t].pc.PushFree?
    ensures var s := Run(n, sched, late).0; Allocated(s.h, s.loc[t].first) && s.h.head != s.loc[t].first
    ensures var s := Run(n, sched, late).0; s.loc[t].pc.Recycle? ==> s.h.tail != s.loc[t].first
  {
    var (s, g) := Run(n, sched, late);
    Reachable(n, sched, late);
    RecycledIsDetachedIn(s, g, late, t);
  }

  lemma RecycledIsDetachedIn(s: State, g: History, late: bool, t: nat)
    requires Inv(s, g, late) && t < |s.loc| && (s.loc[t].pc.Recycle? || s.loc[t].pc.PushFree?)
    ensures Allocated(s.h, s.loc[t].first) && s.h.head != s.loc[t].first
    ensures s.loc[t].pc.Recycle? ==> s.h.tail != s.loc[t].first
  {
    assert Knows(s, g, t, late) && TakenAt(g.l, t) && HandAt(g.l, t);
    assert StageAt(g.l, g.l.hi) && LinkedAt(s.h, g.l, g.l.hi);
    if s.loc[t].pc.Recycle? {
      assert LinkedAt(s.h, g.l, g.l.taken[t]);
      TailKept(s, g, late);
    }
  }

  /** The node tail points to has not been recycled. */
  lemma TailKept(s: State, g: History, late: bool)
    requires Inv(s, g, late)
    ensures !g.l.stage[g.l.ti].Reclaimed? && 0 <= s.h.tail < |g.l.own| && g.l.own[s.h.tail] == Position(g.l.ti)
  {
    if g.l.hi <= g.l.ti {
      assert StageAt(g.l, g.l.ti);
    } else {
      assert Knows(s, g, s.deqLock, late) && TakenAt(g.l, s.deqLock);
    }
    assert LinkedAt(s.h, g.l, g.l.ti);
  }

  /** No node of the queue, and not the node tail points to, is in a free list. */
  lemma EndsAreNotFree(n: nat, sched: seq<Move>, late: bool, t: nat)
    requires Schedule(n, sched) && t < n
    ensures var h := Run(n, sched, late).0.h; h.head !in FreeNodes(h, t) && h.tail !in FreeNodes(h, t)
  {
    var (s, g) := Run(n, sched, late);
    Reachable(n, sched, late);
    TailKept(s, g, late);
    assert StageAt(g.l, g.l.hi) && LinkedAt(s.h, g.l, g.l.hi);
    FreeNodesAreListed(s.h, g.l, n, t);
    FreeDistinct(s.h, g.l, n, t);
  }

  // ---- locks ---------------------------------------------------------------------------------

  /** At most one thread is in each critical section. */
  lemma MutualExclusion(n: nat, sched: seq<Move>, late: bool, t: nat, u: nat)
    requires Schedule(n, sched) && t < n && u < n && t != u
    ensures var s := Run(n, sched, late).0;
            && !(HoldsEnq(s.loc[t].pc) && HoldsEnq(s.loc[u].pc))
            && !(HoldsDeq(s.loc[t].pc, late) && HoldsDeq(s.loc[u].pc, late))
  {
    var (s, g) := Run(n, sched, late);
    Reachable(n, sched, late);
    assert Knows(s, g, t, late) && Knows(s, g, u, late);
  }

  /** The thread waits for a lock that is taken. */
  predicate Blocked(s: State, t: nat)
    requires Thread(s, t)
  {
    var pc := s.loc[t].pc;
    ((pc.EnqLock? || pc.TailLock?) && s.enqLock != FREE) || (pc.DeqLock? && s.deqLock != FREE)
  }

  /** What a waiting thread waits for is all that can hold it up: any other thread inside a call is
      elsewhere after its own step. */
  lemma UnblockedMoves(s: State, t: nat, c: Choice, late: bool)
    requires Thread(s, t) && !s.loc[t].pc.Idle? && !Blocked(s, t)
    ensures Step(s, t, c, late).loc[t].pc != s.loc[t].pc
  {
  }

  lemma EnqHolderRuns(s: State, g: History, late: bool)
    requires Inv(s, g, late) && s.enqLock != FREE
    ensures s.enqLock < |s.loc| && !s.loc[s.enqLock].pc.Idle? && !Blocked(s, s.enqLock)
  {
    assert Knows(s, g, s.enqLock, late);
  }

  /** Deadlock freedom: unless all threads are idle, one that is inside a call does not wait, and
      whatever its environment chooses, its own step takes it on. */
  lemma SomeThreadRuns(n: nat, sched: seq<Move>, late: bool, t: nat) returns (u: nat)
    requires Schedule(n, sched) && t < n && !Run(n, sched, late).0.loc[t].pc.Idle?
    ensures u < n && !Run(n, sched, late).0.loc[u].pc.Idle? && !Blocked(Run(n, sched, late).0, u)
    ensures var s := Run(n, sched, late).0; forall c :: Step(s, u, c, late).loc[u].pc != s.loc[u].pc
  {
    var (s, g) := Run(n, sched, late);
    Reachable(n, sched, late);
    u := t;
    if Blocked(s, u) && s.loc[u].pc.DeqLock? {
      u := s.deqLock;
      assert Knows(s, g, u, late);
    }
    if Blocked(s, u) {
      EnqHolderRuns(s, g, late);
      u := s.enqLock;
    }
    forall c ensures Step(s, u, c, late).loc[u].pc != s.loc[u].pc { UnblockedMoves(s, u, c, late); }
  }

  // ---- nodes ---------------------------------------------------------------------------------

  /** The thread has unlinked a sentinel and not yet put it on its free list. */
  predicate Owes(x: Local, late: bool) {
    || x.pc.DeqPeek? || x.pc.TailLock? || x.pc.TailPeek? || x.pc.TailFix? || x.pc.TailUnlock?
    || x.pc.Recycle? || x.pc.PushFree? || (late && x.pc.DeqUnlock? && x.code == 1)
  }

  /** The nodes of thread t that are in neither list. */
  function OutsideLists(x: Local, late: bool): seq<Ptr> {
    if x.pc.EnqData? || x.pc.EnqClear? || x.pc.EnqLink? then [x.node]
    else if Owes(x, late) then [x.first]
    else []
  }

  function Outsides(s: State, late: bool): (r: seq<seq<Ptr>>)
    ensures |r| == |s.loc| && forall t | 0 <= t < |s.loc| :: r[t] == OutsideLists(s.loc[t], late)
  {
    seq(|s.loc|, t requires 0 <= t < |s.loc| => OutsideLists(s.loc[t], late))
  }

  lemma OutsideIsLedger(s: State, g: History, late: bool, t: nat)
    requires Inv(s, g, late) && t < |s.loc|
    ensures OutsideLists(s.loc[t], late) == Outside(g.l, t)
  {
    assert Knows(s, g, t, late) && TakenAt(g.l, t);
  }

  /** Node conservation, whichever side of the unlock the sentinel is recycled on. */
  lemma NodesConserved(n: nat, sched: seq<Move>, late: bool, a: Ptr)
    requires Schedule(n, sched)
    ensures var s := Run(n, sched, late).0;
            multiset(Everything(s.h, Outsides(s, late)))[a] == if 0 <= a < |s.h.next| then 1 else 0
  {
    var (s, g) := Run(n, sched, late);
    Reachable(n, sched, late);
    forall t: nat | t < n ensures Outsides(s, late)[t] == Outside(g.l, t) { OutsideIsLedger(s, g, late, t); }
    Conservation(s.h, g.l, n, Outsides(s, late), a);
  }

  /** `size` is the length of the free list. */
  lemma SizesAreLengths(n: nat, sched: seq<Move>, late: bool, t: nat)
    requires Schedule(n, sched) && t < n
    ensures var h := Run(n, sched, late).0.h; h.freeSize[t] == |FreeNodes(h, t)|
  {
    Reachable(n, sched, late);
    FreeNodesAreListed(Run(n, sched, late).0.h, Run(n, sched, late).1.l, n, t);
  }
}
