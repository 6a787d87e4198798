/** Where the nodes of the lock-free queue are: none is ever lost, shared or freed twice. */
module LockFreeMemory {
  import opened NodePool
  import opened NodeLists
  import opened Fifo
  import opened LockFree
  import opened LockFreeInvariant
  import opened LockFreeTheorems

  /** The thread holds `node` alone, for an enqueue. */
  predicate Prepares(pc: Pc) {
    pc.EnqData? || pc.EnqClear? || pc.EnqTail? || pc.EnqNext? || pc.EnqCheck? || pc.EnqLink? || pc.EnqHelp?
  }

  /** The nodes of thread t that are in neither list: retired, just unlinked, being recycled, or
      prepared for an enqueue. */
  function OutsideLists(s: State, t: nat): seq<Ptr>
    requires Thread(s, t)
  {
    var x := s.loc[t];
    s.retired[t]
    + (if x.pc.DeqRetire? then [x.first] else [])
    + (if x.pc.Recycle? || x.pc.PushFree? then x.todo else [])
    + (if Prepares(x.pc) then [x.node] else [])
  }

  function Outsides(s: State): (r: seq<seq<Ptr>>)
    requires WellSized(s)
    ensures |r| == |s.loc| && forall t | 0 <= t < |s.loc| :: r[t] == OutsideLists(s, t)
  {
    seq(|s.loc|, t requires 0 <= t < |s.loc| => OutsideLists(s, t))
  }

  lemma OutsideIsLedger(s: State, g: History, t: nat)
    requires NoteSized(s, g) && t < |s.loc| && Knows(s, g, t) && TakenAt(g.l, t)
    ensures OutsideLists(s, t) == Outside(g.l, t)
  {
  }

  /** Node conservation: in every reachable state each node ever allocated is exactly once in the
      queue's list, in one thread's free list, or with one thread outside the lists. */
  lemma NodesConserved(n: nat, sched: seq<Move>, a: Ptr)
    requires Schedule(n, sched)
    ensures var s := Run(n, sched).0;
            multiset(Everything(s.h, Outsides(s)))[a] == if 0 <= a < |s.h.next| then 1 else 0
  {
    var (s, g) := Run(n, sched);
    Reachable(n, sched);
    forall t: nat | t < n ensures Outsides(s)[t] == Outside(g.l, t) {
      assert Knows(s, g, t) && TakenAt(g.l, t);
      OutsideIsLedger(s, g, t);
    }
    Conservation(s.h, g.l, n, Outsides(s), a);
  }

  /** `size` and `retired_count` are the lengths of their lists; at most one node is retired at a
      time, and between calls a thread has no node at all outside its free list. */
  lemma SizesAreLengths(n: nat, sched: seq<Move>, t: nat)
    requires Schedule(n, sched) && t < n
    ensures var s := Run(n, sched).0;
            && s.h.freeSize[t] == |FreeNodes(s.h, t)|
            && s.retiredCount[t] == |s.retired[t]| <= 1
            && (s.loc[t].pc.Idle? ==> OutsideLists(s, t) == [])
  {
    var (s, g) := Run(n, sched);
    Reachable(n, sched);
    FreeNodesAreListed(s.h, g.l, n, t);
    assert Knows(s, g, t);
  }

  /** At every test of `while(n)`, which is made before each read of `tail`, `n` is a node: the code
      after the loop, which would report failure, is not reached. */
  lemma LoopTestHolds(n: nat, sched: seq<Move>, t: nat)
    requires Schedule(n, sched) && t < n && Run(n, sched).0.loc[t].pc.EnqTail?
    ensures var s := Run(n, sched).0; s.loc[t].node != NULL && Allocated(s.h, s.loc[t].node)
  {
    var (s, g) := Run(n, sched);
    Reachable(n, sched);
    assert Knows(s, g, t) && HandAt(g.l, t);
  }

  /** So `enq` never reports failure; the return behind its loop has no step of its own. */
  lemma EnqueueNeverFails(n: nat, sched: seq<Move>, t: nat, c: Choice)
    requires Schedule(n, sched) && t < n && Emit(Run(n, sched).0, t, c).Return?
    requires var q := Since(Run(n, sched).1.log, t); |q| > 0 && q[0].Invoke? && q[0].call.Enq?
    ensures Emit(Run(n, sched).0, t, c).code == 1
  {
    var (s, g) := Run(n, sched);
    Reachable(n, sched);
    assert Knows(s, g, t);
  }
}
