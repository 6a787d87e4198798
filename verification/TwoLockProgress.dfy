/** Progress of the two-lock queue: what a call does, left alone, and when it reports failure. */
module TwoLockProgress {
  import opened NodePool
  import opened NodeLists
  import opened Fifo
  import opened TwoLock
  import opened TwoLockInvariant
  import opened TwoLockSteps
  import opened TwoLockTheorems

  function StateAt(n: nat, sched: seq<Move>, late: bool, k: nat): (s: State)
    requires Schedule(n, sched) && k <= |sched|
    ensures WellSized(s) && |s.loc| == n
  {
    Run(n, sched[..k], late).0
  }

  lemma NextState(n: nat, sched: seq<Move>, late: bool, k: nat)
    requires Schedule(n, sched) && k < |sched|
    ensures StateAt(n, sched, late, k + 1) == Step(StateAt(n, sched, late, k), sched[k].t, sched[k].c, late)
  {
    LaterIsOneStep(n, sched, k + 1, late);
  }

  // ---- the end of `deq` ----------------------------------------------------------------------

  /** In memory's terms: the dequeuer goes for the enqueue lock exactly when it has left the queue
      empty. */
  lemma RepairIsTried(n: nat, sched: seq<Move>, late: bool, t: nat, c: Choice)
    requires Schedule(n, sched) && t < n && Run(n, sched, late).0.loc[t].pc.DeqPeek?
    ensures var s := Run(n, sched, late).0;
            Step(s, t, c, late).loc[t].pc.TailLock? <==> Contents(s.h) == []
  {
    var (s, g) := Run(n, sched, late);
    Reachable(n, sched, late);
    LiveNodesAreChain(s.h, g.l, n);
    ReadSentinel(s, g);
  }

  /** And it writes `tail` exactly when the queue is still empty under that lock. */
  lemma RepairIsMade(n: nat, sched: seq<Move>, late: bool, t: nat, c: Choice)
    requires Schedule(n, sched) && t < n && Run(n, sched, late).0.loc[t].pc.TailPeek?
    ensures var s := Run(n, sched, late).0;
            Step(s, t, c, late).loc[t].pc.TailFix? <==> Contents(s.h) == []
  {
    var (s, g) := Run(n, sched, late);
    Reachable(n, sched, late);
    LiveNodesAreChain(s.h, g.l, n);
    ReadSentinel(s, g);
  }

  // ---- running alone -------------------------------------------------------------------------

  /** At most this many steps to the return, when nobody else is inside a call. */
  function Rank(x: Local, late: bool): nat {
    match x.pc
    case Idle => 0
    case EnqLock => 7
    case EnqTake => 6
    case EnqData => 5
    case EnqClear => 4
    case EnqLink => 3
    case EnqSwing => 2
    case EnqUnlock => 1
    case DeqLock => 14
    case DeqHead => 13
    case DeqNext => 12
    case DeqTest => 11
    case DeqData => 10
    case DeqMove => 9
    case DeqPeek => 8
    case TailLock => 7
    case TailPeek => 6
    case TailFix => 5
    case TailUnlock => 4
    case Recycle => if late then 2 else 3
    case PushFree => if late then 1 else 2
    case DeqUnlock => if late && x.code == 1 then 3 else 1
  }

  predicate OthersIdle(s: State, t: nat) { forall u: nat | u < |s.loc| && u != t :: s.loc[u].pc.Idle? }

  /** Nobody else holds a lock. */
  lemma AloneIsFree(s: State, g: History, late: bool, t: nat)
    requires Inv(s, g, late) && t < |s.loc| && OthersIdle(s, t)
    ensures !Blocked(s, t)
  {
    assert Knows(s, g, t, late);
    if s.enqLock != FREE { assert Knows(s, g, s.enqLock, late); }
    if s.deqLock != FREE { assert Knows(s, g, s.deqLock, late); }
  }

  lemma RankFalls(s: State, g: History, late: bool, t: nat, c: Choice)
    requires NoteSized(s, g) && t < |s.loc| && Knows(s, g, t, late) && !Blocked(s, t) && !s.loc[t].pc.Idle?
    ensures Rank(Step(s, t, c, late).loc[t], late) < Rank(s.loc[t], late)
  {
  }

  /** `moves` are steps of thread t, whatever the environment chooses at each. */
  predicate StepsOf(moves: seq<Move>, t: nat) { forall k | 0 <= k < |moves| :: moves[k].t == t }

  lemma OneMore(n: nat, sched: seq<Move>, late: bool, m: Move)
    requires Schedule(n, sched) && m.t < n
    ensures Schedule(n, sched + [m])
    ensures Run(n, sched + [m], late).0 == Step(Run(n, sched, late).0, m.t, m.c, late)
  {
    assert (sched + [m])[..|sched|] == sched;
    LastStep(n, sched + [m], late);
  }

  lemma Nearer(n: nat, sched: seq<Move>, late: bool, m: Move)
    requires Schedule(n, sched) && m.t < n && OthersIdle(Run(n, sched, late).0, m.t)
    requires !Run(n, sched, late).0.loc[m.t].pc.Idle?
    ensures Schedule(n, sched + [m]) && OthersIdle(Run(n, sched + [m], late).0, m.t)
    ensures Rank(Run(n, sched + [m], late).0.loc[m.t], late) < Rank(Run(n, sched, late).0.loc[m.t], late)
  {
    var (s, g) := Run(n, sched, late);
    Reachable(n, sched, late);
    AloneIsFree(s, g, late, m.t);
    RankFalls(s, g, late, m.t, m.c);
    OneMore(n, sched, late, m);
  }

  lemma Regroup(sched: seq<Move>, moves: seq<Move>, j: nat)
    requires j < |moves|
    ensures sched + [moves[0]] + moves[1..][..j] == sched + moves[..j + 1]
  {
  }

  lemma {:induction false} AloneFinishes(n: nat, sched: seq<Move>, late: bool, t: nat, moves: seq<Move>)
    returns (k: nat)
    requires Schedule(n, sched) && t < n && OthersIdle(Run(n, sched, late).0, t) && StepsOf(moves, t)
    requires |moves| >= Rank(Run(n, sched, late).0.loc[t], late)
    ensures k <= Rank(Run(n, sched, late).0.loc[t], late) && Schedule(n, sched + moves[..k])
    ensures Run(n, sched + moves[..k], late).0.loc[t].pc.Idle?
    decreases |moves|
  {
    if Run(n, sched, late).0.loc[t].pc.Idle? {
      k := 0;
      assert sched + moves[..0] == sched;
    } else {
      Nearer(n, sched, late, moves[0]);
      var j := AloneFinishes(n, sched + [moves[0]], late, t, moves[1..]);
      k := j + 1;
      Regroup(sched, moves, j);
    }
  }

  /** Termination: in any reachable state in which all other threads are idle, a thread inside a call
      that is left alone is idle again after at most 14 steps (7 in `enq`), whatever allocation does. */
  lemma ReturnsAlone(n: nat, sched: seq<Move>, late: bool, t: nat, moves: seq<Move>) returns (k: nat)
    requires Schedule(n, sched) && t < n && OthersIdle(Run(n, sched, late).0, t)
    requires |moves| == 14 && StepsOf(moves, t)
    ensures k <= if Enqueues(Run(n, sched, late).0.loc[t].pc) then 7 else 14
    ensures Schedule(n, sched + moves[..k]) && Run(n, sched + moves[..k], late).0.loc[t].pc.Idle?
  {
    k := AloneFinishes(n, sched, late, t, moves);
  }

  predicate Enqueues(pc: Pc) {
    pc.EnqLock? || pc.EnqTake? || pc.EnqData? || pc.EnqClear? || pc.EnqLink? || pc.EnqSwing? || pc.EnqUnlock?
  }

  // ---- when `enq` fails ----------------------------------------------------------------------

  /** Between the attempt to get a node and the return of `enq`. */
  predicate Attempted(pc: Pc) { Enqueues(pc) && !pc.EnqLock? && !pc.EnqTake? }

  /** At step j thread t asks for a node. */
  predicate AsksAt(n: nat, sched: seq<Move>, late: bool, j: nat, t: nat)
    requires Schedule(n, sched) && j < |sched| && t < n
  {
    sched[j].t == t && StateAt(n, sched, late, j).loc[t].pc.EnqTake?
  }

  /** There is no node to be had: its free list is empty and allocation refuses. */
  predicate RefusedAt(n: nat, sched: seq<Move>, late: bool, j: nat, t: nat)
    requires Schedule(n, sched) && j < |sched| && t < n
  {
    FreeNodes(StateAt(n, sched, late, j).h, t) == [] && sched[j].c.noMemory
  }

  /** The outcome so far of a thread that has asked. */
  predicate Decided(x: Local, refused: bool) {
    if refused then x.pc.EnqUnlock? && x.code == 0 else x.pc.EnqUnlock? ==> x.code == 1
  }

  /** The free list is empty exactly when its head is NULL. */
  lemma EmptyFreeList(h: Heap, l: Ledger, n: nat, t: nat)
    requires Pool(h, l, n) && t < n
    ensures h.freeHead[t] == NULL <==> FreeNodes(h, t) == []
  {
    FreeNodesAreListed(h, l, n, t);
    assert TopAt(h, l, t);
    if |l.free[t]| > 0 { assert SlotAt(h, l, t, |l.free[t]| - 1); }
  }

  lemma Asked(n: nat, sched: seq<Move>, late: bool, j: nat, t: nat)
    requires Schedule(n, sched) && j < |sched| && t < n && AsksAt(n, sched, late, j, t)
    ensures Attempted(StateAt(n, sched, late, j + 1).loc[t].pc)
    ensures Decided(StateAt(n, sched, late, j + 1).loc[t], RefusedAt(n, sched, late, j, t))
  {
    var (s, g) := Run(n, sched[..j], late);
    Reachable(n, sched[..j], late);
    EmptyFreeList(s.h, g.l, n, t);
    NextState(n, sched, late, j);
  }

  lemma StaysDecided(s: State, u: nat, c: Choice, late: bool, t: nat, refused: bool)
    requires Thread(s, u) && t < |s.loc| && Attempted(Step(s, u, c, late).loc[t].pc)
    requires !(u == t && s.loc[t].pc.EnqTake?)
    ensures Attempted(s.loc[t].pc)
    ensures Decided(s.loc[t], refused) ==> Decided(Step(s, u, c, late).loc[t], refused)
  {
  }

  /** Every `enq` that is past its attempt to get a node made one, at a step j of the same call. */
  lemma {:induction false} AttemptWasMade(n: nat, sched: seq<Move>, late: bool, k: nat, t: nat) returns (j: nat)
    requires Schedule(n, sched) && k <= |sched| && t < n && Attempted(StateAt(n, sched, late, k).loc[t].pc)
    ensures j < k && AsksAt(n, sched, late, j, t)
    ensures forall m: nat | j < m <= k :: Attempted(StateAt(n, sched, late, m).loc[t].pc)
    ensures Decided(StateAt(n, sched, late, k).loc[t], RefusedAt(n, sched, late, j, t))
    decreases k
  {
    assert k > 0;
    NextState(n, sched, late, k - 1);
    if AsksAt(n, sched, late, k - 1, t) {
      j := k - 1;
      Asked(n, sched, late, j, t);
    } else {
      var s, m := StateAt(n, sched, late, k - 1), sched[k - 1];
      StaysDecided(s, m.t, m.c, late, t, true);
      j := AttemptWasMade(n, sched, late, k - 1, t);
      StaysDecided(s, m.t, m.c, late, t, RefusedAt(n, sched, late, j, t));
    }
  }

  /** `enq` returns 0 exactly when, in the course of that call, the thread's free list was empty and
      allocation refused; otherwise it returns 1. */
  lemma FailsOnlyWithoutMemory(n: nat, sched: seq<Move>, late: bool, k: nat, t: nat) returns (j: nat)
    requires Schedule(n, sched) && k < |sched| && t < n
    requires sched[k].t == t && StateAt(n, sched, late, k).loc[t].pc.EnqUnlock?
    ensures j < k && AsksAt(n, sched, late, j, t)
    ensures forall m: nat | j < m <= k :: Attempted(StateAt(n, sched, late, m).loc[t].pc)
    ensures var e := Emit(StateAt(n, sched, late, k), t, sched[k].c, late);
            e.Return? && e.code == if RefusedAt(n, sched, late, j, t) then 0 else 1
  {
    j := AttemptWasMade(n, sched, late, k, t);
  }

  // ---- what the caller is told ---------------------------------------------------------------

  /** A thread's code and value are those of a return. */
  predicate Reports(x: Local, e: Event) { e.Return? && x.code == e.code && x.val == e.v }

  lemma ReportStep(s: State, u: nat, c: Choice, late: bool, t: nat)
    requires Thread(s, u) && t < |s.loc| && Step(s, u, c, late).loc[t].pc.Idle?
    ensures var s', e := Step(s, u, c, late), Emit(s, u, c, late);
            if u == t then Reports(s'.loc[t], e) else s'.loc[t] == s.loc[t]
  {
  }

  /** The latest event of an idle thread that has made a call is a return, of the code and the value
      that the thread then holds. */
  lemma {:induction false} IdleReports(n: nat, sched: seq<Move>, late: bool, k: nat, t: nat)
    requires Schedule(n, sched) && k <= |sched| && t < n && StateAt(n, sched, late, k).loc[t].pc.Idle?
    ensures var log := Run(n, sched[..k], late).1.log;
            LatestOf(log, t).Some? ==> Reports(StateAt(n, sched, late, k).loc[t], LatestOf(log, t).value)
    decreases k
  {
    if k > 0 {
      var (s, g) := Run(n, sched[..k - 1], late);
      var m := sched[k - 1];
      LaterIsOneStep(n, sched, k, late);
      LatestStep(g.log, Emit(s, m.t, m.c, late), t);
      ReportStep(s, m.t, m.c, late, t);
      if m.t != t { IdleReports(n, sched, late, k - 1, t); }
    }
  }
}
