/** What the lock-free queue guarantees, for any number of threads and any schedule. */
module LockFreeTheorems {
  import opened NodePool
  import opened NodeLists
  import opened Fifo
  import opened LockFree
  import opened LockFreeInvariant
  import opened LockFreeSteps

  // ---- runs ----------------------------------------------------------------------------------

  /** The state after a schedule, with its bookkeeping. */
  function Run(n: nat, sched: seq<Move>): (r: (State, History))
    requires Schedule(n, sched)
    ensures NoteSized(r.0, r.1) && |r.0.loc| == n
    decreases |sched|, 1
  {
    if |sched| == 0 then (Init(n), InitHistory(n)) else LastMove(n, sched)
  }

  function LastMove(n: nat, sched: seq<Move>): (r: (State, History))
    requires Schedule(n, sched) && |sched| > 0
    ensures NoteSized(r.0, r.1) && |r.0.loc| == n
    decreases |sched|, 0
  {
    var (s, g) := Run(n, sched[..|sched| - 1]);
    var m := sched[|sched| - 1];
    (Step(s, m.t, m.c), Note(s, g, m.t, m.c))
  }

  /** A run ends with the step of its last move. */
  lemma LastStep(n: nat, sched: seq<Move>)
    requires Schedule(n, sched) && |sched| > 0
    ensures var r, m := Run(n, sched[..|sched| - 1]), sched[|sched| - 1];
            Run(n, sched).0 == Step(r.0, m.t, m.c) && Run(n, sched).1 == Note(r.0, r.1, m.t, m.c)
  {
    assert Run(n, sched) == LastMove(n, sched);
  }

  lemma InitInv(n: nat)
    ensures Inv(Init(n), InitHistory(n))
  {
    var s, g := Init(n), InitHistory(n);
    forall k: nat | k < |g.l.chain| ensures StageAt(g.l, k) && LinkedAt(s.h, g.l, k) { }
    forall t: nat | t < n ensures TakenAt(g.l, t) && TopAt(s.h, g.l, t) && HandAt(g.l, t) { }
    forall a: nat | a < |g.l.own| ensures OwnerAt(g.l, a) { }
    forall t: nat | t < n ensures Knows(s, g, t) { }
    assert Queue(g.l) == [];
  }

  /** The invariant holds in every reachable state. */
  lemma {:induction false} Reachable(n: nat, sched: seq<Move>)
    requires Schedule(n, sched)
    ensures Inv(Run(n, sched).0, Run(n, sched).1)
  {
    if |sched| == 0 {
      InitInv(n);
    } else {
      var (s, g) := Run(n, sched[..|sched| - 1]);
      Reachable(n, sched[..|sched| - 1]);
      StepKeepsInv(s, g, sched[|sched| - 1].t, sched[|sched| - 1].c);
      LastStep(n, sched);
    }
  }

  /** What each thread knows, in every reachable state. */
  lemma KnowsAt(n: nat, sched: seq<Move>, t: nat)
    requires Schedule(n, sched) && t < n
    ensures Knows(Run(n, sched).0, Run(n, sched).1, t)
  {
    Reachable(n, sched);
  }

  // ---- the queue -----------------------------------------------------------------------------

  lemma LogIsContents(s: State, g: History)
    requires Global(s, g)
    ensures Replay(g.log) == Some(Contents(s.h))
  {
    LiveNodesAreChain(s.h, g.l, |s.loc|);
  }

  /** Every run replays on a sequential FIFO queue, ending with what memory holds, and every call
      that returned did exactly the one change it reports, within its own duration. */
  lemma RefinesFifo(n: nat, sched: seq<Move>)
    requires Schedule(n, sched)
    ensures Replay(Run(n, sched).1.log) == Some(Contents(Run(n, sched).0.h))
    ensures AllFulfilled(Run(n, sched).1.log)
  {
    Reachable(n, sched);
    LogIsContents(Run(n, sched).0, Run(n, sched).1);
  }

  /** A step changes the contents of memory exactly as its event says: an append at the back, a
      removal at the front of the value that is returned, or nothing. */
  lemma StepChangesContents(s: State, g: History, t: nat, c: Choice)
    requires Inv(s, g) && t < |s.loc|
    ensures Apply(Some(Contents(s.h)), Emit(s, t, c)) == Some(Contents(Step(s, t, c).h))
  {
    StepKeepsInv(s, g, t, c);
    LogIsContents(s, g);
    LogIsContents(Step(s, t, c), Note(s, g, t, c));
    ReplayStep(g.log, Emit(s, t, c));
  }

  // ---- pointers ------------------------------------------------------------------------------

  /** The thread will still compare or follow p where it stands. */
  predicate Uses(x: Local, p: Ptr) {
    match x.pc
    case EnqNext => p == x.last
    case EnqCheck => p == x.last || p == x.next
    case EnqLink => p == x.last
    case EnqSwing => p == x.last || p == x.node
    case EnqHelp => p == x.last || p == x.next
    case DeqTail => p == x.first
    case DeqNext => p == x.first || p == x.last
    case DeqCheck => p == x.first || p == x.last || p == x.next
    case DeqHelp => p == x.last || p == x.next
    case DeqData => p == x.first || p == x.next
    case DeqAdvance => p == x.first || p == x.next
    case _ => false
  }

  /** The thread is filling p for an enqueue, or is putting it on its free list. */
  predicate Refilling(x: Local, p: Ptr) {
    match x.pc
    case EnqData => p == x.node
    case EnqClear => p == x.node
    case EnqTail => p == x.node
    case EnqNext => p == x.node
    case EnqCheck => p == x.node
    case EnqLink => p == x.node
    case EnqHelp => p == x.node
    case PushFree => |x.todo| > 0 && p == x.todo[0]
    case _ => false
  }

  lemma UsedIsLinked(s: State, g: History, u: nat, p: Ptr)
    requires Inv(s, g) && u < |s.loc| && Uses(s.loc[u], p) && p != NULL
    ensures Allocated(s.h, p) && g.l.own[p].Position?
  {
    assert Knows(s, g, u);
    var m := g.marks[u];
    forall k: nat | m.base <= k < |g.l.chain| ensures 0 <= g.l.chain[k] < |g.l.own| && g.l.own[g.l.chain[k]].Position? {
      assert LinkedAt(s.h, g.l, k);
    }
  }

  lemma FreeIsFree(h: Heap, l: Ledger, n: nat, t: nat, p: Ptr)
    requires Pool(h, l, n) && t < n && p in FreeNodes(h, t)
    ensures 0 <= p < |l.own| && l.own[p].FreeSlot?
  {
    FreeNodesAreListed(h, l, n, t);
    var i :| 0 <= i < |FreeNodes(h, t)| && FreeNodes(h, t)[i] == p;
    assert SlotAt(h, l, t, |l.free[t]| - 1 - i);
  }

  lemma RefillingIsHeld(s: State, g: History, t: nat, p: Ptr)
    requires Inv(s, g) && t < |s.loc| && Refilling(s.loc[t], p)
    ensures 0 <= p < |g.l.own| && g.l.own[p].Hand?
  {
    assert Knows(s, g, t) && HandAt(g.l, t);
  }

  /** Reclamation safety: a node that some thread still uses inside its operation is allocated, in
      nobody's free list, and being refilled or recycled by nobody. */
  lemma UsedIsNotRecycled(n: nat, sched: seq<Move>, u: nat, t: nat, p: Ptr)
    requires Schedule(n, sched) && u < n && t < n
    requires Uses(Run(n, sched).0.loc[u], p) && p != NULL
    ensures Allocated(Run(n, sched).0.h, p)
    ensures p !in FreeNodes(Run(n, sched).0.h, t)
    ensures !Refilling(Run(n, sched).0.loc[t], p)
  {
    var (s, g) := Run(n, sched);
    Reachable(n, sched);
    UsedIsLinked(s, g, u, p);
    if p in FreeNodes(s.h, t) { FreeIsFree(s.h, g.l, n, t, p); }
    if Refilling(s.loc[t], p) { RefillingIsHeld(s, g, t, p); }
  }

  /** The address the thread's next access goes through, if it goes through a node. */
  function Through(x: Local): Option<Ptr> {
    match x.pc
    case EnqData => Some(x.node)
    case EnqClear => Some(x.node)
    case EnqNext => Some(x.last)
    case EnqLink => Some(x.last)
    case DeqNext => Some(x.first)
    case DeqData => Some(x.next)
    case Recycle => if |x.todo| > 0 then Some(x.todo[0]) else None
    case PushFree => if |x.todo| > 0 then Some(x.todo[0]) else None
    case _ => None
  }

  lemma ThroughNotNull(s: State, g: History, t: nat)
    requires Inv(s, g) && t < |s.loc| && InOp(s.loc[t].pc) && Through(s.loc[t]).Some?
    ensures Through(s.loc[t]).value != NULL
  {
    assert Knows(s, g, t);
    var m := g.marks[t];
    forall k: nat | m.base <= k < |g.l.chain| ensures g.l.chain[k] != NULL { assert LinkedAt(s.h, g.l, k); }
  }

  lemma ThroughIsAllocated(s: State, g: History, t: nat)
    requires Inv(s, g) && t < |s.loc| && Through(s.loc[t]).Some?
    ensures Allocated(s.h, Through(s.loc[t]).value)
  {
    assert Knows(s, g, t) && HandAt(g.l, t);
    var p := Through(s.loc[t]).value;
    if Uses(s.loc[t], p) && p != NULL {
      UsedIsLinked(s, g, t, p);
    } else if s.loc[t].pc.Recycle? {
      assert TakenAt(g.l, t) && LinkedAt(s.h, g.l, g.marks[t].fi);
    } else if InOp(s.loc[t].pc) {
      ThroughNotNull(s, g, t);
    }
  }

  /** No access ever goes through NULL or an address that was not allocated; in particular `next`
      is a node whenever `deq` reads its value. */
  lemma NoBadDereference(n: nat, sched: seq<Move>, t: nat)
    requires Schedule(n, sched) && t < n && Through(Run(n, sched).0.loc[t]).Some?
    ensures Allocated(Run(n, sched).0.h, Through(Run(n, sched).0.loc[t]).value)
  {
    Reachable(n, sched);
    ThroughIsAllocated(Run(n, sched).0, Run(n, sched).1, t);
  }

  predicate NearEnd(h: Heap, ps: seq<Ptr>) {
    |ps| > 0 && ps[0] == h.head && (h.tail == ps[|ps| - 1] || (|ps| > 1 && h.tail == ps[|ps| - 2]))
  }

  lemma NearEndOf(h: Heap, l: Ledger, n: nat)
    requires Pool(h, l, n) && l.hi <= l.ti && |l.chain| <= l.ti + 2
    ensures NearEnd(h, l.chain[l.hi..])
  {
    var ps := l.chain[l.hi..];
    assert ps[0] == h.head && ps[l.ti - l.hi] == h.tail;
  }

  /** `head` is never past `tail`, and `tail` is the last or last but one node of the list. */
  lemma TailNearEnd(n: nat, sched: seq<Move>)
    requires Schedule(n, sched)
    ensures NearEnd(Run(n, sched).0.h, LiveNodes(Run(n, sched).0.h))
  {
    var (s, g) := Run(n, sched);
    Reachable(n, sched);
    LiveNodesAreChain(s.h, g.l, n);
    NearEndOf(s.h, g.l, n);
  }

  // ---- no ABA --------------------------------------------------------------------------------

  function StateAt(n: nat, sched: seq<Move>, k: nat): (s: State)
    requires Schedule(n, sched) && k <= |sched|
    ensures WellSized(s) && |s.loc| == n
  {
    Run(n, sched[..k]).0
  }

  function HistoryAt(n: nat, sched: seq<Move>, k: nat): (g: History)
    requires Schedule(n, sched) && k <= |sched|
    ensures NoteSized(StateAt(n, sched, k), g)
  {
    Run(n, sched[..k]).1
  }

  /** A counter only grows, and while it stands still the thread's operation is the same. */
  lemma StepCounter(s: State, g: History, t: nat, c: Choice, u: nat)
    requires NoteSized(s, g) && t < |s.loc| && u < |s.loc|
    ensures s.ctr[u] <= Step(s, t, c).ctr[u]
    ensures s.ctr[u] == Step(s, t, c).ctr[u] ==> g.marks[u].base == Note(s, g, t, c).marks[u].base
  {
  }

  lemma LaterIsOneStep(n: nat, sched: seq<Move>, j: nat)
    requires Schedule(n, sched) && 0 < j <= |sched|
    ensures StateAt(n, sched, j) == Step(StateAt(n, sched, j - 1), sched[j - 1].t, sched[j - 1].c)
    ensures HistoryAt(n, sched, j) ==
            Note(StateAt(n, sched, j - 1), HistoryAt(n, sched, j - 1), sched[j - 1].t, sched[j - 1].c)
  {
    assert sched[..j][..j - 1] == sched[..j - 1];
    LastStep(n, sched[..j]);
  }

  lemma CounterNext(n: nat, sched: seq<Move>, j: nat, u: nat)
    requires Schedule(n, sched) && 0 < j <= |sched| && u < n
    ensures StateAt(n, sched, j - 1).ctr[u] <= StateAt(n, sched, j).ctr[u]
    ensures StateAt(n, sched, j - 1).ctr[u] == StateAt(n, sched, j).ctr[u] ==>
              HistoryAt(n, sched, j - 1).marks[u].base == HistoryAt(n, sched, j).marks[u].base
  {
    LaterIsOneStep(n, sched, j);
    StepCounter(StateAt(n, sched, j - 1), HistoryAt(n, sched, j - 1), sched[j - 1].t, sched[j - 1].c, u);
  }

  lemma {:induction false} CounterBetween(n: nat, sched: seq<Move>, i: nat, j: nat, u: nat)
    requires Schedule(n, sched) && i <= j <= |sched| && u < n
    ensures StateAt(n, sched, i).ctr[u] <= StateAt(n, sched, j).ctr[u]
    ensures StateAt(n, sched, i).ctr[u] == StateAt(n, sched, j).ctr[u] ==>
              HistoryAt(n, sched, i).marks[u].base == HistoryAt(n, sched, j).marks[u].base
    decreases j
  {
    if i < j {
      CounterBetween(n, sched, i, j - 1, u);
      CounterNext(n, sched, j, u);
    }
  }

  lemma GrowsOn(l: Ledger, m: Ledger, r: Ledger)
    requires Grows(l, m) && Grows(m, r)
    ensures Grows(l, r)
  {
  }

  lemma {:induction false} GrowsBetween(n: nat, sched: seq<Move>, i: nat, j: nat)
    requires Schedule(n, sched) && i <= j <= |sched|
    ensures Grows(HistoryAt(n, sched, i).l, HistoryAt(n, sched, j).l)
    decreases j
  {
    if i < j {
      GrowsBetween(n, sched, i, j - 1);
      Reachable(n, sched[..j - 1]);
      LaterIsOneStep(n, sched, j);
      StepKeepsInv(StateAt(n, sched, j - 1), HistoryAt(n, sched, j - 1), sched[j - 1].t, sched[j - 1].c);
      GrowsOn(HistoryAt(n, sched, i).l, HistoryAt(n, sched, j - 1).l, HistoryAt(n, sched, j).l);
    } else {
      Reachable(n, sched[..j]);
    }
  }

  /** Thread t stays in one operation from step i to step j. */
  predicate OneOperation(n: nat, sched: seq<Move>, i: nat, j: nat, t: nat)
    requires Schedule(n, sched) && i <= j <= |sched| && t < n
  {
    Odd(StateAt(n, sched, i).ctr[t]) && StateAt(n, sched, i).ctr[t] == StateAt(n, sched, j).ctr[t]
  }

  /** Meanwhile no position from its beginning on is recycled. */
  lemma ReservedThroughout(n: nat, sched: seq<Move>, i: nat, m: nat, j: nat, t: nat)
    requires Schedule(n, sched) && i <= m <= j <= |sched| && t < n && OneOperation(n, sched, i, j, t)
    ensures var base := HistoryAt(n, sched, i).marks[t].base;
            base <= HistoryAt(n, sched, i).l.hi && Reserved(HistoryAt(n, sched, m).l, base)
  {
    CounterBetween(n, sched, i, m, t);
    CounterBetween(n, sched, m, j, t);
    Reachable(n, sched[..i]);
    Reachable(n, sched[..m]);
    assert Knows(StateAt(n, sched, i), HistoryAt(n, sched, i), t);
    assert Knows(StateAt(n, sched, m), HistoryAt(n, sched, m), t);
  }

  lemma PositionsAt(n: nat, sched: seq<Move>, j: nat)
    requires Schedule(n, sched) && j <= |sched|
    ensures var h, l := StateAt(n, sched, j).h, HistoryAt(n, sched, j).l;
            l.hi <= l.ti < |l.chain| && h.head == l.chain[l.hi] && h.tail == l.chain[l.ti]
  {
    Reachable(n, sched[..j]);
  }

  lemma ApartAt(n: nat, sched: seq<Move>, j: nat, base: nat, a: nat, b: nat)
    requires Schedule(n, sched) && j <= |sched| && Reserved(HistoryAt(n, sched, j).l, base)
    requires base <= a < |HistoryAt(n, sched, j).l.chain| && base <= b < |HistoryAt(n, sched, j).l.chain|
    ensures HistoryAt(n, sched, j).l.chain[a] == HistoryAt(n, sched, j).l.chain[b] <==> a == b
  {
    Reachable(n, sched[..j]);
    SameNode(StateAt(n, sched, j).h, HistoryAt(n, sched, j).l, n, base, a, b);
  }

  /** While thread t stays in one operation, an address it could have read at step i stands for the
      same position at step j. */
  lemma SamePosition(n: nat, sched: seq<Move>, i: nat, j: nat, t: nat, a: nat, b: nat)
    requires Schedule(n, sched) && i <= j <= |sched| && t < n && OneOperation(n, sched, i, j, t)
    requires HistoryAt(n, sched, i).l.hi <= a < |HistoryAt(n, sched, i).l.chain|
    requires HistoryAt(n, sched, i).l.hi <= b < |HistoryAt(n, sched, j).l.chain|
    requires HistoryAt(n, sched, i).l.chain[a] == HistoryAt(n, sched, j).l.chain[b]
    ensures a == b
  {
    ReservedThroughout(n, sched, i, j, j, t);
    GrowsBetween(n, sched, i, j);
    ApartAt(n, sched, j, HistoryAt(n, sched, i).marks[t].base, a, b);
  }

  lemma EndsAdvance(n: nat, sched: seq<Move>, i: nat, j: nat)
    requires Schedule(n, sched) && i <= j <= |sched|
    ensures var l, l' := HistoryAt(n, sched, i).l, HistoryAt(n, sched, j).l;
            && l.hi <= l'.hi && l.ti <= l'.ti
            && (l.hi == l'.hi ==> StateAt(n, sched, i).h.head == StateAt(n, sched, j).h.head)
            && (l.ti == l'.ti ==> StateAt(n, sched, i).h.tail == StateAt(n, sched, j).h.tail)
  {
    GrowsBetween(n, sched, i, j);
    PositionsAt(n, sched, i);
    PositionsAt(n, sched, j);
  }

  lemma HeadStands(n: nat, sched: seq<Move>, i: nat, j: nat, t: nat)
    requires Schedule(n, sched) && i <= j <= |sched| && t < n && OneOperation(n, sched, i, j, t)
    requires StateAt(n, sched, i).h.head == StateAt(n, sched, j).h.head
    ensures HistoryAt(n, sched, i).l.hi == HistoryAt(n, sched, j).l.hi
  {
    EndsAdvance(n, sched, i, j);
    PositionsAt(n, sched, i);
    PositionsAt(n, sched, j);
    SamePosition(n, sched, i, j, t, HistoryAt(n, sched, i).l.hi, HistoryAt(n, sched, j).l.hi);
  }

  lemma TailStands(n: nat, sched: seq<Move>, i: nat, j: nat, t: nat)
    requires Schedule(n, sched) && i <= j <= |sched| && t < n && OneOperation(n, sched, i, j, t)
    requires StateAt(n, sched, i).h.tail == StateAt(n, sched, j).h.tail
    ensures HistoryAt(n, sched, i).l.ti == HistoryAt(n, sched, j).l.ti
  {
    EndsAdvance(n, sched, i, j);
    PositionsAt(n, sched, i);
    PositionsAt(n, sched, j);
    SamePosition(n, sched, i, j, t, HistoryAt(n, sched, i).l.ti, HistoryAt(n, sched, j).l.ti);
  }

  /** If `head` is the same address at two moments of one operation of any thread, it never
      changed in between. */
  lemma HeadNoAba(n: nat, sched: seq<Move>, i: nat, m: nat, j: nat, t: nat)
    requires Schedule(n, sched) && i <= m <= j <= |sched| && t < n && OneOperation(n, sched, i, j, t)
    requires StateAt(n, sched, i).h.head == StateAt(n, sched, j).h.head
    ensures StateAt(n, sched, m).h.head == StateAt(n, sched, i).h.head
  {
    HeadStands(n, sched, i, j, t);
    EndsAdvance(n, sched, i, m);
    EndsAdvance(n, sched, m, j);
  }

  lemma TailNoAba(n: nat, sched: seq<Move>, i: nat, m: nat, j: nat, t: nat)
    requires Schedule(n, sched) && i <= m <= j <= |sched| && t < n && OneOperation(n, sched, i, j, t)
    requires StateAt(n, sched, i).h.tail == StateAt(n, sched, j).h.tail
    ensures StateAt(n, sched, m).h.tail == StateAt(n, sched, i).h.tail
  {
    TailStands(n, sched, i, j, t);
    EndsAdvance(n, sched, i, m);
    EndsAdvance(n, sched, m, j);
  }

  lemma LiveAt(n: nat, sched: seq<Move>, i: nat, k: nat)
    requires Schedule(n, sched) && i <= |sched| && k < |LiveNodes(StateAt(n, sched, i).h)|
    ensures var l := HistoryAt(n, sched, i).l;
            l.hi + k < |l.chain| && LiveNodes(StateAt(n, sched, i).h)[k] == l.chain[l.hi + k]
  {
    Reachable(n, sched[..i]);
    LiveNodesAreChain(StateAt(n, sched, i).h, HistoryAt(n, sched, i).l, n);
  }

  /** A node of the list whose link is NULL late in an operation had it NULL ever since the
      operation could first have read it. */
  lemma LinkNoAba(n: nat, sched: seq<Move>, i: nat, m: nat, j: nat, t: nat, k: nat)
    requires Schedule(n, sched) && i <= m <= j <= |sched| && t < n && OneOperation(n, sched, i, j, t)
    requires k < |LiveNodes(StateAt(n, sched, i).h)|
    requires Next(StateAt(n, sched, j).h, LiveNodes(StateAt(n, sched, i).h)[k]) == NULL
    ensures Next(StateAt(n, sched, m).h, LiveNodes(StateAt(n, sched, i).h)[k]) == NULL
  {
    ReservedThroughout(n, sched, i, m, j, t);
    ReservedThroughout(n, sched, i, j, j, t);
    GrowsBetween(n, sched, i, m);
    GrowsBetween(n, sched, m, j);
    LiveAt(n, sched, i, k);
    LinkStays(n, sched, m, j, HistoryAt(n, sched, i).marks[t].base, HistoryAt(n, sched, i).l.hi + k);
  }

  lemma PositionIsNotRecycled(n: nat, sched: seq<Move>, j: nat, base: nat, k: nat, u: nat)
    requires Schedule(n, sched) && j <= |sched| && u < n
    requires Reserved(HistoryAt(n, sched, j).l, base) && base <= k < |HistoryAt(n, sched, j).l.chain|
    ensures var s, p := StateAt(n, sched, j), HistoryAt(n, sched, j).l.chain[k];
            Allocated(s.h, p) && p !in FreeNodes(s.h, u) && !Refilling(s.loc[u], p)
  {
    var (s, g) := Run(n, sched[..j]);
    var p := g.l.chain[k];
    Reachable(n, sched[..j]);
    assert LinkedAt(s.h, g.l, k);
    if p in FreeNodes(s.h, u) { FreeIsFree(s.h, g.l, n, u, p); }
    if Refilling(s.loc[u], p) { RefillingIsHeld(s, g, u, p); }
  }

  /** Quiescence: a node that was in the list at any moment of thread t's operation stays out of all
      free lists, and is refilled by nobody, for as long as the operation lasts. */
  lemma LinkedIsNotRecycled(n: nat, sched: seq<Move>, i: nat, j: nat, t: nat, k: nat, u: nat)
    requires Schedule(n, sched) && i <= j <= |sched| && t < n && u < n && OneOperation(n, sched, i, j, t)
    requires k < |LiveNodes(StateAt(n, sched, i).h)|
    ensures var s, p := StateAt(n, sched, j), LiveNodes(StateAt(n, sched, i).h)[k];
            Allocated(s.h, p) && p !in FreeNodes(s.h, u) && !Refilling(s.loc[u], p)
  {
    ReservedThroughout(n, sched, i, j, j, t);
    GrowsBetween(n, sched, i, j);
    LiveAt(n, sched, i, k);
    PositionIsNotRecycled(n, sched, j, HistoryAt(n, sched, i).marks[t].base, HistoryAt(n, sched, i).l.hi + k, u);
  }

  lemma LinkStays(n: nat, sched: seq<Move>, m: nat, j: nat, base: nat, k: nat)
    requires Schedule(n, sched) && m <= j <= |sched|
    requires Grows(HistoryAt(n, sched, m).l, HistoryAt(n, sched, j).l)
    requires Reserved(HistoryAt(n, sched, m).l, base) && Reserved(HistoryAt(n, sched, j).l, base)
    requires base <= k < |HistoryAt(n, sched, m).l.chain|
    requires Next(StateAt(n, sched, j).h, HistoryAt(n, sched, m).l.chain[k]) == NULL
    ensures Next(StateAt(n, sched, m).h, HistoryAt(n, sched, m).l.chain[k]) == NULL
  {
    Reachable(n, sched[..m]);
    Reachable(n, sched[..j]);
    ReadNext(StateAt(n, sched, m).h, HistoryAt(n, sched, m).l, n, base, k);
    ReadNext(StateAt(n, sched, j).h, HistoryAt(n, sched, j).l, n, base, k);
  }

  // ---- what the caller is told ---------------------------------------------------------------

  /** A thread's code and value are those of a return. */
  predicate Reports(x: Local, e: Event) { e.Return? && x.code == e.code && x.val == e.v }

  lemma ReportStep(s: State, g: History, u: nat, c: Choice, t: nat)
    requires NoteSized(s, g) && u < |s.loc| && t < |s.loc| && Knows(s, g, u) && Step(s, u, c).loc[t].pc.Idle?
    ensures var s', e := Step(s, u, c), Emit(s, u, c);
            if u == t then Reports(s'.loc[t], e) else s'.loc[t] == s.loc[t]
  {
  }

  /** The latest event of an idle thread that has made a call is a return, of the code and the value
      that the thread then holds. */
  lemma {:induction false} IdleReports(n: nat, sched: seq<Move>, k: nat, t: nat)
    requires Schedule(n, sched) && k <= |sched| && t < n && StateAt(n, sched, k).loc[t].pc.Idle?
    ensures var log := HistoryAt(n, sched, k).log;
            LatestOf(log, t).Some? ==> Reports(StateAt(n, sched, k).loc[t], LatestOf(log, t).value)
    decreases k
  {
    if k > 0 {
      var (s, g) := Run(n, sched[..k - 1]);
      var m := sched[k - 1];
      KnowsAt(n, sched[..k - 1], m.t);
      LaterIsOneStep(n, sched, k);
      LatestStep(g.log, Emit(s, m.t, m.c), t);
      ReportStep(s, g, m.t, m.c, t);
      if m.t != t { IdleReports(n, sched, k - 1, t); }
    }
  }
}
