/** Runs of the queue under one lock: the critical sections of any number of threads in any order,
    each `deq` recycling its old sentinel some time after it has released the lock. */
module LockedRuns {
  import opened NodePool
  import opened NodeLists
  import opened Fifo
  import opened LinkedQueue
  import opened LinkedRuns

  // ---- what turns must report ----------------------------------------------------------------

  /** What a thread's call does under the lock. */
  datatype Section = EnqSection(v: int, m: Malloc) | DeqSection

  function Call(t: nat, sec: Section): (op: Op)
    ensures op.t == t
  {
    match sec
    case EnqSection(v, m) => EnqOp(t, v, m)
    case DeqSection => DeqOp(t)
  }

  /** Thread t has left its critical section with a sentinel that it still has to recycle: its latest
      event is a removal. */
  predicate Owing(log: seq<Event>, t: nat) {
    |log| > 0 &&
    var e := log[|log| - 1];
    if e.t == t then e.Remove? else Owing(log[..|log| - 1], t)
  }

  /** A thread's next turn: the recycling it owes, else its call. */
  function TurnOutcome(q: seq<int>, free: nat, owing: bool, t: nat, sec: Section): (e: Event)
    ensures e.t == t && Apply(Some(q), e).Some?
  {
    if owing then Internal(t) else Outcome(q, free, Call(t, sec))
  }

  /** A node comes to the free list with the recycling, not with the removal. */
  function SpareAfter(free: nat, owing: bool, e: Event): nat {
    if owing then free + 1 else if e.Append? && free > 0 then free - 1 else free
  }

  function TurnSpare(log: seq<Event>, t: nat): nat {
    if |log| == 0 then 0
    else
      var front, e := log[..|log| - 1], log[|log| - 1];
      if e.t == t then SpareAfter(TurnSpare(front, t), Owing(front, t), e) else TurnSpare(front, t)
  }

  /** The log that a sequence of turns must produce. */
  function TurnLog(turns: seq<(nat, Section)>): (log: seq<Event>)
    ensures |log| == |turns|
  {
    if |turns| == 0 then []
    else
      var log, (t, sec) := TurnLog(turns[..|turns| - 1]), turns[|turns| - 1];
      log + [TurnOutcome(Queued(log), TurnSpare(log, t), Owing(log, t), t, sec)]
  }

  /** Which is a log of a FIFO queue. */
  lemma {:induction false} TurnsAreFifo(turns: seq<(nat, Section)>)
    ensures Replay(TurnLog(turns)).Some?
  {
    if |turns| > 0 {
      var log, turn := TurnLog(turns[..|turns| - 1]), turns[|turns| - 1];
      TurnsAreFifo(turns[..|turns| - 1]);
      ReplayStep(log, TurnOutcome(Queued(log), TurnSpare(log, turn.0), Owing(log, turn.0), turn.0, turn.1));
    }
  }

  // ---- sentinels on the way to a free list ---------------------------------------------------

  /** The sentinel a thread holds, having left the critical section of `deq`; NULL when it holds none. */
  predicate HeldAt(l: Ledger, held: seq<Ptr>, t: nat)
    requires t < |held| == |l.taken|
  {
    if held[t] == NULL then l.taken[t] == -1 else 0 <= l.taken[t] < |l.chain| && l.chain[l.taken[t]] == held[t]
  }

  ghost predicate Held(l: Ledger, held: seq<Ptr>) {
    |held| == |l.taken| && forall t: nat | t < |held| :: HeldAt(l, held, t)
  }

  function HeldNodes(held: seq<Ptr>): (r: seq<seq<Ptr>>)
    ensures |r| == |held|
    ensures forall t | 0 <= t < |held| :: r[t] == if held[t] == NULL then [] else [held[t]]
  {
    seq(|held|, t requires 0 <= t < |held| => if held[t] == NULL then [] else [held[t]])
  }

  lemma HeldAfter(l: Ledger, l': Ledger, held: seq<Ptr>, t: nat, p: Ptr, k: int)
    requires Held(l, held) && t < |held| && l'.taken == l.taken[t := k] && l.chain <= l'.chain
    requires if p == NULL then k == -1 else 0 <= k < |l'.chain| && l'.chain[k] == p
    ensures Held(l', held[t := p])
  {
    var held' := held[t := p];
    forall u: nat | u < |held'| ensures HeldAt(l', held', u) {
      assert HeldAt(l, held, u);
    }
  }

  lemma HeldIsOutside(h: Heap, l: Ledger, n: nat, held: seq<Ptr>, t: nat)
    requires Pool(h, l, n) && Held(l, held) && t < n && l.hand[t] == NULL
    ensures HeldNodes(held)[t] == Outside(l, t)
  {
    assert HeldAt(l, held, t) && TakenAt(l, t);
    if held[t] != NULL { assert LinkedAt(h, l, l.taken[t]); }
  }

  lemma HeldConserved(h: Heap, l: Ledger, n: nat, held: seq<Ptr>)
    requires Pool(h, l, n) && Held(l, held) && forall t: nat | t < n :: l.hand[t] == NULL
    ensures forall a :: multiset(Everything(h, HeldNodes(held)))[a] == if 0 <= a < |h.next| then 1 else 0
  {
    forall t: nat | t < n ensures HeldNodes(held)[t] == Outside(l, t) { HeldIsOutside(h, l, n, held, t); }
    forall a ensures multiset(Everything(h, HeldNodes(held)))[a] == if 0 <= a < |h.next| then 1 else 0 {
      Conservation(h, l, n, HeldNodes(held), a);
    }
  }

  // ---- turns ---------------------------------------------------------------------------------

  /** The effect of one turn on what the queue holds, on the free lists and on the sentinels held. */
  predicate TurnDone(h: Heap, held: seq<Ptr>, t: nat, sec: Section, h': Heap, held': seq<Ptr>, e: Event)
    requires t < |held| == |h.freeHead|
  {
    var free := FreeCounts(h);
    && |h'.freeHead| == |h.freeHead|
    && e == TurnOutcome(Contents(h), free[t], held[t] != NULL, t, sec)
    && Apply(Some(Contents(h)), e) == Some(Contents(h'))
    && FreeCounts(h') == free[t := SpareAfter(free[t], held[t] != NULL, e)]
    && |held'| == |held| && held' == held[t := held'[t]] && (held'[t] != NULL <==> e.Remove?)
  }

  /** `recycle_node`, outside the lock. */
  method TurnRecycle(q: Queue, held: seq<Ptr>, t: nat, ghost sec: Section) returns (e: Event, held': seq<Ptr>)
    requires q.Valid() && t < q.n && Held(q.l, held) && held[t] != NULL
    modifies q, q.freeHead, q.freeSize
    ensures q.Valid() && Held(q.l, held') && TurnDone(old(q.Memory()), held, t, sec, q.Memory(), held', e)
  {
    assert HeldAt(q.l, held, t);
    ghost var l0, h := q.l, q.Memory();
    q.RecycleNode(t, held[t]);
    LongerCounts(h, q.Memory(), t, held[t]);
    e, held' := Internal(t), held[t := NULL];
    HeldAfter(l0, q.l, held, t, NULL, -1);
  }

  /** The critical section of `enq`. */
  method TurnEnq(q: Queue, held: seq<Ptr>, t: nat, v: int, m: Malloc) returns (e: Event)
    requires q.Valid() && t < q.n && Held(q.l, held) && held[t] == NULL
    modifies q, q.freeHead, q.freeSize
    ensures q.Valid() && Held(q.l, held)
    ensures TurnDone(old(q.Memory()), held, t, EnqSection(v, m), q.Memory(), held, e)
  {
    assert HeldAt(q.l, held, t);
    ghost var l0, h := q.l, q.Memory();
    q.TopIsFirst(t);
    var code := q.Enqueue(v, t, m);
    e := if code == 1 then Append(t, v) else Internal(t);
    if code == 1 { ShorterCounts(h, q.Memory(), t); }
    assert held[t := NULL] == held;
    HeldAfter(l0, q.l, held, t, NULL, -1);
  }

  /** The critical section of `deq`. */
  method TurnDeq(q: Queue, held: seq<Ptr>, t: nat) returns (e: Event, held': seq<Ptr>)
    requires q.Valid() && t < q.n && Held(q.l, held) && held[t] == NULL
    modifies q, q.freeHead, q.freeSize
    ensures q.Valid() && Held(q.l, held')
    ensures TurnDone(old(q.Memory()), held, t, DeqSection, q.Memory(), held', e)
  {
    assert HeldAt(q.l, held, t);
    ghost var l0, h := q.l, q.Memory();
    q.Frees();
    var code, v, sentinel := q.Unlink(t);
    q.Frees();
    SameCounts(h, q.Memory());
    e, held' := if code == 1 then Remove(t, v) else SawEmpty(t), held[t := if code == 1 then sentinel else NULL];
    HeldAfter(l0, q.l, held, t, held'[t], q.l.taken[t]);
  }

  /** Thread t's next turn: the recycling it owes, outside the lock, else a critical section. */
  method Turn(q: Queue, held: seq<Ptr>, t: nat, sec: Section) returns (e: Event, held': seq<Ptr>)
    requires q.Valid() && t < q.n && Held(q.l, held)
    modifies q, q.freeHead, q.freeSize
    ensures q.Valid() && Held(q.l, held') && TurnDone(old(q.Memory()), held, t, sec, q.Memory(), held', e)
  {
    if held[t] != NULL {
      e, held' := TurnRecycle(q, held, t, sec);
      return;
    }
    match sec
    case EnqSection(v, m) =>
      held' := held;
      e := TurnEnq(q, held, t, v, m);
    case DeqSection =>
      e, held' := TurnDeq(q, held, t);
  }

  // ---- runs ----------------------------------------------------------------------------------

  function TurnSpares(log: seq<Event>, n: nat): (c: seq<nat>)
    ensures |c| == n && forall t | 0 <= t < n :: c[t] == TurnSpare(log, t)
  {
    seq(n, t requires 0 <= t < n => TurnSpare(log, t))
  }

  /** The log accounts for what the queue holds, for every free list, and for who holds a sentinel. */
  ghost predicate TurnsAccount(log: seq<Event>, h: Heap, held: seq<Ptr>) {
    && Replay(log) == Some(Contents(h))
    && FreeCounts(h) == TurnSpares(log, |h.freeHead|)
    && |held| == |h.freeHead| && forall t: nat | t < |held| :: held[t] != NULL <==> Owing(log, t)
  }

  lemma TurnAccounted(turns: seq<(nat, Section)>, k: nat, h: Heap, held: seq<Ptr>, h': Heap, held': seq<Ptr>, e: Event)
    requires k < |turns| && turns[k].0 < |held| == |h.freeHead| && TurnsAccount(TurnLog(turns[..k]), h, held)
    requires TurnDone(h, held, turns[k].0, turns[k].1, h', held', e)
    ensures TurnLog(turns[..k + 1]) == TurnLog(turns[..k]) + [e]
    ensures TurnsAccount(TurnLog(turns[..k + 1]), h', held')
  {
    var log := TurnLog(turns[..k]);
    assert turns[..k + 1][..k] == turns[..k];
    assert (log + [e])[..|log|] == log;
    assert FreeCounts(h)[turns[k].0] == TurnSpares(log, |held|)[turns[k].0];
    assert TurnLog(turns[..k + 1]) == log + [e];
    ReplayStep(log, e);
    assert FreeCounts(h') == TurnSpares(log + [e], |held|);
  }

  /** The threads of the locked queue in any order, each recycling after it released the lock: every
      turn reports exactly what a FIFO queue does, and each node allocated is in the queue's list,
      in one free list, or held by one thread that owes its recycling, exactly once. */
  method RunLocked(n: nat, turns: seq<(nat, Section)>) returns (q: Queue, log: seq<Event>, held: seq<Ptr>)
    requires forall k | 0 <= k < |turns| :: turns[k].0 < n
    ensures q.Valid() && q.n == n && Held(q.l, held)
    ensures log == TurnLog(turns) && TurnsAccount(log, q.Memory(), held)
    ensures forall a :: multiset(Everything(q.Memory(), HeldNodes(held)))[a] == if 0 <= a < |q.next| then 1 else 0
  {
    q := new Queue(n);
    log, held := [], seq(n, _ => NULL);
    for k := 0 to |turns|
      invariant q.Valid() && q.n == n && Held(q.l, held) && fresh(q) && fresh(q.freeHead) && fresh(q.freeSize)
      invariant log == TurnLog(turns[..k]) && TurnsAccount(log, q.Memory(), held)
    {
      ghost var h, before := q.Memory(), held;
      var e;
      e, held := Turn(q, held, turns[k].0, turns[k].1);
      TurnAccounted(turns, k, h, before, q.Memory(), held, e);
      log := log + [e];
    }
    assert turns[..|turns|] == turns;
    HeldConserved(q.Memory(), q.l, n, held);
  }
}
