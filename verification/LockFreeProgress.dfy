/** Progress of the lock-free queue: what can hold a thread up, and for how long. */
module LockFreeProgress {
  import opened NodePool
  import opened Fifo
  import opened LockFree
  import opened LockFreeInvariant
  import opened LockFreeSteps
  import opened LockFreeTheorems

  // ---- waiting in reclamation ----------------------------------------------------------------

  /** A waiting thread is outside its operation, and the thread it waits for is inside one: it is
      never itself waiting, so waits form no cycle. */
  lemma WaitsOnlyForRunning(n: nat, sched: seq<Move>, t: nat)
    requires Schedule(n, sched) && t < n && Blocked(Run(n, sched).0, t)
    ensures var s := Run(n, sched).0; var u := s.loc[t].i;
            !Odd(s.ctr[t]) && u != t && Odd(s.ctr[u]) && InOp(s.loc[u].pc) && !Blocked(s, u)
  {
    var (s, g) := Run(n, sched);
    Reachable(n, sched);
    assert Knows(s, g, t) && Knows(s, g, s.loc[t].i);
  }

  /** Turning in the busy wait is all that can hold a thread up: any other thread inside a call is
      elsewhere after its own step, or looks at the next counter. */
  lemma UnblockedMoves(s: State, g: History, t: nat, c: Choice)
    requires NoteSized(s, g) && t < |s.loc| && Knows(s, g, t) && !s.loc[t].pc.Idle? && !Blocked(s, t)
    ensures var x, x' := s.loc[t], Step(s, t, c).loc[t];
            if x'.pc == x.pc then x.pc.WaitLoad? && x'.i == x.i + 1 else !x.pc.WaitLoad? || x'.i == x.i
  {
  }

  /** Unless all threads are idle, one that is inside a call does not wait, and its own step takes it
      on, whatever its environment chooses. */
  lemma SomeThreadRuns(n: nat, sched: seq<Move>, t: nat) returns (u: nat)
    requires Schedule(n, sched) && t < n && !Run(n, sched).0.loc[t].pc.Idle?
    ensures u < n && !Run(n, sched).0.loc[u].pc.Idle? && !Blocked(Run(n, sched).0, u)
    ensures var s := Run(n, sched).0; forall c :: Step(s, u, c).loc[u] != s.loc[u]
  {
    var (s, g) := Run(n, sched);
    u := t;
    if Blocked(s, t) {
      WaitsOnlyForRunning(n, sched, t);
      u := s.loc[t].i;
    }
    KnowsAt(n, sched, u);
    forall c ensures Step(s, u, c).loc[u] != s.loc[u] { UnblockedMoves(s, g, u, c); }
  }

  predicate LastIs(q: seq<Event>, e: Event) { |q| > 0 && q[|q| - 1] == e }

  /** A thread that enqueued or found the queue empty has nothing retired when its operation ends. */
  lemma OnlyRemoversReclaimIn(s: State, g: History, t: nat)
    requires NoteSized(s, g) && t < |s.loc| && Knows(s, g, t)
    requires Reclaiming(s.loc[t].pc) || (s.loc[t].pc.OpEnd? && s.retiredCount[t] != 0)
    ensures LastIs(Since(g.log, t), Remove(t, s.loc[t].val))
  {
  }

  /** Only a `deq` that has removed a value ever waits or recycles. */
  lemma OnlyRemoversReclaim(n: nat, sched: seq<Move>, t: nat)
    requires Schedule(n, sched) && t < n && Reclaiming(Run(n, sched).0.loc[t].pc)
    ensures LastIs(Since(Run(n, sched).1.log, t), Remove(t, Run(n, sched).0.loc[t].val))
  {
    KnowsAt(n, sched, t);
    OnlyRemoversReclaimIn(Run(n, sched).0, Run(n, sched).1, t);
  }

  // ---- running alone -------------------------------------------------------------------------

  predicate Lags(h: Heap) { Next(h, h.tail) != NULL }

  /** Steps from the top of `enq`'s loop to `mm_op_end`, undisturbed. */
  function EnqTop(h: Heap): nat { if Lags(h) then 9 else 5 }

  function DeqTop(h: Heap): nat { if h.head != h.tail then 7 else if Lags(h) then 12 else 4 }

  function EnqRank(h: Heap, x: Local): nat {
    match x.pc
    case EnqTake => 3 + EnqTop(h)
    case EnqData => 2 + EnqTop(h)
    case EnqClear => 1 + EnqTop(h)
    case EnqTail => EnqTop(h)
    case EnqNext => if x.last == h.tail then EnqTop(h) - 1 else 2 + EnqTop(h)
    case EnqCheck =>
      if x.last != h.tail then 1 + EnqTop(h)
      else if x.next != NULL then 7
      else if Lags(h) then 2 + EnqTop(h) else 3
    case EnqLink => if Next(h, x.last) == NULL then 2 else 1 + EnqTop(h)
    case EnqHelp => if x.last == h.tail then 6 else 1 + EnqTop(h)
    case EnqSwing => 1
    case _ => 0
  }

  function DeqRank(h: Heap, x: Local): nat {
    match x.pc
    case DeqHead => DeqTop(h)
    case DeqTail => if x.first == h.head then DeqTop(h) - 1 else 3 + DeqTop(h)
    case DeqNext =>
      if x.first != h.head then 2 + DeqTop(h)
      else if x.first != x.last then 5
      else if x.last == h.tail then DeqTop(h) - 2 else 3 + DeqTop(h)
    case DeqCheck =>
      if x.first != h.head then 1 + DeqTop(h)
      else if x.first != x.last then 4
      else if x.next == NULL then 1
      else if x.last == h.tail then 9 else 2 + DeqTop(h)
    case DeqHelp => if x.last == h.tail then 8 else 1 + DeqTop(h)
    case DeqData => if x.first == h.head then 3 else 2 + DeqTop(h)
    case DeqAdvance => if x.first == h.head then 2 else 1 + DeqTop(h)
    case DeqRetire => 1
    case _ => 0
  }

  predicate InEnq(pc: Pc) {
    || pc.EnqTake? || pc.EnqData? || pc.EnqClear? || pc.EnqTail? || pc.EnqNext? || pc.EnqCheck?
    || pc.EnqLink? || pc.EnqSwing? || pc.EnqHelp?
  }

  predicate InDeq(pc: Pc) {
    || pc.DeqHead? || pc.DeqTail? || pc.DeqNext? || pc.DeqCheck? || pc.DeqHelp? || pc.DeqData?
    || pc.DeqAdvance? || pc.DeqRetire?
  }

  /** How many more steps of its own an undisturbed thread needs to reach `mm_op_end`. */
  function Rank(s: State, t: nat): nat
    requires Thread(s, t)
  {
    if InEnq(s.loc[t].pc) then EnqRank(s.h, s.loc[t]) else DeqRank(s.h, s.loc[t])
  }

  /** The tail lags exactly when a link behind it is set. */
  lemma LagsIff(s: State, g: History)
    requires Global(s, g)
    ensures Lags(s.h) <==> g.l.ti + 1 < |g.l.chain|
    ensures s.h.head == s.h.tail <==> g.l.hi == g.l.ti
  {
    LiveReserved(s.h, g.l, |s.loc|);
    ReadNext(s.h, g.l, |s.loc|, g.l.hi, g.l.ti);
    SameNode(s.h, g.l, |s.loc|, g.l.hi, g.l.hi, g.l.ti);
  }

  predicate Busy(pc: Pc) { InEnq(pc) || InDeq(pc) }

  /** The step brings the thread one nearer to the end of its operation. */
  predicate Nearer(s: State, s': State, t: nat)
    requires Thread(s, t) && Thread(s', t)
  {
    && Rank(s', t) + 1 == Rank(s, t)
    && (if Rank(s', t) == 0 then s'.loc[t].pc.OpEnd? else Busy(s'.loc[t].pc))
  }

  lemma EnqPrepareNearer(s: State, g: History, t: nat, c: Choice)
    requires Inv(s, g) && t < |s.loc| && (s.loc[t].pc.EnqTake? || s.loc[t].pc.EnqData? || s.loc[t].pc.EnqClear?)
    ensures Nearer(s, Step(s, t, c), t)
  {
    assert Knows(s, g, t) && HandAt(g.l, t) && LinkedAt(s.h, g.l, g.l.ti);
    LiveReserved(s.h, g.l, |s.loc|);
    ReadNext(s.h, g.l, |s.loc|, g.l.hi, g.l.ti);
  }

  lemma EnqLoopNearer(s: State, g: History, t: nat, c: Choice)
    requires Inv(s, g) && t < |s.loc| && !c.spurious
    requires s.loc[t].pc.EnqTail? || s.loc[t].pc.EnqNext? || s.loc[t].pc.EnqCheck?
    ensures Nearer(s, Step(s, t, c), t)
  {
    assert Knows(s, g, t);
    LagsIff(s, g);
    var m := g.marks[t];
    if !s.loc[t].pc.EnqTail? {
      ReadNext(s.h, g.l, |s.loc|, m.base, m.li);
      SameNode(s.h, g.l, |s.loc|, m.base, m.li, g.l.ti);
    }
  }

  lemma EnqLinkNearer(s: State, g: History, t: nat, c: Choice)
    requires Inv(s, g) && t < |s.loc| && !c.spurious && s.loc[t].pc.EnqLink?
    ensures Nearer(s, Step(s, t, c), t)
  {
    assert Knows(s, g, t);
    LagsIff(s, g);
    var m := g.marks[t];
    ReadNext(s.h, g.l, |s.loc|, m.base, m.li);
    SameNode(s.h, g.l, |s.loc|, m.base, m.li, g.l.ti);
  }

  lemma EnqSwingNearer(s: State, t: nat, c: Choice)
    requires Thread(s, t) && s.loc[t].pc.EnqSwing?
    ensures Nearer(s, Step(s, t, c), t)
  {
  }

  lemma EnqHelpNearer(s: State, g: History, t: nat, c: Choice)
    requires Inv(s, g) && t < |s.loc| && !c.spurious && s.loc[t].pc.EnqHelp?
    ensures Nearer(s, Step(s, t, c), t)
  {
    assert Knows(s, g, t);
    AfterHelp(s, g, t, c);
  }

  /** Helping moves the tail to the last node; if it did not, someone else has. */
  lemma AfterHelp(s: State, g: History, t: nat, c: Choice)
    requires Inv(s, g) && t < |s.loc| && !c.spurious && (s.loc[t].pc.EnqHelp? || s.loc[t].pc.DeqHelp?)
    ensures if s.loc[t].last == s.h.tail then !Lags(Step(s, t, c).h) && Step(s, t, c).h.head != Step(s, t, c).h.tail
            else Step(s, t, c).h == s.h
  {
    assert Knows(s, g, t);
    LagsIff(s, g);
    var m := g.marks[t];
    SameNode(s.h, g.l, |s.loc|, m.base, m.li, g.l.ti);
    if s.loc[t].last == s.h.tail {
      LiveReserved(s.h, g.l, |s.loc|);
      ReadNext(s.h, g.l, |s.loc|, m.base, m.li + 1);
      SameNode(s.h, g.l, |s.loc|, g.l.hi, g.l.hi, m.li + 1);
    }
  }

  lemma DeqEndsNearer(s: State, g: History, t: nat, c: Choice)
    requires Inv(s, g) && t < |s.loc| && !c.spurious && (s.loc[t].pc.DeqHead? || s.loc[t].pc.DeqTail?)
    ensures Nearer(s, Step(s, t, c), t)
  {
    assert Knows(s, g, t);
    LagsIff(s, g);
    if s.loc[t].pc.DeqTail? {
      ReadNext(s.h, g.l, |s.loc|, g.marks[t].base, g.marks[t].fi);
      SameNode(s.h, g.l, |s.loc|, g.marks[t].base, g.marks[t].fi, g.l.hi);
    }
  }

  /** What a dequeuer's `first` and `last` tell about memory as it is now. */
  lemma DeqSees(s: State, g: History, t: nat)
    requires Inv(s, g) && t < |s.loc| && (s.loc[t].pc.DeqNext? || s.loc[t].pc.DeqCheck?)
    ensures var x, m, l := s.loc[t], g.marks[t], g.l;
            && (x.first == s.h.head <==> m.fi == l.hi) && (x.last == s.h.tail <==> m.li == l.ti)
            && (x.first == x.last <==> m.fi == m.li)
            && (Next(s.h, x.first) == NULL <==> m.fi + 1 == |l.chain|)
  {
    assert Knows(s, g, t);
    var m := g.marks[t];
    ReadNext(s.h, g.l, |s.loc|, m.base, m.fi);
    SameNode(s.h, g.l, |s.loc|, m.base, m.fi, g.l.hi);
    SameNode(s.h, g.l, |s.loc|, m.base, m.li, g.l.ti);
    SameNode(s.h, g.l, |s.loc|, m.base, m.fi, m.li);
  }

  lemma DeqReadNearer(s: State, g: History, t: nat, c: Choice)
    requires Inv(s, g) && t < |s.loc| && !c.spurious && (s.loc[t].pc.DeqNext? || s.loc[t].pc.DeqCheck?)
    ensures Nearer(s, Step(s, t, c), t)
  {
    assert Knows(s, g, t);
    LagsIff(s, g);
    DeqSees(s, g, t);
  }

  lemma DeqCasNearer(s: State, g: History, t: nat, c: Choice)
    requires Inv(s, g) && t < |s.loc| && !c.spurious
    requires s.loc[t].pc.DeqData? || s.loc[t].pc.DeqAdvance? || s.loc[t].pc.DeqRetire?
    ensures Nearer(s, Step(s, t, c), t)
  {
  }

  lemma DeqHelpNearer(s: State, g: History, t: nat, c: Choice)
    requires Inv(s, g) && t < |s.loc| && !c.spurious && s.loc[t].pc.DeqHelp?
    ensures Nearer(s, Step(s, t, c), t)
  {
    AfterHelp(s, g, t, c);
  }

  lemma StepNearer(s: State, g: History, t: nat, c: Choice)
    requires Inv(s, g) && t < |s.loc| && !c.spurious && Busy(s.loc[t].pc)
    ensures Nearer(s, Step(s, t, c), t)
  {
    var pc := s.loc[t].pc;
    if pc.EnqTake? || pc.EnqData? || pc.EnqClear? { EnqPrepareNearer(s, g, t, c); }
    else if pc.EnqTail? || pc.EnqNext? || pc.EnqCheck? { EnqLoopNearer(s, g, t, c); }
    else if pc.EnqHelp? { EnqHelpNearer(s, g, t, c); }
    else if pc.DeqHelp? { DeqHelpNearer(s, g, t, c); }
    else if pc.EnqLink? { EnqLinkNearer(s, g, t, c); }
    else if pc.EnqSwing? { EnqSwingNearer(s, t, c); }
    else if pc.DeqHead? || pc.DeqTail? { DeqEndsNearer(s, g, t, c); }
    else if pc.DeqNext? || pc.DeqCheck? { DeqReadNearer(s, g, t, c); }
    else { DeqCasNearer(s, g, t, c); }
  }

  /** Thread t makes k steps in a row. */
  function Alone(s: State, t: nat, c: Choice, k: nat): (r: State)
    requires Thread(s, t)
    ensures Thread(r, t) && |r.loc| == |s.loc|
    decreases k, 1
  {
    if k == 0 then s else AloneOn(s, t, c, k)
  }

  function AloneOn(s: State, t: nat, c: Choice, k: nat): (r: State)
    requires Thread(s, t) && k > 0
    ensures Thread(r, t) && |r.loc| == |s.loc|
    decreases k, 0
  {
    Alone(Step(s, t, c), t, c, k - 1)
  }

  lemma FirstAlone(s: State, t: nat, c: Choice, k: nat)
    requires Thread(s, t) && k > 0
    ensures Alone(s, t, c, k) == Alone(Step(s, t, c), t, c, k - 1)
  {
    assert Alone(s, t, c, k) == AloneOn(s, t, c, k);
  }

  lemma NextAlone(s: State, g: History, t: nat, c: Choice)
    requires Inv(s, g) && t < |s.loc| && !c.spurious && Busy(s.loc[t].pc)
    ensures Inv(Step(s, t, c), Note(s, g, t, c))
    ensures Rank(s, t) > 0 && Rank(Step(s, t, c), t) == Rank(s, t) - 1
    ensures if Rank(s, t) == 1 then Step(s, t, c).loc[t].pc.OpEnd? else Busy(Step(s, t, c).loc[t].pc)
  {
    StepNearer(s, g, t, c);
    StepKeepsInv(s, g, t, c);
  }

  lemma {:induction false} AloneFinishes(s: State, g: History, t: nat, c: Choice, k: nat)
    requires Inv(s, g) && t < |s.loc| && !c.spurious && Busy(s.loc[t].pc) && Rank(s, t) == k
    ensures Alone(s, t, c, k).loc[t].pc.OpEnd?
    decreases k
  {
    NextAlone(s, g, t, c);
    FirstAlone(s, t, c, k);
    if k > 1 { AloneFinishes(Step(s, t, c), Note(s, g, t, c), t, c, k - 1); }
  }

  lemma RankBound(s: State, t: nat)
    requires Thread(s, t)
    ensures Rank(s, t) <= 15 && (s.loc[t].pc.EnqTake? || s.loc[t].pc.DeqHead? ==> Rank(s, t) <= 12)
  {
  }

  /** Obstruction freedom with its exact cost: from anywhere inside an operation, in any reachable
      state, a thread left alone reaches `mm_op_end` in `Rank` steps: at most two rounds of the loop
      for an operation that has just begun, at most three from the middle of a round. */
  lemma FinishesAlone(n: nat, sched: seq<Move>, t: nat, c: Choice)
    requires Schedule(n, sched) && t < n && !c.spurious && Busy(Run(n, sched).0.loc[t].pc)
    ensures var s := Run(n, sched).0;
            && Alone(s, t, c, Rank(s, t)).loc[t].pc.OpEnd?
            && Rank(s, t) <= 15
            && (s.loc[t].pc.EnqTake? || s.loc[t].pc.DeqHead? ==> Rank(s, t) <= 12)
  {
    Reachable(n, sched);
    AloneFinishes(Run(n, sched).0, Run(n, sched).1, t, c, Rank(Run(n, sched).0, t));
    RankBound(Run(n, sched).0, t);
  }

  // ---- returning alone -----------------------------------------------------------------------

  /** Every other thread is outside its operation. */
  predicate OthersOutside(s: State, t: nat)
    requires Thread(s, t)
  {
    forall u | 0 <= u < |s.loc| && u != t :: !Odd(s.ctr[u])
  }

  predicate Ending(pc: Pc) { pc.OpEnd? || Reclaiming(pc) }

  /** Steps from `mm_op_end` to the return, when nobody else is inside an operation. */
  function EndRank(s: State, t: nat): int
    requires Thread(s, t)
  {
    var x, n, detach := s.loc[t], |s.loc|, 2 * |s.retired[t]| + 2;
    match x.pc
    case OpEnd => if s.retiredCount[t] == 0 then 1 else 2 + n + detach
    case WaitLoad => 1 + n - x.i + detach
    case WaitSpin => 1 + n - x.i + detach
    case Detach => detach
    case Recycle => 2 * |x.todo| + 1
    case PushFree => 2 * |x.todo|
    case _ => 0
  }

  predicate EndNearer(s: State, s': State, t: nat)
    requires Thread(s, t) && Thread(s', t)
  {
    && EndRank(s, t) > 0 && EndRank(s', t) == EndRank(s, t) - 1
    && (if EndRank(s, t) == 1 then s'.loc[t].pc.Idle? else Ending(s'.loc[t].pc))
  }

  lemma WaitNearer(s: State, g: History, t: nat, c: Choice)
    requires NoteSized(s, g) && t < |s.loc| && Knows(s, g, t) && OthersOutside(s, t)
    requires s.loc[t].pc.OpEnd? || s.loc[t].pc.WaitLoad? || s.loc[t].pc.WaitSpin?
    ensures EndNearer(s, Step(s, t, c), t)
  {
  }

  lemma ReclaimNearer(s: State, g: History, t: nat, c: Choice)
    requires NoteSized(s, g) && t < |s.loc| && Knows(s, g, t)
    requires s.loc[t].pc.Detach? || s.loc[t].pc.Recycle? || s.loc[t].pc.PushFree?
    ensures EndNearer(s, Step(s, t, c), t)
  {
  }

  lemma EndStepNearer(s: State, g: History, t: nat, c: Choice)
    requires Inv(s, g) && t < |s.loc| && OthersOutside(s, t) && Ending(s.loc[t].pc)
    ensures EndNearer(s, Step(s, t, c), t) && OthersOutside(Step(s, t, c), t)
    ensures Inv(Step(s, t, c), Note(s, g, t, c))
  {
    assert Knows(s, g, t);
    StepKeepsInv(s, g, t, c);
    if s.loc[t].pc.OpEnd? || s.loc[t].pc.WaitLoad? || s.loc[t].pc.WaitSpin? { WaitNearer(s, g, t, c); }
    else { ReclaimNearer(s, g, t, c); }
  }

  lemma {:induction false} EndsAlone(s: State, g: History, t: nat, c: Choice, k: nat)
    requires Inv(s, g) && t < |s.loc| && OthersOutside(s, t) && Ending(s.loc[t].pc) && EndRank(s, t) == k
    ensures Alone(s, t, c, k).loc[t].pc.Idle?
    decreases k
  {
    EndStepNearer(s, g, t, c);
    FirstAlone(s, t, c, k);
    if k > 1 { EndsAlone(Step(s, t, c), Note(s, g, t, c), t, c, k - 1); }
  }

  lemma EndRankBound(s: State, g: History, t: nat)
    requires NoteSized(s, g) && t < |s.loc| && Knows(s, g, t) && Ending(s.loc[t].pc)
    ensures 0 < EndRank(s, t) <= |s.loc| + 6
  {
  }

  lemma OneAlone(s: State, g: History, t: nat, c: Choice, k: nat) returns (s': State, g': History)
    requires Inv(s, g) && t < |s.loc| && OthersOutside(s, t) && k > 0
    ensures Inv(s', g') && t < |s'.loc| && OthersOutside(s', t) && Alone(s, t, c, k) == Alone(s', t, c, k - 1)
  {
    StepKeepsInv(s, g, t, c);
    FirstAlone(s, t, c, k);
    s', g' := Step(s, t, c), Note(s, g, t, c);
  }

  lemma {:induction false} AloneKeeps(s: State, g: History, t: nat, c: Choice, k: nat) returns (s': State, g': History)
    requires Inv(s, g) && t < |s.loc| && OthersOutside(s, t)
    ensures s' == Alone(s, t, c, k) && Inv(s', g') && OthersOutside(s', t)
    decreases k
  {
    if k == 0 {
      s', g' := s, g;
    } else {
      var s1, g1 := OneAlone(s, g, t, c, k);
      s', g' := AloneKeeps(s1, g1, t, c, k - 1);
    }
  }

  lemma {:induction false} AloneAdds(s: State, t: nat, c: Choice, a: nat, b: nat)
    requires Thread(s, t)
    ensures Alone(s, t, c, a + b) == Alone(Alone(s, t, c, a), t, c, b)
    decreases a
  {
    if a > 0 {
      FirstAlone(s, t, c, a);
      FirstAlone(s, t, c, a + b);
      AloneAdds(Step(s, t, c), t, c, a - 1, b);
    }
  }

  lemma FromEnd(s: State, g: History, t: nat, c: Choice) returns (k: nat)
    requires Inv(s, g) && t < |s.loc| && OthersOutside(s, t) && Ending(s.loc[t].pc)
    ensures k <= |s.loc| + 6 && Alone(s, t, c, k).loc[t].pc.Idle?
  {
    assert Knows(s, g, t);
    EndRankBound(s, g, t);
    k := EndRank(s, t);
    EndsAlone(s, g, t, c, k);
  }

  lemma FromLoop(s: State, g: History, t: nat, c: Choice) returns (k: nat)
    requires Inv(s, g) && t < |s.loc| && OthersOutside(s, t) && !c.spurious && Busy(s.loc[t].pc)
    ensures k <= |s.loc| + 6 + Rank(s, t) && Alone(s, t, c, k).loc[t].pc.Idle?
  {
    var a := Rank(s, t);
    AloneFinishes(s, g, t, c, a);
    var s', g' := AloneKeeps(s, g, t, c, a);
    var b := FromEnd(s', g', t, c);
    AloneAdds(s, t, c, a, b);
    k := a + b;
  }

  lemma FromCall(s: State, g: History, t: nat, c: Choice) returns (k: nat)
    requires Inv(s, g) && t < |s.loc| && OthersOutside(s, t) && !c.spurious
    requires s.loc[t].pc.EnqBegin? || s.loc[t].pc.DeqBegin?
    ensures k <= |s.loc| + 19 && Alone(s, t, c, k).loc[t].pc.Idle?
  {
    StepKeepsInv(s, g, t, c);
    RankBound(Step(s, t, c), t);
    var b := FromLoop(Step(s, t, c), Note(s, g, t, c), t, c);
    k := b + 1;
    FirstAlone(s, t, c, k);
  }

  /** Termination: in any reachable state in which every other thread is outside its operation, a
      thread running alone returns from its call within n + 21 steps, the wait and the reclamation
      included. */
  lemma ReturnsAlone(n: nat, sched: seq<Move>, t: nat, c: Choice) returns (k: nat)
    requires Schedule(n, sched) && t < n && !c.spurious && OthersOutside(Run(n, sched).0, t)
    requires !Run(n, sched).0.loc[t].pc.Idle?
    ensures k <= n + 21 && Alone(Run(n, sched).0, t, c, k).loc[t].pc.Idle?
  {
    var (s, g) := Run(n, sched);
    Reachable(n, sched);
    RankBound(s, t);
    if Busy(s.loc[t].pc) { k := FromLoop(s, g, t, c); }
    else if Ending(s.loc[t].pc) { k := FromEnd(s, g, t, c); }
    else { k := FromCall(s, g, t, c); }
  }
}
