/** Counting in runs: changes of the queue, rounds of a loop, exchanges that fail. */
module LockFreeRetries {
  import opened NodePool
  import opened Fifo
  import opened LockFree
  import opened LockFreeInvariant
  import opened LockFreeSteps
  import opened LockFreeTheorems

  function One(b: bool): nat { if b then 1 else 0 }

  /** How many of head, tail and a link step k changes. */
  function Moved(n: nat, sched: seq<Move>, k: nat): nat
    requires Schedule(n, sched) && k < |sched|
  {
    var s, s' := StateAt(n, sched, k), StateAt(n, sched, k + 1);
    One(s'.h.head != s.h.head) + One(s'.h.tail != s.h.tail) + One(Emit(s, sched[k].t, sched[k].c).Append?)
  }

  function MovesBefore(n: nat, sched: seq<Move>, k: nat): nat
    requires Schedule(n, sched) && k <= |sched|
  {
    if k == 0 then 0 else MovesBefore(n, sched, k - 1) + Moved(n, sched, k - 1)
  }

  /** At step k thread t goes back to the top of its loop. */
  predicate Retries(n: nat, sched: seq<Move>, k: nat, t: nat)
    requires Schedule(n, sched) && k < |sched| && t < n
  {
    var pc, pc' := StateAt(n, sched, k).loc[t].pc, StateAt(n, sched, k + 1).loc[t].pc;
    sched[k].t == t && MayRestart(pc) && (pc'.EnqTail? || pc'.DeqHead?)
  }

  function RetriesIn(n: nat, sched: seq<Move>, i: nat, k: nat, t: nat): nat
    requires Schedule(n, sched) && i <= k <= |sched| && t < n
    decreases k
  {
    if i == k then 0 else RetriesIn(n, sched, i, k - 1, t) + One(Retries(n, sched, k - 1, t))
  }

  /** At step k a compare-exchange of thread t fails although it finds its value. */
  predicate FailsSpuriously(n: nat, sched: seq<Move>, k: nat, t: nat)
    requires Schedule(n, sched) && k < |sched| && t < n
  {
    sched[k].t == t && Spurious(StateAt(n, sched, k), t, sched[k].c)
  }

  function SpuriousIn(n: nat, sched: seq<Move>, i: nat, k: nat, t: nat): nat
    requires Schedule(n, sched) && i <= k <= |sched| && t < n
    decreases k
  {
    if i == k then 0 else SpuriousIn(n, sched, i, k - 1, t) + One(FailsSpuriously(n, sched, k - 1, t))
  }

  // ---- counting changes ----------------------------------------------------------------------

  predicate WritesMemory(s: State, t: nat, c: Choice)
    requires Thread(s, t)
  {
    var x := s.loc[t];
    match x.pc
    case EnqTake => true
    case EnqData => true
    case EnqClear => true
    case EnqLink => CasOk(Next(s.h, x.last), NULL, c)
    case EnqSwing => CasOk(s.h.tail, x.last, c)
    case EnqHelp => CasOk(s.h.tail, x.last, c)
    case DeqHelp => CasOk(s.h.tail, x.last, c)
    case DeqAdvance => CasOk(s.h.head, x.first, c)
    case Recycle => |x.todo| > 0
    case PushFree => true
    case _ => false
  }

  lemma QuietSized(s: State, g: History, t: nat, c: Choice)
    requires NoteSized(s, g) && t < |s.loc| && !WritesMemory(s, t, c)
    ensures Step(s, t, c).h == s.h && Note(s, g, t, c).l == g.l && !Changes(Emit(s, t, c))
    ensures NoteSized(Step(s, t, c), Note(s, g, t, c))
  {
  }

  predicate CountsChanges(s: State, g: History, t: nat, c: Choice)
    requires NoteSized(s, g) && t < |s.loc|
  {
    var s', g' := Step(s, t, c), Note(s, g, t, c);
    && Changed(g'.l) == Changed(g.l)
                        + One(s'.h.head != s.h.head) + One(s'.h.tail != s.h.tail) + One(Emit(s, t, c).Append?)
    && |g'.l.chain| == |g.l.chain| + One(Emit(s, t, c).Append?)
  }

  lemma TailChanges(s: State, g: History, t: nat, c: Choice)
    requires Inv(s, g) && t < |s.loc| && WritesMemory(s, t, c)
    requires s.loc[t].pc.EnqSwing? || s.loc[t].pc.EnqHelp? || s.loc[t].pc.DeqHelp?
    ensures CountsChanges(s, g, t, c)
  {
    var m := g.marks[t];
    assert Knows(s, g, t);
    SameNode(s.h, g.l, |s.loc|, m.base, m.li, g.l.ti);
    SameNode(s.h, g.l, |s.loc|, m.base, m.li, m.li + 1);
  }

  lemma HeadChanges(s: State, g: History, t: nat, c: Choice)
    requires Inv(s, g) && t < |s.loc| && WritesMemory(s, t, c) && s.loc[t].pc.DeqAdvance?
    ensures CountsChanges(s, g, t, c)
  {
    var m := g.marks[t];
    assert Knows(s, g, t);
    SameNode(s.h, g.l, |s.loc|, m.base, m.fi, g.l.hi);
    SameNode(s.h, g.l, |s.loc|, m.base, m.fi, m.fi + 1);
  }

  lemma NodeChanges(s: State, g: History, t: nat, c: Choice)
    requires Inv(s, g) && t < |s.loc| && WritesMemory(s, t, c)
    requires !s.loc[t].pc.EnqSwing? && !s.loc[t].pc.EnqHelp? && !s.loc[t].pc.DeqHelp? && !s.loc[t].pc.DeqAdvance?
    ensures CountsChanges(s, g, t, c)
  {
    assert Knows(s, g, t) && HandAt(g.l, t) && TakenAt(g.l, t);
  }

  /** The ledger's tally counts exactly the changes of head, of tail and of a link. */
  lemma StepChanges(s: State, g: History, t: nat, c: Choice)
    requires Inv(s, g) && t < |s.loc|
    ensures CountsChanges(s, g, t, c)
  {
    var pc := s.loc[t].pc;
    if !WritesMemory(s, t, c) { QuietSized(s, g, t, c); }
    else if pc.DeqAdvance? { HeadChanges(s, g, t, c); }
    else if pc.EnqSwing? || pc.EnqHelp? || pc.DeqHelp? { TailChanges(s, g, t, c); }
    else { NodeChanges(s, g, t, c); }
  }

  lemma {:induction false} ChangesCounted(n: nat, sched: seq<Move>, k: nat)
    requires Schedule(n, sched) && k <= |sched|
    ensures Changed(HistoryAt(n, sched, k).l) == 1 + MovesBefore(n, sched, k)
  {
    if k > 0 {
      ChangesCounted(n, sched, k - 1);
      ChangesNext(n, sched, k);
    }
  }

  lemma ChangesNext(n: nat, sched: seq<Move>, k: nat)
    requires Schedule(n, sched) && 0 < k <= |sched|
    ensures Changed(HistoryAt(n, sched, k).l) - Changed(HistoryAt(n, sched, k - 1).l)
            == MovesBefore(n, sched, k) - MovesBefore(n, sched, k - 1)
  {
    Reachable(n, sched[..k - 1]);
    LaterIsOneStep(n, sched, k);
    StepChanges(StateAt(n, sched, k - 1), HistoryAt(n, sched, k - 1), sched[k - 1].t, sched[k - 1].c);
  }

  /** The number of nodes linked so far. */
  function Appends(log: seq<Event>): nat {
    if |log| == 0 then 0 else Appends(log[..|log| - 1]) + One(log[|log| - 1].Append?)
  }

  lemma {:induction false} AppendsCounted(n: nat, sched: seq<Move>)
    requires Schedule(n, sched)
    ensures |Run(n, sched).1.l.chain| == 1 + Appends(Run(n, sched).1.log)
  {
    if |sched| > 0 {
      var front, m := sched[..|sched| - 1], sched[|sched| - 1];
      AppendsCounted(n, front);
      Reachable(n, front);
      var (s, g) := Run(n, front);
      LastStep(n, sched);
      StepChanges(s, g, m.t, m.c);
      assert (g.log + [Emit(s, m.t, m.c)])[..|g.log|] == g.log;
    }
  }

  /** In any run, head, tail and links together change at most three times per linked enqueue. */
  lemma ChangesPerEnqueue(n: nat, sched: seq<Move>)
    requires Schedule(n, sched)
    ensures MovesBefore(n, sched, |sched|) <= 3 * Appends(Run(n, sched).1.log)
  {
    assert sched[..|sched|] == sched;
    ChangesCounted(n, sched, |sched|);
    AppendsCounted(n, sched);
    Reachable(n, sched);
  }

  // ---- counting retries ----------------------------------------------------------------------

  predicate InLoop(pc: Pc) {
    pc.EnqTail? || pc.EnqNext? || pc.EnqCheck? || pc.EnqLink? || pc.EnqHelp? ||
    pc.DeqHead? || pc.DeqTail? || pc.DeqNext? || pc.DeqCheck? || pc.DeqHelp? || pc.DeqData? || pc.DeqAdvance?
  }

  lemma TalliesBounded(s: State, g: History, t: nat)
    requires Inv(s, g) && t < |s.loc| && InLoop(s.loc[t].pc)
    ensures g.marks[t].restarts + g.marks[t].began <= Changed(g.l) + g.marks[t].spurious
  {
    assert Knows(s, g, t);
  }

  /** While the counter stands still the tallies count what happens, and nothing else. */
  lemma StepTallies(s: State, g: History, t: nat, c: Choice, u: nat)
    requires NoteSized(s, g) && t < |s.loc| && u < |s.loc| && Step(s, t, c).ctr[u] == s.ctr[u]
    ensures var m, m', pc, pc' := g.marks[u], Note(s, g, t, c).marks[u], s.loc[u].pc, Step(s, t, c).loc[u].pc;
            && m'.began == m.began
            && m'.restarts == m.restarts + One(u == t && MayRestart(pc) && (pc'.EnqTail? || pc'.DeqHead?))
            && m'.spurious == m.spurious + One(u == t && Spurious(s, t, c))
  {
  }

  lemma CounterRises(n: nat, sched: seq<Move>, i: nat, j: nat, u: nat)
    requires Schedule(n, sched) && i <= j <= |sched| && u < n
    ensures StateAt(n, sched, i).ctr[u] <= StateAt(n, sched, j).ctr[u]
  {
    CounterBetween(n, sched, i, j, u);
  }

  lemma CounterStands(n: nat, sched: seq<Move>, i: nat, k: nat, t: nat)
    requires Schedule(n, sched) && i < k <= |sched| && t < n
    requires StateAt(n, sched, i).ctr[t] == StateAt(n, sched, k).ctr[t]
    ensures StateAt(n, sched, k - 1).ctr[t] == StateAt(n, sched, i).ctr[t]
  {
    CounterRises(n, sched, i, k - 1, t);
    CounterRises(n, sched, k - 1, k, t);
  }

  /** The tallies of thread t over steps i to k are the counts of what it did. */
  predicate Tallied(n: nat, sched: seq<Move>, i: nat, k: nat, t: nat)
    requires Schedule(n, sched) && i <= k <= |sched| && t < n
  {
    var m, m' := HistoryAt(n, sched, i).marks[t], HistoryAt(n, sched, k).marks[t];
    && m'.began == m.began
    && m'.restarts == m.restarts + RetriesIn(n, sched, i, k, t)
    && m'.spurious == m.spurious + SpuriousIn(n, sched, i, k, t)
  }

  lemma TalliedStep(n: nat, sched: seq<Move>, i: nat, k: nat, t: nat)
    requires Schedule(n, sched) && i < k <= |sched| && t < n && Tallied(n, sched, i, k - 1, t)
    requires StateAt(n, sched, k - 1).ctr[t] == StateAt(n, sched, k).ctr[t]
    ensures Tallied(n, sched, i, k, t)
  {
    LaterIsOneStep(n, sched, k);
    StepTallies(StateAt(n, sched, k - 1), HistoryAt(n, sched, k - 1), sched[k - 1].t, sched[k - 1].c, t);
  }

  lemma {:induction false} TalliesCounted(n: nat, sched: seq<Move>, i: nat, k: nat, t: nat)
    requires Schedule(n, sched) && i <= k <= |sched| && t < n
    requires StateAt(n, sched, i).ctr[t] == StateAt(n, sched, k).ctr[t]
    ensures Tallied(n, sched, i, k, t)
    decreases k
  {
    if i < k {
      CounterStands(n, sched, i, k, t);
      TalliesCounted(n, sched, i, k - 1, t);
      TalliedStep(n, sched, i, k, t);
    }
  }

  predicate AtBegin(pc: Pc) { pc.EnqBegin? || pc.DeqBegin? }

  /** Step i is the `mm_op_begin` of thread t. */
  predicate Begins(n: nat, sched: seq<Move>, i: nat, t: nat)
    requires Schedule(n, sched) && i < |sched| && t < n
  {
    sched[i].t == t && AtBegin(StateAt(n, sched, i).loc[t].pc)
  }

  lemma TalliesBegin(n: nat, sched: seq<Move>, i: nat, t: nat)
    requires Schedule(n, sched) && i < |sched| && t < n && Begins(n, sched, i, t)
    ensures var m := HistoryAt(n, sched, i + 1).marks[t];
            m.restarts == 0 && m.spurious == 0 && m.began == Changed(HistoryAt(n, sched, i + 1).l)
  {
    LaterIsOneStep(n, sched, i + 1);
  }

  /** A count over one operation: since it began at step i, its thread has gone round the loop again at
      most as often as head, tail or a link changed meanwhile, plus its spurious failures. */
  lemma RetriesBounded(n: nat, sched: seq<Move>, i: nat, k: nat, t: nat)
    requires Schedule(n, sched) && i < k <= |sched| && t < n && Begins(n, sched, i, t)
    requires StateAt(n, sched, i + 1).ctr[t] == StateAt(n, sched, k).ctr[t] && InLoop(StateAt(n, sched, k).loc[t].pc)
    ensures RetriesIn(n, sched, i + 1, k, t)
            <= MovesBefore(n, sched, k) - MovesBefore(n, sched, i + 1) + SpuriousIn(n, sched, i + 1, k, t)
  {
    TalliesBegin(n, sched, i, t);
    TalliesCounted(n, sched, i + 1, k, t);
    ChangesCounted(n, sched, i + 1);
    ChangesCounted(n, sched, k);
    Reachable(n, sched[..k]);
    TalliesBounded(StateAt(n, sched, k), HistoryAt(n, sched, k), t);
  }

  // ---- counting failed compare-exchanges -----------------------------------------------------

  predicate Exchanges(pc: Pc) { pc.EnqLink? || pc.EnqSwing? || pc.EnqHelp? || pc.DeqHelp? || pc.DeqAdvance? }

  /** At step k thread t tries a compare-exchange and leaves memory as it was. */
  predicate FailsAt(n: nat, sched: seq<Move>, k: nat, t: nat)
    requires Schedule(n, sched) && k < |sched| && t < n
  {
    sched[k].t == t && Exchanges(StateAt(n, sched, k).loc[t].pc) && StateAt(n, sched, k + 1).h == StateAt(n, sched, k).h
  }

  function FailuresBefore(n: nat, sched: seq<Move>, k: nat, t: nat): nat
    requires Schedule(n, sched) && k <= |sched| && t < n
  {
    if k == 0 then 0 else FailuresBefore(n, sched, k - 1, t) + One(FailsAt(n, sched, k - 1, t))
  }

  /** A compare-exchange that succeeds changes memory. */
  lemma SuccessShows(s: State, g: History, t: nat, c: Choice)
    requires Inv(s, g) && t < |s.loc| && Exchanges(s.loc[t].pc) && WritesMemory(s, t, c)
    ensures Step(s, t, c).h != s.h
  {
    var m := g.marks[t];
    assert Knows(s, g, t);
    if s.loc[t].pc.EnqLink? {
      assert LinkedAt(s.h, g.l, m.li);
      assert Next(Step(s, t, c).h, s.loc[t].last) == s.loc[t].node;
    } else if s.loc[t].pc.DeqAdvance? {
      SameNode(s.h, g.l, |s.loc|, m.base, m.fi, m.fi + 1);
    } else {
      SameNode(s.h, g.l, |s.loc|, m.base, m.li, m.li + 1);
    }
  }

  lemma FailureStep(s: State, t: nat, c: Choice, u: nat)
    requires Thread(s, t) && u < |s.loc|
    ensures Step(s, t, c).loc[u].failedCas
            == s.loc[u].failedCas + One(u == t && Exchanges(s.loc[t].pc) && !WritesMemory(s, t, c))
  {
  }

  /** The failure count handed to the benchmark is the number of compare-exchanges of that thread
      that left memory as it was. */
  lemma {:induction false} FailuresCounted(n: nat, sched: seq<Move>, k: nat, t: nat)
    requires Schedule(n, sched) && k <= |sched| && t < n
    ensures StateAt(n, sched, k).loc[t].failedCas == FailuresBefore(n, sched, k, t)
  {
    if k > 0 {
      FailuresCounted(n, sched, k - 1, t);
      FailureNext(n, sched, k, t);
    }
  }

  lemma FailureNext(n: nat, sched: seq<Move>, k: nat, t: nat)
    requires Schedule(n, sched) && 0 < k <= |sched| && t < n
    ensures StateAt(n, sched, k).loc[t].failedCas
            == StateAt(n, sched, k - 1).loc[t].failedCas + One(FailsAt(n, sched, k - 1, t))
  {
    var (s, g) := Run(n, sched[..k - 1]);
    var m := sched[k - 1];
    LaterIsOneStep(n, sched, k);
    FailureStep(s, m.t, m.c, t);
    if m.t == t && Exchanges(s.loc[t].pc) {
      Reachable(n, sched[..k - 1]);
      if WritesMemory(s, t, m.c) { SuccessShows(s, g, t, m.c); } else { QuietSized(s, g, t, m.c); }
    }
  }

  // ---- what the counters count ---------------------------------------------------------------

  /** The operations that thread t begins in the first k steps. */
  function Begun(n: nat, sched: seq<Move>, k: nat, t: nat): nat
    requires Schedule(n, sched) && k <= |sched| && t < n
  {
    if k == 0 then 0 else Begun(n, sched, k - 1, t) + One(Begins(n, sched, k - 1, t))
  }

  /** The counter, and one more while the thread is inside an operation. */
  function Rounded(s: State, t: nat): nat
    requires Thread(s, t)
  {
    s.ctr[t] + One(InOp(s.loc[t].pc))
  }

  lemma EdgeCounter(s: State, t: nat, c: Choice)
    requires Thread(s, t) && (AtBegin(s.loc[t].pc) || s.loc[t].pc.OpEnd?)
    ensures Rounded(Step(s, t, c), t) == Rounded(s, t) + if AtBegin(s.loc[t].pc) then 2 else 0
  {
  }

  lemma EnqCounter(s: State, t: nat, c: Choice)
    requires Thread(s, t)
    requires var pc := s.loc[t].pc;
             || pc.EnqTake? || pc.EnqData? || pc.EnqClear? || pc.EnqTail? || pc.EnqNext? || pc.EnqCheck?
             || pc.EnqLink? || pc.EnqSwing? || pc.EnqHelp?
    ensures Rounded(Step(s, t, c), t) == Rounded(s, t)
  {
  }

  lemma DeqCounter(s: State, t: nat, c: Choice)
    requires Thread(s, t)
    requires var pc := s.loc[t].pc;
             || pc.DeqHead? || pc.DeqTail? || pc.DeqNext? || pc.DeqCheck? || pc.DeqHelp? || pc.DeqData?
             || pc.DeqAdvance? || pc.DeqRetire?
    ensures Rounded(Step(s, t, c), t) == Rounded(s, t)
  {
  }

  lemma OutsideCounter(s: State, t: nat, c: Choice)
    requires Thread(s, t) && (s.loc[t].pc.Idle? || Reclaiming(s.loc[t].pc))
    ensures Rounded(Step(s, t, c), t) == Rounded(s, t)
  {
  }

  lemma CounterStep(s: State, t: nat, c: Choice)
    requires Thread(s, t)
    ensures Rounded(Step(s, t, c), t) == Rounded(s, t) + if AtBegin(s.loc[t].pc) then 2 else 0
  {
    match s.loc[t].pc
    case EnqBegin | DeqBegin | OpEnd => EdgeCounter(s, t, c);
    case EnqTake | EnqData | EnqClear | EnqTail | EnqNext | EnqCheck | EnqLink | EnqSwing | EnqHelp =>
      EnqCounter(s, t, c);
    case DeqHead | DeqTail | DeqNext | DeqCheck | DeqHelp | DeqData | DeqAdvance | DeqRetire =>
      DeqCounter(s, t, c);
    case Idle | WaitLoad | WaitSpin | Detach | Recycle | PushFree => OutsideCounter(s, t, c);
  }

  /** A counter is twice the number of operations its thread has begun, less one while the thread is
      inside one. */
  lemma {:induction false} CounterCounts(n: nat, sched: seq<Move>, k: nat, t: nat)
    requires Schedule(n, sched) && k <= |sched| && t < n
    ensures var s := StateAt(n, sched, k);
            s.ctr[t] == 2 * Begun(n, sched, k, t) - if InOp(s.loc[t].pc) then 1 else 0
    decreases k
  {
    if k > 0 {
      var (s, g) := Run(n, sched[..k - 1]);
      CounterCounts(n, sched, k - 1, t);
      LaterIsOneStep(n, sched, k);
      CounterStep(s, sched[k - 1].t, sched[k - 1].c);
    }
  }
}
