/** Every step of every thread keeps the invariant. */
module LockFreeSteps {
  import opened NodePool
  import opened NodeLists
  import opened Fifo
  import opened LockFree
  import opened LockFreeInvariant

  // ---- the stepping thread and the others ----------------------------------------------------

  /** The stepping thread never comes to hold an older position. */
  predicate NotOlder(s: State, g: History, s': State, g': History, t: nat)
    requires NoteSized(s, g) && NoteSized(s', g') && t < |s.loc| == |s'.loc|
  {
    || (s'.ctr[t] == s.ctr[t] && (InOp(s'.loc[t].pc) ==> InOp(s.loc[t].pc) && g.marks[t].base <= g'.marks[t].base))
    || !InOp(s'.loc[t].pc)
    || g.l.hi <= g'.marks[t].base
  }

  /** What a step does to the nodes other threads hold. */
  predicate LeavesHeld(s: State, g: History, s': State, g': History, u: nat)
    requires NoteSized(s, g) && NoteSized(s', g') && u < |s.loc| == |s'.loc|
  {
    && g'.l.hand[u] == g.l.hand[u] && g'.l.taken[u] == g.l.taken[u]
    && s'.h.freeHead[u] == s.h.freeHead[u]
    && (g.l.hand[u] != NULL ==>
          && Data(s'.h, g.l.hand[u]) == Data(s.h, g.l.hand[u])
          && Next(s'.h, g.l.hand[u]) == Next(s.h, g.l.hand[u]))
  }

  /** A step of thread t that emits e. */
  predicate Stepped(s: State, g: History, s': State, g': History, t: nat, e: Event) {
    && NoteSized(s, g) && NoteSized(s', g')
    && OnlyThread(s, s', t)
    && g'.marks == g.marks[t := g'.marks[t]]
    && g'.log == g.log + [e] && e.t == t
    && (e.Return? ==> Fulfils(Since(g.log, t), t, e.code, e.v))
    && Grows(g.l, g'.l)
  }

  /** The invariant after a step, from what the step does to memory and to its own thread. */
  lemma InvAfter(s: State, g: History, s': State, g': History, t: nat, e: Event)
    requires Inv(s, g) && Stepped(s, g, s', g', t, e) && NotOlder(s, g, s', g', t)
    requires Pool(s'.h, g'.l, |s.loc|) && g'.l.hi <= g'.l.ti && |g'.l.chain| <= g'.l.ti + 2
    requires Apply(Some(Queue(g.l)), e) == Some(Queue(g'.l))
    requires forall u: nat | u < |s.loc| && u != t :: LeavesHeld(s, g, s', g', u)
    requires forall u: nat | u < |s.loc| && u != t && InOp(s.loc[u].pc) :: Reserved(g'.l, g.marks[u].base)
    requires Knows(s', g', t)
    ensures Inv(s', g')
  {
    ReplayStep(g.log, e);
    FulfilledStep(g.log, e);
    assert Global(s', g');
    forall u: nat | u < |s.loc| ensures Knows(s', g', u) {
      if u != t {
        assert Knows(s, g, u) && Knows(s, g, t);
        KnowsAfter(s, g, s', g', t, e, u);
      }
    }
  }

  lemma KnowsAfter(s: State, g: History, s': State, g': History, t: nat, e: Event, u: nat)
    requires Stepped(s, g, s', g', t, e) && NotOlder(s, g, s', g', t)
    requires u < |s.loc| && u != t && Knows(s, g, u) && Knows(s, g, t) && LeavesHeld(s, g, s', g', u)
    requires InOp(s.loc[u].pc) ==> Reserved(g'.l, g.marks[u].base)
    ensures Knows(s', g', u)
  {
    SinceStep(g.log, e, u);
    assert Untouched(s, g, s', g', u);
    EnqSteady(s, g, s', g', u);
    DeqSteady(s, g, s', g', u);
    if g.marks[u].fi < g.l.hi {
      forall v: nat | v < |s.loc| && v != u ensures Onward(s, g, s', g', v, g.marks[u].fi) {
      }
    }
    EndSteady(s, g, s', g', u);
  }

  /** A step that leaves memory and ledger alone. */
  lemma QuietAfter(s: State, g: History, s': State, g': History, t: nat, e: Event)
    requires Inv(s, g) && Stepped(s, g, s', g', t, e) && NotOlder(s, g, s', g', t)
    requires s'.h == s.h && g'.l == g.l
    requires !Changes(e) && (e.SawEmpty? ==> Queue(g.l) == [])
    requires Knows(s', g', t)
    ensures Inv(s', g')
  {
    StillReserved(s, g, g'.l);
    InvAfter(s, g, s', g', t, e);
  }

  /** What a writing step does to memory and ledger, apart from its own thread. */
  ghost predicate GoodWrite(s: State, g: History, s': State, g': History, t: nat, e: Event) {
    && Thread(s, t) && NoteSized(s, g) && NoteSized(s', g') && |s.loc| == |s'.loc|
    && Pool(s.h, g.l, |s.loc|) && Pool(s'.h, g'.l, |s.loc|) && g'.l.hi <= g'.l.ti && |g'.l.chain| <= g'.l.ti + 2
    && Grows(g.l, g'.l)
    && Apply(Some(Queue(g.l)), e) == Some(Queue(g'.l))
    && (forall u: nat | u < |s.loc| && u != t :: LeavesHeld(s, g, s', g', u))
    && (forall u: nat | u < |s.loc| && u != t && InOp(s.loc[u].pc) :: Reserved(g'.l, g.marks[u].base))
  }

  lemma WriteAfter(s: State, g: History, s': State, g': History, t: nat, e: Event)
    requires Inv(s, g) && GoodWrite(s, g, s', g', t, e)
    requires OnlyThread(s, s', t) && g'.marks == g.marks[t := g'.marks[t]] && g'.log == g.log + [e]
    requires e.t == t && !e.Return?
    requires s'.ctr == s.ctr && g'.marks[t].base == g.marks[t].base && (InOp(s'.loc[t].pc) ==> InOp(s.loc[t].pc))
    requires Knows(s', g', t)
    ensures Inv(s', g')
  {
    InvAfter(s, g, s', g', t, e);
  }

  // ---- what a reserved thread sees -----------------------------------------------------------

  lemma LiveReserved(h: Heap, l: Ledger, n: nat)
    requires Pool(h, l, n)
    ensures Reserved(l, l.hi)
  {
    forall k: nat | l.hi <= k < |l.stage| ensures !l.stage[k].Reclaimed? { assert StageAt(l, k); }
  }

  /** From its base on a thread reads true links, and NULL only from the last node. */
  lemma ReadNext(h: Heap, l: Ledger, n: nat, base: nat, k: nat)
    requires Pool(h, l, n) && Reserved(l, base) && base <= k < |l.chain|
    ensures l.chain[k] != NULL && Next(h, l.chain[k]) == After(l.chain, k)
    ensures Next(h, l.chain[k]) == NULL <==> k + 1 == |l.chain|
    ensures Data(h, l.chain[k]) == l.vals[k]
  {
    assert LinkedAt(h, l, k);
    if k + 1 < |l.chain| { assert LinkedAt(h, l, k + 1); }
  }

  /** Equal addresses mean equal positions. */
  lemma SameNode(h: Heap, l: Ledger, n: nat, base: nat, j: nat, k: nat)
    requires Pool(h, l, n) && Reserved(l, base) && base <= j < |l.chain| && base <= k < |l.chain|
    ensures l.chain[j] == l.chain[k] <==> j == k
  {
    PositionsApart(h, l, n, j, k);
  }

  /** What an operation reserves stays so when no further position is recycled. */
  lemma StillReserved(s: State, g: History, l: Ledger)
    requires Inv(s, g) && g.l.hi <= l.hi
    requires forall k | 0 <= k < |l.stage| && l.stage[k].Reclaimed? :: k < |g.l.stage| && g.l.stage[k].Reclaimed?
    ensures forall u: nat | u < |s.loc| && InOp(s.loc[u].pc) :: Reserved(l, g.marks[u].base)
  {
    forall u: nat | u < |s.loc| && InOp(s.loc[u].pc) ensures Reserved(l, g.marks[u].base) {
      assert Knows(s, g, u);
    }
  }

  // ---- waiting -------------------------------------------------------------------------------

  lemma ClearedKept(s: State, g: History, s': State, g': History, t: nat, upTo: nat)
    requires NoteSized(s, g) && NoteSized(s', g') && OnlyThread(s, s', t) && Cleared(s, g, t, upTo)
    requires g'.marks == g.marks[t := g'.marks[t]] && g'.marks[t].fi == g.marks[t].fi
    ensures Cleared(s', g', t, upTo)
  {
    forall v: nat | v < upTo && v < |s.loc| && v != t ensures Past(s', g', v, g.marks[t].fi) {
      assert Past(s, g, v, g.marks[t].fi);
    }
  }

  lemma EvenIsOutside(s: State, g: History, u: nat)
    requires Inv(s, g) && u < |s.loc| && !Odd(s.ctr[u])
    ensures !InOp(s.loc[u].pc)
  {
    assert Knows(s, g, u);
  }

  lemma ClearedOneMore(s: State, g: History, t: nat, i: nat)
    requires NoteSized(s, g) && t < |s.loc| && i < |s.loc| && Cleared(s, g, t, i)
    requires i == t || Past(s, g, i, g.marks[t].fi)
    ensures Cleared(s, g, t, i + 1)
  {
  }

  // ---- what is noted of a step ---------------------------------------------------------------

  /** Ledger and marks stay; the step emits e. */
  function Says(g: History, t: nat, e: Event): (g': History)
    requires t < |g.marks|
  {
    Noted(g, t, g.l, g.marks[t], e)
  }

  /** Only the thread's mark changes. */
  function Marked(g: History, t: nat, m: Mark): (g': History)
    requires t < |g.marks|
  {
    Noted(g, t, g.l, m, Internal(t))
  }

  /** The thread's compare-exchange failed; it goes back to the top of its loop. */
  function Again(g: History, t: nat, pc: Pc, spurious: bool): (g': History)
    requires t < |g.marks|
  {
    Marked(g, t, TryMark(g.marks[t], pc, spurious))
  }

  /** Only the ledger changes. */
  function Wrote(g: History, t: nat, l: Ledger): (g': History)
    requires t < |g.marks|
  {
    Noted(g, t, l, g.marks[t], Internal(t))
  }

  /** A node was linked. */
  function LinkNote(s: State, g: History, t: nat): (g': History)
    requires NoteSized(s, g) && t < |s.loc|
  {
    var v := Data(s.h, s.loc[t].node);
    Noted(g, t, NoteLink(g.l, t, v), TryMark(g.marks[t], EnqSwing, false), Append(t, v))
  }

  /** The tail was helped on, and the thread goes back to the top of its loop. */
  function HelpNote(g: History, t: nat, pc: Pc): (g': History)
    requires t < |g.marks|
  {
    Noted(g, t, g.l.(ti := g.marks[t].li + 1), TryMark(g.marks[t], pc, false), Internal(t))
  }

  /** The head was moved. */
  function AdvanceNote(s: State, g: History, t: nat): (g': History)
    requires NoteSized(s, g) && t < |s.loc|
  {
    Noted(g, t, NoteMoveHead(g.l, t), TryMark(g.marks[t], DeqRetire, false), Remove(t, s.loc[t].val))
  }

  // ---- one lemma per access ------------------------------------------------------------------
  // For each access: what the thread knows afterwards, and that the invariant is kept.

  lemma IdleKnows(s: State, g: History, t: nat, c: Choice)
    requires NoteSized(s, g) && t < |s.loc| && s.loc[t].pc.Idle? && Knows(s, g, t)
    ensures Knows(CallStep(s, t, c), Says(g, t, Invoke(t, c.call)), t)
  {
    var s', g' := CallStep(s, t, c), Says(g, t, Invoke(t, c.call));
    SinceStep(g.log, Invoke(t, c.call), t);
    assert Since(g'.log, t) == [Invoke(t, c.call)];
  }

  lemma IdleKeeps(s: State, g: History, s': State, g': History, t: nat, c: Choice)
    requires Inv(s, g) && t < |s.loc| && s.loc[t].pc.Idle?
    requires s' == CallStep(s, t, c) && g' == Says(g, t, Invoke(t, c.call))
    ensures Inv(s', g') && Grows(g.l, g'.l)
  {
    assert Knows(s, g, t);
    IdleKnows(s, g, t, c);
    QuietAfter(s, g, s', g', t, Invoke(t, c.call));
  }

  lemma EnqBeginKnows(s: State, g: History, t: nat)
    requires NoteSized(s, g) && t < |s.loc| && s.loc[t].pc.EnqBegin? && Knows(s, g, t)
    requires Reserved(g.l, g.l.hi)
    ensures Knows(BeginStep(s, t, EnqTake), Marked(g, t, BeginMark(g.l, g.marks[t])), t)
  {
    SinceInternal(g.log, t);
  }

  lemma EnqBeginKeeps(s: State, g: History, s': State, g': History, t: nat)
    requires Inv(s, g) && t < |s.loc| && s.loc[t].pc.EnqBegin?
    requires s' == BeginStep(s, t, EnqTake) && g' == Marked(g, t, BeginMark(g.l, g.marks[t]))
    ensures Inv(s', g') && Grows(g.l, g'.l)
  {
    assert Knows(s, g, t);
    LiveReserved(s.h, g.l, |s.loc|);
    EnqBeginKnows(s, g, t);
    QuietAfter(s, g, s', g', t, Internal(t));
  }

  lemma EnqTakeKnows(s: State, g: History, t: nat)
    requires NoteSized(s, g) && t < |s.loc| && s.loc[t].pc.EnqTake? && Knows(s, g, t)
    requires NoteTake(s.h, g.l, t).hand[t] == TakenNode(s.h, t) != NULL
    requires NoteTake(s.h, g.l, t).taken == g.l.taken && NoteTake(s.h, g.l, t).stage == g.l.stage
    ensures Knows(EnqTakeStep(s, t), Wrote(g, t, NoteTake(s.h, g.l, t)), t)
  {
    SinceInternal(g.log, t);
  }

  lemma EnqTakeWrites(s: State, g: History, t: nat)
    requires Inv(s, g) && t < |s.loc| && s.loc[t].pc.EnqTake?
    ensures GoodWrite(s, g, EnqTakeStep(s, t), Wrote(g, t, NoteTake(s.h, g.l, t)), t, Internal(t))
  {
    var s', g' := EnqTakeStep(s, t), Wrote(g, t, NoteTake(s.h, g.l, t));
    assert Knows(s, g, t);
    TakeKeepsPool(s.h, g.l, |s.loc|, t, 0, NULL);
    forall u: nat | u < |s.loc| && u != t ensures LeavesHeld(s, g, s', g', u) {
      assert HandAt(g.l, u);
    }
    StillReserved(s, g, g'.l);
  }

  lemma EnqTakeKeeps(s: State, g: History, s': State, g': History, t: nat)
    requires Inv(s, g) && t < |s.loc| && s.loc[t].pc.EnqTake?
    requires s' == EnqTakeStep(s, t) && g' == Wrote(g, t, NoteTake(s.h, g.l, t))
    ensures Inv(s', g') && Grows(g.l, g'.l)
  {
    assert Knows(s, g, t);
    EnqTakeWrites(s, g, t);
    TakeKeepsPool(s.h, g.l, |s.loc|, t, 0, NULL);
    EnqTakeKnows(s, g, t);
    WriteAfter(s, g, s', g', t, Internal(t));
  }

  lemma EnqDataKnows(s: State, g: History, t: nat)
    requires NoteSized(s, g) && t < |s.loc| && s.loc[t].pc.EnqData? && Knows(s, g, t)
    requires Allocated(s.h, s.loc[t].node)
    ensures Knows(EnqDataStep(s, t), Says(g, t, Internal(t)), t)
  {
    SinceInternal(g.log, t);
  }

  lemma EnqDataWrites(s: State, g: History, t: nat)
    requires Inv(s, g) && t < |s.loc| && s.loc[t].pc.EnqData?
    ensures GoodWrite(s, g, EnqDataStep(s, t), Says(g, t, Internal(t)), t, Internal(t))
  {
    var s', g' := EnqDataStep(s, t), Says(g, t, Internal(t));
    assert Knows(s, g, t);
    WriteDataKeepsPool(s.h, g.l, |s.loc|, t, s.loc[t].arg);
    assert HandAt(g.l, t);
    forall u: nat | u < |s.loc| && u != t ensures LeavesHeld(s, g, s', g', u) {
      assert HandAt(g.l, u);
    }
    StillReserved(s, g, g'.l);
  }

  lemma EnqDataKeeps(s: State, g: History, s': State, g': History, t: nat)
    requires Inv(s, g) && t < |s.loc| && s.loc[t].pc.EnqData?
    requires s' == EnqDataStep(s, t) && g' == Says(g, t, Internal(t))
    ensures Inv(s', g') && Grows(g.l, g'.l)
  {
    assert Knows(s, g, t);
    EnqDataWrites(s, g, t);
    assert HandAt(g.l, t);
    EnqDataKnows(s, g, t);
    WriteAfter(s, g, s', g', t, Internal(t));
  }

  lemma EnqClearKnows(s: State, g: History, t: nat)
    requires NoteSized(s, g) && t < |s.loc| && s.loc[t].pc.EnqClear? && Knows(s, g, t)
    requires Allocated(s.h, s.loc[t].node)
    ensures Knows(EnqClearStep(s, t), Says(g, t, Internal(t)), t)
  {
    SinceInternal(g.log, t);
  }

  lemma EnqClearWrites(s: State, g: History, t: nat)
    requires Inv(s, g) && t < |s.loc| && s.loc[t].pc.EnqClear?
    ensures GoodWrite(s, g, EnqClearStep(s, t), Says(g, t, Internal(t)), t, Internal(t))
  {
    var s', g' := EnqClearStep(s, t), Says(g, t, Internal(t));
    assert Knows(s, g, t);
    WriteNextKeepsPool(s.h, g.l, |s.loc|, t, NULL);
    assert HandAt(g.l, t);
    forall u: nat | u < |s.loc| && u != t ensures LeavesHeld(s, g, s', g', u) {
      assert HandAt(g.l, u);
    }
    StillReserved(s, g, g'.l);
  }

  lemma EnqClearKeeps(s: State, g: History, s': State, g': History, t: nat)
    requires Inv(s, g) && t < |s.loc| && s.loc[t].pc.EnqClear?
    requires s' == EnqClearStep(s, t) && g' == Says(g, t, Internal(t))
    ensures Inv(s', g') && Grows(g.l, g'.l)
  {
    assert Knows(s, g, t);
    EnqClearWrites(s, g, t);
    assert HandAt(g.l, t);
    EnqClearKnows(s, g, t);
    WriteAfter(s, g, s', g', t, Internal(t));
  }

  lemma EnqTailKnows(s: State, g: History, t: nat)
    requires NoteSized(s, g) && t < |s.loc| && s.loc[t].pc.EnqTail? && Knows(s, g, t)
    requires g.l.hi <= g.l.ti < |g.l.chain| && s.h.tail == g.l.chain[g.l.ti]
    ensures Knows(EnqTailStep(s, t), Marked(g, t, g.marks[t].(li := g.l.ti, round := Changed(g.l))), t)
  {
    SinceInternal(g.log, t);
  }

  lemma EnqTailKeeps(s: State, g: History, s': State, g': History, t: nat)
    requires Inv(s, g) && t < |s.loc| && s.loc[t].pc.EnqTail?
    requires s' == EnqTailStep(s, t) && g' == Marked(g, t, g.marks[t].(li := g.l.ti, round := Changed(g.l)))
    ensures Inv(s', g') && Grows(g.l, g'.l)
  {
    assert Knows(s, g, t);
    EnqTailKnows(s, g, t);
    QuietAfter(s, g, s', g', t, Internal(t));
  }

  lemma EnqNextKnows(s: State, g: History, t: nat)
    requires NoteSized(s, g) && t < |s.loc| && s.loc[t].pc.EnqNext? && Knows(s, g, t)
    requires Next(s.h, s.loc[t].last) == After(g.l.chain, g.marks[t].li)
    requires Next(s.h, s.loc[t].last) == NULL <==> g.marks[t].li + 1 == |g.l.chain|
    ensures Knows(EnqNextStep(s, t), Says(g, t, Internal(t)), t)
  {
    SinceInternal(g.log, t);
  }

  lemma EnqNextKeeps(s: State, g: History, s': State, g': History, t: nat)
    requires Inv(s, g) && t < |s.loc| && s.loc[t].pc.EnqNext?
    requires s' == EnqNextStep(s, t) && g' == Says(g, t, Internal(t))
    ensures Inv(s', g') && Grows(g.l, g'.l)
  {
    assert Knows(s, g, t);
    ReadNext(s.h, g.l, |s.loc|, g.marks[t].base, g.marks[t].li);
    EnqNextKnows(s, g, t);
    QuietAfter(s, g, s', g', t, Internal(t));
  }

  lemma EnqCheckBackKnows(s: State, g: History, s': State, g': History, t: nat)
    requires NoteSized(s, g) && t < |s.loc| && s.loc[t].pc.EnqCheck? && Knows(s, g, t)
    requires s' == EnqCheckStep(s, t) && g' == Marked(g, t, TryMark(g.marks[t], s'.loc[t].pc, false))
    requires g.l.hi <= g.l.ti < |g.l.chain| && s.h.tail == g.l.chain[g.l.ti] != s.loc[t].last
    ensures Knows(s', g', t)
  {
    assert g.marks[t].li < g.l.ti;
    SinceInternal(g.log, t);
  }

  lemma EnqCheckOnKnows(s: State, g: History, s': State, g': History, t: nat)
    requires NoteSized(s, g) && t < |s.loc| && s.loc[t].pc.EnqCheck? && Knows(s, g, t)
    requires s' == EnqCheckStep(s, t) && g' == Marked(g, t, TryMark(g.marks[t], s'.loc[t].pc, false))
    requires s.h.tail == s.loc[t].last
    ensures Knows(s', g', t)
  {
    SinceInternal(g.log, t);
  }

  lemma EnqCheckKnows(s: State, g: History, s': State, g': History, t: nat)
    requires NoteSized(s, g) && t < |s.loc| && s.loc[t].pc.EnqCheck? && Knows(s, g, t)
    requires s' == EnqCheckStep(s, t) && g' == Marked(g, t, TryMark(g.marks[t], s'.loc[t].pc, false))
    requires g.l.hi <= g.l.ti < |g.l.chain| && s.h.tail == g.l.chain[g.l.ti]
    ensures Knows(s', g', t)
  {
    if s.loc[t].last != s.h.tail { EnqCheckBackKnows(s, g, s', g', t); } else { EnqCheckOnKnows(s, g, s', g', t); }
  }

  lemma EnqCheckKeeps(s: State, g: History, s': State, g': History, t: nat)
    requires Inv(s, g) && t < |s.loc| && s.loc[t].pc.EnqCheck?
    requires s' == EnqCheckStep(s, t) && g' == Marked(g, t, TryMark(g.marks[t], s'.loc[t].pc, false))
    ensures Inv(s', g') && Grows(g.l, g'.l)
  {
    assert Knows(s, g, t);
    EnqCheckKnows(s, g, s', g', t);
    QuietAfter(s, g, s', g', t, Internal(t));
  }

  lemma EnqLinkWonKnows(s: State, g: History, t: nat, c: Choice)
    requires NoteSized(s, g) && t < |s.loc| && s.loc[t].pc.EnqLink? && CasOk(Next(s.h, s.loc[t].last), NULL, c)
    requires Knows(s, g, t)
    requires 0 <= g.l.hand[t] < |g.l.own| && g.marks[t].li + 1 == |g.l.chain|
    requires Reserved(NoteLink(g.l, t, Data(s.h, s.loc[t].node)), g.marks[t].base)
    ensures Knows(EnqLinkStep(s, t, c), LinkNote(s, g, t), t)
  {
    var s', g' := EnqLinkStep(s, t, c), LinkNote(s, g, t);
    SinceStep(g.log, Append(t, Data(s.h, s.loc[t].node)), t);
    assert Since(g'.log, t) == [Invoke(t, Enq(s.loc[t].arg)), Append(t, s.loc[t].arg)];
  }

  /** Linking behind the last node touches nothing that a thread holds. */
  lemma EnqLinkWonHeld(s: State, g: History, t: nat, c: Choice)
    requires NoteSized(s, g) && Pool(s.h, g.l, |s.loc|) && t < |s.loc| && HasLast(g.l, g.marks[t], s.loc[t])
    requires Reserved(g.l, g.marks[t].base) && CasOk(Next(s.h, s.loc[t].last), NULL, c)
    ensures forall u: nat | u < |s.loc| && u != t :: LeavesHeld(s, g, EnqLinkStep(s, t, c), LinkNote(s, g, t), u)
  {
    assert LinkedAt(s.h, g.l, g.marks[t].li);
    forall u: nat | u < |s.loc| && u != t ensures LeavesHeld(s, g, EnqLinkStep(s, t, c), LinkNote(s, g, t), u) {
      assert HandAt(g.l, u);
    }
  }

  lemma EnqLinkWonWrites(s: State, g: History, t: nat, c: Choice)
    requires Inv(s, g) && t < |s.loc| && s.loc[t].pc.EnqLink? && CasOk(Next(s.h, s.loc[t].last), NULL, c)
    ensures GoodWrite(s, g, EnqLinkStep(s, t, c), LinkNote(s, g, t), t, Append(t, Data(s.h, s.loc[t].node)))
  {
    var s', g' := EnqLinkStep(s, t, c), LinkNote(s, g, t);
    assert Knows(s, g, t);
    var k := g.marks[t].li;
    ReadNext(s.h, g.l, |s.loc|, g.marks[t].base, k);
    LinkKeepsPool(s.h, g.l, |s.loc|, t, s.loc[t].last);
    EnqLinkWonHeld(s, g, t, c);
    assert HandAt(g.l, t);
    assert Queue(g'.l) == Queue(g.l) + [Data(s.h, s.loc[t].node)];
    StillReserved(s, g, g'.l);
  }

  lemma EnqLinkWonKeeps(s: State, g: History, s': State, g': History, t: nat, c: Choice)
    requires Inv(s, g) && t < |s.loc| && s.loc[t].pc.EnqLink? && CasOk(Next(s.h, s.loc[t].last), NULL, c)
    requires s' == EnqLinkStep(s, t, c) && g' == LinkNote(s, g, t)
    ensures Inv(s', g') && Grows(g.l, g'.l)
  {
    assert Knows(s, g, t);
    EnqLinkWonWrites(s, g, t, c);
    ReadNext(s.h, g.l, |s.loc|, g.marks[t].base, g.marks[t].li);
    assert HandAt(g.l, t);
    EnqLinkWonKnows(s, g, t, c);
    WriteAfter(s, g, s', g', t, Append(t, Data(s.h, s.loc[t].node)));
  }

  lemma EnqLinkLostKnows(s: State, g: History, t: nat, c: Choice)
    requires NoteSized(s, g) && t < |s.loc| && s.loc[t].pc.EnqLink? && !CasOk(Next(s.h, s.loc[t].last), NULL, c)
    requires Knows(s, g, t)
    requires g.l.ti < |g.l.chain|
    requires Next(s.h, s.loc[t].last) == NULL <==> g.marks[t].li + 1 == |g.l.chain|
    ensures Knows(EnqLinkStep(s, t, c), Again(g, t, EnqTail, c.spurious && Next(s.h, s.loc[t].last) == NULL), t)
  {
    SinceInternal(g.log, t);
  }

  lemma EnqLinkLostKeeps(s: State, g: History, s': State, g': History, t: nat, c: Choice)
    requires Inv(s, g) && t < |s.loc| && s.loc[t].pc.EnqLink? && !CasOk(Next(s.h, s.loc[t].last), NULL, c)
    requires s' == EnqLinkStep(s, t, c) && g' == Again(g, t, EnqTail, c.spurious && Next(s.h, s.loc[t].last) == NULL)
    ensures Inv(s', g') && Grows(g.l, g'.l)
  {
    assert Knows(s, g, t);
    ReadNext(s.h, g.l, |s.loc|, g.marks[t].base, g.marks[t].li);
    EnqLinkLostKnows(s, g, t, c);
    QuietAfter(s, g, s', g', t, Internal(t));
  }

  lemma EnqSwingWonKnows(s: State, g: History, t: nat, c: Choice)
    requires NoteSized(s, g) && t < |s.loc| && s.loc[t].pc.EnqSwing? && CasOk(s.h.tail, s.loc[t].last, c)
    requires Knows(s, g, t)
    ensures Knows(EnqSwingStep(s, t, c), Wrote(g, t, g.l.(ti := g.marks[t].li + 1)), t)
  {
    var s', g' := EnqSwingStep(s, t, c), Wrote(g, t, g.l.(ti := g.marks[t].li + 1));
    SinceInternal(g.log, t);
    assert Fulfils(Since(g'.log, t), t, 1, s.loc[t].val);
  }

  lemma EnqSwingWonWrites(s: State, g: History, t: nat, c: Choice)
    requires Inv(s, g) && t < |s.loc| && s.loc[t].pc.EnqSwing? && CasOk(s.h.tail, s.loc[t].last, c)
    ensures GoodWrite(s, g, EnqSwingStep(s, t, c), Wrote(g, t, g.l.(ti := g.marks[t].li + 1)), t, Internal(t))
  {
    var s', g' := EnqSwingStep(s, t, c), Wrote(g, t, g.l.(ti := g.marks[t].li + 1));
    assert Knows(s, g, t);
    SameNode(s.h, g.l, |s.loc|, g.marks[t].base, g.marks[t].li, g.l.ti);
    MoveTailKeepsPool(s.h, g.l, |s.loc|, g.marks[t].li + 1);
    StillReserved(s, g, g'.l);
  }

  lemma EnqSwingWonKeeps(s: State, g: History, s': State, g': History, t: nat, c: Choice)
    requires Inv(s, g) && t < |s.loc| && s.loc[t].pc.EnqSwing? && CasOk(s.h.tail, s.loc[t].last, c)
    requires s' == EnqSwingStep(s, t, c) && g' == Wrote(g, t, g.l.(ti := g.marks[t].li + 1))
    ensures Inv(s', g') && Grows(g.l, g'.l)
  {
    assert Knows(s, g, t);
    EnqSwingWonWrites(s, g, t, c);
    EnqSwingWonKnows(s, g, t, c);
    WriteAfter(s, g, s', g', t, Internal(t));
  }

  lemma EnqSwingLostKnows(s: State, g: History, t: nat, c: Choice)
    requires NoteSized(s, g) && t < |s.loc| && s.loc[t].pc.EnqSwing? && !CasOk(s.h.tail, s.loc[t].last, c)
    requires Knows(s, g, t)
    ensures Knows(EnqSwingStep(s, t, c), Says(g, t, Internal(t)), t)
  {
    var s', g' := EnqSwingStep(s, t, c), Says(g, t, Internal(t));
    SinceInternal(g.log, t);
    assert Fulfils(Since(g'.log, t), t, 1, s.loc[t].val);
  }

  lemma EnqSwingLostKeeps(s: State, g: History, s': State, g': History, t: nat, c: Choice)
    requires Inv(s, g) && t < |s.loc| && s.loc[t].pc.EnqSwing? && !CasOk(s.h.tail, s.loc[t].last, c)
    requires s' == EnqSwingStep(s, t, c) && g' == Says(g, t, Internal(t))
    ensures Inv(s', g') && Grows(g.l, g'.l)
  {
    assert Knows(s, g, t);
    EnqSwingLostKnows(s, g, t, c);
    QuietAfter(s, g, s', g', t, Internal(t));
  }

  lemma EnqHelpWonKnows(s: State, g: History, t: nat, c: Choice)
    requires NoteSized(s, g) && t < |s.loc| && s.loc[t].pc.EnqHelp? && CasOk(s.h.tail, s.loc[t].last, c)
    requires Knows(s, g, t)
    requires g.l.ti == g.marks[t].li
    ensures Knows(HelpStep(s, t, c, EnqTail), HelpNote(g, t, EnqTail), t)
  {
    SinceInternal(g.log, t);
  }

  lemma EnqHelpWonWrites(s: State, g: History, t: nat, c: Choice)
    requires Inv(s, g) && t < |s.loc| && s.loc[t].pc.EnqHelp? && CasOk(s.h.tail, s.loc[t].last, c)
    ensures GoodWrite(s, g, HelpStep(s, t, c, EnqTail), HelpNote(g, t, EnqTail), t, Internal(t))
  {
    var s', g' := HelpStep(s, t, c, EnqTail), HelpNote(g, t, EnqTail);
    assert Knows(s, g, t);
    SameNode(s.h, g.l, |s.loc|, g.marks[t].base, g.marks[t].li, g.l.ti);
    MoveTailKeepsPool(s.h, g.l, |s.loc|, g.marks[t].li + 1);
    StillReserved(s, g, g'.l);
  }

  lemma EnqHelpWonKeeps(s: State, g: History, s': State, g': History, t: nat, c: Choice)
    requires Inv(s, g) && t < |s.loc| && s.loc[t].pc.EnqHelp? && CasOk(s.h.tail, s.loc[t].last, c)
    requires s' == HelpStep(s, t, c, EnqTail) && g' == HelpNote(g, t, EnqTail)
    ensures Inv(s', g') && Grows(g.l, g'.l)
  {
    assert Knows(s, g, t);
    EnqHelpWonWrites(s, g, t, c);
    SameNode(s.h, g.l, |s.loc|, g.marks[t].base, g.marks[t].li, g.l.ti);
    EnqHelpWonKnows(s, g, t, c);
    WriteAfter(s, g, s', g', t, Internal(t));
  }

  lemma EnqHelpLostKnows(s: State, g: History, t: nat, c: Choice)
    requires NoteSized(s, g) && t < |s.loc| && s.loc[t].pc.EnqHelp? && !CasOk(s.h.tail, s.loc[t].last, c)
    requires Knows(s, g, t)
    requires g.l.hi <= g.l.ti < |g.l.chain| && s.h.tail == g.l.chain[g.l.ti]
    ensures Knows(HelpStep(s, t, c, EnqTail), Again(g, t, EnqTail, c.spurious && s.h.tail == s.loc[t].last), t)
  {
    assert s.h.tail != s.loc[t].last ==> g.marks[t].li < g.l.ti;
    SinceInternal(g.log, t);
  }

  lemma EnqHelpLostKeeps(s: State, g: History, s': State, g': History, t: nat, c: Choice)
    requires Inv(s, g) && t < |s.loc| && s.loc[t].pc.EnqHelp? && !CasOk(s.h.tail, s.loc[t].last, c)
    requires s' == HelpStep(s, t, c, EnqTail) && g' == Again(g, t, EnqTail, c.spurious && s.h.tail == s.loc[t].last)
    ensures Inv(s', g') && Grows(g.l, g'.l)
  {
    assert Knows(s, g, t);
    EnqHelpLostKnows(s, g, t, c);
    QuietAfter(s, g, s', g', t, Internal(t));
  }

  lemma DeqHelpWonKnows(s: State, g: History, t: nat, c: Choice)
    requires NoteSized(s, g) && t < |s.loc| && s.loc[t].pc.DeqHelp? && CasOk(s.h.tail, s.loc[t].last, c)
    requires Knows(s, g, t)
    requires g.l.ti == g.marks[t].li
    ensures Knows(HelpStep(s, t, c, DeqHead), HelpNote(g, t, DeqHead), t)
  {
    SinceInternal(g.log, t);
  }

  lemma DeqHelpWonWrites(s: State, g: History, t: nat, c: Choice)
    requires Inv(s, g) && t < |s.loc| && s.loc[t].pc.DeqHelp? && CasOk(s.h.tail, s.loc[t].last, c)
    ensures GoodWrite(s, g, HelpStep(s, t, c, DeqHead), HelpNote(g, t, DeqHead), t, Internal(t))
  {
    var s', g' := HelpStep(s, t, c, DeqHead), HelpNote(g, t, DeqHead);
    assert Knows(s, g, t);
    SameNode(s.h, g.l, |s.loc|, g.marks[t].base, g.marks[t].li, g.l.ti);
    MoveTailKeepsPool(s.h, g.l, |s.loc|, g.marks[t].li + 1);
    StillReserved(s, g, g'.l);
  }

  lemma DeqHelpWonKeeps(s: State, g: History, s': State, g': History, t: nat, c: Choice)
    requires Inv(s, g) && t < |s.loc| && s.loc[t].pc.DeqHelp? && CasOk(s.h.tail, s.loc[t].last, c)
    requires s' == HelpStep(s, t, c, DeqHead) && g' == HelpNote(g, t, DeqHead)
    ensures Inv(s', g') && Grows(g.l, g'.l)
  {
    assert Knows(s, g, t);
    DeqHelpWonWrites(s, g, t, c);
    SameNode(s.h, g.l, |s.loc|, g.marks[t].base, g.marks[t].li, g.l.ti);
    DeqHelpWonKnows(s, g, t, c);
    WriteAfter(s, g, s', g', t, Internal(t));
  }

  lemma DeqHelpLostKnows(s: State, g: History, t: nat, c: Choice)
    requires NoteSized(s, g) && t < |s.loc| && s.loc[t].pc.DeqHelp? && !CasOk(s.h.tail, s.loc[t].last, c)
    requires Knows(s, g, t)
    requires g.l.hi <= g.l.ti < |g.l.chain| && s.h.tail == g.l.chain[g.l.ti]
    ensures Knows(HelpStep(s, t, c, DeqHead), Again(g, t, DeqHead, c.spurious && s.h.tail == s.loc[t].last), t)
  {
    assert s.h.tail != s.loc[t].last ==> g.marks[t].li < g.l.ti;
    SinceInternal(g.log, t);
  }

  lemma DeqHelpLostKeeps(s: State, g: History, s': State, g': History, t: nat, c: Choice)
    requires Inv(s, g) && t < |s.loc| && s.loc[t].pc.DeqHelp? && !CasOk(s.h.tail, s.loc[t].last, c)
    requires s' == HelpStep(s, t, c, DeqHead) && g' == Again(g, t, DeqHead, c.spurious && s.h.tail == s.loc[t].last)
    ensures Inv(s', g') && Grows(g.l, g'.l)
  {
    assert Knows(s, g, t);
    DeqHelpLostKnows(s, g, t, c);
    QuietAfter(s, g, s', g', t, Internal(t));
  }

  lemma DeqBeginKnows(s: State, g: History, t: nat)
    requires NoteSized(s, g) && t < |s.loc| && s.loc[t].pc.DeqBegin? && Knows(s, g, t)
    requires Reserved(g.l, g.l.hi)
    ensures Knows(BeginStep(s, t, DeqHead), Marked(g, t, BeginMark(g.l, g.marks[t])), t)
  {
    SinceInternal(g.log, t);
  }

  lemma DeqBeginKeeps(s: State, g: History, s': State, g': History, t: nat)
    requires Inv(s, g) && t < |s.loc| && s.loc[t].pc.DeqBegin?
    requires s' == BeginStep(s, t, DeqHead) && g' == Marked(g, t, BeginMark(g.l, g.marks[t]))
    ensures Inv(s', g') && Grows(g.l, g'.l)
  {
    assert Knows(s, g, t);
    LiveReserved(s.h, g.l, |s.loc|);
    DeqBeginKnows(s, g, t);
    QuietAfter(s, g, s', g', t, Internal(t));
  }

  lemma DeqHeadKnows(s: State, g: History, t: nat)
    requires NoteSized(s, g) && t < |s.loc| && s.loc[t].pc.DeqHead? && Knows(s, g, t)
    requires g.l.hi <= g.l.ti < |g.l.chain| && s.h.head == g.l.chain[g.l.hi]
    ensures Knows(DeqHeadStep(s, t), Marked(g, t, g.marks[t].(fi := g.l.hi, round := Changed(g.l))), t)
  {
    SinceInternal(g.log, t);
  }

  lemma DeqHeadKeeps(s: State, g: History, s': State, g': History, t: nat)
    requires Inv(s, g) && t < |s.loc| && s.loc[t].pc.DeqHead?
    requires s' == DeqHeadStep(s, t) && g' == Marked(g, t, g.marks[t].(fi := g.l.hi, round := Changed(g.l)))
    ensures Inv(s', g') && Grows(g.l, g'.l)
  {
    assert Knows(s, g, t);
    DeqHeadKnows(s, g, t);
    QuietAfter(s, g, s', g', t, Internal(t));
  }

  lemma DeqTailKnows(s: State, g: History, t: nat)
    requires NoteSized(s, g) && t < |s.loc| && s.loc[t].pc.DeqTail? && Knows(s, g, t)
    requires g.l.hi <= g.l.ti < |g.l.chain| && s.h.tail == g.l.chain[g.l.ti]
    ensures Knows(DeqTailStep(s, t), Marked(g, t, g.marks[t].(li := g.l.ti)), t)
  {
    SinceInternal(g.log, t);
  }

  lemma DeqTailKeeps(s: State, g: History, s': State, g': History, t: nat)
    requires Inv(s, g) && t < |s.loc| && s.loc[t].pc.DeqTail?
    requires s' == DeqTailStep(s, t) && g' == Marked(g, t, g.marks[t].(li := g.l.ti))
    ensures Inv(s', g') && Grows(g.l, g'.l)
  {
    assert Knows(s, g, t);
    DeqTailKnows(s, g, t);
    QuietAfter(s, g, s', g', t, Internal(t));
  }

  lemma DeqNextEmptyKnows(s: State, g: History, t: nat)
    requires NoteSized(s, g) && t < |s.loc| && s.loc[t].pc.DeqNext? && Next(s.h, s.loc[t].first) == NULL
    requires Knows(s, g, t)
    requires g.l.ti < |g.l.chain|
    requires Next(s.h, s.loc[t].first) == After(g.l.chain, g.marks[t].fi)
    requires Next(s.h, s.loc[t].first) == NULL <==> g.marks[t].fi + 1 == |g.l.chain|
    ensures Knows(DeqNextStep(s, t), Says(g, t, SawEmpty(t)), t)
  {
    SinceStep(g.log, SawEmpty(t), t);
  }

  lemma DeqNextEmptyKeeps(s: State, g: History, s': State, g': History, t: nat)
    requires Inv(s, g) && t < |s.loc| && s.loc[t].pc.DeqNext? && Next(s.h, s.loc[t].first) == NULL
    requires s' == DeqNextStep(s, t) && g' == Says(g, t, SawEmpty(t))
    ensures Inv(s', g') && Grows(g.l, g'.l)
  {
    assert Knows(s, g, t);
    ReadNext(s.h, g.l, |s.loc|, g.marks[t].base, g.marks[t].fi);
    DeqNextEmptyKnows(s, g, t);
    QuietAfter(s, g, s', g', t, SawEmpty(t));
  }

  lemma DeqNextNodeKnows(s: State, g: History, t: nat)
    requires NoteSized(s, g) && t < |s.loc| && s.loc[t].pc.DeqNext? && Next(s.h, s.loc[t].first) != NULL
    requires Knows(s, g, t)
    requires g.l.ti < |g.l.chain|
    requires Next(s.h, s.loc[t].first) == After(g.l.chain, g.marks[t].fi)
    requires Next(s.h, s.loc[t].first) == NULL <==> g.marks[t].fi + 1 == |g.l.chain|
    ensures Knows(DeqNextStep(s, t), Says(g, t, Internal(t)), t)
  {
    SinceInternal(g.log, t);
  }

  lemma DeqNextNodeKeeps(s: State, g: History, s': State, g': History, t: nat)
    requires Inv(s, g) && t < |s.loc| && s.loc[t].pc.DeqNext? && Next(s.h, s.loc[t].first) != NULL
    requires s' == DeqNextStep(s, t) && g' == Says(g, t, Internal(t))
    ensures Inv(s', g') && Grows(g.l, g'.l)
  {
    assert Knows(s, g, t);
    ReadNext(s.h, g.l, |s.loc|, g.marks[t].base, g.marks[t].fi);
    DeqNextNodeKnows(s, g, t);
    QuietAfter(s, g, s', g', t, Internal(t));
  }

  lemma DeqCheckBackKnows(s: State, g: History, s': State, g': History, t: nat)
    requires NoteSized(s, g) && t < |s.loc| && s.loc[t].pc.DeqCheck? && Knows(s, g, t)
    requires s' == DeqCheckStep(s, t) && g' == Marked(g, t, TryMark(g.marks[t], s'.loc[t].pc, false))
    requires g.l.hi <= g.l.ti < |g.l.chain| && s.h.head == g.l.chain[g.l.hi] != s.loc[t].first
    ensures Knows(s', g', t)
  {
    assert g.marks[t].fi < g.l.hi;
    SinceInternal(g.log, t);
  }

  lemma DeqCheckOnKnows(s: State, g: History, s': State, g': History, t: nat)
    requires NoteSized(s, g) && t < |s.loc| && s.loc[t].pc.DeqCheck? && Knows(s, g, t)
    requires s' == DeqCheckStep(s, t) && g' == Marked(g, t, TryMark(g.marks[t], s'.loc[t].pc, false))
    requires s.h.head == s.loc[t].first
    requires s.loc[t].first == s.loc[t].last <==> g.marks[t].fi == g.marks[t].li
    ensures Knows(s', g', t)
  {
    SinceInternal(g.log, t);
  }

  lemma DeqCheckKnows(s: State, g: History, s': State, g': History, t: nat)
    requires NoteSized(s, g) && t < |s.loc| && s.loc[t].pc.DeqCheck? && Knows(s, g, t)
    requires s' == DeqCheckStep(s, t) && g' == Marked(g, t, TryMark(g.marks[t], s'.loc[t].pc, false))
    requires g.l.hi <= g.l.ti < |g.l.chain| && s.h.head == g.l.chain[g.l.hi]
    requires s.loc[t].first == s.loc[t].last <==> g.marks[t].fi == g.marks[t].li
    ensures Knows(s', g', t)
  {
    if s.loc[t].first != s.h.head { DeqCheckBackKnows(s, g, s', g', t); } else { DeqCheckOnKnows(s, g, s', g', t); }
  }

  lemma DeqCheckKeeps(s: State, g: History, s': State, g': History, t: nat)
    requires Inv(s, g) && t < |s.loc| && s.loc[t].pc.DeqCheck?
    requires s' == DeqCheckStep(s, t) && g' == Marked(g, t, TryMark(g.marks[t], s'.loc[t].pc, false))
    ensures Inv(s', g') && Grows(g.l, g'.l)
  {
    assert Knows(s, g, t);
    SameNode(s.h, g.l, |s.loc|, g.marks[t].base, g.marks[t].fi, g.marks[t].li);
    DeqCheckKnows(s, g, s', g', t);
    QuietAfter(s, g, s', g', t, Internal(t));
  }

  lemma DeqDataKnows(s: State, g: History, t: nat)
    requires NoteSized(s, g) && t < |s.loc| && s.loc[t].pc.DeqData? && Knows(s, g, t)
    requires |g.l.vals| == |g.l.chain| && Data(s.h, s.loc[t].next) == g.l.vals[g.marks[t].fi + 1]
    ensures Knows(DeqDataStep(s, t), Says(g, t, Internal(t)), t)
  {
    SinceInternal(g.log, t);
  }

  lemma DeqDataKeeps(s: State, g: History, s': State, g': History, t: nat)
    requires Inv(s, g) && t < |s.loc| && s.loc[t].pc.DeqData?
    requires s' == DeqDataStep(s, t) && g' == Says(g, t, Internal(t))
    ensures Inv(s', g') && Grows(g.l, g'.l)
  {
    assert Knows(s, g, t);
    assert HasFirst(g.l, g.marks[t], s.loc[t]) && HasNext(g.l, g.marks[t].fi, s.loc[t].next);
    ReadNext(s.h, g.l, |s.loc|, g.marks[t].base, g.marks[t].fi + 1);
    DeqDataKnows(s, g, t);
    QuietAfter(s, g, s', g', t, Internal(t));
  }

  lemma DeqAdvanceWonKnows(s: State, g: History, t: nat, c: Choice)
    requires NoteSized(s, g) && t < |s.loc| && s.loc[t].pc.DeqAdvance? && CasOk(s.h.head, s.loc[t].first, c)
    requires Knows(s, g, t)
    requires g.l.hi == g.marks[t].fi && g.l.hi < |g.l.stage| == |g.l.chain|
    ensures Knows(DeqAdvanceStep(s, t, c), AdvanceNote(s, g, t), t)
  {
    var s', g' := DeqAdvanceStep(s, t, c), AdvanceNote(s, g, t);
    SinceStep(g.log, Remove(t, s.loc[t].val), t);
    var q := Since(g'.log, t);
    assert q[..|q| - 1] == Since(g.log, t);
    assert Fulfils(q, t, 1, s.loc[t].val);
  }

  lemma DeqAdvanceWonWrites(s: State, g: History, t: nat, c: Choice)
    requires Inv(s, g) && t < |s.loc| && s.loc[t].pc.DeqAdvance? && CasOk(s.h.head, s.loc[t].first, c)
    ensures GoodWrite(s, g, DeqAdvanceStep(s, t, c), AdvanceNote(s, g, t), t, Remove(t, s.loc[t].val))
  {
    var s', g' := DeqAdvanceStep(s, t, c), AdvanceNote(s, g, t);
    assert Knows(s, g, t);
    SameNode(s.h, g.l, |s.loc|, g.marks[t].base, g.marks[t].fi, g.l.hi);
    MoveHeadKeepsPool(s.h, g.l, |s.loc|, t);
    assert Queue(g.l)[1..] == Queue(g'.l);
    StillReserved(s, g, g'.l);
  }

  lemma DeqAdvanceWonKeeps(s: State, g: History, s': State, g': History, t: nat, c: Choice)
    requires Inv(s, g) && t < |s.loc| && s.loc[t].pc.DeqAdvance? && CasOk(s.h.head, s.loc[t].first, c)
    requires s' == DeqAdvanceStep(s, t, c) && g' == AdvanceNote(s, g, t)
    ensures Inv(s', g') && Grows(g.l, g'.l)
  {
    assert Knows(s, g, t);
    DeqAdvanceWonWrites(s, g, t, c);
    SameNode(s.h, g.l, |s.loc|, g.marks[t].base, g.marks[t].fi, g.l.hi);
    DeqAdvanceWonKnows(s, g, t, c);
    WriteAfter(s, g, s', g', t, Remove(t, s.loc[t].val));
  }

  lemma DeqAdvanceLostKnows(s: State, g: History, t: nat, c: Choice)
    requires NoteSized(s, g) && t < |s.loc| && s.loc[t].pc.DeqAdvance? && !CasOk(s.h.head, s.loc[t].first, c)
    requires Knows(s, g, t)
    requires g.l.hi <= g.l.ti < |g.l.chain| && s.h.head == g.l.chain[g.l.hi]
    ensures Knows(DeqAdvanceStep(s, t, c), Again(g, t, DeqHead, c.spurious && s.h.head == s.loc[t].first), t)
  {
    assert s.h.head != s.loc[t].first ==> g.marks[t].fi < g.l.hi;
    SinceInternal(g.log, t);
  }

  lemma DeqAdvanceLostKeeps(s: State, g: History, s': State, g': History, t: nat, c: Choice)
    requires Inv(s, g) && t < |s.loc| && s.loc[t].pc.DeqAdvance? && !CasOk(s.h.head, s.loc[t].first, c)
    requires s' == DeqAdvanceStep(s, t, c) && g' == Again(g, t, DeqHead, c.spurious && s.h.head == s.loc[t].first)
    ensures Inv(s', g') && Grows(g.l, g'.l)
  {
    assert Knows(s, g, t);
    DeqAdvanceLostKnows(s, g, t, c);
    QuietAfter(s, g, s', g', t, Internal(t));
  }

  lemma DeqRetireKnows(s: State, g: History, t: nat)
    requires NoteSized(s, g) && t < |s.loc| && s.loc[t].pc.DeqRetire? && Knows(s, g, t)
    ensures Knows(DeqRetireStep(s, t), Says(g, t, Internal(t)), t)
  {
    SinceInternal(g.log, t);
  }

  lemma DeqRetireKeeps(s: State, g: History, s': State, g': History, t: nat)
    requires Inv(s, g) && t < |s.loc| && s.loc[t].pc.DeqRetire?
    requires s' == DeqRetireStep(s, t) && g' == Says(g, t, Internal(t))
    ensures Inv(s', g') && Grows(g.l, g'.l)
  {
    assert Knows(s, g, t);
    DeqRetireKnows(s, g, t);
    QuietAfter(s, g, s', g', t, Internal(t));
  }

  lemma OpEndReturnKnows(s: State, g: History, t: nat)
    requires NoteSized(s, g) && t < |s.loc| && s.loc[t].pc.OpEnd? && s.retiredCount[t] == 0 && Knows(s, g, t)
    ensures Knows(OpEndStep(s, t), Says(g, t, Return(t, s.loc[t].code, s.loc[t].val)), t)
  {
    SinceStep(g.log, Return(t, s.loc[t].code, s.loc[t].val), t);
  }

  lemma OpEndReturnKeeps(s: State, g: History, s': State, g': History, t: nat)
    requires Inv(s, g) && t < |s.loc| && s.loc[t].pc.OpEnd? && s.retiredCount[t] == 0
    requires s' == OpEndStep(s, t) && g' == Says(g, t, Return(t, s.loc[t].code, s.loc[t].val))
    ensures Inv(s', g') && Grows(g.l, g'.l)
  {
    assert Knows(s, g, t);
    OpEndReturnKnows(s, g, t);
    QuietAfter(s, g, s', g', t, Return(t, s.loc[t].code, s.loc[t].val));
  }

  lemma OpEndWaitKnows(s: State, g: History, t: nat)
    requires NoteSized(s, g) && t < |s.loc| && s.loc[t].pc.OpEnd? && s.retiredCount[t] != 0 && Knows(s, g, t)
    ensures Knows(OpEndStep(s, t), Says(g, t, Internal(t)), t)
  {
    SinceInternal(g.log, t);
  }

  lemma OpEndWaitKeeps(s: State, g: History, s': State, g': History, t: nat)
    requires Inv(s, g) && t < |s.loc| && s.loc[t].pc.OpEnd? && s.retiredCount[t] != 0
    requires s' == OpEndStep(s, t) && g' == Says(g, t, Internal(t))
    ensures Inv(s', g') && Grows(g.l, g'.l)
  {
    assert Knows(s, g, t);
    OpEndWaitKnows(s, g, t);
    QuietAfter(s, g, s', g', t, Internal(t));
  }

  /** The waiting thread has nothing to wait for from the next thread. */
  predicate Skips(s: State, t: nat)
    requires Thread(s, t)
  {
    var x := s.loc[t];
    x.i < |s.ctr| && (x.i == t || !Odd(s.ctr[x.i]))
  }

  lemma WaitLoadDoneKnows(s: State, g: History, t: nat)
    requires NoteSized(s, g) && t < |s.loc| && s.loc[t].pc.WaitLoad? && s.loc[t].i >= |s.ctr| && Knows(s, g, t)
    ensures Knows(WaitLoadStep(s, t), Says(g, t, Internal(t)), t)
  {
    var s', g' := WaitLoadStep(s, t), Says(g, t, Internal(t));
    SinceInternal(g.log, t);
    ClearedKept(s, g, s', g', t, s.loc[t].i);
  }

  lemma WaitLoadDoneKeeps(s: State, g: History, s': State, g': History, t: nat)
    requires Inv(s, g) && t < |s.loc| && s.loc[t].pc.WaitLoad? && s.loc[t].i >= |s.ctr|
    requires s' == WaitLoadStep(s, t) && g' == Says(g, t, Internal(t))
    ensures Inv(s', g') && Grows(g.l, g'.l)
  {
    assert Knows(s, g, t);
    WaitLoadDoneKnows(s, g, t);
    QuietAfter(s, g, s', g', t, Internal(t));
  }

  lemma WaitLoadSkipKnows(s: State, g: History, t: nat)
    requires NoteSized(s, g) && t < |s.loc| && s.loc[t].pc.WaitLoad? && Skips(s, t) && Knows(s, g, t)
    requires s.loc[t].i == t || !InOp(s.loc[s.loc[t].i].pc)
    ensures Knows(WaitLoadStep(s, t), Says(g, t, Internal(t)), t)
  {
    var s', g' := WaitLoadStep(s, t), Says(g, t, Internal(t));
    SinceInternal(g.log, t);
    ClearedOneMore(s, g, t, s.loc[t].i);
    ClearedKept(s, g, s', g', t, s.loc[t].i + 1);
  }

  lemma WaitLoadSkipKnowsIn(s: State, g: History, t: nat)
    requires Inv(s, g) && t < |s.loc| && s.loc[t].pc.WaitLoad? && Skips(s, t)
    ensures Knows(WaitLoadStep(s, t), Says(g, t, Internal(t)), t)
  {
    assert Knows(s, g, t);
    if s.loc[t].i != t { EvenIsOutside(s, g, s.loc[t].i); }
    WaitLoadSkipKnows(s, g, t);
  }

  lemma WaitLoadSkipKeeps(s: State, g: History, s': State, g': History, t: nat)
    requires Inv(s, g) && t < |s.loc| && s.loc[t].pc.WaitLoad? && Skips(s, t)
    requires s' == WaitLoadStep(s, t) && g' == Says(g, t, Internal(t))
    ensures Inv(s', g') && Grows(g.l, g'.l)
  {
    WaitLoadSkipKnowsIn(s, g, t);
    QuietAfter(s, g, s', g', t, Internal(t));
  }

  lemma WaitLoadSpinKnows(s: State, g: History, t: nat)
    requires NoteSized(s, g) && t < |s.loc| && s.loc[t].pc.WaitLoad? && s.loc[t].i < |s.ctr| && !Skips(s, t)
    requires Knows(s, g, t)
    ensures Knows(WaitLoadStep(s, t), Says(g, t, Internal(t)), t)
  {
    var s', g' := WaitLoadStep(s, t), Says(g, t, Internal(t));
    SinceInternal(g.log, t);
    ClearedKept(s, g, s', g', t, s.loc[t].i);
  }

  lemma WaitLoadSpinKeeps(s: State, g: History, s': State, g': History, t: nat)
    requires Inv(s, g) && t < |s.loc| && s.loc[t].pc.WaitLoad? && s.loc[t].i < |s.ctr| && !Skips(s, t)
    requires s' == WaitLoadStep(s, t) && g' == Says(g, t, Internal(t))
    ensures Inv(s', g') && Grows(g.l, g'.l)
  {
    assert Knows(s, g, t);
    WaitLoadSpinKnows(s, g, t);
    QuietAfter(s, g, s', g', t, Internal(t));
  }

  lemma WaitSpinStayKnows(s: State, g: History, t: nat)
    requires NoteSized(s, g) && t < |s.loc| && Blocked(s, t) && Knows(s, g, t)
    ensures Knows(WaitSpinStep(s, t), Says(g, t, Internal(t)), t)
  {
    var s', g' := WaitSpinStep(s, t), Says(g, t, Internal(t));
    SinceInternal(g.log, t);
    ClearedKept(s, g, s', g', t, s.loc[t].i);
  }

  lemma WaitSpinStayKeeps(s: State, g: History, s': State, g': History, t: nat)
    requires Inv(s, g) && t < |s.loc| && Blocked(s, t)
    requires s' == WaitSpinStep(s, t) && g' == Says(g, t, Internal(t))
    ensures Inv(s', g') && Grows(g.l, g'.l)
  {
    assert Knows(s, g, t);
    WaitSpinStayKnows(s, g, t);
    QuietAfter(s, g, s', g', t, Internal(t));
  }

  lemma WaitSpinGoKnows(s: State, g: History, t: nat)
    requires NoteSized(s, g) && t < |s.loc| && s.loc[t].pc.WaitSpin? && !Blocked(s, t) && Knows(s, g, t)
    ensures Knows(WaitSpinStep(s, t), Says(g, t, Internal(t)), t)
  {
    var s', g' := WaitSpinStep(s, t), Says(g, t, Internal(t));
    SinceInternal(g.log, t);
    ClearedOneMore(s, g, t, s.loc[t].i);
    ClearedKept(s, g, s', g', t, s.loc[t].i + 1);
  }

  lemma WaitSpinGoKeeps(s: State, g: History, s': State, g': History, t: nat)
    requires Inv(s, g) && t < |s.loc| && s.loc[t].pc.WaitSpin? && !Blocked(s, t)
    requires s' == WaitSpinStep(s, t) && g' == Says(g, t, Internal(t))
    ensures Inv(s', g') && Grows(g.l, g'.l)
  {
    assert Knows(s, g, t);
    WaitSpinGoKnows(s, g, t);
    QuietAfter(s, g, s', g', t, Internal(t));
  }

  lemma DetachKnows(s: State, g: History, t: nat)
    requires NoteSized(s, g) && t < |s.loc| && s.loc[t].pc.Detach? && Knows(s, g, t)
    ensures Knows(DetachStep(s, t), Says(g, t, Internal(t)), t)
  {
    var s', g' := DetachStep(s, t), Says(g, t, Internal(t));
    SinceInternal(g.log, t);
    ClearedKept(s, g, s', g', t, |s.loc|);
  }

  lemma DetachKeeps(s: State, g: History, s': State, g': History, t: nat)
    requires Inv(s, g) && t < |s.loc| && s.loc[t].pc.Detach?
    requires s' == DetachStep(s, t) && g' == Says(g, t, Internal(t))
    ensures Inv(s', g') && Grows(g.l, g'.l)
  {
    assert Knows(s, g, t);
    DetachKnows(s, g, t);
    QuietAfter(s, g, s', g', t, Internal(t));
  }

  lemma RecycleReturnKnows(s: State, g: History, t: nat)
    requires NoteSized(s, g) && t < |s.loc| && s.loc[t].pc.Recycle? && |s.loc[t].todo| == 0 && Knows(s, g, t)
    ensures Knows(RecycleStep(s, t), Says(g, t, Return(t, s.loc[t].code, s.loc[t].val)), t)
  {
    SinceStep(g.log, Return(t, s.loc[t].code, s.loc[t].val), t);
  }

  lemma RecycleReturnKeeps(s: State, g: History, s': State, g': History, t: nat)
    requires Inv(s, g) && t < |s.loc| && s.loc[t].pc.Recycle? && |s.loc[t].todo| == 0
    requires s' == RecycleStep(s, t) && g' == Says(g, t, Return(t, s.loc[t].code, s.loc[t].val))
    ensures Inv(s', g') && Grows(g.l, g'.l)
  {
    assert Knows(s, g, t);
    RecycleReturnKnows(s, g, t);
    QuietAfter(s, g, s', g', t, Return(t, s.loc[t].code, s.loc[t].val));
  }

  lemma RecycleNodeKnows(s: State, g: History, t: nat)
    requires NoteSized(s, g) && t < |s.loc| && s.loc[t].pc.Recycle? && |s.loc[t].todo| > 0 && Knows(s, g, t)
    requires |g.l.stage| == |g.l.chain| && 0 <= s.loc[t].todo[0] < |g.l.own| && Allocated(s.h, s.loc[t].todo[0])
    ensures Knows(RecycleStep(s, t), Wrote(g, t, NoteClaim(g.l, t)), t)
  {
    SinceInternal(g.log, t);
  }

  lemma RecyclePool(h: Heap, l: Ledger, n: nat, t: nat)
    requires Pool(h, l, n) && t < n && l.taken[t] != -1 && l.hand[t] == NULL
    ensures 0 <= l.taken[t] < |l.chain| && TakenAt(l, t) && LinkedAt(h, l, l.taken[t])
    ensures Pool(SetNext(h, l.chain[l.taken[t]], h.freeHead[t]), NoteClaim(l, t), n)
  {
    ClaimKeepsPool(h, l, n, t);
    WriteNextKeepsPool(h, NoteClaim(l, t), n, t, h.freeHead[t]);
    assert TakenAt(l, t) && LinkedAt(h, l, l.taken[t]);
  }

  lemma RecycleHeld(s: State, g: History, t: nat)
    requires NoteSized(s, g) && Pool(s.h, g.l, |s.loc|) && t < |s.loc| && |s.loc[t].todo| > 0
    requires 0 <= g.l.taken[t] < |g.l.chain| && s.loc[t].todo[0] == g.l.chain[g.l.taken[t]]
    ensures var s', g' := RecycleStep(s, t), Wrote(g, t, NoteClaim(g.l, t));
            forall u: nat | u < |s.loc| && u != t :: LeavesHeld(s, g, s', g', u)
  {
    assert TakenAt(g.l, t) && LinkedAt(s.h, g.l, g.l.taken[t]);
    forall u: nat | u < |s.loc| && u != t
      ensures LeavesHeld(s, g, RecycleStep(s, t), Wrote(g, t, NoteClaim(g.l, t)), u)
    {
      assert HandAt(g.l, u);
    }
  }

  /** The position given up is older than every operation in progress. */
  lemma RecycleReserved(s: State, g: History, t: nat)
    requires Inv(s, g) && t < |s.loc| && Cleared(s, g, t, |s.loc|)
    requires 0 <= g.l.taken[t] < |g.l.chain| && g.l.taken[t] == g.marks[t].fi
    ensures forall u: nat | u < |s.loc| && u != t && InOp(s.loc[u].pc) :: Reserved(NoteClaim(g.l, t), g.marks[u].base)
  {
    forall u: nat | u < |s.loc| && u != t && InOp(s.loc[u].pc) ensures Reserved(NoteClaim(g.l, t), g.marks[u].base) {
      assert Knows(s, g, u) && Past(s, g, u, g.marks[t].fi);
    }
  }

  lemma RecycleNodeWrites(s: State, g: History, t: nat)
    requires Inv(s, g) && t < |s.loc| && s.loc[t].pc.Recycle? && |s.loc[t].todo| > 0
    ensures GoodWrite(s, g, RecycleStep(s, t), Wrote(g, t, NoteClaim(g.l, t)), t, Internal(t))
  {
    var s', g' := RecycleStep(s, t), Wrote(g, t, NoteClaim(g.l, t));
    assert Knows(s, g, t);
    RecyclePool(s.h, g.l, |s.loc|, t);
    RecycleHeld(s, g, t);
    RecycleReserved(s, g, t);
  }

  lemma RecycleNodeKeeps(s: State, g: History, s': State, g': History, t: nat)
    requires Inv(s, g) && t < |s.loc| && s.loc[t].pc.Recycle? && |s.loc[t].todo| > 0
    requires s' == RecycleStep(s, t) && g' == Wrote(g, t, NoteClaim(g.l, t))
    ensures Inv(s', g') && Grows(g.l, g'.l)
  {
    assert Knows(s, g, t);
    RecycleNodeWrites(s, g, t);
    assert LinkedAt(s.h, g.l, g.marks[t].fi) && TakenAt(g.l, t);
    RecycleNodeKnows(s, g, t);
    WriteAfter(s, g, s', g', t, Internal(t));
  }

  lemma PushFreeKnows(s: State, g: History, t: nat)
    requires NoteSized(s, g) && t < |s.loc| && s.loc[t].pc.PushFree? && Knows(s, g, t)
    requires 0 <= s.loc[t].todo[0] < |g.l.own|
    ensures Knows(PushFreeStep(s, t), Wrote(g, t, NotePush(g.l, t)), t)
  {
    SinceInternal(g.log, t);
  }

  lemma PushFreeWrites(s: State, g: History, t: nat)
    requires Inv(s, g) && t < |s.loc| && s.loc[t].pc.PushFree?
    ensures GoodWrite(s, g, PushFreeStep(s, t), Wrote(g, t, NotePush(g.l, t)), t, Internal(t))
  {
    var s', g' := PushFreeStep(s, t), Wrote(g, t, NotePush(g.l, t));
    assert Knows(s, g, t);
    PushKeepsPool(s.h, g.l, |s.loc|, t);
    assert HandAt(g.l, t);
    forall u: nat | u < |s.loc| && u != t ensures LeavesHeld(s, g, s', g', u) {
      assert HandAt(g.l, u);
    }
    StillReserved(s, g, g'.l);
  }

  lemma PushFreeKeeps(s: State, g: History, s': State, g': History, t: nat)
    requires Inv(s, g) && t < |s.loc| && s.loc[t].pc.PushFree?
    requires s' == PushFreeStep(s, t) && g' == Wrote(g, t, NotePush(g.l, t))
    ensures Inv(s', g') && Grows(g.l, g'.l)
  {
    assert Knows(s, g, t);
    PushFreeWrites(s, g, t);
    assert HandAt(g.l, t);
    PushFreeKnows(s, g, t);
    WriteAfter(s, g, s', g', t, Internal(t));
  }

  // ---- every step -----------------------------------------------------------------------------

  lemma EnqPrepareKeeps(s: State, g: History, t: nat, c: Choice)
    requires Inv(s, g) && t < |s.loc|
    requires var pc := s.loc[t].pc; pc.EnqBegin? || pc.EnqTake? || pc.EnqData? || pc.EnqClear?
    ensures Inv(Step(s, t, c), Note(s, g, t, c)) && Grows(g.l, Note(s, g, t, c).l)
  {
    match s.loc[t].pc
    case EnqBegin => EnqBeginKeeps(s, g, Step(s, t, c), Note(s, g, t, c), t);
    case EnqTake => EnqTakeKeeps(s, g, Step(s, t, c), Note(s, g, t, c), t);
    case EnqData => EnqDataKeeps(s, g, Step(s, t, c), Note(s, g, t, c), t);
    case EnqClear => EnqClearKeeps(s, g, Step(s, t, c), Note(s, g, t, c), t);
  }

  lemma EnqReadKeeps(s: State, g: History, t: nat, c: Choice)
    requires Inv(s, g) && t < |s.loc|
    requires var pc := s.loc[t].pc; pc.EnqTail? || pc.EnqNext? || pc.EnqCheck?
    ensures Inv(Step(s, t, c), Note(s, g, t, c)) && Grows(g.l, Note(s, g, t, c).l)
  {
    match s.loc[t].pc
    case EnqTail => EnqTailKeeps(s, g, Step(s, t, c), Note(s, g, t, c), t);
    case EnqNext => EnqNextKeeps(s, g, Step(s, t, c), Note(s, g, t, c), t);
    case EnqCheck => EnqCheckKeeps(s, g, Step(s, t, c), Note(s, g, t, c), t);
  }

  lemma EnqLinkKeeps(s: State, g: History, t: nat, c: Choice)
    requires Inv(s, g) && t < |s.loc| && s.loc[t].pc.EnqLink?
    ensures Inv(Step(s, t, c), Note(s, g, t, c)) && Grows(g.l, Note(s, g, t, c).l)
  {
    if CasOk(Next(s.h, s.loc[t].last), NULL, c) {
      EnqLinkWonKeeps(s, g, Step(s, t, c), Note(s, g, t, c), t, c);
    } else {
      EnqLinkLostKeeps(s, g, Step(s, t, c), Note(s, g, t, c), t, c);
    }
  }

  lemma EnqSwingKeeps(s: State, g: History, t: nat, c: Choice)
    requires Inv(s, g) && t < |s.loc| && s.loc[t].pc.EnqSwing?
    ensures Inv(Step(s, t, c), Note(s, g, t, c)) && Grows(g.l, Note(s, g, t, c).l)
  {
    if CasOk(s.h.tail, s.loc[t].last, c) {
      EnqSwingWonKeeps(s, g, Step(s, t, c), Note(s, g, t, c), t, c);
    } else {
      EnqSwingLostKeeps(s, g, Step(s, t, c), Note(s, g, t, c), t, c);
    }
  }

  lemma EnqHelpKeeps(s: State, g: History, t: nat, c: Choice)
    requires Inv(s, g) && t < |s.loc| && s.loc[t].pc.EnqHelp?
    ensures Inv(Step(s, t, c), Note(s, g, t, c)) && Grows(g.l, Note(s, g, t, c).l)
  {
    if CasOk(s.h.tail, s.loc[t].last, c) {
      EnqHelpWonKeeps(s, g, Step(s, t, c), Note(s, g, t, c), t, c);
    } else {
      EnqHelpLostKeeps(s, g, Step(s, t, c), Note(s, g, t, c), t, c);
    }
  }

  lemma DeqReadKeeps(s: State, g: History, t: nat, c: Choice)
    requires Inv(s, g) && t < |s.loc|
    requires var pc := s.loc[t].pc; pc.DeqBegin? || pc.DeqHead? || pc.DeqTail? || pc.DeqNext?
    ensures Inv(Step(s, t, c), Note(s, g, t, c)) && Grows(g.l, Note(s, g, t, c).l)
  {
    match s.loc[t].pc
    case DeqBegin => DeqBeginKeeps(s, g, Step(s, t, c), Note(s, g, t, c), t);
    case DeqHead => DeqHeadKeeps(s, g, Step(s, t, c), Note(s, g, t, c), t);
    case DeqTail => DeqTailKeeps(s, g, Step(s, t, c), Note(s, g, t, c), t);
    case DeqNext =>
      if Next(s.h, s.loc[t].first) == NULL {
        DeqNextEmptyKeeps(s, g, Step(s, t, c), Note(s, g, t, c), t);
      } else {
        DeqNextNodeKeeps(s, g, Step(s, t, c), Note(s, g, t, c), t);
      }
  }

  lemma DeqTestKeeps(s: State, g: History, t: nat, c: Choice)
    requires Inv(s, g) && t < |s.loc|
    requires var pc := s.loc[t].pc; pc.DeqCheck? || pc.DeqData? || pc.DeqRetire?
    ensures Inv(Step(s, t, c), Note(s, g, t, c)) && Grows(g.l, Note(s, g, t, c).l)
  {
    match s.loc[t].pc
    case DeqCheck => DeqCheckKeeps(s, g, Step(s, t, c), Note(s, g, t, c), t);
    case DeqData => DeqDataKeeps(s, g, Step(s, t, c), Note(s, g, t, c), t);
    case DeqRetire => DeqRetireKeeps(s, g, Step(s, t, c), Note(s, g, t, c), t);
  }

  lemma DeqHelpKeeps(s: State, g: History, t: nat, c: Choice)
    requires Inv(s, g) && t < |s.loc| && s.loc[t].pc.DeqHelp?
    ensures Inv(Step(s, t, c), Note(s, g, t, c)) && Grows(g.l, Note(s, g, t, c).l)
  {
    if CasOk(s.h.tail, s.loc[t].last, c) {
      DeqHelpWonKeeps(s, g, Step(s, t, c), Note(s, g, t, c), t, c);
    } else {
      DeqHelpLostKeeps(s, g, Step(s, t, c), Note(s, g, t, c), t, c);
    }
  }

  lemma DeqAdvanceKeeps(s: State, g: History, t: nat, c: Choice)
    requires Inv(s, g) && t < |s.loc| && s.loc[t].pc.DeqAdvance?
    ensures Inv(Step(s, t, c), Note(s, g, t, c)) && Grows(g.l, Note(s, g, t, c).l)
  {
    if CasOk(s.h.head, s.loc[t].first, c) {
      DeqAdvanceWonKeeps(s, g, Step(s, t, c), Note(s, g, t, c), t, c);
    } else {
      DeqAdvanceLostKeeps(s, g, Step(s, t, c), Note(s, g, t, c), t, c);
    }
  }

  lemma EndKeeps(s: State, g: History, t: nat, c: Choice)
    requires Inv(s, g) && t < |s.loc|
    requires var pc := s.loc[t].pc; pc.Idle? || pc.OpEnd?
    ensures Inv(Step(s, t, c), Note(s, g, t, c)) && Grows(g.l, Note(s, g, t, c).l)
  {
    match s.loc[t].pc
    case Idle => IdleKeeps(s, g, Step(s, t, c), Note(s, g, t, c), t, c);
    case OpEnd =>
      if s.retiredCount[t] == 0 {
        OpEndReturnKeeps(s, g, Step(s, t, c), Note(s, g, t, c), t);
      } else {
        OpEndWaitKeeps(s, g, Step(s, t, c), Note(s, g, t, c), t);
      }
  }

  lemma WaitLoadKeeps(s: State, g: History, t: nat, c: Choice)
    requires Inv(s, g) && t < |s.loc| && s.loc[t].pc.WaitLoad?
    ensures Inv(Step(s, t, c), Note(s, g, t, c)) && Grows(g.l, Note(s, g, t, c).l)
  {
    if s.loc[t].i >= |s.ctr| {
      WaitLoadDoneKeeps(s, g, Step(s, t, c), Note(s, g, t, c), t);
    } else if Skips(s, t) {
      WaitLoadSkipKeeps(s, g, Step(s, t, c), Note(s, g, t, c), t);
    } else {
      WaitLoadSpinKeeps(s, g, Step(s, t, c), Note(s, g, t, c), t);
    }
  }

  lemma WaitSpinKeeps(s: State, g: History, t: nat, c: Choice)
    requires Inv(s, g) && t < |s.loc| && s.loc[t].pc.WaitSpin?
    ensures Inv(Step(s, t, c), Note(s, g, t, c)) && Grows(g.l, Note(s, g, t, c).l)
  {
    if Blocked(s, t) {
      WaitSpinStayKeeps(s, g, Step(s, t, c), Note(s, g, t, c), t);
    } else {
      WaitSpinGoKeeps(s, g, Step(s, t, c), Note(s, g, t, c), t);
    }
  }

  lemma ReclaimKeeps(s: State, g: History, t: nat, c: Choice)
    requires Inv(s, g) && t < |s.loc|
    requires s.loc[t].pc.Detach? || s.loc[t].pc.Recycle?
    ensures Inv(Step(s, t, c), Note(s, g, t, c)) && Grows(g.l, Note(s, g, t, c).l)
  {
    match s.loc[t].pc
    case Detach => DetachKeeps(s, g, Step(s, t, c), Note(s, g, t, c), t);
    case Recycle =>
      if |s.loc[t].todo| == 0 {
        RecycleReturnKeeps(s, g, Step(s, t, c), Note(s, g, t, c), t);
      } else {
        RecycleNodeKeeps(s, g, Step(s, t, c), Note(s, g, t, c), t);
      }
  }

  lemma PushStepKeeps(s: State, g: History, t: nat, c: Choice)
    requires Inv(s, g) && t < |s.loc| && s.loc[t].pc.PushFree?
    ensures Inv(Step(s, t, c), Note(s, g, t, c)) && Grows(g.l, Note(s, g, t, c).l)
  {
    assert Knows(s, g, t);
    PushFreeKeeps(s, g, Step(s, t, c), Note(s, g, t, c), t);
  }

  /** Every step of every thread keeps the invariant, and the ledger only moves forward. */
  lemma StepKeepsInv(s: State, g: History, t: nat, c: Choice)
    requires Inv(s, g) && t < |s.loc|
    ensures Inv(Step(s, t, c), Note(s, g, t, c)) && Grows(g.l, Note(s, g, t, c).l)
  {
    match s.loc[t].pc
    case EnqBegin | EnqTake | EnqData | EnqClear => EnqPrepareKeeps(s, g, t, c);
    case EnqTail | EnqNext | EnqCheck => EnqReadKeeps(s, g, t, c);
    case EnqLink => EnqLinkKeeps(s, g, t, c);
    case EnqSwing => EnqSwingKeeps(s, g, t, c);
    case EnqHelp => EnqHelpKeeps(s, g, t, c);
    case DeqBegin | DeqHead | DeqTail | DeqNext => DeqReadKeeps(s, g, t, c);
    case DeqCheck | DeqData | DeqRetire => DeqTestKeeps(s, g, t, c);
    case DeqHelp => DeqHelpKeeps(s, g, t, c);
    case DeqAdvance => DeqAdvanceKeeps(s, g, t, c);
    case Idle | OpEnd => EndKeeps(s, g, t, c);
    case WaitLoad => WaitLoadKeeps(s, g, t, c);
    case WaitSpin => WaitSpinKeeps(s, g, t, c);
    case Detach | Recycle => ReclaimKeeps(s, g, t, c);
    case PushFree => PushStepKeeps(s, g, t, c);
  }
}
