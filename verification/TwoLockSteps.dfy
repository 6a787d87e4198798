/** Every step of every thread keeps the invariant of the two-lock queue, in either variant. */
module TwoLockSteps {
  import opened NodePool
  import opened Fifo
  import opened TwoLock
  import opened TwoLockInvariant

  // ---- putting a step together ---------------------------------------------------------------

  /** The step takes no lock that another thread holds and releases only its own. */
  predicate FairLocks(s: State, s': State, t: nat) {
    && (s'.enqLock == s.enqLock || (s.enqLock == FREE && s'.enqLock == t) || (s.enqLock == t && s'.enqLock == FREE))
    && (s'.deqLock == s.deqLock || (s.deqLock == FREE && s'.deqLock == t) || (s.deqLock == t && s'.deqLock == FREE))
  }

  predicate LeavesHeld(s: State, g: History, s': State, g': History, u: nat)
    requires NoteSized(s, g) && NoteSized(s', g') && u < |s.loc| == |s'.loc|
  {
    && g'.l.hand[u] == g.l.hand[u] && g'.l.taken[u] == g.l.taken[u]
    && s'.h.freeHead[u] == s.h.freeHead[u]
    && (g.l.hand[u] != NULL ==>
          && Data(s'.h, g.l.hand[u]) == Data(s.h, g.l.hand[u])
          && Next(s'.h, g.l.hand[u]) == Next(s.h, g.l.hand[u]))
  }

  predicate Stepped(s: State, g: History, s': State, g': History, t: nat, e: Event) {
    && NoteSized(s, g) && NoteSized(s', g') && OnlyThread(s, s', t) && FairLocks(s, s', t)
    && g'.log == g.log + [e] && e.t == t
    && Grows(g.l, g'.l)
    && (|g'.l.chain| == |g.l.chain| || s.enqLock == t)
    && ((g'.l.hi == g.l.hi && s'.h.head == s.h.head) || s.deqLock == t)
  }

  /** Length, tail and head still fit together. */
  predicate Fits(s: State, l: Ledger) {
    && |l.chain| == l.ti + (if Swinging(s) then 2 else 1)
    && (l.hi <= l.ti || Unsure(s))
  }

  /** Whether an enqueuer or a dequeuer is halfway depends on the lock holders alone. */
  lemma HalfwayKept(s: State, s': State, t: nat)
    requires OnlyThread(s, s', t) && s'.enqLock == s.enqLock && s'.deqLock == s.deqLock
    requires s'.loc[t].pc.EnqSwing? <==> s.loc[t].pc.EnqSwing?
    requires s'.loc[t].pc.DeqPeek? || s'.loc[t].pc.TailLock? <==> s.loc[t].pc.DeqPeek? || s.loc[t].pc.TailLock?
    ensures Swinging(s') == Swinging(s) && Unsure(s') == Unsure(s)
  {
  }

  lemma InvAfter(s: State, g: History, s': State, g': History, t: nat, e: Event, late: bool)
    requires Inv(s, g, late) && Stepped(s, g, s', g', t, e)
    requires Pool(s'.h, g'.l, |s.loc|) && Fits(s', g'.l)
    requires Apply(Some(Queue(g.l)), e) == Some(Queue(g'.l))
    requires e.Return? ==> Fulfils(Since(g.log, t), t, e.code, e.v)
    requires forall u: nat | u < |s.loc| && u != t :: LeavesHeld(s, g, s', g', u)
    requires Knows(s', g', t, late)
    ensures Inv(s', g', late)
  {
    ReplayStep(g.log, e);
    FulfilledStep(g.log, e);
    forall u: nat | u < |s.loc| ensures Knows(s', g', u, late) {
      if u != t {
        assert Knows(s, g, u, late);
        SinceStep(g.log, e, u);
        assert LeavesHeld(s, g, s', g', u);
        KnowsSteady(s, g, s', g', u, late);
      }
    }
  }

  // ---- one lemma per access ------------------------------------------------------------------

  lemma CallBegins(log: seq<Event>, t: nat, call: Call)
    requires Since(log, t) == []
    ensures Since(log + [Invoke(t, call)], t) == [Invoke(t, call)]
    ensures call.Deq? ==> Searching(Since(log + [Invoke(t, call)], t), t)
  {
    SinceStep(log, Invoke(t, call), t);
  }

  lemma IdleKnows(s: State, g: History, t: nat, c: Choice, late: bool)
    requires NoteSized(s, g) && t < |s.loc| && s.loc[t].pc.Idle?
    requires KnowsLocks(s, t, late) && Clean(g.l, t) && Since(g.log, t) == []
    ensures Knows(CallStep(s, t, c), History(g.l, g.log + [Invoke(t, c.call)]), t, late)
  {
    CallBegins(g.log, t, c.call);
    var s' := CallStep(s, t, c);
    assert KnowsLocks(s', t, late);
  }

  lemma EnqLockKnows(s: State, g: History, t: nat, c: Choice, late: bool)
    requires NoteSized(s, g) && t < |s.loc| && s.loc[t].pc.EnqLock? && Knows(s, g, t, late)
    requires NoteSized(Step(s, t, c, late), Note(s, g, t, c, late))
    ensures Knows(Step(s, t, c, late), Note(s, g, t, c, late), t, late)
  {
    SinceStep(g.log, Emit(s, t, c, late), t);
  }

  lemma EnqTakeKnows(s: State, g: History, t: nat, c: Choice, late: bool)
    requires NoteSized(s, g) && t < |s.loc| && s.loc[t].pc.EnqTake? && Knows(s, g, t, late)
    requires NoteSized(Step(s, t, c, late), Note(s, g, t, c, late))
    requires (s.h.freeHead[t] == NULL && c.noMemory) || Note(s, g, t, c, late).l.hand[t] == TakenNode(s.h, t) != NULL
    requires Note(s, g, t, c, late).l.taken[t] == g.l.taken[t]
    ensures Knows(Step(s, t, c, late), Note(s, g, t, c, late), t, late)
  {
    SinceStep(g.log, Emit(s, t, c, late), t);
  }

  lemma EnqDataKnows(s: State, g: History, t: nat, c: Choice, late: bool)
    requires NoteSized(s, g) && t < |s.loc| && s.loc[t].pc.EnqData? && Knows(s, g, t, late)
    requires NoteSized(Step(s, t, c, late), Note(s, g, t, c, late))
    requires Allocated(s.h, s.loc[t].node)
    ensures Knows(Step(s, t, c, late), Note(s, g, t, c, late), t, late)
  {
    SinceStep(g.log, Emit(s, t, c, late), t);
  }

  lemma EnqClearKnows(s: State, g: History, t: nat, c: Choice, late: bool)
    requires NoteSized(s, g) && t < |s.loc| && s.loc[t].pc.EnqClear? && Knows(s, g, t, late)
    requires NoteSized(Step(s, t, c, late), Note(s, g, t, c, late))
    requires Allocated(s.h, s.loc[t].node)
    ensures Knows(Step(s, t, c, late), Note(s, g, t, c, late), t, late)
  {
    SinceStep(g.log, Emit(s, t, c, late), t);
  }

  lemma EnqLinkKnows(s: State, g: History, t: nat, c: Choice, late: bool)
    requires NoteSized(s, g) && t < |s.loc| && s.loc[t].pc.EnqLink? && Knows(s, g, t, late)
    requires NoteSized(Step(s, t, c, late), Note(s, g, t, c, late))
    requires 0 <= g.l.hand[t] < |g.l.own|
    ensures Knows(Step(s, t, c, late), Note(s, g, t, c, late), t, late)
  {
    var s', g' := Step(s, t, c, late), Note(s, g, t, c, late);
    SinceStep(g.log, Emit(s, t, c, late), t);
    assert Since(g'.log, t) == [Invoke(t, Enq(s.loc[t].arg)), Append(t, s.loc[t].arg)];
  }

  lemma EnqSwingKnows(s: State, g: History, t: nat, c: Choice, late: bool)
    requires NoteSized(s, g) && t < |s.loc| && s.loc[t].pc.EnqSwing? && Knows(s, g, t, late)
    requires NoteSized(Step(s, t, c, late), Note(s, g, t, c, late))
    ensures Knows(Step(s, t, c, late), Note(s, g, t, c, late), t, late)
  {
    SinceStep(g.log, Emit(s, t, c, late), t);
  }

  lemma EnqUnlockKnows(s: State, g: History, t: nat, c: Choice, late: bool)
    requires NoteSized(s, g) && t < |s.loc| && s.loc[t].pc.EnqUnlock? && Knows(s, g, t, late)
    requires NoteSized(Step(s, t, c, late), Note(s, g, t, c, late))
    ensures Knows(Step(s, t, c, late), Note(s, g, t, c, late), t, late)
  {
    SinceStep(g.log, Emit(s, t, c, late), t);
  }

  lemma DeqLockKnows(s: State, g: History, t: nat, c: Choice, late: bool)
    requires NoteSized(s, g) && t < |s.loc| && s.loc[t].pc.DeqLock? && Knows(s, g, t, late)
    requires NoteSized(Step(s, t, c, late), Note(s, g, t, c, late))
    ensures Knows(Step(s, t, c, late), Note(s, g, t, c, late), t, late)
  {
    SinceStep(g.log, Emit(s, t, c, late), t);
  }

  lemma DeqHeadKnows(s: State, g: History, t: nat, c: Choice, late: bool)
    requires NoteSized(s, g) && t < |s.loc| && s.loc[t].pc.DeqHead? && Knows(s, g, t, late)
    requires NoteSized(Step(s, t, c, late), Note(s, g, t, c, late))
    ensures Knows(Step(s, t, c, late), Note(s, g, t, c, late), t, late)
  {
    SinceStep(g.log, Emit(s, t, c, late), t);
  }

  lemma DeqNextKnows(s: State, g: History, t: nat, c: Choice, late: bool)
    requires NoteSized(s, g) && t < |s.loc| && s.loc[t].pc.DeqNext? && Knows(s, g, t, late)
    requires NoteSized(Step(s, t, c, late), Note(s, g, t, c, late))
    requires Next(s.h, s.h.head) == After(g.l.chain, g.l.hi) && g.l.hi < |g.l.chain| && s.h.head == g.l.chain[g.l.hi]
    ensures Knows(Step(s, t, c, late), Note(s, g, t, c, late), t, late)
  {
    SinceStep(g.log, Emit(s, t, c, late), t);
    if Next(s.h, s.loc[t].first) == NULL { assert Searching(Since(g.log, t) + [SawEmpty(t)], t); }
  }

  lemma DeqTestKnows(s: State, g: History, t: nat, c: Choice, late: bool)
    requires NoteSized(s, g) && t < |s.loc| && s.loc[t].pc.DeqTest? && Knows(s, g, t, late)
    requires NoteSized(Step(s, t, c, late), Note(s, g, t, c, late))
    ensures Knows(Step(s, t, c, late), Note(s, g, t, c, late), t, late)
  {
    SinceStep(g.log, Emit(s, t, c, late), t);
  }

  lemma DeqDataKnows(s: State, g: History, t: nat, c: Choice, late: bool)
    requires NoteSized(s, g) && t < |s.loc| && s.loc[t].pc.DeqData? && Knows(s, g, t, late)
    requires NoteSized(Step(s, t, c, late), Note(s, g, t, c, late))
    requires |g.l.vals| == |g.l.chain| && Data(s.h, s.loc[t].next) == g.l.vals[g.l.hi + 1]
    ensures Knows(Step(s, t, c, late), Note(s, g, t, c, late), t, late)
  {
    SinceStep(g.log, Emit(s, t, c, late), t);
  }

  lemma DeqMoveKnows(s: State, g: History, t: nat, c: Choice, late: bool)
    requires NoteSized(s, g) && t < |s.loc| && s.loc[t].pc.DeqMove? && Knows(s, g, t, late)
    requires NoteSized(Step(s, t, c, late), Note(s, g, t, c, late))
    requires |g.l.stage| == |g.l.chain|
    ensures Knows(Step(s, t, c, late), Note(s, g, t, c, late), t, late)
  {
    var s', g' := Step(s, t, c, late), Note(s, g, t, c, late);
    SinceStep(g.log, Emit(s, t, c, late), t);
    var q := Since(g'.log, t);
    assert q[..|q| - 1] == Since(g.log, t);
  }

  lemma DeqPeekKnows(s: State, g: History, t: nat, c: Choice, late: bool)
    requires NoteSized(s, g) && t < |s.loc| && s.loc[t].pc.DeqPeek? && Knows(s, g, t, late)
    requires NoteSized(Step(s, t, c, late), Note(s, g, t, c, late))
    requires Next(s.h, s.h.head) != NULL ==> g.l.hi <= g.l.ti
    ensures Knows(Step(s, t, c, late), Note(s, g, t, c, late), t, late)
  {
    SinceStep(g.log, Emit(s, t, c, late), t);
  }

  lemma TailLockKnows(s: State, g: History, t: nat, c: Choice, late: bool)
    requires NoteSized(s, g) && t < |s.loc| && s.loc[t].pc.TailLock? && Knows(s, g, t, late)
    requires NoteSized(Step(s, t, c, late), Note(s, g, t, c, late))
    requires s.enqLock == FREE ==> g.l.hi <= g.l.ti
    ensures Knows(Step(s, t, c, late), Note(s, g, t, c, late), t, late)
  {
    SinceStep(g.log, Emit(s, t, c, late), t);
  }

  lemma TailPeekKnows(s: State, g: History, t: nat, c: Choice, late: bool)
    requires NoteSized(s, g) && t < |s.loc| && s.loc[t].pc.TailPeek? && Knows(s, g, t, late)
    requires NoteSized(Step(s, t, c, late), Note(s, g, t, c, late))
    requires Next(s.h, s.h.head) == NULL ==> g.l.hi + 1 == |g.l.chain|
    ensures Knows(Step(s, t, c, late), Note(s, g, t, c, late), t, late)
  {
    SinceStep(g.log, Emit(s, t, c, late), t);
  }

  lemma TailFixKnows(s: State, g: History, t: nat, c: Choice, late: bool)
    requires NoteSized(s, g) && t < |s.loc| && s.loc[t].pc.TailFix? && Knows(s, g, t, late)
    requires NoteSized(Step(s, t, c, late), Note(s, g, t, c, late))
    requires g.l.hi == g.l.ti
    ensures Knows(Step(s, t, c, late), Note(s, g, t, c, late), t, late)
  {
    SinceStep(g.log, Emit(s, t, c, late), t);
  }

  lemma TailUnlockKnows(s: State, g: History, t: nat, c: Choice, late: bool)
    requires NoteSized(s, g) && t < |s.loc| && s.loc[t].pc.TailUnlock? && Knows(s, g, t, late)
    requires NoteSized(Step(s, t, c, late), Note(s, g, t, c, late))
    ensures Knows(Step(s, t, c, late), Note(s, g, t, c, late), t, late)
  {
    SinceStep(g.log, Emit(s, t, c, late), t);
  }

  lemma RecycleKnows(s: State, g: History, s': State, g': History, t: nat, late: bool)
    requires NoteSized(s, g) && t < |s.loc| && s.loc[t].pc.Recycle? && Knows(s, g, t, late)
    requires s' == RecycleStep(s, t) && g' == History(NoteClaim(g.l, t), g.log + [Internal(t)])
    requires 0 <= s.loc[t].first < |g.l.own| && Allocated(s.h, s.loc[t].first) && |g.l.stage| == |g.l.chain|
    ensures Knows(s', g', t, late)
  {
    SinceInternal(g.log, t);
  }

  lemma PushFreeKnows(s: State, g: History, t: nat, c: Choice, late: bool)
    requires NoteSized(s, g) && t < |s.loc| && s.loc[t].pc.PushFree? && Knows(s, g, t, late)
    requires NoteSized(Step(s, t, c, late), Note(s, g, t, c, late))
    requires 0 <= s.loc[t].first < |g.l.own|
    ensures Knows(Step(s, t, c, late), Note(s, g, t, c, late), t, late)
  {
    SinceStep(g.log, Emit(s, t, c, late), t);
  }

  lemma DeqUnlockKnows(s: State, g: History, t: nat, c: Choice, late: bool)
    requires NoteSized(s, g) && t < |s.loc| && s.loc[t].pc.DeqUnlock? && Knows(s, g, t, late)
    requires NoteSized(Step(s, t, c, late), Note(s, g, t, c, late))
    ensures Knows(Step(s, t, c, late), Note(s, g, t, c, late), t, late)
  {
    SinceStep(g.log, Emit(s, t, c, late), t);
  }

  // ---- every step keeps the invariant ---------------------------------------------------------

  /** The sentinel is a live node, and its link is NULL exactly when the queue is empty. */
  lemma ReadSentinel(s: State, g: History)
    requires Global(s, g)
    ensures Next(s.h, s.h.head) == After(g.l.chain, g.l.hi)
    ensures Next(s.h, s.h.head) == NULL <==> g.l.hi + 1 == |g.l.chain|
    ensures g.l.hi + 1 < |g.l.chain| ==> Data(s.h, g.l.chain[g.l.hi + 1]) == g.l.vals[g.l.hi + 1]
  {
    assert StageAt(g.l, g.l.hi) && LinkedAt(s.h, g.l, g.l.hi);
    if g.l.hi + 1 < |g.l.chain| { assert StageAt(g.l, g.l.hi + 1) && LinkedAt(s.h, g.l, g.l.hi + 1); }
  }

  lemma IdleKeeps(s: State, g: History, t: nat, c: Choice, late: bool)
    requires Inv(s, g, late) && t < |s.loc| && s.loc[t].pc.Idle?
    ensures Inv(Step(s, t, c, late), Note(s, g, t, c, late), late)
    ensures Grows(g.l, Note(s, g, t, c, late).l)
  {
    var s', g' := Step(s, t, c, late), Note(s, g, t, c, late);
    assert Knows(s, g, t, late);
    IdleKnows(s, g, t, c, late);
    assert s' == CallStep(s, t, c) && g' == History(g.l, g.log + [Invoke(t, c.call)]);
    InvAfter(s, g, s', g', t, Emit(s, t, c, late), late);
  }

  lemma EnqLockKeeps(s: State, g: History, t: nat, c: Choice, late: bool)
    requires Inv(s, g, late) && t < |s.loc| && s.loc[t].pc.EnqLock?
    ensures Inv(Step(s, t, c, late), Note(s, g, t, c, late), late)
    ensures Grows(g.l, Note(s, g, t, c, late).l)
  {
    var s', g' := Step(s, t, c, late), Note(s, g, t, c, late);
    assert Knows(s, g, t, late);
    EnqLockKnows(s, g, t, c, late);
    InvAfter(s, g, s', g', t, Emit(s, t, c, late), late);
  }

  lemma EnqTakeKeeps(s: State, g: History, t: nat, c: Choice, late: bool)
    requires Inv(s, g, late) && t < |s.loc| && s.loc[t].pc.EnqTake?
    ensures Inv(Step(s, t, c, late), Note(s, g, t, c, late), late)
    ensures Grows(g.l, Note(s, g, t, c, late).l)
  {
    var s', g' := Step(s, t, c, late), Note(s, g, t, c, late);
    assert Knows(s, g, t, late);
    TakeKeepsPool(s.h, g.l, |s.loc|, t, c.junkData, c.junkNext);
    forall u: nat | u < |s.loc| && u != t ensures LeavesHeld(s, g, s', g', u) { assert HandAt(g.l, u); }
    EnqTakeKnows(s, g, t, c, late);
    InvAfter(s, g, s', g', t, Emit(s, t, c, late), late);
  }

  lemma EnqDataKeeps(s: State, g: History, t: nat, c: Choice, late: bool)
    requires Inv(s, g, late) && t < |s.loc| && s.loc[t].pc.EnqData?
    ensures Inv(Step(s, t, c, late), Note(s, g, t, c, late), late)
    ensures Grows(g.l, Note(s, g, t, c, late).l)
  {
    var s', g' := Step(s, t, c, late), Note(s, g, t, c, late);
    assert Knows(s, g, t, late);
    WriteDataKeepsPool(s.h, g.l, |s.loc|, t, s.loc[t].arg);
    assert HandAt(g.l, t);
    forall u: nat | u < |s.loc| && u != t ensures LeavesHeld(s, g, s', g', u) { assert HandAt(g.l, u); }
    EnqDataKnows(s, g, t, c, late);
    InvAfter(s, g, s', g', t, Emit(s, t, c, late), late);
  }

  lemma EnqClearKeeps(s: State, g: History, t: nat, c: Choice, late: bool)
    requires Inv(s, g, late) && t < |s.loc| && s.loc[t].pc.EnqClear?
    ensures Inv(Step(s, t, c, late), Note(s, g, t, c, late), late)
    ensures Grows(g.l, Note(s, g, t, c, late).l)
  {
    var s', g' := Step(s, t, c, late), Note(s, g, t, c, late);
    assert Knows(s, g, t, late);
    WriteNextKeepsPool(s.h, g.l, |s.loc|, t, NULL);
    assert HandAt(g.l, t);
    forall u: nat | u < |s.loc| && u != t ensures LeavesHeld(s, g, s', g', u) { assert HandAt(g.l, u); }
    EnqClearKnows(s, g, t, c, late);
    InvAfter(s, g, s', g', t, Emit(s, t, c, late), late);
  }

  lemma EnqLinkKeeps(s: State, g: History, t: nat, c: Choice, late: bool)
    requires Inv(s, g, late) && t < |s.loc| && s.loc[t].pc.EnqLink?
    ensures Inv(Step(s, t, c, late), Note(s, g, t, c, late), late)
    ensures Grows(g.l, Note(s, g, t, c, late).l)
  {
    var s', g' := Step(s, t, c, late), Note(s, g, t, c, late);
    assert Knows(s, g, t, late);
    LinkKeepsPool(s.h, g.l, |s.loc|, t, s.h.tail);
    assert HandAt(g.l, t) && StageAt(g.l, g.l.ti) && LinkedAt(s.h, g.l, g.l.ti);
    assert Queue(g'.l) == Queue(g.l) + [Data(s.h, s.loc[t].node)];
    forall u: nat | u < |s.loc| && u != t ensures LeavesHeld(s, g, s', g', u) { assert HandAt(g.l, u); }
    EnqLinkKnows(s, g, t, c, late);
    InvAfter(s, g, s', g', t, Emit(s, t, c, late), late);
  }

  lemma EnqSwingKeeps(s: State, g: History, t: nat, c: Choice, late: bool)
    requires Inv(s, g, late) && t < |s.loc| && s.loc[t].pc.EnqSwing?
    ensures Inv(Step(s, t, c, late), Note(s, g, t, c, late), late)
    ensures Grows(g.l, Note(s, g, t, c, late).l)
  {
    var s', g' := Step(s, t, c, late), Note(s, g, t, c, late);
    assert Knows(s, g, t, late);
    MoveTailKeepsPool(s.h, g.l, |s.loc|, g.l.ti + 1);
    EnqSwingKnows(s, g, t, c, late);
    InvAfter(s, g, s', g', t, Emit(s, t, c, late), late);
  }

  lemma EnqUnlockKeeps(s: State, g: History, t: nat, c: Choice, late: bool)
    requires Inv(s, g, late) && t < |s.loc| && s.loc[t].pc.EnqUnlock?
    ensures Inv(Step(s, t, c, late), Note(s, g, t, c, late), late)
    ensures Grows(g.l, Note(s, g, t, c, late).l)
  {
    var s', g' := Step(s, t, c, late), Note(s, g, t, c, late);
    assert Knows(s, g, t, late);
    EnqUnlockKnows(s, g, t, c, late);
    InvAfter(s, g, s', g', t, Emit(s, t, c, late), late);
  }

  lemma DeqLockKeeps(s: State, g: History, t: nat, c: Choice, late: bool)
    requires Inv(s, g, late) && t < |s.loc| && s.loc[t].pc.DeqLock?
    ensures Inv(Step(s, t, c, late), Note(s, g, t, c, late), late)
    ensures Grows(g.l, Note(s, g, t, c, late).l)
  {
    var s', g' := Step(s, t, c, late), Note(s, g, t, c, late);
    assert Knows(s, g, t, late);
    DeqLockKnows(s, g, t, c, late);
    InvAfter(s, g, s', g', t, Emit(s, t, c, late), late);
  }

  lemma DeqHeadKeeps(s: State, g: History, t: nat, c: Choice, late: bool)
    requires Inv(s, g, late) && t < |s.loc| && s.loc[t].pc.DeqHead?
    ensures Inv(Step(s, t, c, late), Note(s, g, t, c, late), late)
    ensures Grows(g.l, Note(s, g, t, c, late).l)
  {
    var s', g' := Step(s, t, c, late), Note(s, g, t, c, late);
    assert Knows(s, g, t, late);
    DeqHeadKnows(s, g, t, c, late);
    InvAfter(s, g, s', g', t, Emit(s, t, c, late), late);
  }

  lemma DeqNextKeeps(s: State, g: History, t: nat, c: Choice, late: bool)
    requires Inv(s, g, late) && t < |s.loc| && s.loc[t].pc.DeqNext?
    ensures Inv(Step(s, t, c, late), Note(s, g, t, c, late), late)
    ensures Grows(g.l, Note(s, g, t, c, late).l)
  {
    var s', g' := Step(s, t, c, late), Note(s, g, t, c, late);
    assert Knows(s, g, t, late);
    ReadSentinel(s, g);
    DeqNextKnows(s, g, t, c, late);
    InvAfter(s, g, s', g', t, Emit(s, t, c, late), late);
  }

  lemma DeqTestKeeps(s: State, g: History, t: nat, c: Choice, late: bool)
    requires Inv(s, g, late) && t < |s.loc| && s.loc[t].pc.DeqTest?
    ensures Inv(Step(s, t, c, late), Note(s, g, t, c, late), late)
    ensures Grows(g.l, Note(s, g, t, c, late).l)
  {
    var s', g' := Step(s, t, c, late), Note(s, g, t, c, late);
    assert Knows(s, g, t, late);
    DeqTestKnows(s, g, t, c, late);
    InvAfter(s, g, s', g', t, Emit(s, t, c, late), late);
  }

  lemma DeqDataKeeps(s: State, g: History, t: nat, c: Choice, late: bool)
    requires Inv(s, g, late) && t < |s.loc| && s.loc[t].pc.DeqData?
    ensures Inv(Step(s, t, c, late), Note(s, g, t, c, late), late)
    ensures Grows(g.l, Note(s, g, t, c, late).l)
  {
    var s', g' := Step(s, t, c, late), Note(s, g, t, c, late);
    assert Knows(s, g, t, late);
    ReadSentinel(s, g);
    DeqDataKnows(s, g, t, c, late);
    InvAfter(s, g, s', g', t, Emit(s, t, c, late), late);
  }

  lemma DeqMoveKeeps(s: State, g: History, t: nat, c: Choice, late: bool)
    requires Inv(s, g, late) && t < |s.loc| && s.loc[t].pc.DeqMove?
    ensures Inv(Step(s, t, c, late), Note(s, g, t, c, late), late)
    ensures Grows(g.l, Note(s, g, t, c, late).l)
  {
    var s', g' := Step(s, t, c, late), Note(s, g, t, c, late);
    assert Knows(s, g, t, late);
    MoveHeadKeepsPool(s.h, g.l, |s.loc|, t);
    assert Queue(g.l)[1..] == Queue(g'.l);
    DeqMoveKnows(s, g, t, c, late);
    InvAfter(s, g, s', g', t, Emit(s, t, c, late), late);
  }

  lemma DeqPeekKeeps(s: State, g: History, t: nat, c: Choice, late: bool)
    requires Inv(s, g, late) && t < |s.loc| && s.loc[t].pc.DeqPeek?
    ensures Inv(Step(s, t, c, late), Note(s, g, t, c, late), late)
    ensures Grows(g.l, Note(s, g, t, c, late).l)
  {
    var s', g' := Step(s, t, c, late), Note(s, g, t, c, late);
    assert Knows(s, g, t, late);
    ReadSentinel(s, g);
    DeqPeekKnows(s, g, t, c, late);
    InvAfter(s, g, s', g', t, Emit(s, t, c, late), late);
  }

  lemma TailLockKeeps(s: State, g: History, t: nat, c: Choice, late: bool)
    requires Inv(s, g, late) && t < |s.loc| && s.loc[t].pc.TailLock?
    ensures Inv(Step(s, t, c, late), Note(s, g, t, c, late), late)
    ensures Grows(g.l, Note(s, g, t, c, late).l)
  {
    var s', g' := Step(s, t, c, late), Note(s, g, t, c, late);
    assert Knows(s, g, t, late);
    TailLockKnows(s, g, t, c, late);
    InvAfter(s, g, s', g', t, Emit(s, t, c, late), late);
  }

  lemma TailPeekKeeps(s: State, g: History, t: nat, c: Choice, late: bool)
    requires Inv(s, g, late) && t < |s.loc| && s.loc[t].pc.TailPeek?
    ensures Inv(Step(s, t, c, late), Note(s, g, t, c, late), late)
    ensures Grows(g.l, Note(s, g, t, c, late).l)
  {
    var s', g' := Step(s, t, c, late), Note(s, g, t, c, late);
    assert Knows(s, g, t, late);
    ReadSentinel(s, g);
    TailPeekKnows(s, g, t, c, late);
    InvAfter(s, g, s', g', t, Emit(s, t, c, late), late);
  }

  lemma TailFixKeeps(s: State, g: History, t: nat, c: Choice, late: bool)
    requires Inv(s, g, late) && t < |s.loc| && s.loc[t].pc.TailFix?
    ensures Inv(Step(s, t, c, late), Note(s, g, t, c, late), late)
    ensures Grows(g.l, Note(s, g, t, c, late).l)
  {
    var s', g' := Step(s, t, c, late), Note(s, g, t, c, late);
    assert Knows(s, g, t, late);
    MoveTailKeepsPool(s.h, g.l, |s.loc|, g.l.hi);
    TailFixKnows(s, g, t, c, late);
    InvAfter(s, g, s', g', t, Emit(s, t, c, late), late);
  }

  lemma TailUnlockKeeps(s: State, g: History, t: nat, c: Choice, late: bool)
    requires Inv(s, g, late) && t < |s.loc| && s.loc[t].pc.TailUnlock?
    ensures Inv(Step(s, t, c, late), Note(s, g, t, c, late), late)
    ensures Grows(g.l, Note(s, g, t, c, late).l)
  {
    var s', g' := Step(s, t, c, late), Note(s, g, t, c, late);
    assert Knows(s, g, t, late);
    TailUnlockKnows(s, g, t, c, late);
    InvAfter(s, g, s', g', t, Emit(s, t, c, late), late);
  }

  lemma RecycleWrites(s: State, g: History, s': State, g': History, t: nat)
    requires NoteSized(s, g) && Pool(s.h, g.l, |s.loc|) && t < |s.loc| && Unlinked(g.l, t, s.loc[t])
    requires s' == RecycleStep(s, t) && g'.l == NoteClaim(g.l, t)
    ensures NoteSized(s', g') && Pool(s'.h, g'.l, |s.loc|)
    ensures 0 <= s.loc[t].first < |g.l.own| && Allocated(s.h, s.loc[t].first) && |g.l.stage| == |g.l.chain|
    ensures Grows(g.l, g'.l) && g'.l.hi == g.l.hi && g'.l.ti == g.l.ti && |g'.l.chain| == |g.l.chain|
    ensures Queue(g'.l) == Queue(g.l)
    ensures forall u: nat | u < |s.loc| && u != t :: LeavesHeld(s, g, s', g', u)
  {
    ClaimKeepsPool(s.h, g.l, |s.loc|, t);
    WriteNextKeepsPool(s.h, g'.l, |s.loc|, t, s.h.freeHead[t]);
    assert TakenAt(g.l, t) && LinkedAt(s.h, g.l, g.l.taken[t]);
    forall u: nat | u < |s.loc| && u != t ensures LeavesHeld(s, g, s', g', u) {
      assert HandAt(g.l, u);
    }
  }

  lemma RecycleKeeps(s: State, g: History, s': State, g': History, t: nat, late: bool)
    requires Inv(s, g, late) && t < |s.loc| && s.loc[t].pc.Recycle?
    requires s' == RecycleStep(s, t) && g' == History(NoteClaim(g.l, t), g.log + [Internal(t)])
    ensures Inv(s', g', late) && Grows(g.l, g'.l)
  {
    assert Knows(s, g, t, late);
    RecycleWrites(s, g, s', g', t);
    RecycleKnows(s, g, s', g', t, late);
    HalfwayKept(s, s', t);
    InvAfter(s, g, s', g', t, Internal(t), late);
  }

  lemma PushFreeWrites(s: State, g: History, s': State, g': History, t: nat, late: bool)
    requires NoteSized(s, g) && Pool(s.h, g.l, |s.loc|) && t < |s.loc|
    requires g.l.hand[t] == s.loc[t].first != NULL && Next(s.h, s.loc[t].first) == s.h.freeHead[t]
    requires s' == PushFreeStep(s, t, late) && g'.l == NotePush(g.l, t)
    ensures NoteSized(s', g') && Pool(s'.h, g'.l, |s.loc|) && HandAt(g.l, t)
    ensures forall u: nat | u < |s.loc| && u != t :: LeavesHeld(s, g, s', g', u)
  {
    PushKeepsPool(s.h, g.l, |s.loc|, t);
    assert HandAt(g.l, t);
    forall u: nat | u < |s.loc| && u != t ensures LeavesHeld(s, g, s', g', u) {
      assert HandAt(g.l, u);
    }
  }

  lemma PushFreeKeeps(s: State, g: History, t: nat, c: Choice, late: bool)
    requires Inv(s, g, late) && t < |s.loc| && s.loc[t].pc.PushFree?
    ensures Inv(Step(s, t, c, late), Note(s, g, t, c, late), late)
    ensures Grows(g.l, Note(s, g, t, c, late).l)
  {
    var s', g' := Step(s, t, c, late), Note(s, g, t, c, late);
    assert Knows(s, g, t, late);
    PushFreeWrites(s, g, s', g', t, late);
    PushFreeKnows(s, g, t, c, late);
    InvAfter(s, g, s', g', t, Emit(s, t, c, late), late);
  }

  lemma DeqUnlockKeeps(s: State, g: History, t: nat, c: Choice, late: bool)
    requires Inv(s, g, late) && t < |s.loc| && s.loc[t].pc.DeqUnlock?
    ensures Inv(Step(s, t, c, late), Note(s, g, t, c, late), late)
    ensures Grows(g.l, Note(s, g, t, c, late).l)
  {
    var s', g' := Step(s, t, c, late), Note(s, g, t, c, late);
    assert Knows(s, g, t, late);
    DeqUnlockKnows(s, g, t, c, late);
    InvAfter(s, g, s', g', t, Emit(s, t, c, late), late);
  }

  /** Every step of every thread keeps the invariant, and the ledger only moves forward. */
  lemma StepKeepsInv(s: State, g: History, t: nat, c: Choice, late: bool)
    requires Inv(s, g, late) && t < |s.loc|
    ensures Inv(Step(s, t, c, late), Note(s, g, t, c, late), late)
    ensures Grows(g.l, Note(s, g, t, c, late).l)
  {
    match s.loc[t].pc
    case Idle => IdleKeeps(s, g, t, c, late);
    case EnqLock => EnqLockKeeps(s, g, t, c, late);
    case EnqTake => EnqTakeKeeps(s, g, t, c, late);
    case EnqData => EnqDataKeeps(s, g, t, c, late);
    case EnqClear => EnqClearKeeps(s, g, t, c, late);
    case EnqLink => EnqLinkKeeps(s, g, t, c, late);
    case EnqSwing => EnqSwingKeeps(s, g, t, c, late);
    case EnqUnlock => EnqUnlockKeeps(s, g, t, c, late);
    case DeqLock => DeqLockKeeps(s, g, t, c, late);
    case DeqHead => DeqHeadKeeps(s, g, t, c, late);
    case DeqNext => DeqNextKeeps(s, g, t, c, late);
    case DeqTest => DeqTestKeeps(s, g, t, c, late);
    case DeqData => DeqDataKeeps(s, g, t, c, late);
    case DeqMove => DeqMoveKeeps(s, g, t, c, late);
    case DeqPeek => DeqPeekKeeps(s, g, t, c, late);
    case TailLock => TailLockKeeps(s, g, t, c, late);
    case TailPeek => TailPeekKeeps(s, g, t, c, late);
    case TailFix => TailFixKeeps(s, g, t, c, late);
    case TailUnlock => TailUnlockKeeps(s, g, t, c, late);
    case Recycle => RecycleKeeps(s, g, Step(s, t, c, late), Note(s, g, t, c, late), t, late);
    case PushFree => PushFreeKeeps(s, g, t, c, late);
    case DeqUnlock => DeqUnlockKeeps(s, g, t, c, late);
  }
}
