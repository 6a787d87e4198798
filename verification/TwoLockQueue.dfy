/** The two-lock queue as the program holds it: fields and arrays changed in place, one method per
    access, the lock fields naming their holders. */
module TwoLockQueue {
  import opened NodePool
  import opened TwoLock
  import opened TwoLockInvariant
  import opened TwoLockSteps
  import opened TwoLockTheorems
  import Teardown

  /** `head`, its successor and `tail` are allocated. */
  lemma EndsAllocated(s: State, g: History, late: bool)
    requires Inv(s, g, late)
    ensures Allocated(s.h, s.h.head) && Allocated(s.h, s.h.tail)
    ensures g.l.hi + 1 < |g.l.chain| ==> Allocated(s.h, g.l.chain[g.l.hi + 1])
  {
    var l := g.l;
    TailKept(s, g, late);
    assert StageAt(l, l.hi) && LinkedAt(s.h, l, l.hi);
    if l.hi + 1 < |l.chain| { assert StageAt(l, l.hi + 1) && LinkedAt(s.h, l, l.hi + 1); }
  }

  class Queue {
    const n: nat
    const late: bool
    var head: Ptr
    var tail: Ptr
    var next: seq<Ptr>             // node memory; an allocation appends
    var data: seq<int>
    var enqLock: int
    var deqLock: int
    const freeHead: array<Ptr>
    const freeSize: array<int>
    const loc: array<Local>
    ghost var hist: History

    ghost predicate Shaped()
      reads this
    {
      freeHead.Length == freeSize.Length == loc.Length == n && freeHead != freeSize && |next| == |data|
    }

    function Memory(): (h: Heap)
      reads this, freeHead, freeSize
    {
      Heap(head, tail, next, data, freeHead[..], freeSize[..])
    }

    function View(): (s: State)
      reads this, freeHead, freeSize, loc
    {
      State(Memory(), enqLock, deqLock, loc[..])
    }

    ghost predicate Valid()
      reads this, freeHead, freeSize, loc
    {
      Shaped() && Inv(View(), hist, late)
    }

    ghost predicate At(t: nat, pc: Pc)
      reads this, loc
    {
      Shaped() && t < n && loc[t].pc == pc
    }

    /** `init_queue` */
    constructor (n: nat, late: bool)
      ensures Valid() && this.n == n && this.late == late
      ensures View() == Init(n) && hist == InitHistory(n)
      ensures fresh(freeHead) && fresh(freeSize) && fresh(loc)
    {
      this.n, this.late := n, late;
      head, tail, next, data := 0, 0, [NULL], [0];
      enqLock, deqLock := FREE, FREE;
      freeHead := new Ptr[n](_ => NULL);
      freeSize := new int[n](_ => 0);
      loc := new Local[n](_ => Local(Idle, 0, NULL, NULL, NULL, 0, 0, 0));
      hist := InitHistory(n);
      new;
      assert View() == Init(n);
      InitInv(n, late);
    }

    method Call(t: nat, c: Choice)
      requires At(t, Idle)
      modifies loc
      ensures Shaped() && View() == CallStep(old(View()), t, c)
    {
      match c.call
      case Enq(v) => loc[t] := loc[t].(pc := EnqLock, arg := v);
      case Deq => loc[t] := loc[t].(pc := DeqLock);
    }

    // ---- the locks -----------------------------------------------------------------------------

    method SetEnqLock(t: nat, pc: Pc)
      requires Shaped() && t < n
      modifies this`enqLock, loc
      ensures Shaped() && View() == LockEnqStep(old(View()), t, pc)
    {
      if enqLock == FREE {
        enqLock := t;
        loc[t] := loc[t].(pc := pc);
      }
    }

    method SetDeqLock(t: nat, pc: Pc)
      requires Shaped() && t < n
      modifies this`deqLock, loc
      ensures Shaped() && View() == LockDeqStep(old(View()), t, pc)
    {
      if deqLock == FREE {
        deqLock := t;
        loc[t] := loc[t].(pc := pc);
      }
    }

    method UnsetEnqLock(t: nat, pc: Pc)
      requires Shaped() && t < n
      modifies this`enqLock, loc
      ensures Shaped() && View() == UnlockEnqStep(old(View()), t, pc)
    {
      enqLock := FREE;
      loc[t] := loc[t].(pc := pc);
    }

    method UnsetDeqLock(t: nat)
      requires At(t, DeqUnlock)
      modifies this`deqLock, loc
      ensures Shaped() && View() == UnlockDeqStep(old(View()), t, late)
    {
      deqLock := FREE;
      if late && loc[t].code == 1 {
        loc[t] := loc[t].(pc := Recycle);
      } else {
        loc[t] := loc[t].(pc := Idle);
      }
    }

    // ---- enq -----------------------------------------------------------------------------------

    method UpcycleNode(t: nat, c: Choice)
      requires At(t, EnqTake) && (freeHead[t] != NULL ==> 0 <= freeHead[t] < |next|)
      modifies this`next, this`data, freeHead, freeSize, loc
      ensures Shaped() && View() == EnqTakeStep(old(View()), t, c)
    {
      var node := freeHead[t];
      if node != NULL {
        freeHead[t] := next[node];
        freeSize[t] := freeSize[t] - 1;
        loc[t] := loc[t].(pc := EnqData, node := node);
      } else if c.noMemory {
        loc[t] := loc[t].(pc := EnqUnlock, code := 0);
      } else {
        node := |next|;
        next, data := next + [c.junkNext], data + [c.junkData];
        loc[t] := loc[t].(pc := EnqData, node := node);
      }
    }

    method StoreData(t: nat)
      requires At(t, EnqData) && 0 <= loc[t].node < |next|
      modifies this`data, loc
      ensures Shaped() && View() == EnqDataStep(old(View()), t)
    {
      data := data[loc[t].node := loc[t].arg];
      loc[t] := loc[t].(pc := EnqClear);
    }

    method ClearNext(t: nat)
      requires At(t, EnqClear) && 0 <= loc[t].node < |next|
      modifies this`next, loc
      ensures Shaped() && View() == EnqClearStep(old(View()), t)
    {
      next := next[loc[t].node := NULL];
      loc[t] := loc[t].(pc := EnqLink);
    }

    method LinkNode(t: nat)
      requires At(t, EnqLink) && 0 <= tail < |next|
      modifies this`next, loc
      ensures Shaped() && View() == EnqLinkStep(old(View()), t)
    {
      next := next[tail := loc[t].node];
      loc[t] := loc[t].(pc := EnqSwing);
    }

    method MoveTail(t: nat)
      requires At(t, EnqSwing)
      modifies this`tail, loc
      ensures Shaped() && View() == EnqSwingStep(old(View()), t)
    {
      tail := loc[t].node;
      loc[t] := loc[t].(pc := EnqUnlock, code := 1);
    }

    // ---- deq -----------------------------------------------------------------------------------

    method LoadSentinel(t: nat)
      requires At(t, DeqHead)
      modifies loc
      ensures Shaped() && View() == DeqHeadStep(old(View()), t)
    {
      loc[t] := loc[t].(pc := DeqNext, first := head);
    }

    method LoadNext(t: nat)
      requires At(t, DeqNext) && 0 <= loc[t].first < |next|
      modifies loc
      ensures Shaped() && View() == DeqNextStep(old(View()), t)
    {
      loc[t] := loc[t].(pc := DeqTest, next := next[loc[t].first]);
    }

    method TestNext(t: nat)
      requires At(t, DeqTest)
      modifies loc
      ensures Shaped() && View() == DeqTestStep(old(View()), t)
    {
      if loc[t].next == NULL {
        loc[t] := loc[t].(pc := DeqUnlock, code := 0);
      } else {
        loc[t] := loc[t].(pc := DeqData);
      }
    }

    method LoadData(t: nat)
      requires At(t, DeqData) && 0 <= loc[t].next < |next|
      modifies loc
      ensures Shaped() && View() == DeqDataStep(old(View()), t)
    {
      loc[t] := loc[t].(pc := DeqMove, val := data[loc[t].next]);
    }

    method MoveHead(t: nat)
      requires At(t, DeqMove)
      modifies this`head, loc
      ensures Shaped() && View() == DeqMoveStep(old(View()), t)
    {
      head := loc[t].next;
      loc[t] := loc[t].(pc := DeqPeek, code := 1);
    }

    method PeekHead(t: nat)
      requires At(t, DeqPeek) && 0 <= head < |next|
      modifies loc
      ensures Shaped() && View() == DeqPeekStep(old(View()), t, late)
    {
      if next[head] == NULL {
        loc[t] := loc[t].(pc := TailLock);
      } else {
        loc[t] := loc[t].(pc := Onwards(late));
      }
    }

    method PeekAgain(t: nat)
      requires At(t, TailPeek) && 0 <= head < |next|
      modifies loc
      ensures Shaped() && View() == TailPeekStep(old(View()), t)
    {
      if next[head] == NULL {
        loc[t] := loc[t].(pc := TailFix);
      } else {
        loc[t] := loc[t].(pc := TailUnlock);
      }
    }

    method FixTail(t: nat)
      requires At(t, TailFix)
      modifies this`tail, loc
      ensures Shaped() && View() == TailFixStep(old(View()), t)
    {
      tail := head;
      loc[t] := loc[t].(pc := TailUnlock);
    }

    method RecycleLink(t: nat)
      requires At(t, Recycle) && 0 <= loc[t].first < |next|
      modifies this`next, loc
      ensures Shaped() && View() == RecycleStep(old(View()), t)
    {
      next := next[loc[t].first := freeHead[t]];
      loc[t] := loc[t].(pc := PushFree);
    }

    method RecyclePush(t: nat)
      requires At(t, PushFree)
      modifies freeHead, freeSize, loc
      ensures Shaped() && View() == PushFreeStep(old(View()), t, late)
    {
      freeHead[t] := loc[t].first;
      freeSize[t] := freeSize[t] + 1;
      loc[t] := loc[t].(pc := if late then Idle else DeqUnlock, insertions := loc[t].insertions + 1);
    }

    // ---- any thread, any schedule --------------------------------------------------------------

    /** Every pointer that thread t's next access follows is a node. */
    ghost predicate Safe(t: nat)
      reads this, freeHead, loc
    {
      Shaped() && t < n && 0 <= head < |next| && 0 <= tail < |next| &&
      var x := loc[t];
      && (freeHead[t] != NULL ==> 0 <= freeHead[t] < |next|)
      && (x.pc.EnqData? || x.pc.EnqClear? ==> 0 <= x.node < |next|)
      && (x.pc.DeqNext? || x.pc.Recycle? ==> 0 <= x.first < |next|)
      && (x.pc.DeqData? ==> 0 <= x.next < |next|)
    }

    lemma ValidIsSafe(t: nat)
      requires Valid() && t < n
      ensures Safe(t)
    {
      var s, l := View(), hist.l;
      assert Knows(s, hist, t, late) && HandAt(l, t) && TakenAt(l, t) && TopAt(s.h, l, t);
      if |l.free[t]| > 0 { assert SlotAt(s.h, l, t, |l.free[t]| - 1); }
      EndsAllocated(s, hist, late);
      if loc[t].pc.Recycle? { RecycledIsDetachedIn(s, hist, late, t); }
    }

    method StepEnq(t: nat, c: Choice)
      requires Safe(t)
      requires var pc := loc[t].pc;
               pc.EnqLock? || pc.EnqTake? || pc.EnqData? || pc.EnqClear? || pc.EnqLink?
               || pc.EnqSwing? || pc.EnqUnlock?
      modifies this`tail, this`next, this`data, this`enqLock, freeHead, freeSize, loc
      ensures Shaped() && View() == Step(old(View()), t, c, late)
    {
      match loc[t].pc
      case EnqLock => SetEnqLock(t, EnqTake);
      case EnqTake => UpcycleNode(t, c);
      case EnqData => StoreData(t);
      case EnqClear => ClearNext(t);
      case EnqLink => LinkNode(t);
      case EnqSwing => MoveTail(t);
      case EnqUnlock => UnsetEnqLock(t, Idle);
    }

    method StepDeq(t: nat, c: Choice)
      requires Safe(t)
      requires var pc := loc[t].pc;
               pc.DeqLock? || pc.DeqHead? || pc.DeqNext? || pc.DeqTest? || pc.DeqData?
               || pc.DeqMove? || pc.DeqUnlock?
      modifies this`head, this`deqLock, loc
      ensures Shaped() && View() == Step(old(View()), t, c, late)
    {
      match loc[t].pc
      case DeqLock => SetDeqLock(t, DeqHead);
      case DeqHead => LoadSentinel(t);
      case DeqNext => LoadNext(t);
      case DeqTest => TestNext(t);
      case DeqData => LoadData(t);
      case DeqMove => MoveHead(t);
      case DeqUnlock => UnsetDeqLock(t);
    }

    method StepTail(t: nat, c: Choice)
      requires Safe(t)
      requires var pc := loc[t].pc;
               pc.DeqPeek? || pc.TailLock? || pc.TailPeek? || pc.TailFix? || pc.TailUnlock?
               || pc.Recycle? || pc.PushFree?
      modifies this`tail, this`next, this`enqLock, freeHead, freeSize, loc
      ensures Shaped() && View() == Step(old(View()), t, c, late)
    {
      match loc[t].pc
      case DeqPeek => PeekHead(t);
      case TailLock => SetEnqLock(t, TailPeek);
      case TailPeek => PeekAgain(t);
      case TailFix => FixTail(t);
      case TailUnlock => UnsetEnqLock(t, Onwards(late));
      case Recycle => RecycleLink(t);
      case PushFree => RecyclePush(t);
    }

    method StepAny(t: nat, c: Choice)
      requires Safe(t)
      modifies this`head, this`tail, this`next, this`data, this`enqLock, this`deqLock, freeHead, freeSize, loc
      ensures Shaped() && View() == Step(old(View()), t, c, late)
    {
      match loc[t].pc
      case Idle => Call(t, c);
      case EnqLock | EnqTake | EnqData | EnqClear | EnqLink | EnqSwing | EnqUnlock => StepEnq(t, c);
      case DeqLock | DeqHead | DeqNext | DeqTest | DeqData | DeqMove | DeqUnlock => StepDeq(t, c);
      case DeqPeek | TailLock | TailPeek | TailFix | TailUnlock | Recycle | PushFree => StepTail(t, c);
    }

    /** Thread t makes its next access, or waits for a lock. */
    method Act(t: nat, c: Choice)
      requires Valid() && t < n
      modifies this, freeHead, freeSize, loc
      ensures Valid()
      ensures View() == Step(old(View()), t, c, late) && hist == Note(old(View()), old(hist), t, c, late)
    {
      ghost var s, g := View(), hist;
      ValidIsSafe(t);
      StepAny(t, c);
      StepKeepsInv(s, g, t, c, late);
      hist := Note(s, g, t, c, late);
    }
  }

  /** `destroy_queue` on an idle queue frees every node ever allocated exactly once. */
  method DestroyQueue(q: Queue) returns (freed: seq<Ptr>)
    requires q.Valid() && forall t: nat | t < q.n :: q.loc[t].pc.Idle?
    ensures forall a :: multiset(freed)[a] == if 0 <= a < |q.next| then 1 else 0
  {
    ghost var l := q.hist.l;
    forall t: nat | t < q.n ensures l.hand[t] == NULL && l.taken[t] == -1 { assert Knows(q.View(), q.hist, t, q.late); }
    freed := Teardown.FreeAll(q.Memory(), l, q.n);
    forall a ensures multiset(freed)[a] == if 0 <= a < |q.next| then 1 else 0 {
      Teardown.EverythingOnce(q.Memory(), l, q.n, a);
    }
  }

  /** A fresh queue driven by any schedule ends in the state the state machine predicts. */
  method Execute(n: nat, sched: seq<Move>, late: bool) returns (q: Queue)
    requires Schedule(n, sched)
    ensures q.Valid() && q.n == n && q.late == late
    ensures (q.View(), q.hist) == Run(n, sched, late)
  {
    q := new Queue(n, late);
    for k := 0 to |sched|
      invariant q.Valid() && q.n == n && q.late == late
      invariant fresh(q) && fresh(q.freeHead) && fresh(q.freeSize) && fresh(q.loc)
      invariant (q.View(), q.hist) == Run(n, sched[..k], late)
    {
      q.Act(sched[k].t, sched[k].c);
      LaterIsOneStep(n, sched, k + 1, late);
    }
    assert sched[..|sched|] == sched;
  }
}
