/** The lock-free queue as the program holds it: fields and arrays changed in place, one method per
    access.  Each method does to the fields what the state machine's step does to the state. */
module LockFreeQueue {
  import opened NodePool
  import opened LockFree
  import opened LockFreeInvariant
  import opened LockFreeSteps
  import opened LockFreeTheorems
  import Teardown

  class Queue {
    const n: nat
    var head: Ptr
    var tail: Ptr
    var next: seq<Ptr>             // node memory; an allocation appends
    var data: seq<int>
    const freeHead: array<Ptr>
    const freeSize: array<int>
    const ctr: array<nat>
    const retired: array<seq<Ptr>>
    const retiredCount: array<int>
    const loc: array<Local>
    ghost var hist: History

    ghost predicate Shaped()
      reads this
    {
      && freeHead.Length == freeSize.Length == ctr.Length == retired.Length == retiredCount.Length == loc.Length == n
      && freeHead != freeSize && freeHead != retiredCount && freeSize != retiredCount
      && |next| == |data|
    }

    function Memory(): (h: Heap)
      reads this, freeHead, freeSize
    {
      Heap(head, tail, next, data, freeHead[..], freeSize[..])
    }

    function View(): (s: State)
      reads this, freeHead, freeSize, ctr, retired, retiredCount, loc
    {
      State(Memory(), ctr[..], retired[..], retiredCount[..], loc[..])
    }

    ghost predicate Valid()
      reads this, freeHead, freeSize, ctr, retired, retiredCount, loc
    {
      Shaped() && Inv(View(), hist)
    }

    ghost predicate At(t: nat, pc: Pc)
      reads this, loc
    {
      Shaped() && t < n && loc[t].pc == pc
    }

    /** `init_queue` */
    constructor (n: nat)
      ensures Valid() && this.n == n
      ensures View() == Init(n) && hist == InitHistory(n)
      ensures fresh(freeHead) && fresh(freeSize) && fresh(ctr) && fresh(retired) && fresh(retiredCount) && fresh(loc)
    {
      this.n := n;
      head, tail, next, data := 0, 0, [NULL], [0];
      freeHead := new Ptr[n](_ => NULL);
      freeSize := new int[n](_ => 0);
      ctr := new nat[n](_ => 0);
      retired := new seq<Ptr>[n](_ => []);
      retiredCount := new int[n](_ => 0);
      loc := new Local[n](_ => Local(Idle, 0, NULL, NULL, NULL, NULL, 0, 0, 0, 0, [], 0, 0));
      hist := InitHistory(n);
      new;
      assert View() == Init(n);
      InitInv(n);
    }

    // ---- enq -----------------------------------------------------------------------------------

    method Call(t: nat, c: Choice)
      requires At(t, Idle)
      modifies loc
      ensures Shaped() && View() == CallStep(old(View()), t, c)
    {
      match c.call
      case Enq(v) => loc[t] := loc[t].(pc := EnqBegin, arg := v);
      case Deq => loc[t] := loc[t].(pc := DeqBegin);
    }

    method OpBegin(t: nat, pc: Pc)
      requires Shaped() && t < n
      modifies ctr, loc
      ensures Shaped() && View() == BeginStep(old(View()), t, pc)
    {
      ctr[t] := ctr[t] + 1;
      loc[t] := loc[t].(pc := pc);
    }

    method UpcycleNode(t: nat)
      requires At(t, EnqTake) && (freeHead[t] != NULL ==> 0 <= freeHead[t] < |next|)
      modifies this`next, this`data, freeHead, freeSize, loc
      ensures Shaped() && View() == EnqTakeStep(old(View()), t)
    {
      var node := freeHead[t];
      if node != NULL {
        freeHead[t] := next[node];
        freeSize[t] := freeSize[t] - 1;
      } else {
        node := |next|;
        next, data := next + [NULL], data + [0];
      }
      loc[t] := loc[t].(pc := EnqData, node := node);
    }

    method StoreData(t: nat)
      requires At(t, EnqData) && 0 <= loc[t].node < |next|
      modifies this`data, loc
      ensures Shaped() && View() == EnqDataStep(old(View()), t)
    {
      data := data[loc[t].node := loc[t].arg];
      loc[t] := loc[t].(pc := EnqClear);
    }

    method ClearNext(t: nat)
      requires At(t, EnqClear) && 0 <= loc[t].node < |next|
      modifies this`next, loc
      ensures Shaped() && View() == EnqClearStep(old(View()), t)
    {
      next := next[loc[t].node := NULL];
      loc[t] := loc[t].(pc := EnqTail);
    }

    method EnqLoadTail(t: nat)
      requires At(t, EnqTail)
      modifies loc
      ensures Shaped() && View() == EnqTailStep(old(View()), t)
    {
      loc[t] := loc[t].(pc := EnqNext, last := tail);
    }

    method EnqLoadNext(t: nat)
      requires At(t, EnqNext) && 0 <= loc[t].last < |next|
      modifies loc
      ensures Shaped() && View() == EnqNextStep(old(View()), t)
    {
      loc[t] := loc[t].(pc := EnqCheck, next := next[loc[t].last]);
    }

    method EnqCompareTail(t: nat)
      requires At(t, EnqCheck)
      modifies loc
      ensures Shaped() && View() == EnqCheckStep(old(View()), t)
    {
      if loc[t].last == tail {
        if loc[t].next == NULL {
          loc[t] := loc[t].(pc := EnqLink);
        } else {
          loc[t] := loc[t].(pc := EnqHelp);
        }
      } else {
        loc[t] := loc[t].(pc := EnqTail);
      }
    }

    method LinkNode(t: nat, c: Choice)
      requires At(t, EnqLink) && 0 <= loc[t].last < |next|
      modifies this`next, loc
      ensures Shaped() && View() == EnqLinkStep(old(View()), t, c)
    {
      if next[loc[t].last] == NULL && !c.spurious {
        next := next[loc[t].last := loc[t].node];
        loc[t] := loc[t].(pc := EnqSwing);
      } else {
        loc[t] := loc[t].(failedCas := loc[t].failedCas + 1, pc := EnqTail);
      }
    }

    method SwingTail(t: nat, c: Choice)
      requires At(t, EnqSwing)
      modifies this`tail, loc
      ensures Shaped() && View() == EnqSwingStep(old(View()), t, c)
    {
      if tail == loc[t].last && !c.spurious {
        tail := loc[t].node;
      } else {
        loc[t] := loc[t].(failedCas := loc[t].failedCas + 1);
      }
      loc[t] := loc[t].(pc := OpEnd, code := 1);
    }

    method HelpTail(t: nat, c: Choice, pc: Pc)
      requires Shaped() && t < n
      modifies this`tail, loc
      ensures Shaped() && View() == HelpStep(old(View()), t, c, pc)
    {
      if tail == loc[t].last && !c.spurious {
        tail := loc[t].next;
      } else {
        loc[t] := loc[t].(failedCas := loc[t].failedCas + 1);
      }
      loc[t] := loc[t].(pc := pc);
    }

    // ---- deq -----------------------------------------------------------------------------------

    method DeqLoadHead(t: nat)
      requires At(t, DeqHead)
      modifies loc
      ensures Shaped() && View() == DeqHeadStep(old(View()), t)
    {
      loc[t] := loc[t].(pc := DeqTail, first := head);
    }

    method DeqLoadTail(t: nat)
      requires At(t, DeqTail)
      modifies loc
      ensures Shaped() && View() == DeqTailStep(old(View()), t)
    {
      loc[t] := loc[t].(pc := DeqNext, last := tail);
    }

    method DeqLoadNext(t: nat)
      requires At(t, DeqNext) && 0 <= loc[t].first < |next|
      modifies loc
      ensures Shaped() && View() == DeqNextStep(old(View()), t)
    {
      loc[t] := loc[t].(pc := DeqCheck, next := next[loc[t].first]);
    }

    method DeqCompareHead(t: nat)
      requires At(t, DeqCheck)
      modifies loc
      ensures Shaped() && View() == DeqCheckStep(old(View()), t)
    {
      if loc[t].first == head {
        if loc[t].first == loc[t].last {
          if loc[t].next == NULL {
            loc[t] := loc[t].(pc := OpEnd, code := 0);
          } else {
            loc[t] := loc[t].(pc := DeqHelp);
          }
        } else {
          loc[t] := loc[t].(pc := DeqData);
        }
      } else {
        loc[t] := loc[t].(pc := DeqHead);
      }
    }

    method LoadData(t: nat)
      requires At(t, DeqData) && 0 <= loc[t].next < |next|
      modifies loc
      ensures Shaped() && View() == DeqDataStep(old(View()), t)
    {
      loc[t] := loc[t].(pc := DeqAdvance, val := data[loc[t].next]);
    }

    method AdvanceHead(t: nat, c: Choice)
      requires At(t, DeqAdvance)
      modifies this`head, loc
      ensures Shaped() && View() == DeqAdvanceStep(old(View()), t, c)
    {
      if head == loc[t].first && !c.spurious {
        head := loc[t].next;
        loc[t] := loc[t].(pc := DeqRetire);
      } else {
        loc[t] := loc[t].(failedCas := loc[t].failedCas + 1, pc := DeqHead);
      }
    }

    method Retire(t: nat)
      requires At(t, DeqRetire)
      modifies retired, retiredCount, loc
      ensures Shaped() && View() == DeqRetireStep(old(View()), t)
    {
      retired[t] := [loc[t].first] + retired[t];
      retiredCount[t] := retiredCount[t] + 1;
      loc[t] := loc[t].(pc := OpEnd, code := 1);
    }

    // ---- mm_op_end -----------------------------------------------------------------------------

    method OpEnds(t: nat)
      requires At(t, OpEnd)
      modifies ctr, loc
      ensures Shaped() && View() == OpEndStep(old(View()), t)
    {
      ctr[t] := ctr[t] + 1;
      if retiredCount[t] == 0 {
        loc[t] := loc[t].(pc := Idle);
      } else {
        loc[t] := loc[t].(pc := WaitLoad, i := 0);
      }
    }

    method WaitNext(t: nat)
      requires At(t, WaitLoad)
      modifies loc
      ensures Shaped() && View() == WaitLoadStep(old(View()), t)
    {
      var i := loc[t].i;
      if i < n {
        if i == t || ctr[i] % 2 == 0 {
          loc[t] := loc[t].(i := i + 1);
        } else {
          loc[t] := loc[t].(pc := WaitSpin, seen := ctr[i]);
        }
      } else {
        loc[t] := loc[t].(pc := Detach);
      }
    }

    method Spin(t: nat)
      requires At(t, WaitSpin)
      modifies loc
      ensures Shaped() && View() == WaitSpinStep(old(View()), t)
    {
      var i := loc[t].i;
      if i < n && ctr[i] != loc[t].seen {
        loc[t] := loc[t].(pc := WaitLoad, i := i + 1);
      }
    }

    method DetachRetired(t: nat)
      requires At(t, Detach)
      modifies retired, retiredCount, loc
      ensures Shaped() && View() == DetachStep(old(View()), t)
    {
      loc[t] := loc[t].(pc := Recycle, todo := retired[t]);
      retired[t] := [];
      retiredCount[t] := 0;
    }

    method RecycleLink(t: nat)
      requires At(t, Recycle) && (|loc[t].todo| > 0 ==> 0 <= loc[t].todo[0] < |next|)
      modifies this`next, loc
      ensures Shaped() && View() == RecycleStep(old(View()), t)
    {
      if |loc[t].todo| == 0 {
        loc[t] := loc[t].(pc := Idle);
      } else {
        next := next[loc[t].todo[0] := freeHead[t]];
        loc[t] := loc[t].(pc := PushFree);
      }
    }

    method RecyclePush(t: nat)
      requires At(t, PushFree)
      modifies freeHead, freeSize, loc
      ensures Shaped() && View() == PushFreeStep(old(View()), t)
    {
      var todo := loc[t].todo;
      if |todo| > 0 {
        freeHead[t] := todo[0];
        freeSize[t] := freeSize[t] + 1;
        loc[t] := loc[t].(pc := Recycle, todo := todo[1..], insertions := loc[t].insertions + 1);
      }
    }

    // ---- any thread, any schedule --------------------------------------------------------------

    /** Every pointer that thread t's next access follows is a node. */
    ghost predicate Safe(t: nat)
      reads this, freeHead, loc
    {
      && Shaped() && t < n
      && (Through(loc[t]).Some? ==> 0 <= Through(loc[t]).value < |next|)
      && (freeHead[t] != NULL ==> 0 <= freeHead[t] < |next|)
    }

    lemma ValidIsSafe(t: nat)
      requires Valid() && t < n
      ensures Safe(t)
    {
      if Through(loc[t]).Some? { ThroughIsAllocated(View(), hist, t); }
      assert TopAt(View().h, hist.l, t);
      if |hist.l.free[t]| > 0 { assert SlotAt(View().h, hist.l, t, |hist.l.free[t]| - 1); }
    }

    method StepEnq(t: nat, c: Choice)
      requires Safe(t)
      requires var pc := loc[t].pc;
               pc.EnqTake? || pc.EnqData? || pc.EnqClear? || pc.EnqTail? || pc.EnqNext?
               || pc.EnqCheck? || pc.EnqLink? || pc.EnqSwing?
      modifies this`tail, this`next, this`data, freeHead, freeSize, loc
      ensures Shaped() && View() == Step(old(View()), t, c)
    {
      match loc[t].pc
      case EnqTake => UpcycleNode(t);
      case EnqData => StoreData(t);
      case EnqClear => ClearNext(t);
      case EnqTail => EnqLoadTail(t);
      case EnqNext => EnqLoadNext(t);
      case EnqCheck => EnqCompareTail(t);
      case EnqLink => LinkNode(t, c);
      case EnqSwing => SwingTail(t, c);
    }

    method StepDeq(t: nat, c: Choice)
      requires Safe(t)
      requires var pc := loc[t].pc;
               pc.DeqHead? || pc.DeqTail? || pc.DeqNext? || pc.DeqCheck? || pc.DeqData?
               || pc.DeqAdvance? || pc.DeqRetire?
      modifies this`head, retired, retiredCount, loc
      ensures Shaped() && View() == Step(old(View()), t, c)
    {
      match loc[t].pc
      case DeqHead => DeqLoadHead(t);
      case DeqTail => DeqLoadTail(t);
      case DeqNext => DeqLoadNext(t);
      case DeqCheck => DeqCompareHead(t);
      case DeqData => LoadData(t);
      case DeqAdvance => AdvanceHead(t, c);
      case DeqRetire => Retire(t);
    }

    method StepWait(t: nat, c: Choice)
      requires Safe(t)
      requires loc[t].pc.WaitLoad? || loc[t].pc.WaitSpin?
      modifies loc
      ensures Shaped() && View() == Step(old(View()), t, c)
    {
      if loc[t].pc.WaitLoad? { WaitNext(t); } else { Spin(t); }
    }

    method StepEnd(t: nat, c: Choice)
      requires Safe(t)
      requires var pc := loc[t].pc; pc.OpEnd? || pc.Detach? || pc.Recycle? || pc.PushFree?
      modifies this`next, freeHead, freeSize, ctr, retired, retiredCount, loc
      ensures Shaped() && View() == Step(old(View()), t, c)
    {
      match loc[t].pc
      case OpEnd => OpEnds(t);
      case Detach => DetachRetired(t);
      case Recycle => RecycleLink(t);
      case PushFree => RecyclePush(t);
    }

    method StepAny(t: nat, c: Choice)
      requires Safe(t)
      modifies this`head, this`tail, this`next, this`data, freeHead, freeSize, ctr, retired, retiredCount, loc
      ensures Shaped() && View() == Step(old(View()), t, c)
    {
      match loc[t].pc
      case Idle => Call(t, c);
      case EnqBegin => OpBegin(t, EnqTake);
      case EnqHelp => HelpTail(t, c, EnqTail);
      case EnqTake | EnqData | EnqClear | EnqTail | EnqNext | EnqCheck | EnqLink | EnqSwing => StepEnq(t, c);
      case DeqBegin => OpBegin(t, DeqHead);
      case DeqHelp => HelpTail(t, c, DeqHead);
      case DeqHead | DeqTail | DeqNext | DeqCheck | DeqData | DeqAdvance | DeqRetire => StepDeq(t, c);
      case WaitLoad | WaitSpin => StepWait(t, c);
      case OpEnd | Detach | Recycle | PushFree => StepEnd(t, c);
    }

    /** Thread t makes its next access. */
    method Act(t: nat, c: Choice)
      requires Valid() && t < n
      modifies this, freeHead, freeSize, ctr, retired, retiredCount, loc
      ensures Valid()
      ensures View() == Step(old(View()), t, c) && hist == Note(old(View()), old(hist), t, c)
    {
      ghost var s, g := View(), hist;
      ValidIsSafe(t);
      StepAny(t, c);
      StepKeepsInv(s, g, t, c);
      hist := Note(s, g, t, c);
    }
  }

  /** `destroy_queue` on an idle queue frees every node ever allocated exactly once. */
  method DestroyQueue(q: Queue) returns (freed: seq<Ptr>)
    requires q.Valid() && forall t: nat | t < q.n :: q.loc[t].pc.Idle?
    ensures forall a :: multiset(freed)[a] == if 0 <= a < |q.next| then 1 else 0
  {
    ghost var l := q.hist.l;
    forall t: nat | t < q.n ensures l.hand[t] == NULL && l.taken[t] == -1 { assert Knows(q.View(), q.hist, t); }
    freed := Teardown.FreeAll(q.Memory(), l, q.n);
    for i := 0 to q.n
      invariant freed == NodeLists.Everything(q.Memory(), Teardown.Nothing(q.n))
    {
      assert Knows(q.View(), q.hist, i);
      freed := freed + q.retired[i];
    }
    forall a ensures multiset(freed)[a] == if 0 <= a < |q.next| then 1 else 0 {
      Teardown.EverythingOnce(q.Memory(), l, q.n, a);
    }
  }

  /** A fresh queue driven by any schedule ends in the state the state machine predicts, so every
      theorem about runs is a theorem about this object. */
  method Execute(n: nat, sched: seq<Move>) returns (q: Queue)
    requires Schedule(n, sched)
    ensures q.Valid() && q.n == n
    ensures q.View() == Run(n, sched).0 && q.hist == Run(n, sched).1
  {
    q := new Queue(n);
    for k := 0 to |sched|
      invariant q.Valid() && q.n == n
      invariant fresh(q) && fresh(q.freeHead) && fresh(q.freeSize) && fresh(q.ctr) && fresh(q.retired)
                && fresh(q.retiredCount) && fresh(q.loc)
      invariant (q.View(), q.hist) == Run(n, sched[..k])
    {
      q.Act(sched[k].t, sched[k].c);
      LaterIsOneStep(n, sched, k + 1);
    }
    assert sched[..|sched|] == sched;
  }
}
