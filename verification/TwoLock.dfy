/** The two-lock queue as a state machine: one shared access of one thread per step.  A lock is a
    field that names its holder.  `late` selects where a dequeuer recycles the old sentinel: before
    releasing the dequeue lock, as the program does, or after, as its comment proposes. */
module TwoLock {
  import opened NodePool
  import opened Fifo

  datatype Pc =
    | Idle
    | EnqLock | EnqTake | EnqData | EnqClear | EnqLink | EnqSwing | EnqUnlock
    | DeqLock | DeqHead | DeqNext | DeqTest | DeqData | DeqMove | DeqPeek
    | TailLock | TailPeek | TailFix | TailUnlock
    | Recycle | PushFree | DeqUnlock

  datatype Local = Local(pc: Pc, arg: int, node: Ptr, first: Ptr, next: Ptr, val: int, code: int, insertions: nat)

  const FREE: int := -1

  datatype State = State(h: Heap, enqLock: int, deqLock: int, loc: seq<Local>)

  /** The environment: what an idle thread calls, whether an allocation fails, and what a fresh
      allocation contains. */
  datatype Choice = Choice(call: Call, noMemory: bool, junkData: int, junkNext: Ptr)

  predicate WellSized(s: State) { |s.h.freeHead| == |s.h.freeSize| == |s.loc| }

  predicate Thread(s: State, t: nat) { WellSized(s) && t < |s.loc| }

  predicate OnlyThread(s: State, r: State, t: nat) {
    Thread(s, t) && Thread(r, t) && r.loc == s.loc[t := r.loc[t]]
  }

  function Put(s: State, t: nat, x: Local): (r: State)
    requires Thread(s, t)
    ensures OnlyThread(s, r, t)
  {
    s.(loc := s.loc[t := x])
  }

  function PutHeap(s: State, t: nat, x: Local, h: Heap): (r: State)
    requires Thread(s, t) && |h.freeHead| == |h.freeSize| == |s.loc|
    ensures OnlyThread(s, r, t)
  {
    s.(loc := s.loc[t := x], h := h)
  }

  function Goto(s: State, t: nat, pc: Pc): (r: State)
    requires Thread(s, t)
    ensures OnlyThread(s, r, t)
  {
    Put(s, t, s.loc[t].(pc := pc))
  }

  function CallStep(s: State, t: nat, c: Choice): (r: State)
    requires Thread(s, t)
    ensures OnlyThread(s, r, t)
  {
    match c.call
    case Enq(v) => Put(s, t, s.loc[t].(pc := EnqLock, arg := v))
    case Deq => Goto(s, t, DeqLock)
  }

  /** `omp_set_lock` of the enqueue lock; a thread that finds it taken stays where it is. */
  function LockEnqStep(s: State, t: nat, pc: Pc): (r: State)
    requires Thread(s, t)
    ensures OnlyThread(s, r, t)
  {
    if s.enqLock == FREE then Goto(s, t, pc).(enqLock := t) else s
  }

  function LockDeqStep(s: State, t: nat, pc: Pc): (r: State)
    requires Thread(s, t)
    ensures OnlyThread(s, r, t)
  {
    if s.deqLock == FREE then Goto(s, t, pc).(deqLock := t) else s
  }

  function EnqTakeStep(s: State, t: nat, c: Choice): (r: State)
    requires Thread(s, t)
    ensures OnlyThread(s, r, t)
  {
    if s.h.freeHead[t] == NULL && c.noMemory then Put(s, t, s.loc[t].(pc := EnqUnlock, code := 0))
    else PutHeap(s, t, s.loc[t].(pc := EnqData, node := TakenNode(s.h, t)), Take(s.h, t, c.junkData, c.junkNext))
  }

  function EnqDataStep(s: State, t: nat): (r: State)
    requires Thread(s, t)
    ensures OnlyThread(s, r, t)
  {
    PutHeap(s, t, s.loc[t].(pc := EnqClear), SetData(s.h, s.loc[t].node, s.loc[t].arg))
  }

  function EnqClearStep(s: State, t: nat): (r: State)
    requires Thread(s, t)
    ensures OnlyThread(s, r, t)
  {
    PutHeap(s, t, s.loc[t].(pc := EnqLink), SetNext(s.h, s.loc[t].node, NULL))
  }

  /** `Q->tail->next = new_node` */
  function EnqLinkStep(s: State, t: nat): (r: State)
    requires Thread(s, t)
    ensures OnlyThread(s, r, t)
  {
    PutHeap(s, t, s.loc[t].(pc := EnqSwing), SetNext(s.h, s.h.tail, s.loc[t].node))
  }

  /** `Q->tail = new_node` */
  function EnqSwingStep(s: State, t: nat): (r: State)
    requires Thread(s, t)
    ensures OnlyThread(s, r, t)
  {
    PutHeap(s, t, s.loc[t].(pc := EnqUnlock, code := 1), s.h.(tail := s.loc[t].node))
  }

  function DeqHeadStep(s: State, t: nat): (r: State)
    requires Thread(s, t)
    ensures OnlyThread(s, r, t)
  {
    Put(s, t, s.loc[t].(pc := DeqNext, first := s.h.head))
  }

  function DeqNextStep(s: State, t: nat): (r: State)
    requires Thread(s, t)
    ensures OnlyThread(s, r, t)
  {
    Put(s, t, s.loc[t].(pc := DeqTest, next := Next(s.h, s.loc[t].first)))
  }

  function DeqTestStep(s: State, t: nat): (r: State)
    requires Thread(s, t)
    ensures OnlyThread(s, r, t)
  {
    if s.loc[t].next == NULL then Put(s, t, s.loc[t].(pc := DeqUnlock, code := 0)) else Goto(s, t, DeqData)
  }

  function DeqDataStep(s: State, t: nat): (r: State)
    requires Thread(s, t)
    ensures OnlyThread(s, r, t)
  {
    Put(s, t, s.loc[t].(pc := DeqMove, val := Data(s.h, s.loc[t].next)))
  }

  /** `Q->head = next` */
  function DeqMoveStep(s: State, t: nat): (r: State)
    requires Thread(s, t)
    ensures OnlyThread(s, r, t)
  {
    PutHeap(s, t, s.loc[t].(pc := DeqPeek, code := 1), s.h.(head := s.loc[t].next))
  }

  /** Where a dequeuer goes once the tail cannot be at its sentinel any more. */
  function Onwards(late: bool): Pc { if late then DeqUnlock else Recycle }

  /** The first `if (Q->head->next == NULL)`. */
  function DeqPeekStep(s: State, t: nat, late: bool): (r: State)
    requires Thread(s, t)
    ensures OnlyThread(s, r, t)
  {
    Goto(s, t, if Next(s.h, s.h.head) == NULL then TailLock else Onwards(late))
  }

  /** The second one, under the enqueue lock. */
  function TailPeekStep(s: State, t: nat): (r: State)
    requires Thread(s, t)
    ensures OnlyThread(s, r, t)
  {
    Goto(s, t, if Next(s.h, s.h.head) == NULL then TailFix else TailUnlock)
  }

  /** `Q->tail = Q->head` */
  function TailFixStep(s: State, t: nat): (r: State)
    requires Thread(s, t)
    ensures OnlyThread(s, r, t)
  {
    PutHeap(s, t, s.loc[t].(pc := TailUnlock), s.h.(tail := s.h.head))
  }

  function UnlockEnqStep(s: State, t: nat, pc: Pc): (r: State)
    requires Thread(s, t)
    ensures OnlyThread(s, r, t)
  {
    Goto(s, t, pc).(enqLock := FREE)
  }

  function RecycleStep(s: State, t: nat): (r: State)
    requires Thread(s, t)
    ensures OnlyThread(s, r, t)
  {
    PutHeap(s, t, s.loc[t].(pc := PushFree), SetNext(s.h, s.loc[t].first, s.h.freeHead[t]))
  }

  function PushFreeStep(s: State, t: nat, late: bool): (r: State)
    requires Thread(s, t)
    ensures OnlyThread(s, r, t)
  {
    var x := s.loc[t];
    PutHeap(s, t, x.(pc := if late then Idle else DeqUnlock, insertions := x.insertions + 1), Push(s.h, t, x.first))
  }

  function UnlockDeqStep(s: State, t: nat, late: bool): (r: State)
    requires Thread(s, t)
    ensures OnlyThread(s, r, t)
  {
    Goto(s, t, if late && s.loc[t].code == 1 then Recycle else Idle).(deqLock := FREE)
  }

  function Step(s: State, t: nat, c: Choice, late: bool): (r: State)
    requires Thread(s, t)
    ensures OnlyThread(s, r, t)
  {
    match s.loc[t].pc
    case Idle => CallStep(s, t, c)
    case EnqLock => LockEnqStep(s, t, EnqTake)
    case EnqTake => EnqTakeStep(s, t, c)
    case EnqData => EnqDataStep(s, t)
    case EnqClear => EnqClearStep(s, t)
    case EnqLink => EnqLinkStep(s, t)
    case EnqSwing => EnqSwingStep(s, t)
    case EnqUnlock => UnlockEnqStep(s, t, Idle)
    case DeqLock => LockDeqStep(s, t, DeqHead)
    case DeqHead => DeqHeadStep(s, t)
    case DeqNext => DeqNextStep(s, t)
    case DeqTest => DeqTestStep(s, t)
    case DeqData => DeqDataStep(s, t)
    case DeqMove => DeqMoveStep(s, t)
    case DeqPeek => DeqPeekStep(s, t, late)
    case TailLock => LockEnqStep(s, t, TailPeek)
    case TailPeek => TailPeekStep(s, t)
    case TailFix => TailFixStep(s, t)
    case TailUnlock => UnlockEnqStep(s, t, Onwards(late))
    case Recycle => RecycleStep(s, t)
    case PushFree => PushFreeStep(s, t, late)
    case DeqUnlock => UnlockDeqStep(s, t, late)
  }

  function Emit(s: State, t: nat, c: Choice, late: bool): (e: Event)
    requires Thread(s, t)
    ensures e.t == t
  {
    var x := s.loc[t];
    match x.pc
    case Idle => Invoke(t, c.call)
    case EnqLink => Append(t, Data(s.h, x.node))
    case EnqUnlock => Return(t, x.code, x.val)
    case DeqNext => if Next(s.h, x.first) == NULL then SawEmpty(t) else Internal(t)
    case DeqMove => Remove(t, x.val)
    case PushFree => if late then Return(t, x.code, x.val) else Internal(t)
    case DeqUnlock => if late && x.code == 1 then Internal(t) else Return(t, x.code, x.val)
    case _ => Internal(t)
  }

  // ---- bookkeeping ---------------------------------------------------------------------------

  datatype History = History(l: Ledger, log: seq<Event>)

  predicate NoteSized(s: State, g: History) {
    WellSized(s) && |s.loc| == |g.l.hand| == |g.l.taken| == |g.l.free|
  }

  function NoteLedger(s: State, l: Ledger, t: nat, c: Choice): Ledger
    requires Thread(s, t) && |s.loc| == |l.hand| == |l.taken| == |l.free|
  {
    match s.loc[t].pc
    case EnqTake => if s.h.freeHead[t] == NULL && c.noMemory then l else NoteTake(s.h, l, t)
    case EnqLink => NoteLink(l, t, Data(s.h, s.loc[t].node))
    case EnqSwing => l.(ti := l.ti + 1)
    case DeqMove => NoteMoveHead(l, t)
    case TailFix => l.(ti := l.hi)
    case Recycle => NoteClaim(l, t)
    case PushFree => NotePush(l, t)
    case _ => l
  }

  function Note(s: State, g: History, t: nat, c: Choice, late: bool): (g': History)
    requires NoteSized(s, g) && t < |s.loc|
    ensures g'.log == g.log + [Emit(s, t, c, late)]
  {
    History(NoteLedger(s, g.l, t, c), g.log + [Emit(s, t, c, late)])
  }

  // ---- runs ----------------------------------------------------------------------------------

  /** `init_queue` with n threads; the dummy node carries 0. */
  function Init(n: nat): State {
    State(Heap(0, 0, [NULL], [0], seq(n, _ => NULL), seq(n, _ => 0)), FREE, FREE,
          seq(n, _ => Local(Idle, 0, NULL, NULL, NULL, 0, 0, 0)))
  }

  function InitHistory(n: nat): History {
    History(Ledger([0], [0], 0, 0, [Live], [Position(0)], seq(n, _ => []), seq(n, _ => NULL), seq(n, _ => -1)), [])
  }

  datatype Move = Move(t: nat, c: Choice)

  predicate Schedule(n: nat, sched: seq<Move>) { forall i | 0 <= i < |sched| :: sched[i].t < n }
}
