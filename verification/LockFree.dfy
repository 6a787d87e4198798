/** The lock-free queue as a state machine: N threads, one shared access of one thread per step,
    sequentially consistent memory.  `Step` is what the program does; `Note` keeps the bookkeeping
    that the proofs speak about and that no step ever reads. */
module LockFree {
  import opened NodePool
  import opened Fifo

  /** Where a thread stands: each name is the access it makes next. */
  datatype Pc =
    | Idle
    | EnqBegin | EnqTake | EnqData | EnqClear | EnqTail | EnqNext | EnqCheck | EnqLink | EnqSwing | EnqHelp
    | DeqBegin | DeqHead | DeqTail | DeqNext | DeqCheck | DeqHelp | DeqData | DeqAdvance | DeqRetire
    | OpEnd | WaitLoad | WaitSpin | Detach | Recycle | PushFree

  /** A thread's local variables, with the two counters the caller passes in. */
  datatype Local = Local(
    pc: Pc, arg: int, node: Ptr, first: Ptr, last: Ptr, next: Ptr, val: int, code: int,
    i: nat, seen: nat, todo: seq<Ptr>, failedCas: nat, insertions: nat)

  datatype State = State(
    h: Heap, ctr: seq<nat>, retired: seq<seq<Ptr>>, retiredCount: seq<int>, loc: seq<Local>)

  /** What the environment decides: whether a weak compare-exchange fails for no reason, and what an
      idle thread calls. */
  datatype Choice = Choice(spurious: bool, call: Call)

  predicate WellSized(s: State) {
    |s.h.freeHead| == |s.h.freeSize| == |s.ctr| == |s.retired| == |s.retiredCount| == |s.loc|
  }

  predicate Thread(s: State, t: nat) { WellSized(s) && t < |s.loc| }

  /** Of what belongs to threads, only t's changed. */
  predicate OnlyThread(s: State, r: State, t: nat) {
    && Thread(s, t) && Thread(r, t)
    && r.loc == s.loc[t := r.loc[t]] && r.ctr == s.ctr[t := r.ctr[t]]
    && r.retired == s.retired[t := r.retired[t]] && r.retiredCount == s.retiredCount[t := r.retiredCount[t]]
  }

  /** The thread is in `mm_op_end`, waiting and recycling. */
  predicate Reclaiming(pc: Pc) { pc.WaitLoad? || pc.WaitSpin? || pc.Detach? || pc.Recycle? || pc.PushFree? }

  /** The thread is between `mm_op_begin` and the increment of `mm_op_end`. */
  predicate InOp(pc: Pc) {
    !pc.Idle? && !pc.EnqBegin? && !pc.DeqBegin? && !Reclaiming(pc)
  }

  predicate Odd(x: nat) { x % 2 == 1 }

  predicate CasOk(current: Ptr, expected: Ptr, c: Choice) { current == expected && !c.spurious }

  function Put(s: State, t: nat, x: Local): (r: State)
    requires Thread(s, t)
    ensures OnlyThread(s, r, t)
  {
    s.(loc := s.loc[t := x])
  }

  function PutHeap(s: State, t: nat, x: Local, h: Heap): (r: State)
    requires Thread(s, t) && |h.freeHead| == |h.freeSize| == |s.loc|
    ensures OnlyThread(s, r, t)
  {
    s.(loc := s.loc[t := x], h := h)
  }

  /** The loop is tried again after a failed compare-exchange. */
  function Fail(x: Local, pc: Pc): Local { x.(pc := pc, failedCas := x.failedCas + 1) }

  /** Begin a call: an idle thread is asked to enqueue or dequeue. */
  function CallStep(s: State, t: nat, c: Choice): (r: State)
    requires Thread(s, t)
    ensures OnlyThread(s, r, t)
  {
    match c.call
    case Enq(v) => Put(s, t, s.loc[t].(pc := EnqBegin, arg := v))
    case Deq => Put(s, t, s.loc[t].(pc := DeqBegin))
  }

  /** `mm_op_begin`: the counter becomes odd. */
  function BeginStep(s: State, t: nat, pc: Pc): (r: State)
    requires Thread(s, t)
    ensures OnlyThread(s, r, t)
  {
    Put(s, t, s.loc[t].(pc := pc)).(ctr := s.ctr[t := s.ctr[t] + 1])
  }

  function EnqTakeStep(s: State, t: nat): (r: State)
    requires Thread(s, t)
    ensures OnlyThread(s, r, t)
  {
    PutHeap(s, t, s.loc[t].(pc := EnqData, node := TakenNode(s.h, t)), Take(s.h, t, 0, NULL))
  }

  function EnqDataStep(s: State, t: nat): (r: State)
    requires Thread(s, t)
    ensures OnlyThread(s, r, t)
  {
    PutHeap(s, t, s.loc[t].(pc := EnqClear), SetData(s.h, s.loc[t].node, s.loc[t].arg))
  }

  function EnqClearStep(s: State, t: nat): (r: State)
    requires Thread(s, t)
    ensures OnlyThread(s, r, t)
  {
    PutHeap(s, t, s.loc[t].(pc := EnqTail), SetNext(s.h, s.loc[t].node, NULL))
  }

  function EnqTailStep(s: State, t: nat): (r: State)
    requires Thread(s, t)
    ensures OnlyThread(s, r, t)
  {
    Put(s, t, s.loc[t].(pc := EnqNext, last := s.h.tail))
  }

  function EnqNextStep(s: State, t: nat): (r: State)
    requires Thread(s, t)
    ensures OnlyThread(s, r, t)
  {
    Put(s, t, s.loc[t].(pc := EnqCheck, next := Next(s.h, s.loc[t].last)))
  }

  function EnqCheckStep(s: State, t: nat): (r: State)
    requires Thread(s, t)
    ensures OnlyThread(s, r, t)
  {
    var x := s.loc[t];
    Put(s, t, x.(pc := if x.last != s.h.tail then EnqTail else if x.next == NULL then EnqLink else EnqHelp))
  }

  function EnqLinkStep(s: State, t: nat, c: Choice): (r: State)
    requires Thread(s, t)
    ensures OnlyThread(s, r, t)
  {
    var x := s.loc[t];
    if CasOk(Next(s.h, x.last), NULL, c) then PutHeap(s, t, x.(pc := EnqSwing), SetNext(s.h, x.last, x.node))
    else Put(s, t, Fail(x, EnqTail))
  }

  function EnqSwingStep(s: State, t: nat, c: Choice): (r: State)
    requires Thread(s, t)
    ensures OnlyThread(s, r, t)
  {
    var x := s.loc[t];
    if CasOk(s.h.tail, x.last, c) then PutHeap(s, t, x.(pc := OpEnd, code := 1), s.h.(tail := x.node))
    else Put(s, t, Fail(x, OpEnd).(code := 1))
  }

  /** Help a lagging tail forward, in either loop. */
  function HelpStep(s: State, t: nat, c: Choice, pc: Pc): (r: State)
    requires Thread(s, t)
    ensures OnlyThread(s, r, t)
  {
    var x := s.loc[t];
    if CasOk(s.h.tail, x.last, c) then PutHeap(s, t, x.(pc := pc), s.h.(tail := x.next))
    else Put(s, t, Fail(x, pc))
  }

  function DeqHeadStep(s: State, t: nat): (r: State)
    requires Thread(s, t)
    ensures OnlyThread(s, r, t)
  {
    Put(s, t, s.loc[t].(pc := DeqTail, first := s.h.head))
  }

  function DeqTailStep(s: State, t: nat): (r: State)
    requires Thread(s, t)
    ensures OnlyThread(s, r, t)
  {
    Put(s, t, s.loc[t].(pc := DeqNext, last := s.h.tail))
  }

  function DeqNextStep(s: State, t: nat): (r: State)
    requires Thread(s, t)
    ensures OnlyThread(s, r, t)
  {
    Put(s, t, s.loc[t].(pc := DeqCheck, next := Next(s.h, s.loc[t].first)))
  }

  function DeqCheckStep(s: State, t: nat): (r: State)
    requires Thread(s, t)
    ensures OnlyThread(s, r, t)
  {
    var x := s.loc[t];
    if x.first != s.h.head then Put(s, t, x.(pc := DeqHead))
    else if x.first != x.last then Put(s, t, x.(pc := DeqData))
    else if x.next != NULL then Put(s, t, x.(pc := DeqHelp))
    else Put(s, t, x.(pc := OpEnd, code := 0))
  }

  function DeqDataStep(s: State, t: nat): (r: State)
    requires Thread(s, t)
    ensures OnlyThread(s, r, t)
  {
    Put(s, t, s.loc[t].(pc := DeqAdvance, val := Data(s.h, s.loc[t].next)))
  }

  function DeqAdvanceStep(s: State, t: nat, c: Choice): (r: State)
    requires Thread(s, t)
    ensures OnlyThread(s, r, t)
  {
    var x := s.loc[t];
    if CasOk(s.h.head, x.first, c) then PutHeap(s, t, x.(pc := DeqRetire), s.h.(head := x.next))
    else Put(s, t, Fail(x, DeqHead))
  }

  /** `mm_retire`. */
  function DeqRetireStep(s: State, t: nat): (r: State)
    requires Thread(s, t)
    ensures OnlyThread(s, r, t)
  {
    Put(s, t, s.loc[t].(pc := OpEnd, code := 1)).(
      retired := s.retired[t := [s.loc[t].first] + s.retired[t]],
      retiredCount := s.retiredCount[t := s.retiredCount[t] + 1])
  }

  /** `mm_op_end`: the counter becomes even; without retired nodes the call returns. */
  function OpEndStep(s: State, t: nat): (r: State)
    requires Thread(s, t)
    ensures OnlyThread(s, r, t)
  {
    var x := s.loc[t];
    Put(s, t, if s.retiredCount[t] == 0 then x.(pc := Idle) else x.(pc := WaitLoad, i := 0)).(
      ctr := s.ctr[t := s.ctr[t] + 1])
  }

  /** `mm_wait_until_unreserved`: look at the next thread's counter. */
  function WaitLoadStep(s: State, t: nat): (r: State)
    requires Thread(s, t)
    ensures OnlyThread(s, r, t)
  {
    var x := s.loc[t];
    if x.i >= |s.ctr| then Put(s, t, x.(pc := Detach))
    else if x.i == t || !Odd(s.ctr[x.i]) then Put(s, t, x.(i := x.i + 1))
    else Put(s, t, x.(pc := WaitSpin, seen := s.ctr[x.i]))
  }

  /** The thread is turning in the busy wait. */
  predicate Blocked(s: State, t: nat)
    requires Thread(s, t)
  {
    var x := s.loc[t];
    x.pc.WaitSpin? && x.i < |s.ctr| && s.ctr[x.i] == x.seen
  }

  /** One turn of the busy wait. */
  function WaitSpinStep(s: State, t: nat): (r: State)
    requires Thread(s, t)
    ensures OnlyThread(s, r, t)
  {
    var x := s.loc[t];
    if x.i >= |s.ctr| || s.ctr[x.i] == x.seen then s else Put(s, t, x.(pc := WaitLoad, i := x.i + 1))
  }

  /** `mm_reclaim_all` takes the retired list. */
  function DetachStep(s: State, t: nat): (r: State)
    requires Thread(s, t)
    ensures OnlyThread(s, r, t)
  {
    Put(s, t, s.loc[t].(pc := Recycle, todo := s.retired[t])).(
      retired := s.retired[t := []], retiredCount := s.retiredCount[t := 0])
  }

  /** The loop of `mm_reclaim_all`: return, or `recycle_node` overwrites the next node's link. */
  function RecycleStep(s: State, t: nat): (r: State)
    requires Thread(s, t)
    ensures OnlyThread(s, r, t)
  {
    var x := s.loc[t];
    if |x.todo| == 0 then Put(s, t, x.(pc := Idle))
    else PutHeap(s, t, x.(pc := PushFree), SetNext(s.h, x.todo[0], s.h.freeHead[t]))
  }

  /** `recycle_node` puts the node on the free list. */
  function PushFreeStep(s: State, t: nat): (r: State)
    requires Thread(s, t)
    ensures OnlyThread(s, r, t)
  {
    var x := s.loc[t];
    if |x.todo| == 0 then s
    else PutHeap(s, t, x.(pc := Recycle, todo := x.todo[1..], insertions := x.insertions + 1), Push(s.h, t, x.todo[0]))
  }

  /** One step of thread t. */
  function Step(s: State, t: nat, c: Choice): (r: State)
    requires Thread(s, t)
    ensures OnlyThread(s, r, t)
  {
    match s.loc[t].pc
    case Idle => CallStep(s, t, c)
    case EnqBegin => BeginStep(s, t, EnqTake)
    case EnqTake => EnqTakeStep(s, t)
    case EnqData => EnqDataStep(s, t)
    case EnqClear => EnqClearStep(s, t)
    case EnqTail => EnqTailStep(s, t)
    case EnqNext => EnqNextStep(s, t)
    case EnqCheck => EnqCheckStep(s, t)
    case EnqLink => EnqLinkStep(s, t, c)
    case EnqSwing => EnqSwingStep(s, t, c)
    case EnqHelp => HelpStep(s, t, c, EnqTail)
    case DeqBegin => BeginStep(s, t, DeqHead)
    case DeqHead => DeqHeadStep(s, t)
    case DeqTail => DeqTailStep(s, t)
    case DeqNext => DeqNextStep(s, t)
    case DeqCheck => DeqCheckStep(s, t)
    case DeqHelp => HelpStep(s, t, c, DeqHead)
    case DeqData => DeqDataStep(s, t)
    case DeqAdvance => DeqAdvanceStep(s, t, c)
    case DeqRetire => DeqRetireStep(s, t)
    case OpEnd => OpEndStep(s, t)
    case WaitLoad => WaitLoadStep(s, t)
    case WaitSpin => WaitSpinStep(s, t)
    case Detach => DetachStep(s, t)
    case Recycle => RecycleStep(s, t)
    case PushFree => PushFreeStep(s, t)
  }

  /** What a step means to an observer of the queue. */
  function Emit(s: State, t: nat, c: Choice): (e: Event)
    requires Thread(s, t)
    ensures e.t == t
  {
    var x, h := s.loc[t], s.h;
    match x.pc
    case Idle => Invoke(t, c.call)
    case EnqLink => if CasOk(Next(h, x.last), NULL, c) then Append(t, Data(h, x.node)) else Internal(t)
    case DeqNext => if Next(h, x.first) == NULL then SawEmpty(t) else Internal(t)
    case DeqAdvance => if CasOk(h.head, x.first, c) then Remove(t, x.val) else Internal(t)
    case OpEnd => if s.retiredCount[t] == 0 then Return(t, x.code, x.val) else Internal(t)
    case Recycle => if |x.todo| == 0 then Return(t, x.code, x.val) else Internal(t)
    case _ => Internal(t)
  }

  // ---- bookkeeping ---------------------------------------------------------------------------

  /** Per thread: the position of head when the operation began, the positions last read from head
      and tail, and the tallies behind the progress argument. */
  datatype Mark = Mark(base: nat, fi: nat, li: nat, began: nat, round: nat, restarts: nat, spurious: nat)

  datatype History = History(l: Ledger, marks: seq<Mark>, log: seq<Event>)

  /** How often head, tail or a link has changed. */
  function Changed(l: Ledger): nat { l.hi + l.ti + |l.chain| }

  /** The compare-exchange of this step finds its value and fails all the same. */
  predicate Spurious(s: State, t: nat, c: Choice)
    requires Thread(s, t)
  {
    var x, h := s.loc[t], s.h;
    c.spurious &&
    match x.pc
    case EnqLink => Next(h, x.last) == NULL
    case EnqHelp => h.tail == x.last
    case DeqHelp => h.tail == x.last
    case DeqAdvance => h.head == x.first
    case _ => false
  }

  predicate NoteSized(s: State, g: History) {
    && WellSized(s)
    && |g.marks| == |s.loc| == |g.l.hand| == |g.l.taken| == |g.l.free|
  }

  function NoteLedger(s: State, l: Ledger, m: Mark, t: nat, c: Choice): Ledger
    requires Thread(s, t) && |s.loc| == |l.hand| == |l.taken| == |l.free|
  {
    var x, h := s.loc[t], s.h;
    match x.pc
    case EnqTake => NoteTake(h, l, t)
    case EnqLink => if CasOk(Next(h, x.last), NULL, c) then NoteLink(l, t, Data(h, x.node)) else l
    case EnqSwing => if CasOk(h.tail, x.last, c) then l.(ti := m.li + 1) else l
    case EnqHelp => if CasOk(h.tail, x.last, c) then l.(ti := m.li + 1) else l
    case DeqHelp => if CasOk(h.tail, x.last, c) then l.(ti := m.li + 1) else l
    case DeqAdvance => if CasOk(h.head, x.first, c) then NoteMoveHead(l, t) else l
    case Recycle => if |x.todo| == 0 then l else NoteClaim(l, t)
    case PushFree => if |x.todo| == 0 then l else NotePush(l, t)
    case _ => l
  }

  /** A step that may send the thread back to the top of its loop. */
  predicate MayRestart(pc: Pc) {
    || pc.EnqCheck? || pc.EnqLink? || pc.EnqHelp?
    || pc.DeqCheck? || pc.DeqHelp? || pc.DeqAdvance?
  }

  function BeginMark(l: Ledger, m: Mark): Mark { m.(base := l.hi, began := Changed(l), restarts := 0, spurious := 0) }

  /** After a step that may have sent the thread back to the top of its loop. */
  function TryMark(m: Mark, pc': Pc, spurious: bool): Mark {
    m.(restarts := m.restarts + if pc'.EnqTail? || pc'.DeqHead? then 1 else 0,
       spurious := m.spurious + if spurious then 1 else 0)
  }

  function NoteMark(pc: Pc, pc': Pc, spurious: bool, l: Ledger, m: Mark): Mark {
    if pc.EnqBegin? || pc.DeqBegin? then BeginMark(l, m)
    else if pc.EnqTail? then m.(li := l.ti, round := Changed(l))
    else if pc.DeqHead? then m.(fi := l.hi, round := Changed(l))
    else if pc.DeqTail? then m.(li := l.ti)
    else if MayRestart(pc) then TryMark(m, pc', spurious)
    else m
  }

  function Noted(g: History, t: nat, l: Ledger, m: Mark, e: Event): (g': History)
    requires t < |g.marks|
    ensures |g'.marks| == |g.marks|
  {
    History(l, g.marks[t := m], g.log + [e])
  }

  function Note(s: State, g: History, t: nat, c: Choice): (g': History)
    requires NoteSized(s, g) && t < |s.loc|
    ensures g'.log == g.log + [Emit(s, t, c)] && |g'.marks| == |g.marks| && g'.marks == g.marks[t := g'.marks[t]]
  {
    Noted(g, t, NoteLedger(s, g.l, g.marks[t], t, c),
          NoteMark(s.loc[t].pc, Step(s, t, c).loc[t].pc, Spurious(s, t, c), g.l, g.marks[t]),
          Emit(s, t, c))
  }

  // ---- runs ----------------------------------------------------------------------------------

  /** `init_queue` with n threads: one dummy node. */
  function Init(n: nat): State {
    State(Heap(0, 0, [NULL], [0], seq(n, _ => NULL), seq(n, _ => 0)),
          seq(n, _ => 0), seq(n, _ => []), seq(n, _ => 0),
          seq(n, _ => Local(Idle, 0, NULL, NULL, NULL, NULL, 0, 0, 0, 0, [], 0, 0)))
  }

  function InitHistory(n: nat): History {
    History(Ledger([0], [0], 0, 0, [Live], [Position(0)], seq(n, _ => []), seq(n, _ => NULL), seq(n, _ => -1)),
            seq(n, _ => Mark(0, 0, 0, 0, 0, 0, 0)), [])
  }

  datatype Move = Move(t: nat, c: Choice)

  predicate Schedule(n: nat, sched: seq<Move>) { forall i | 0 <= i < |sched| :: sched[i].t < n }
}
