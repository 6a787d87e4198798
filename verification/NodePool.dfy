/** The memory shared by every queue of the repository: nodes in one linked chain, nodes in
    per-thread free lists, and nodes that one thread holds alone.

    `Heap` is what the C program stores.  `Ledger` is bookkeeping that the program does not have:
    because addresses are reused, it records every occurrence a node ever had in the chain, so that
    "the node at position k" stays meaningful after its address has been given to another node.
    Each elementary update of the memory is a function on heaps with a matching function on
    ledgers, and one lemma per update says that `Pool`, the agreement of the two, is kept. */
module NodePool {

  /** A node's address; the C pointer NULL is -1. */
  type Ptr = int
  const NULL: Ptr := -1

  datatype Heap = Heap(
    head: Ptr, tail: Ptr,
    next: seq<Ptr>, data: seq<int>,
    freeHead: seq<Ptr>, freeSize: seq<int>)

  /** The one place a node is in. */
  datatype Owner = Position(k: nat) | FreeSlot(t: nat, j: nat) | Hand(t: nat)

  /** What became of a chain position: still linked, unlinked by a thread that has not recycled the
      node yet, or recycled (the address may be anywhere by now). */
  datatype Stage = Live | Retired(t: nat) | Reclaimed

  datatype Ledger = Ledger(
    chain: seq<Ptr>,        // the address that was linked at each position, oldest first
    vals: seq<int>,         // and the value it carried; position 0 is the first sentinel
    hi: nat, ti: nat,       // the positions of head and tail
    stage: seq<Stage>,
    own: seq<Owner>,        // per address
    free: seq<seq<Ptr>>,    // per thread, its free list with the top last
    hand: seq<Ptr>,         // per thread, the node it holds alone, or NULL
    taken: seq<int>)        // per thread, the position it unlinked and has not recycled, or -1

  // ---- total memory access -------------------------------------------------------------------

  predicate Allocated(h: Heap, p: Ptr) { 0 <= p < |h.next| == |h.data| }

  function Next(h: Heap, p: Ptr): Ptr { if Allocated(h, p) then h.next[p] else NULL }

  function Data(h: Heap, p: Ptr): int { if Allocated(h, p) then h.data[p] else 0 }

  function SetNext(h: Heap, p: Ptr, q: Ptr): (r: Heap)
    ensures |r.next| == |h.next|
  {
    if Allocated(h, p) then h.(next := h.next[p := q]) else h
  }

  function SetData(h: Heap, p: Ptr, v: int): Heap {
    if Allocated(h, p) then h.(data := h.data[p := v]) else h
  }

  // ---- agreement of heap and ledger ----------------------------------------------------------

  predicate Sized(h: Heap, l: Ledger, n: nat) {
    && |h.next| == |h.data| == |l.own|
    && |h.freeHead| == |h.freeSize| == |l.free| == |l.hand| == |l.taken| == n
    && |l.chain| == |l.vals| == |l.stage|
    && l.hi < |l.chain| && l.ti < |l.chain|
    && h.head == l.chain[l.hi] && h.tail == l.chain[l.ti]
  }

  /** The three facts about one position: how far it got, whose it is, and what memory says. */
  predicate StageAt(l: Ledger, k: nat)
    requires k < |l.stage|
  {
    && (l.stage[k].Live? <==> l.hi <= k)
    && (l.stage[k].Retired? ==> l.stage[k].t < |l.taken| && l.taken[l.stage[k].t] == k)
  }

  function After(chain: seq<Ptr>, k: nat): Ptr { if k + 1 < |chain| then chain[k + 1] else NULL }

  /** A position that is not recycled still has its address, its value and its successor. */
  predicate LinkedAt(h: Heap, l: Ledger, k: nat)
    requires k < |l.chain| == |l.vals| == |l.stage|
    requires |h.next| == |h.data| == |l.own|
  {
    !l.stage[k].Reclaimed? ==>
      && 0 <= l.chain[k] < |l.own|
      && l.own[l.chain[k]] == Position(k)
      && h.next[l.chain[k]] == After(l.chain, k)
      && h.data[l.chain[k]] == l.vals[k]
  }

  predicate TakenAt(l: Ledger, t: nat)
    requires t < |l.taken|
  {
    l.taken[t] == -1 || (0 <= l.taken[t] < |l.stage| && l.stage[l.taken[t]] == Retired(t))
  }

  /** What lies under slot j of a free list; slot |f| is above the top. */
  function Under(f: seq<Ptr>, j: nat): Ptr
    requires j <= |f|
  {
    if j == 0 then NULL else f[j - 1]
  }

  predicate TopAt(h: Heap, l: Ledger, t: nat)
    requires t < |h.freeHead| == |h.freeSize| == |l.free|
  {
    h.freeHead[t] == Under(l.free[t], |l.free[t]|) && h.freeSize[t] == |l.free[t]|
  }

  predicate SlotAt(h: Heap, l: Ledger, t: nat, j: nat)
    requires t < |l.free| && j < |l.free[t]| && |h.next| == |l.own|
  {
    && 0 <= l.free[t][j] < |l.own|
    && l.own[l.free[t][j]] == FreeSlot(t, j)
    && h.next[l.free[t][j]] == Under(l.free[t], j)
  }

  predicate HandAt(l: Ledger, t: nat)
    requires t < |l.hand|
  {
    l.hand[t] == NULL || (0 <= l.hand[t] < |l.own| && l.own[l.hand[t]] == Hand(t))
  }

  /** An address is where its owner entry says. */
  predicate OwnerAt(l: Ledger, a: nat)
    requires a < |l.own| && |l.stage| == |l.chain|
  {
    match l.own[a]
    case Position(k) => k < |l.chain| && l.chain[k] == a && !l.stage[k].Reclaimed?
    case FreeSlot(t, j) => t < |l.free| && j < |l.free[t]| && l.free[t][j] == a
    case Hand(t) => t < |l.hand| && l.hand[t] == a
  }

  ghost predicate Pool(h: Heap, l: Ledger, n: nat) {
    && Sized(h, l, n)
    && (forall k: nat | k < |l.chain| :: StageAt(l, k))
    && (forall k: nat | k < |l.chain| :: LinkedAt(h, l, k))
    && (forall t: nat | t < n :: TakenAt(l, t))
    && (forall t: nat | t < n :: TopAt(h, l, t))
    && (forall t: nat, j: nat | t < n && j < |l.free[t]| :: SlotAt(h, l, t, j))
    && (forall t: nat | t < n :: HandAt(l, t))
    && (forall a: nat | a < |l.own| :: OwnerAt(l, a))
  }

  // ---- elementary updates --------------------------------------------------------------------

  /** The node `upcylce_node` returns: the top of the free list, else a new allocation. */
  function TakenNode(h: Heap, t: nat): Ptr
    requires t < |h.freeHead|
  {
    if h.freeHead[t] != NULL then h.freeHead[t] else |h.next|
  }

  /** `upcylce_node`; `d` and `p` are what a fresh allocation happens to contain. */
  function Take(h: Heap, t: nat, d: int, p: Ptr): (r: Heap)
    requires t < |h.freeHead| == |h.freeSize|
    ensures |r.freeHead| == |h.freeHead| && |r.freeSize| == |h.freeSize|
  {
    if h.freeHead[t] != NULL then
      h.(freeHead := h.freeHead[t := Next(h, h.freeHead[t])], freeSize := h.freeSize[t := h.freeSize[t] - 1])
    else
      h.(next := h.next + [p], data := h.data + [d])
  }

  function NoteTake(h: Heap, l: Ledger, t: nat): Ledger
    requires t < |h.freeHead| && t < |l.hand| && t < |l.free|
  {
    if h.freeHead[t] != NULL then
      if |l.free[t]| > 0 && 0 <= h.freeHead[t] < |l.own| then
        l.(own := l.own[h.freeHead[t] := Hand(t)],
           free := l.free[t := l.free[t][..|l.free[t]| - 1]],
           hand := l.hand[t := h.freeHead[t]])
      else l
    else
      l.(own := l.own + [Hand(t)], hand := l.hand[t := |h.next|])
  }

  lemma TakeFreeKeepsPool(h: Heap, l: Ledger, n: nat, t: nat, d: int, p: Ptr)
    requires Pool(h, l, n) && t < n && l.hand[t] == NULL && h.freeHead[t] != NULL
    ensures Pool(Take(h, t, d, p), NoteTake(h, l, t), n)
    ensures NoteTake(h, l, t).hand[t] == TakenNode(h, t) != NULL
  {
    var h', l' := Take(h, t, d, p), NoteTake(h, l, t);
    assert TopAt(h, l, t) && SlotAt(h, l, t, |l.free[t]| - 1);
    assert |l.free[t]| > 1 ==> SlotAt(h, l, t, |l.free[t]| - 2);
    forall k: nat | k < |l'.chain| ensures StageAt(l', k) && LinkedAt(h', l', k) {
      assert StageAt(l, k) && LinkedAt(h, l, k);
    }
    forall u: nat | u < n ensures TakenAt(l', u) && TopAt(h', l', u) && HandAt(l', u) {
      assert TakenAt(l, u) && TopAt(h, l, u) && HandAt(l, u);
    }
    forall u: nat, j: nat | u < n && j < |l'.free[u]| ensures SlotAt(h', l', u, j) { assert SlotAt(h, l, u, j); }
    forall a: nat | a < |l'.own| ensures OwnerAt(l', a) { assert OwnerAt(l, a); }
  }

  lemma TakeFreshKeepsPool(h: Heap, l: Ledger, n: nat, t: nat, d: int, p: Ptr)
    requires Pool(h, l, n) && t < n && l.hand[t] == NULL && h.freeHead[t] == NULL
    ensures Pool(Take(h, t, d, p), NoteTake(h, l, t), n)
    ensures NoteTake(h, l, t).hand[t] == TakenNode(h, t) != NULL
  {
    var h', l' := Take(h, t, d, p), NoteTake(h, l, t);
    assert TopAt(h, l, t);
    assert |l.free[t]| > 0 ==> SlotAt(h, l, t, |l.free[t]| - 1);
    forall k: nat | k < |l'.chain| ensures StageAt(l', k) && LinkedAt(h', l', k) {
      assert StageAt(l, k) && LinkedAt(h, l, k);
    }
    forall u: nat | u < n ensures TakenAt(l', u) && TopAt(h', l', u) && HandAt(l', u) {
      assert TakenAt(l, u) && TopAt(h, l, u) && HandAt(l, u);
    }
    forall u: nat, j: nat | u < n && j < |l'.free[u]| ensures SlotAt(h', l', u, j) { assert SlotAt(h, l, u, j); }
    forall a: nat | a < |l'.own| ensures OwnerAt(l', a) { assert a < |l.own| ==> OwnerAt(l, a); }
  }

  lemma TakeKeepsPool(h: Heap, l: Ledger, n: nat, t: nat, d: int, p: Ptr)
    requires Pool(h, l, n) && t < n && l.hand[t] == NULL
    ensures Pool(Take(h, t, d, p), NoteTake(h, l, t), n)
    ensures NoteTake(h, l, t).hand[t] == TakenNode(h, t) != NULL
  {
    if h.freeHead[t] != NULL { TakeFreeKeepsPool(h, l, n, t, d, p); } else { TakeFreshKeepsPool(h, l, n, t, d, p); }
  }

  function NoteLink(l: Ledger, t: nat, v: int): Ledger
    requires t < |l.hand|
  {
    if 0 <= l.hand[t] < |l.own| then
      l.(chain := l.chain + [l.hand[t]], vals := l.vals + [v], stage := l.stage + [Live],
         own := l.own[l.hand[t] := Position(|l.chain|)], hand := l.hand[t := NULL])
    else l
  }

  /** Linking the node a thread holds behind the last node. */
  lemma LinkKeepsPool(h: Heap, l: Ledger, n: nat, t: nat, last: Ptr)
    requires Pool(h, l, n) && t < n && l.hand[t] != NULL
    requires last == l.chain[|l.chain| - 1]
    requires Next(h, l.hand[t]) == NULL
    ensures Pool(SetNext(h, last, l.hand[t]), NoteLink(l, t, Data(h, l.hand[t])), n)
  {
    var h', l' := SetNext(h, last, l.hand[t]), NoteLink(l, t, Data(h, l.hand[t]));
    var e := |l.chain| - 1;
    assert HandAt(l, t) && StageAt(l, e) && LinkedAt(h, l, e);
    forall k: nat | k < |l'.chain| ensures StageAt(l', k) && LinkedAt(h', l', k) {
      assert k <= e ==> StageAt(l, k) && LinkedAt(h, l, k);
    }
    forall u: nat | u < n ensures TakenAt(l', u) && TopAt(h', l', u) && HandAt(l', u) {
      assert TakenAt(l, u) && TopAt(h, l, u) && HandAt(l, u);
    }
    forall u: nat, j: nat | u < n && j < |l'.free[u]| ensures SlotAt(h', l', u, j) { assert SlotAt(h, l, u, j); }
    forall a: nat | a < |l'.own| ensures OwnerAt(l', a) { assert OwnerAt(l, a); }
  }

  function NoteMoveHead(l: Ledger, t: nat): Ledger
    requires t < |l.taken|
  {
    if l.hi < |l.stage| then
      l.(hi := l.hi + 1, stage := l.stage[l.hi := Retired(t)], taken := l.taken[t := l.hi])
    else l
  }

  lemma MoveHeadKeepsPool(h: Heap, l: Ledger, n: nat, t: nat)
    requires Pool(h, l, n) && t < n && l.taken[t] == -1
    requires l.hi + 1 < |l.chain|
    ensures Pool(h.(head := l.chain[l.hi + 1]), NoteMoveHead(l, t), n)
  {
    var h', l' := h.(head := l.chain[l.hi + 1]), NoteMoveHead(l, t);
    assert StageAt(l, l.hi) && TakenAt(l, t);
    forall k: nat | k < |l'.chain| ensures StageAt(l', k) && LinkedAt(h', l', k) {
      assert StageAt(l, k) && LinkedAt(h, l, k);
    }
    forall u: nat | u < n ensures TakenAt(l', u) && TopAt(h', l', u) && HandAt(l', u) {
      assert TakenAt(l, u) && TopAt(h, l, u) && HandAt(l, u); assert StageAt(l, l.hi);
    }
    forall u: nat, j: nat | u < n && j < |l'.free[u]| ensures SlotAt(h', l', u, j) { assert SlotAt(h, l, u, j); }
    forall a: nat | a < |l'.own| ensures OwnerAt(l', a) { assert OwnerAt(l, a); }
  }

  lemma MoveTailKeepsPool(h: Heap, l: Ledger, n: nat, j: nat)
    requires Pool(h, l, n) && j < |l.chain|
    ensures Pool(h.(tail := l.chain[j]), l.(ti := j), n)
  {
    var h', l' := h.(tail := l.chain[j]), l.(ti := j);
    forall k: nat | k < |l'.chain| ensures StageAt(l', k) && LinkedAt(h', l', k) {
      assert StageAt(l, k) && LinkedAt(h, l, k);
    }
    forall u: nat | u < n ensures TakenAt(l', u) && TopAt(h', l', u) && HandAt(l', u) {
      assert TakenAt(l, u) && TopAt(h, l, u) && HandAt(l, u);
    }
    forall u: nat, i: nat | u < n && i < |l'.free[u]| ensures SlotAt(h', l', u, i) { assert SlotAt(h, l, u, i); }
    forall a: nat | a < |l'.own| ensures OwnerAt(l', a) { assert OwnerAt(l, a); }
  }

  /** The unlinked node becomes the thread's own: the position is given up. */
  function NoteClaim(l: Ledger, t: nat): Ledger
    requires t < |l.taken| && t < |l.hand|
  {
    if 0 <= l.taken[t] < |l.stage| && l.taken[t] < |l.chain| && 0 <= l.chain[l.taken[t]] < |l.own| then
      l.(stage := l.stage[l.taken[t] := Reclaimed],
         own := l.own[l.chain[l.taken[t]] := Hand(t)],
         hand := l.hand[t := l.chain[l.taken[t]]],
         taken := l.taken[t := -1])
    else l
  }

  lemma ClaimKeepsPool(h: Heap, l: Ledger, n: nat, t: nat)
    requires Pool(h, l, n) && t < n && l.taken[t] != -1 && l.hand[t] == NULL
    ensures Pool(h, NoteClaim(l, t), n)
    ensures 0 <= l.taken[t] < |l.chain| && NoteClaim(l, t).hand[t] == l.chain[l.taken[t]] != NULL
  {
    var h', l' := h, NoteClaim(l, t);
    assert TakenAt(l, t) && StageAt(l, l.taken[t]) && LinkedAt(h, l, l.taken[t]);
    forall k: nat | k < |l'.chain| ensures StageAt(l', k) && LinkedAt(h', l', k) {
      assert StageAt(l, k) && LinkedAt(h, l, k);
    }
    forall u: nat | u < n ensures TakenAt(l', u) && TopAt(h', l', u) && HandAt(l', u) {
      assert TakenAt(l, u) && TopAt(h, l, u) && HandAt(l, u);
    }
    forall u: nat, j: nat | u < n && j < |l'.free[u]| ensures SlotAt(h', l', u, j) { assert SlotAt(h, l, u, j); }
    forall a: nat | a < |l'.own| ensures OwnerAt(l', a) { assert OwnerAt(l, a); }
  }

  /** A thread may write the node it holds alone. */
  lemma WriteDataKeepsPool(h: Heap, l: Ledger, n: nat, t: nat, v: int)
    requires Pool(h, l, n) && t < n && l.hand[t] != NULL
    ensures Pool(SetData(h, l.hand[t], v), l, n)
  {
    var h', l' := SetData(h, l.hand[t], v), l;
    assert HandAt(l, t);
    forall k: nat | k < |l'.chain| ensures StageAt(l', k) && LinkedAt(h', l', k) {
      assert StageAt(l, k) && LinkedAt(h, l, k);
    }
    forall u: nat | u < n ensures TakenAt(l', u) && TopAt(h', l', u) && HandAt(l', u) {
      assert TakenAt(l, u) && TopAt(h, l, u) && HandAt(l, u);
    }
    forall u: nat, j: nat | u < n && j < |l'.free[u]| ensures SlotAt(h', l', u, j) { assert SlotAt(h, l, u, j); }
    forall a: nat | a < |l'.own| ensures OwnerAt(l', a) { assert OwnerAt(l, a); }
  }

  lemma WriteNextKeepsPool(h: Heap, l: Ledger, n: nat, t: nat, q: Ptr)
    requires Pool(h, l, n) && t < n && l.hand[t] != NULL
    ensures Pool(SetNext(h, l.hand[t], q), l, n)
  {
    var h', l' := SetNext(h, l.hand[t], q), l;
    assert HandAt(l, t);
    forall k: nat | k < |l'.chain| ensures StageAt(l', k) && LinkedAt(h', l', k) {
      assert StageAt(l, k) && LinkedAt(h, l, k);
    }
    forall u: nat | u < n ensures TakenAt(l', u) && TopAt(h', l', u) && HandAt(l', u) {
      assert TakenAt(l, u) && TopAt(h, l, u) && HandAt(l, u);
    }
    forall u: nat, j: nat | u < n && j < |l'.free[u]| ensures SlotAt(h', l', u, j) { assert SlotAt(h, l, u, j); }
    forall a: nat | a < |l'.own| ensures OwnerAt(l', a) { assert OwnerAt(l, a); }
  }

  /** The last part of `recycle_node`: the node goes on top of the free list. */
  function Push(h: Heap, t: nat, p: Ptr): (r: Heap)
    requires t < |h.freeHead| == |h.freeSize|
    ensures |r.freeHead| == |h.freeHead| && |r.freeSize| == |h.freeSize|
  {
    h.(freeHead := h.freeHead[t := p], freeSize := h.freeSize[t := h.freeSize[t] + 1])
  }

  function NotePush(l: Ledger, t: nat): Ledger
    requires t < |l.hand| && t < |l.free|
  {
    if 0 <= l.hand[t] < |l.own| then
      l.(free := l.free[t := l.free[t] + [l.hand[t]]],
         own := l.own[l.hand[t] := FreeSlot(t, |l.free[t]|)],
         hand := l.hand[t := NULL])
    else l
  }

  lemma PushKeepsPool(h: Heap, l: Ledger, n: nat, t: nat)
    requires Pool(h, l, n) && t < n && l.hand[t] != NULL
    requires Next(h, l.hand[t]) == h.freeHead[t]
    ensures Pool(Push(h, t, l.hand[t]), NotePush(l, t), n)
  {
    var h', l' := Push(h, t, l.hand[t]), NotePush(l, t);
    assert HandAt(l, t) && TopAt(h, l, t);
    forall k: nat | k < |l'.chain| ensures StageAt(l', k) && LinkedAt(h', l', k) {
      assert StageAt(l, k) && LinkedAt(h, l, k);
    }
    forall u: nat | u < n ensures TakenAt(l', u) && TopAt(h', l', u) && HandAt(l', u) {
      assert TakenAt(l, u) && TopAt(h, l, u) && HandAt(l, u);
    }
    forall u: nat, j: nat | u < n && j < |l'.free[u]| ensures SlotAt(h', l', u, j) {
      assert j < |l.free[u]| ==> SlotAt(h, l, u, j);
    }
    forall a: nat | a < |l'.own| ensures OwnerAt(l', a) { assert OwnerAt(l, a); }
  }
}
