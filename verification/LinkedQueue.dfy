/** The queue over linked nodes that only one thread touches at a time: the sequential queue, and
    the queue under one lock, whose critical sections are `Enqueue` and `Unlink` and which recycles
    the old sentinel after releasing the lock. */
module LinkedQueue {
  import opened NodePool
  import opened NodeLists
  import Teardown

  /** What `malloc` may do: refuse, or return a node with these contents. */
  datatype Malloc = Refused | Fresh(data: int, next: Ptr)

  // ---- the free lists, and the bookkeeping that keeps them with the top last -------------------

  function FreeLists(h: Heap): (f: seq<seq<Ptr>>)
    ensures |f| == |h.freeHead| && forall t | 0 <= t < |f| :: f[t] == FreeNodes(h, t)
  {
    seq(|h.freeHead|, t requires 0 <= t < |h.freeHead| => FreeNodes(h, t))
  }

  function Reversed(free: seq<seq<Ptr>>): (f: seq<seq<Ptr>>)
    ensures |f| == |free| && forall t | 0 <= t < |f| :: f[t] == Reverse(free[t])
  {
    seq(|free|, t requires 0 <= t < |free| => Reverse(free[t]))
  }

  /** Thread t's first node is taken, if it has any. */
  function Shorter(f: seq<seq<Ptr>>, t: nat): seq<seq<Ptr>>
    requires t < |f|
  {
    if |f[t]| > 0 then f[t := f[t][1..]] else f
  }

  function Popped(free: seq<seq<Ptr>>, t: nat): seq<seq<Ptr>>
    requires t < |free|
  {
    if |free[t]| > 0 then free[t := free[t][..|free[t]| - 1]] else free
  }

  lemma ReversedPop(free: seq<seq<Ptr>>, t: nat)
    requires t < |free|
    ensures Reversed(Popped(free, t)) == Shorter(Reversed(free), t)
  {
    if |free[t]| > 0 { assert Reverse(free[t][..|free[t]| - 1]) == Reverse(free[t])[1..]; }
  }

  lemma ReversedPush(free: seq<seq<Ptr>>, t: nat, node: Ptr)
    requires t < |free|
    ensures Reversed(free[t := free[t] + [node]]) == Reversed(free)[t := [node] + Reversed(free)[t]]
  {
    assert Reverse(free[t] + [node]) == [node] + Reverse(free[t]);
  }

  class Queue {
    const n: nat
    var head: Ptr
    var tail: Ptr
    var next: seq<Ptr>             // node memory; an allocation appends
    var data: seq<int>
    const freeHead: array<Ptr>
    const freeSize: array<int>
    ghost var l: Ledger

    function Memory(): (h: Heap)
      reads this, freeHead, freeSize
    {
      Heap(head, tail, next, data, freeHead[..], freeSize[..])
    }

    ghost predicate Agrees()
      reads this, freeHead, freeSize
    {
      && freeHead.Length == freeSize.Length == n && freeHead != freeSize
      && Pool(Memory(), l, n) && l.ti + 1 == |l.chain|
    }

    /** No thread holds a node for an enqueue; a thread may still have to recycle one. */
    ghost predicate Valid()
      reads this, freeHead, freeSize
    {
      Agrees() && forall t: nat | t < n :: l.hand[t] == NULL
    }

    /** Thread t has a sentinel to recycle. */
    ghost predicate Owes(t: nat)
      reads this
      requires t < |l.taken|
    {
      l.taken[t] != -1
    }

    /** No thread does. */
    ghost predicate Settled()
      reads this
    {
      forall t: nat | t < |l.taken| :: l.taken[t] == -1
    }

    /** `init_queue` */
    constructor (n: nat)
      ensures Valid() && this.n == n && fresh(freeHead) && fresh(freeSize)
      ensures Contents(Memory()) == [] && |next| == 1
      ensures Settled() && forall t: nat | t < n :: FreeNodes(Memory(), t) == []
    {
      this.n := n;
      head, tail, next, data := 0, 0, [NULL], [0];
      freeHead := new Ptr[n](_ => NULL);
      freeSize := new int[n](_ => 0);
      l := Ledger([0], [0], 0, 0, [Live], [Position(0)], seq(n, _ => []), seq(n, _ => NULL), seq(n, _ => -1));
      new;
      var h := Memory();
      forall k: nat | k < |l.chain| ensures StageAt(l, k) && LinkedAt(h, l, k) { }
      forall t: nat | t < n ensures TakenAt(l, t) && TopAt(h, l, t) && HandAt(l, t) { }
      forall a: nat | a < |l.own| ensures OwnerAt(l, a) { }
      LiveNodesAreChain(h, l, n);
    }

    /** `upcylce_node`; NULL when there is no node to be had. */
    method UpcycleNode(t: nat, m: Malloc) returns (node: Ptr)
      requires Valid() && t < n
      modifies this`next, this`data, this`l, freeHead, freeSize
      ensures Agrees() && l.hand == old(l.hand)[t := node] && l.taken == old(l.taken)
      ensures node == NULL <==> old(freeHead[t]) == NULL && m.Refused?
      ensures node == NULL ==> Memory() == old(Memory()) && l == old(l)
      ensures node != NULL ==>
                && Memory() == Take(old(Memory()), t, if m.Fresh? then m.data else 0, if m.Fresh? then m.next else 0)
                && l.free == Popped(old(l.free), t)
                && l.chain == old(l.chain) && l.vals == old(l.vals) && l.hi == old(l.hi)
    {
      ghost var h := Memory();
      assert TopAt(h, l, t);
      if |l.free[t]| > 0 { assert SlotAt(h, l, t, |l.free[t]| - 1); }
      node := freeHead[t];
      if node == NULL && m.Refused? { return; }
      TakeKeepsPool(h, l, n, t, if m.Fresh? then m.data else 0, if m.Fresh? then m.next else 0);
      l := NoteTake(h, l, t);
      if node != NULL {
        freeHead[t] := next[node];
        freeSize[t] := freeSize[t] - 1;
      } else {
        node := |next|;
        next, data := next + [m.next], data + [m.data];
      }
      assert HandAt(l, t);
      assert l.free == Popped(old(l.free), t);
    }

    /** The queue that memory holds, read off the bookkeeping. */
    lemma LiveList()
      requires Agrees()
      ensures LiveNodes(Memory()) == l.chain[l.hi..] && Contents(Memory()) == l.vals[l.hi + 1..]
      ensures |LiveNodes(Memory())| > 0 && LiveNodes(Memory())[|LiveNodes(Memory())| - 1] == tail
    {
      LiveNodesAreChain(Memory(), l, n);
    }

    /** The free lists that memory holds. */
    lemma Frees()
      requires Agrees()
      ensures FreeLists(Memory()) == Reversed(l.free)
    {
      forall t: nat | t < n ensures FreeNodes(Memory(), t) == Reverse(l.free[t]) {
        FreeNodesAreListed(Memory(), l, n, t);
      }
    }

    /** The free list's head is its first node, or NULL. */
    lemma TopIsFirst(t: nat)
      requires Agrees() && t < n
      ensures freeHead[t] == NULL <==> FreeNodes(Memory(), t) == []
    {
      FreeNodesAreListed(Memory(), l, n, t);
      assert TopAt(Memory(), l, t);
      if |l.free[t]| > 0 { assert SlotAt(Memory(), l, t, |l.free[t]| - 1); }
    }

    /** The same, seen from the lists: the queue stays, the thread's free list may get shorter. */
    method NodeAtHand(t: nat, m: Malloc) returns (node: Ptr)
      requires Valid() && t < n
      modifies this`next, this`data, this`l, freeHead, freeSize
      ensures Agrees() && l.hand == old(l.hand)[t := node] && l.taken == old(l.taken) && l.chain == old(l.chain)
      ensures node == NULL <==> old(freeHead[t]) == NULL && m.Refused?
      ensures node == NULL ==> Memory() == old(Memory())
      ensures node != NULL ==> |next| == old(|next|) + if old(freeHead[t]) == NULL then 1 else 0
      ensures Contents(Memory()) == old(Contents(Memory()))
      ensures node != NULL ==> FreeLists(Memory()) == Shorter(old(FreeLists(Memory())), t)
    {
      LiveList();
      Frees();
      ReversedPop(l.free, t);
      node := UpcycleNode(t, m);
      LiveList();
      Frees();
    }

    /** Enqueueing, once a node is at hand: fill it, link it behind the tail, move the tail. */
    method LinkBehindTail(t: nat, node: Ptr, v: int)
      requires Agrees() && t < n && node != NULL && l.hand[t] == node
      modifies this`tail, this`next, this`data, this`l
      ensures Agrees() && l.hand == old(l.hand)[t := NULL] && l.taken == old(l.taken) && l.free == old(l.free)
      ensures l.hi == old(l.hi) && l.vals == old(l.vals) + [v] && old(l.chain) <= l.chain
      ensures |next| == old(|next|)
    {
      assert HandAt(l, t);
      WriteDataKeepsPool(Memory(), l, n, t, v);
      data := data[node := v];
      WriteNextKeepsPool(Memory(), l, n, t, NULL);
      next := next[node := NULL];
      LinkKeepsPool(Memory(), l, n, t, tail);
      assert StageAt(l, l.ti) && LinkedAt(Memory(), l, l.ti);
      next := next[tail := node];
      l := NoteLink(l, t, v);
      MoveTailKeepsPool(Memory(), l, n, l.ti + 1);
      tail := node;
      l := l.(ti := l.ti + 1);
    }

    /** The same, seen from the lists: the queue gets longer, the free lists stay. */
    method LinkNode(t: nat, node: Ptr, v: int)
      requires Agrees() && t < n && node != NULL && l.hand[t] == node
      modifies this`tail, this`next, this`data, this`l
      ensures Agrees() && l.hand == old(l.hand)[t := NULL] && l.taken == old(l.taken) && old(l.chain) <= l.chain
      ensures |next| == old(|next|)
      ensures Contents(Memory()) == old(Contents(Memory())) + [v] && FreeLists(Memory()) == old(FreeLists(Memory()))
    {
      LiveList();
      Frees();
      LinkBehindTail(t, node, v);
      LiveList();
      Frees();
    }

    /** `enq`; in the locked queue, its critical section. */
    method Enqueue(v: int, t: nat, m: Malloc) returns (code: int)
      requires Valid() && t < n
      modifies this`tail, this`next, this`data, this`l, freeHead, freeSize
      ensures Valid() && l.taken == old(l.taken) && old(l.chain) <= l.chain
      ensures code == if old(freeHead[t]) == NULL && m.Refused? then 0 else 1
      ensures code == 0 ==> Memory() == old(Memory())
      ensures code == 1 ==> Contents(Memory()) == old(Contents(Memory())) + [v]
      ensures code == 1 ==> |next| == old(|next|) + if old(freeHead[t]) == NULL then 1 else 0
      ensures code == 1 ==> FreeLists(Memory()) == Shorter(old(FreeLists(Memory())), t)
    {
      var node := NodeAtHand(t, m);
      code := if node == NULL then 0 else 1;
      if node != NULL { LinkNode(t, node, v); }
    }

    /** Dequeueing, once there is a node behind the sentinel: read its value and move the head. */
    method MoveHead(t: nat) returns (v: int, sentinel: Ptr)
      requires Valid() && t < n && !Owes(t) && l.hi + 1 < |l.chain|
      modifies this`head, this`tail, this`l
      ensures Valid() && next == old(next) && data == old(data)
      ensures l.free == old(l.free) && l.chain == old(l.chain) && l.vals == old(l.vals) && l.hi == old(l.hi) + 1
      ensures v == l.vals[l.hi] && sentinel == old(head) != NULL
      ensures l.taken == old(l.taken)[t := old(l.hi)] && l.chain[old(l.hi)] == sentinel
    {
      assert StageAt(l, l.hi) && LinkedAt(Memory(), l, l.hi);
      assert StageAt(l, l.hi + 1) && LinkedAt(Memory(), l, l.hi + 1);
      sentinel := head;
      v := data[next[sentinel]];
      MoveHeadKeepsPool(Memory(), l, n, t);
      head := next[sentinel];
      l := NoteMoveHead(l, t);
      // already the case: the assignment changes nothing
      if tail == next[sentinel] { tail := head; }
    }

    /** The sentinel's link is NULL exactly when it is the only node of the list. */
    lemma LastIsNull()
      requires Agrees()
      ensures 0 <= head < |next| && (next[head] == NULL <==> l.hi + 1 == |l.chain|)
    {
      assert StageAt(l, l.hi) && LinkedAt(Memory(), l, l.hi);
      if l.hi + 1 < |l.chain| { assert StageAt(l, l.hi + 1) && LinkedAt(Memory(), l, l.hi + 1); }
    }

    /** `deq` up to the recycling; in the locked queue, its critical section. */
    method Unlink(t: nat) returns (code: int, v: int, sentinel: Ptr)
      requires Valid() && t < n && !Owes(t)
      modifies this`head, this`tail, this`l
      ensures Valid() && next == old(next) && data == old(data) && l.free == old(l.free) && l.chain == old(l.chain)
      ensures code == 0 <==> old(Contents(Memory())) == []
      ensures code == 0 ==> Memory() == old(Memory()) && l == old(l)
      ensures code != 0 ==>
                && code == 1 && sentinel == old(head) != NULL
                && old(Contents(Memory())) == [v] + Contents(Memory())
                && Owes(t) && l.taken == old(l.taken)[t := l.taken[t]]
                && 0 <= l.taken[t] < |l.chain| && l.chain[l.taken[t]] == sentinel
    {
      LiveList();
      LastIsNull();
      if next[head] == NULL { return 0, 0, NULL; }
      code := 1;
      v, sentinel := MoveHead(t);
      LiveList();
      assert old(l).vals[old(l).hi + 1..] == [v] + l.vals[l.hi + 1..];
    }

    /** Recycling, as the bookkeeping sees it: the position is given up, the node becomes the top. */
    method PushNode(t: nat, node: Ptr)
      requires Valid() && t < n && Owes(t) && 0 <= l.taken[t] < |l.chain| && node == l.chain[l.taken[t]]
      modifies this`next, this`l, freeHead, freeSize
      ensures Valid() && l.taken == old(l.taken)[t := -1] && |next| == old(|next|)
      ensures l.free == old(l.free)[t := old(l.free)[t] + [node]]
      ensures l.chain == old(l.chain) && l.vals == old(l.vals) && l.hi == old(l.hi)
    {
      ClaimKeepsPool(Memory(), l, n, t);
      assert TakenAt(l, t) && LinkedAt(Memory(), l, l.taken[t]);
      l := NoteClaim(l, t);
      WriteNextKeepsPool(Memory(), l, n, t, freeHead[t]);
      next := next[node := freeHead[t]];
      PushKeepsPool(Memory(), l, n, t);
      freeHead[t] := node;
      freeSize[t] := freeSize[t] + 1;
      l := NotePush(l, t);
    }

    /** `recycle_node`, of the sentinel that the thread unlinked. */
    method RecycleNode(t: nat, node: Ptr)
      requires Valid() && t < n && Owes(t) && 0 <= l.taken[t] < |l.chain| && node == l.chain[l.taken[t]]
      modifies this`next, this`l, freeHead, freeSize
      ensures Valid() && l.taken == old(l.taken)[t := -1] && l.chain == old(l.chain) && |next| == old(|next|)
      ensures Contents(Memory()) == old(Contents(Memory()))
      ensures FreeLists(Memory()) == old(FreeLists(Memory()))[t := [node] + old(FreeLists(Memory()))[t]]
    {
      LiveList();
      Frees();
      ReversedPush(l.free, t, node);
      PushNode(t, node);
      LiveList();
      Frees();
    }

    /** `deq` of the sequential queue. */
    method Dequeue(t: nat) returns (code: int, v: int)
      requires Valid() && t < n && !Owes(t)
      modifies this`head, this`tail, this`next, this`l, freeHead, freeSize
      ensures Valid() && l.taken == old(l.taken) && |next| == old(|next|)
      ensures code == 0 <==> old(Contents(Memory())) == []
      ensures code == 0 ==> Memory() == old(Memory())
      ensures code != 0 ==> code == 1 && old(Contents(Memory())) == [v] + Contents(Memory())
      ensures code != 0 ==>
                FreeLists(Memory()) == old(FreeLists(Memory()))[t := [old(head)] + old(FreeLists(Memory()))[t]]
    {
      Frees();
      var sentinel;
      code, v, sentinel := Unlink(t);
      if code == 1 {
        Frees();
        RecycleNode(t, sentinel);
      }
    }

    /** `destroy_queue` when no thread has anything left to recycle: every node once. */
    method DestroyQueue() returns (freed: seq<Ptr>)
      requires Valid() && Settled()
      ensures forall a :: multiset(freed)[a] == if 0 <= a < |next| then 1 else 0
    {
      freed := Teardown.FreeAll(Memory(), l, n);
      forall t: nat | t < n ensures l.hand[t] == NULL && l.taken[t] == -1 { }
      forall a ensures multiset(freed)[a] == if 0 <= a < |next| then 1 else 0 {
        Teardown.EverythingOnce(Memory(), l, n, a);
      }
    }
  }

  // ---- how many nodes are allocated ----------------------------------------------------------

  function SizesBelow(h: Heap, t: nat): int
    requires t <= |h.freeSize|
  {
    if t == 0 then 0 else SizesBelow(h, t - 1) + h.freeSize[t - 1]
  }

  lemma {:induction false} LengthsAreSizes(h: Heap, l: Ledger, n: nat, t: nat)
    requires Pool(h, l, n) && t <= n
    ensures Lengths(ThreadNodes(h, Teardown.Nothing(n))[..t]) == SizesBelow(h, t)
  {
    if t > 0 {
      var parts := ThreadNodes(h, Teardown.Nothing(n));
      LengthsAreSizes(h, l, n, t - 1);
      FreeNodesAreListed(h, l, n, t - 1);
      assert parts[..t][..t - 1] == parts[..t - 1];
    }
  }

  /** With no call in progress, the nodes ever allocated are the sentinel, one per queued value, and
      the sizes of the free lists. */
  lemma AllocatedNodes(h: Heap, l: Ledger, n: nat)
    requires Pool(h, l, n)
    requires forall t: nat | t < n :: l.hand[t] == NULL && l.taken[t] == -1
    ensures |h.next| == 1 + |Contents(h)| + SizesBelow(h, n)
  {
    var parts := ThreadNodes(h, Teardown.Nothing(n));
    NodesCounted(h, l, n, Teardown.Nothing(n));
    LengthsAreSizes(h, l, n, n);
    assert parts[..n] == parts;
  }

  // ---- the sizes of the free lists -----------------------------------------------------------

  function FreeCounts(h: Heap): (c: seq<nat>)
    ensures |c| == |h.freeHead| && forall t | 0 <= t < |c| :: c[t] == |FreeNodes(h, t)|
  {
    seq(|h.freeHead|, t requires 0 <= t < |h.freeHead| => |FreeNodes(h, t)|)
  }

  lemma ShorterCounts(h: Heap, h': Heap, t: nat)
    requires t < |h.freeHead| && FreeLists(h') == Shorter(FreeLists(h), t)
    ensures FreeCounts(h') == FreeCounts(h)[t := if FreeCounts(h)[t] > 0 then FreeCounts(h)[t] - 1 else 0]
  {
    forall u | 0 <= u < |h'.freeHead| ensures FreeCounts(h')[u] == |FreeLists(h')[u]| { }
  }

  lemma LongerCounts(h: Heap, h': Heap, t: nat, node: Ptr)
    requires t < |h.freeHead| && FreeLists(h') == FreeLists(h)[t := [node] + FreeLists(h)[t]]
    ensures FreeCounts(h') == FreeCounts(h)[t := FreeCounts(h)[t] + 1]
  {
    forall u | 0 <= u < |h'.freeHead| ensures FreeCounts(h')[u] == |FreeLists(h')[u]| { }
  }

  lemma SameCounts(h: Heap, h': Heap)
    requires FreeLists(h') == FreeLists(h)
    ensures FreeCounts(h') == FreeCounts(h)
  {
    forall u | 0 <= u < |h'.freeHead| ensures FreeCounts(h')[u] == |FreeLists(h')[u]| { }
  }

  /** `upcylce_node` undoes `recycle_node`: it returns the node just recycled and leaves the free
      list as it was. */
  lemma UpcycleUndoesRecycle(h: Heap, t: nat, node: Ptr, d: int, p: Ptr)
    requires t < |h.freeHead| == |h.freeSize| && Allocated(h, node)
    ensures var r := Push(SetNext(h, node, h.freeHead[t]), t, node);
            TakenNode(r, t) == node && Take(r, t, d, p) == SetNext(h, node, h.freeHead[t])
  {
    var r := Push(SetNext(h, node, h.freeHead[t]), t, node);
    assert Take(r, t, d, p).freeHead == h.freeHead;
    assert Take(r, t, d, p).freeSize == h.freeSize;
  }
}
