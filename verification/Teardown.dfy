/** The freeing loops that `destroy_queue` has in every version of the queue. */
module Teardown {
  import opened NodePool
  import opened NodeLists

  /** `while (p != NULL) { next = p->next; free(p); p = next; }`; the result is what was freed, in
      order.  The loop ends because the list does. */
  method FreeList(h: Heap, p: Ptr, ghost s: seq<Ptr>) returns (freed: seq<Ptr>)
    requires IsList(h, p, s)
    ensures freed == s
  {
    var q := p;
    freed := [];
    ghost var rest := s;
    while q != NULL
      invariant IsList(h, q, rest) && freed + rest == s
      decreases |rest|
    {
      var next := h.next[q];
      freed := freed + [q];
      q := next;
      rest := rest[1..];
    }
  }

  /** No thread has a node outside the lists. */
  function Nothing(n: nat): (r: seq<seq<Ptr>>)
    ensures |r| == n && forall t | 0 <= t < n :: r[t] == []
  {
    seq(n, _ => [])
  }

  /** The loop over the threads' free lists. */
  method FreeThreads(h: Heap, ghost l: Ledger, n: nat) returns (freed: seq<Ptr>)
    requires Pool(h, l, n)
    ensures freed == Join(ThreadNodes(h, Nothing(n)))
  {
    ghost var parts := ThreadNodes(h, Nothing(n));
    freed := [];
    for i := 0 to n
      invariant freed == Join(parts[..i])
    {
      FreeIsList(h, l, n, i);
      var more := FreeList(h, h.freeHead[i], FreeNodes(h, i));
      assert parts[..i + 1][..i] == parts[..i] && parts[i] == more;
      freed := freed + more;
    }
    assert parts[..n] == parts;
  }

  /** `destroy_queue` frees the queue's list, then the free lists. */
  method FreeAll(h: Heap, ghost l: Ledger, n: nat) returns (freed: seq<Ptr>)
    requires Pool(h, l, n)
    ensures freed == Everything(h, Nothing(n))
  {
    LiveIsList(h, l, n);
    var live := FreeList(h, h.head, LiveNodes(h));
    var rest := FreeThreads(h, l, n);
    freed := live + rest;
  }

  /** With all threads idle that is every node ever allocated, exactly once. */
  lemma EverythingOnce(h: Heap, l: Ledger, n: nat, a: Ptr)
    requires Pool(h, l, n)
    requires forall t: nat | t < n :: l.hand[t] == NULL && l.taken[t] == -1
    ensures multiset(Everything(h, Nothing(n)))[a] == if 0 <= a < |h.next| then 1 else 0
  {
    Conservation(h, l, n, Nothing(n), a);
  }
}
