/** What the program's pointers mean: the lists a reader obtains by following `next`.  The lemmas
    connect them with the ledger, and conclude that no node is ever lost or in two places. */
module NodeLists {
  import opened NodePool

  /** The nodes met from p on, at most `fuel` of them. */
  function Nodes(h: Heap, p: Ptr, fuel: nat): seq<Ptr>
    decreases fuel
  {
    if fuel == 0 || !Allocated(h, p) then [] else [p] + Nodes(h, h.next[p], fuel - 1)
  }

  function LiveNodes(h: Heap): seq<Ptr> { Nodes(h, h.head, |h.next|) }

  function FreeNodes(h: Heap, t: nat): seq<Ptr>
    requires t < |h.freeHead|
  {
    Nodes(h, h.freeHead[t], |h.next|)
  }

  function Values(h: Heap, ps: seq<Ptr>): seq<int> { seq(|ps|, i requires 0 <= i < |ps| => Data(h, ps[i])) }

  /** The abstract queue: the values behind the sentinel. */
  function Contents(h: Heap): seq<int> {
    var ps := LiveNodes(h);
    if |ps| == 0 then [] else Values(h, ps[1..])
  }

  // ---- distinct sequences of addresses -------------------------------------------------------

  predicate Distinct(s: seq<Ptr>) { forall i, j | 0 <= i < j < |s| :: s[i] != s[j] }

  lemma {:induction false} DistinctCount(s: seq<Ptr>, a: Ptr)
    requires Distinct(s)
    ensures multiset(s)[a] == if a in s then 1 else 0
  {
    if |s| > 0 {
      var m := |s| - 1;
      assert s == s[..m] + [s[m]];
      DistinctCount(s[..m], a);
    }
  }

  function Elements(s: seq<Ptr>): set<Ptr> { set x | x in s }

  lemma {:induction false} DistinctCardinality(s: seq<Ptr>)
    requires Distinct(s)
    ensures |Elements(s)| == |s|
  {
    if |s| > 0 {
      var m := |s| - 1;
      DistinctCardinality(s[..m]);
      assert s[m] !in s[..m];
      assert Elements(s) == Elements(s[..m]) + {s[m]};
    }
  }

  function Indices(n: nat): (s: seq<Ptr>)
    ensures |s| == n && forall i | 0 <= i < n :: s[i] == i
  {
    seq(n, i => i)
  }

  /** Distinct addresses below n are at most n, and exactly n when they are all of them. */
  lemma DistinctLength(s: seq<Ptr>, n: nat)
    requires Distinct(s) && forall i | 0 <= i < |s| :: 0 <= s[i] < n
    ensures |s| <= n
    ensures (forall a | 0 <= a < n :: a in s) ==> |s| == n
  {
    var a, b := Elements(s), Elements(Indices(n));
    DistinctCardinality(s);
    DistinctCardinality(Indices(n));
    forall x | x in a ensures x in b { assert Indices(n)[x] == x; }
    assert b == a + (b - a);
    assert |b| == |a| + |b - a|;
    if forall x | 0 <= x < n :: x in s { assert b == a; }
  }

  // ---- positions and addresses ---------------------------------------------------------------

  /** Two positions that are not recycled have different addresses. */
  lemma PositionsApart(h: Heap, l: Ledger, n: nat, j: nat, k: nat)
    requires Pool(h, l, n) && j < |l.chain| && k < |l.chain|
    requires !l.stage[j].Reclaimed? && !l.stage[k].Reclaimed?
    ensures l.chain[j] == l.chain[k] <==> j == k
  {
    assert LinkedAt(h, l, j) && LinkedAt(h, l, k);
  }

  lemma LiveDistinct(h: Heap, l: Ledger, n: nat)
    requires Pool(h, l, n)
    ensures Distinct(l.chain[l.hi..]) && |l.chain| - l.hi <= |h.next|
    ensures forall k: nat | l.hi <= k < |l.chain| ::
              0 <= l.chain[k] < |h.next| && l.own[l.chain[k]] == Position(k) && l.stage[k].Live?
  {
    var s := l.chain[l.hi..];
    forall i | 0 <= i < |s| ensures 0 <= s[i] < |h.next| && l.own[s[i]] == Position(l.hi + i) {
      assert StageAt(l, l.hi + i) && LinkedAt(h, l, l.hi + i);
    }
    forall k: nat | l.hi <= k < |l.chain|
      ensures 0 <= l.chain[k] < |h.next| && l.own[l.chain[k]] == Position(k) && l.stage[k].Live?
    {
      assert StageAt(l, k) && LinkedAt(h, l, k);
    }
    DistinctLength(s, |h.next|);
  }

  lemma {:induction false} NodesFrom(h: Heap, l: Ledger, n: nat, k: nat, fuel: nat)
    requires Pool(h, l, n) && l.hi <= k <= |l.chain| && |l.chain| - k <= fuel
    ensures Nodes(h, if k < |l.chain| then l.chain[k] else NULL, fuel) == l.chain[k..]
    decreases fuel
  {
    if k < |l.chain| {
      assert StageAt(l, k) && LinkedAt(h, l, k);
      NodesFrom(h, l, n, k + 1, fuel - 1);
    }
  }

  /** Following `next` from head gives exactly the live positions, and their values are the queue. */
  lemma LiveNodesAreChain(h: Heap, l: Ledger, n: nat)
    requires Pool(h, l, n)
    ensures LiveNodes(h) == l.chain[l.hi..]
    ensures Contents(h) == l.vals[l.hi + 1..]
  {
    LiveDistinct(h, l, n);
    NodesFrom(h, l, n, l.hi, |h.next|);
    var ps := l.chain[l.hi..];
    assert ps[1..] == l.chain[l.hi + 1..];
    forall i | 0 <= i < |l.chain| - l.hi - 1 ensures Data(h, ps[1..][i]) == l.vals[l.hi + 1..][i] {
      assert StageAt(l, l.hi + 1 + i) && LinkedAt(h, l, l.hi + 1 + i);
    }
    assert Values(h, ps[1..]) == l.vals[l.hi + 1..];
  }

  function Reverse(s: seq<Ptr>): (r: seq<Ptr>)
    ensures |r| == |s|
    ensures forall i | 0 <= i < |s| :: r[i] == s[|s| - 1 - i]
  {
    seq(|s|, i requires 0 <= i < |s| => s[|s| - 1 - i])
  }

  lemma {:induction false} FreeFrom(h: Heap, l: Ledger, n: nat, t: nat, j: nat, fuel: nat)
    requires Pool(h, l, n) && t < n && j <= |l.free[t]| && j <= fuel
    ensures Nodes(h, Under(l.free[t], j), fuel) == Reverse(l.free[t][..j])
    decreases fuel
  {
    if j > 0 {
      assert SlotAt(h, l, t, j - 1);
      FreeFrom(h, l, n, t, j - 1, fuel - 1);
      assert l.free[t][..j][..j - 1] == l.free[t][..j - 1];
      assert Reverse(l.free[t][..j]) == [l.free[t][j - 1]] + Reverse(l.free[t][..j - 1]);
    }
  }

  lemma FreeDistinct(h: Heap, l: Ledger, n: nat, t: nat)
    requires Pool(h, l, n) && t < n
    ensures Distinct(l.free[t]) && |l.free[t]| <= |h.next|
    ensures forall i | 0 <= i < |l.free[t]| :: 0 <= l.free[t][i] < |h.next| && l.own[l.free[t][i]] == FreeSlot(t, i)
  {
    forall i | 0 <= i < |l.free[t]| ensures 0 <= l.free[t][i] < |h.next| && l.own[l.free[t][i]] == FreeSlot(t, i) {
      assert SlotAt(h, l, t, i);
    }
    DistinctLength(l.free[t], |h.next|);
  }

  /** Following `next` from a free list's head gives its recorded nodes, and `size` counts them. */
  lemma FreeNodesAreListed(h: Heap, l: Ledger, n: nat, t: nat)
    requires Pool(h, l, n) && t < n
    ensures FreeNodes(h, t) == Reverse(l.free[t])
    ensures h.freeSize[t] == |FreeNodes(h, t)|
  {
    FreeDistinct(h, l, n, t);
    assert TopAt(h, l, t);
    FreeFrom(h, l, n, t, |l.free[t]|, |h.next|);
    assert l.free[t][..|l.free[t]|] == l.free[t];
  }

  /** A NULL-terminated list: what a loop `while (p != NULL) p = p->next` visits. */
  predicate IsList(h: Heap, p: Ptr, s: seq<Ptr>)
    decreases |s|
  {
    if |s| == 0 then p == NULL else p == s[0] && Allocated(h, p) && IsList(h, h.next[p], s[1..])
  }

  lemma {:induction false} ChainIsList(h: Heap, l: Ledger, n: nat, k: nat)
    requires Pool(h, l, n) && l.hi <= k <= |l.chain|
    ensures IsList(h, if k < |l.chain| then l.chain[k] else NULL, l.chain[k..])
    decreases |l.chain| - k
  {
    if k < |l.chain| {
      assert StageAt(l, k) && LinkedAt(h, l, k);
      ChainIsList(h, l, n, k + 1);
      assert l.chain[k..][1..] == l.chain[k + 1..];
    }
  }

  lemma {:induction false} SlotsAreList(h: Heap, l: Ledger, n: nat, t: nat, j: nat)
    requires Pool(h, l, n) && t < n && j <= |l.free[t]|
    ensures IsList(h, Under(l.free[t], j), Reverse(l.free[t][..j]))
    decreases j
  {
    if j > 0 {
      assert SlotAt(h, l, t, j - 1);
      SlotsAreList(h, l, n, t, j - 1);
      assert l.free[t][..j][..j - 1] == l.free[t][..j - 1];
      assert Reverse(l.free[t][..j])[1..] == Reverse(l.free[t][..j - 1]);
    }
  }

  lemma LiveIsList(h: Heap, l: Ledger, n: nat)
    requires Pool(h, l, n)
    ensures IsList(h, h.head, LiveNodes(h))
  {
    LiveNodesAreChain(h, l, n);
    ChainIsList(h, l, n, l.hi);
  }

  lemma FreeIsList(h: Heap, l: Ledger, n: nat, t: nat)
    requires Pool(h, l, n) && t < n
    ensures IsList(h, h.freeHead[t], FreeNodes(h, t))
  {
    FreeNodesAreListed(h, l, n, t);
    assert TopAt(h, l, t) && l.free[t][..|l.free[t]|] == l.free[t];
    SlotsAreList(h, l, n, t, |l.free[t]|);
  }

  // ---- conservation --------------------------------------------------------------------------

  /** The nodes thread t has outside the lists. */
  function Outside(l: Ledger, t: nat): seq<Ptr>
    requires t < |l.hand| == |l.taken|
  {
    (if 0 <= l.taken[t] < |l.chain| then [l.chain[l.taken[t]]] else [])
    + (if l.hand[t] != NULL then [l.hand[t]] else [])
  }

  function Join(parts: seq<seq<Ptr>>): seq<Ptr> {
    if |parts| == 0 then [] else Join(parts[..|parts| - 1]) + parts[|parts| - 1]
  }

  /** Per thread, its free list and what else it has. */
  function ThreadNodes(h: Heap, outside: seq<seq<Ptr>>): (parts: seq<seq<Ptr>>)
    requires |outside| <= |h.freeHead|
    ensures |parts| == |outside|
    ensures forall t | 0 <= t < |outside| :: parts[t] == FreeNodes(h, t) + outside[t]
  {
    seq(|outside|, t requires 0 <= t < |outside| => FreeNodes(h, t) + outside[t])
  }

  function Everything(h: Heap, outside: seq<seq<Ptr>>): seq<Ptr>
    requires |outside| <= |h.freeHead|
  {
    LiveNodes(h) + Join(ThreadNodes(h, outside))
  }

  /** 0 for a node of the live list, t + 1 for a node that thread t has. */
  function Place(l: Ledger, a: nat): nat
    requires a < |l.own| && |l.stage| == |l.chain|
  {
    match l.own[a]
    case Position(k) => if k < |l.stage| && l.stage[k].Retired? then l.stage[k].t + 1 else 0
    case FreeSlot(t, j) => t + 1
    case Hand(t) => t + 1
  }

  lemma CountLive(h: Heap, l: Ledger, n: nat, a: Ptr)
    requires Pool(h, l, n)
    ensures multiset(LiveNodes(h))[a] == if 0 <= a < |h.next| && Place(l, a) == 0 then 1 else 0
  {
    LiveNodesAreChain(h, l, n);
    LiveDistinct(h, l, n);
    var s := l.chain[l.hi..];
    DistinctCount(s, a);
    if 0 <= a < |h.next| {
      assert OwnerAt(l, a);
      if Place(l, a) == 0 {
        var k := l.own[a].k;
        assert StageAt(l, k) && s[k - l.hi] == a;
      }
    }
  }

  lemma CountFree(h: Heap, l: Ledger, n: nat, t: nat, a: Ptr)
    requires Pool(h, l, n) && t < n
    ensures multiset(FreeNodes(h, t))[a] == if 0 <= a < |h.next| && l.own[a].FreeSlot? && l.own[a].t == t then 1 else 0
  {
    FreeNodesAreListed(h, l, n, t);
    FreeDistinct(h, l, n, t);
    var f, s := l.free[t], Reverse(l.free[t]);
    DistinctCount(s, a);
    if 0 <= a < |h.next| && l.own[a].FreeSlot? && l.own[a].t == t {
      assert OwnerAt(l, a) && s[|f| - 1 - l.own[a].j] == a;
    }
  }

  lemma CountOutside(h: Heap, l: Ledger, n: nat, t: nat, a: Ptr)
    requires Pool(h, l, n) && t < n
    ensures multiset(Outside(l, t))[a] ==
            if 0 <= a < |h.next| && !l.own[a].FreeSlot? && Place(l, a) == t + 1 then 1 else 0
  {
    assert TakenAt(l, t) && HandAt(l, t);
    if l.taken[t] != -1 { assert LinkedAt(h, l, l.taken[t]); }
    if 0 <= a < |h.next| {
      assert OwnerAt(l, a);
      if l.own[a].Position? { assert StageAt(l, l.own[a].k); }
    }
  }

  lemma CountThread(h: Heap, l: Ledger, n: nat, t: nat, a: Ptr)
    requires Pool(h, l, n) && t < n
    ensures multiset(FreeNodes(h, t) + Outside(l, t))[a] ==
            if 0 <= a < |h.next| && Place(l, a) == t + 1 then 1 else 0
  {
    CountFree(h, l, n, t, a);
    CountOutside(h, l, n, t, a);
  }

  /** A node counted once by thread `place - 1` and by no other is counted once in all. */
  lemma {:induction false} CountJoined(parts: seq<seq<Ptr>>, a: Ptr, place: nat)
    requires forall t: nat | t < |parts| :: multiset(parts[t])[a] == if place == t + 1 then 1 else 0
    ensures multiset(Join(parts))[a] == if 0 < place <= |parts| then 1 else 0
  {
    if |parts| > 0 {
      CountJoined(parts[..|parts| - 1], a, place);
    }
  }

  lemma PlaceInRange(h: Heap, l: Ledger, n: nat, a: nat)
    requires Pool(h, l, n) && a < |l.own|
    ensures Place(l, a) <= n
  {
    assert OwnerAt(l, a);
    if l.own[a].Position? { assert StageAt(l, l.own[a].k); }
  }

  lemma CountThreads(h: Heap, l: Ledger, n: nat, outside: seq<seq<Ptr>>, a: Ptr, place: nat)
    requires Pool(h, l, n) && n == |outside|
    requires forall t: nat | t < n :: outside[t] == Outside(l, t)
    requires place == if 0 <= a < |h.next| then Place(l, a) else n + 1
    ensures multiset(Join(ThreadNodes(h, outside)))[a] == if 0 < place <= n then 1 else 0
  {
    forall t: nat | t < n
      ensures multiset(ThreadNodes(h, outside)[t])[a] == if place == t + 1 then 1 else 0
    {
      CountThread(h, l, n, t, a);
    }
    CountJoined(ThreadNodes(h, outside), a, place);
  }

  /** Each allocated node is in exactly one place, exactly once; and nothing else is anywhere. */
  lemma Conservation(h: Heap, l: Ledger, n: nat, outside: seq<seq<Ptr>>, a: Ptr)
    requires Pool(h, l, n) && n == |outside|
    requires forall t: nat | t < n :: outside[t] == Outside(l, t)
    ensures multiset(Everything(h, outside))[a] == if 0 <= a < |h.next| then 1 else 0
  {
    var place := if 0 <= a < |h.next| then Place(l, a) else n + 1;
    if 0 <= a < |h.next| { PlaceInRange(h, l, n, a); }
    CountLive(h, l, n, a);
    CountThreads(h, l, n, outside, a, place);
  }

  // ---- how many nodes there are --------------------------------------------------------------

  lemma EachOnceLength(s: seq<Ptr>, n: nat)
    requires forall a :: multiset(s)[a] == if 0 <= a < n then 1 else 0
    ensures |s| == n
  {
    var r := Indices(n);
    forall a ensures multiset(s)[a] == multiset(r)[a] {
      DistinctCount(r, a);
      if 0 <= a < n { assert r[a] == a; }
    }
    assert multiset(s) == multiset(r);
    assert |s| == |multiset(s)| && |r| == |multiset(r)|;
  }

  function Lengths(parts: seq<seq<Ptr>>): nat {
    if |parts| == 0 then 0 else Lengths(parts[..|parts| - 1]) + |parts[|parts| - 1]|
  }

  lemma {:induction false} JoinLength(parts: seq<seq<Ptr>>)
    ensures |Join(parts)| == Lengths(parts)
  {
    if |parts| > 0 { JoinLength(parts[..|parts| - 1]); }
  }

  lemma EverythingCounted(h: Heap, l: Ledger, n: nat, outside: seq<seq<Ptr>>)
    requires Pool(h, l, n) && n == |outside|
    requires forall t: nat | t < n :: outside[t] == Outside(l, t)
    ensures |Everything(h, outside)| == |h.next|
  {
    var all := Everything(h, outside);
    forall a ensures multiset(all)[a] == if 0 <= a < |h.next| then 1 else 0 {
      Conservation(h, l, n, outside, a);
    }
    EachOnceLength(all, |h.next|);
  }

  /** The nodes ever allocated: the sentinel, one per queued value, and what the threads have. */
  lemma NodesCounted(h: Heap, l: Ledger, n: nat, outside: seq<seq<Ptr>>)
    requires Pool(h, l, n) && n == |outside|
    requires forall t: nat | t < n :: outside[t] == Outside(l, t)
    ensures |h.next| == 1 + |Contents(h)| + Lengths(ThreadNodes(h, outside))
  {
    EverythingCounted(h, l, n, outside);
    JoinLength(ThreadNodes(h, outside));
    LiveNodesAreChain(h, l, n);
  }
}
