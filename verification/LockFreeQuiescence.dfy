/** Why waiting makes recycling safe: the wait outlasts every operation that was in progress when
    the node was unlinked. */
module LockFreeQuiescence {
  import opened LockFree
  import opened LockFreeInvariant
  import opened LockFreeSteps
  import opened LockFreeTheorems

  /** Between the unlinking and the return of the call. */
  predicate Leaving(pc: Pc) { pc.DeqRetire? || pc.OpEnd? || Reclaiming(pc) }

  /** At step i thread t moves `head` on. */
  predicate UnlinksAt(n: nat, sched: seq<Move>, i: nat, t: nat)
    requires Schedule(n, sched) && i < |sched| && t < n
  {
    var s := StateAt(n, sched, i);
    sched[i].t == t && s.loc[t].pc.DeqAdvance? && CasOk(s.h.head, s.loc[t].first, sched[i].c)
  }

  /** After step i and up to step j the thread is in the rest of that call. */
  ghost predicate SameCall(n: nat, sched: seq<Move>, i: nat, j: nat, t: nat)
    requires Schedule(n, sched) && i <= j <= |sched| && t < n
  {
    forall k: nat | i < k <= j :: Leaving(StateAt(n, sched, k).loc[t].pc)
  }

  /** Thread t is about to overwrite the link of the node it recycles. */
  predicate RecyclesAt(n: nat, sched: seq<Move>, j: nat, t: nat)
    requires Schedule(n, sched) && j <= |sched| && t < n
  {
    StateAt(n, sched, j).loc[t].pc.Recycle? && |StateAt(n, sched, j).loc[t].todo| > 0
  }

  lemma FirstStays(s: State, g: History, u: nat, c: Choice, t: nat)
    requires NoteSized(s, g) && u < |s.loc| && t < |s.loc| && !s.loc[t].pc.DeqHead?
    ensures Note(s, g, u, c).marks[t].fi == g.marks[t].fi
  {
  }

  lemma {:induction false} FirstStaysInCall(n: nat, sched: seq<Move>, i: nat, j: nat, t: nat)
    requires Schedule(n, sched) && i < j <= |sched| && t < n && UnlinksAt(n, sched, i, t) && SameCall(n, sched, i, j, t)
    ensures HistoryAt(n, sched, j).marks[t].fi == HistoryAt(n, sched, i).marks[t].fi
    decreases j
  {
    if i + 1 < j { FirstStaysInCall(n, sched, i, j - 1, t); }
    LaterIsOneStep(n, sched, j);
    FirstStays(StateAt(n, sched, j - 1), HistoryAt(n, sched, j - 1), sched[j - 1].t, sched[j - 1].c, t);
  }

  /** The unlinked position is the one head had. */
  lemma UnlinksHead(n: nat, sched: seq<Move>, i: nat, t: nat)
    requires Schedule(n, sched) && i < |sched| && t < n && UnlinksAt(n, sched, i, t)
    ensures HistoryAt(n, sched, i).marks[t].fi == HistoryAt(n, sched, i).l.hi
  {
    var (s, g) := Run(n, sched[..i]);
    Reachable(n, sched[..i]);
    assert Knows(s, g, t);
    SameNode(s.h, g.l, n, g.marks[t].base, g.marks[t].fi, g.l.hi);
  }

  lemma RecyclerKnows(n: nat, sched: seq<Move>, j: nat, t: nat, u: nat)
    requires Schedule(n, sched) && j <= |sched| && t < n && u < n && t != u && RecyclesAt(n, sched, j, t)
    ensures var s, g := StateAt(n, sched, j), HistoryAt(n, sched, j);
            && Unlinked(g.l, t, g.marks[t], s.loc[t].todo)
            && (Odd(s.ctr[u]) ==> g.marks[t].fi < g.marks[u].base)
  {
    KnowsAt(n, sched[..j], t);
    KnowsAt(n, sched[..j], u);
    assert Past(StateAt(n, sched, j), HistoryAt(n, sched, j), u, HistoryAt(n, sched, j).marks[t].fi);
  }

  /** Quiescence: when thread t, having unlinked a node at step i, recycles it at step j, no other
      thread is still in an operation it was in at step i. */
  lemma WaitOutlasts(n: nat, sched: seq<Move>, i: nat, j: nat, t: nat, u: nat)
    requires Schedule(n, sched) && i < j <= |sched| && t < n && u < n && t != u
    requires UnlinksAt(n, sched, i, t) && SameCall(n, sched, i, j, t) && RecyclesAt(n, sched, j, t)
    ensures !OneOperation(n, sched, i, j, u)
  {
    if OneOperation(n, sched, i, j, u) {
      ReservedThroughout(n, sched, i, i, j, u);
      CounterBetween(n, sched, i, j, u);
      FirstStaysInCall(n, sched, i, j, t);
      UnlinksHead(n, sched, i, t);
      RecyclerKnows(n, sched, j, t, u);
      assert false;
    }
  }

  /** And the node it recycles is the one it unlinked. */
  lemma RecyclesWhatItUnlinked(n: nat, sched: seq<Move>, i: nat, j: nat, t: nat)
    requires Schedule(n, sched) && i < j <= |sched| && t < n
    requires UnlinksAt(n, sched, i, t) && SameCall(n, sched, i, j, t) && RecyclesAt(n, sched, j, t)
    ensures StateAt(n, sched, j).loc[t].todo == [StateAt(n, sched, i).h.head]
  {
    FirstStaysInCall(n, sched, i, j, t);
    UnlinksHead(n, sched, i, t);
    PositionsAt(n, sched, i);
    GrowsBetween(n, sched, i, j);
    KnowsAt(n, sched[..j], t);
  }
}
