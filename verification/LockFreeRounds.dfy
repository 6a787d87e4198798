/** Lock-freedom, round by round: a thread goes back to the top of its loop only because something
    changed during that very round, and two fruitless rounds mean that some operation took effect. */
module LockFreeRounds {
  import opened Fifo
  import opened LockFree
  import opened LockFreeInvariant
  import opened LockFreeSteps
  import opened LockFreeTheorems
  import opened LockFreeRetries

  /** The thread is at the read with which a round of its loop begins. */
  predicate AtTop(pc: Pc) { pc.EnqTail? || pc.DeqHead? }

  predicate BeginsRound(n: nat, sched: seq<Move>, k: nat, t: nat)
    requires Schedule(n, sched) && k < |sched| && t < n
  {
    sched[k].t == t && AtTop(StateAt(n, sched, k).loc[t].pc)
  }

  /** Thread t begins a round at step i and at step j of that round goes back to the top, not
      because of a spurious failure. */
  ghost predicate FruitlessRound(n: nat, sched: seq<Move>, i: nat, j: nat, t: nat)
    requires Schedule(n, sched) && i < j < |sched| && t < n
  {
    && BeginsRound(n, sched, i, t)
    && (forall k: nat | i < k <= j :: !BeginsRound(n, sched, k, t))
    && Retries(n, sched, j, t) && !FailsSpuriously(n, sched, j, t)
  }

  // ---- why a thread goes back ----------------------------------------------------------------

  /** The thread's step sends it back to the top although no compare-exchange fails spuriously. */
  predicate GoesBack(s: State, t: nat, c: Choice)
    requires Thread(s, t)
  {
    MayRestart(s.loc[t].pc) && AtTop(Step(s, t, c).loc[t].pc) && !Spurious(s, t, c)
  }

  /** Something has changed since the round began. */
  predicate Moved(s: State, g: History, t: nat, c: Choice)
    requires NoteSized(s, g) && t < |s.loc|
  {
    g.marks[t].round < Changed(Note(s, g, t, c).l)
  }

  lemma EnqBackMoved(s: State, g: History, t: nat, c: Choice)
    requires Inv(s, g) && t < |s.loc| && GoesBack(s, t, c) && (s.loc[t].pc.EnqCheck? || s.loc[t].pc.EnqLink?)
    ensures Moved(s, g, t, c)
  {
    assert Knows(s, g, t);
    ReadNext(s.h, g.l, |s.loc|, g.marks[t].base, g.marks[t].li);
  }

  lemma HelpBackMoved(s: State, g: History, t: nat, c: Choice)
    requires Inv(s, g) && t < |s.loc| && GoesBack(s, t, c) && (s.loc[t].pc.EnqHelp? || s.loc[t].pc.DeqHelp?)
    ensures Moved(s, g, t, c)
  {
    assert Knows(s, g, t);
  }

  lemma DeqBackMoved(s: State, g: History, t: nat, c: Choice)
    requires Inv(s, g) && t < |s.loc| && GoesBack(s, t, c) && (s.loc[t].pc.DeqCheck? || s.loc[t].pc.DeqAdvance?)
    ensures Moved(s, g, t, c)
  {
    assert Knows(s, g, t);
  }

  lemma BackMoved(s: State, g: History, t: nat, c: Choice)
    requires Inv(s, g) && t < |s.loc| && GoesBack(s, t, c)
    ensures Moved(s, g, t, c)
  {
    var pc := s.loc[t].pc;
    if pc.EnqCheck? || pc.EnqLink? { EnqBackMoved(s, g, t, c); }
    else if pc.EnqHelp? || pc.DeqHelp? { HelpBackMoved(s, g, t, c); }
    else { DeqBackMoved(s, g, t, c); }
  }

  lemma RoundMark(s: State, g: History, u: nat, c: Choice, t: nat)
    requires NoteSized(s, g) && u < |s.loc| && t < |s.loc|
    ensures Note(s, g, u, c).marks[t].round == if u == t && AtTop(s.loc[t].pc) then Changed(g.l) else g.marks[t].round
  {
  }

  lemma RoundNext(n: nat, sched: seq<Move>, k: nat, t: nat)
    requires Schedule(n, sched) && k < |sched| && t < n
    ensures HistoryAt(n, sched, k + 1).marks[t].round ==
            if BeginsRound(n, sched, k, t) then Changed(HistoryAt(n, sched, k).l)
            else HistoryAt(n, sched, k).marks[t].round
  {
    LaterIsOneStep(n, sched, k + 1);
    RoundMark(StateAt(n, sched, k), HistoryAt(n, sched, k), sched[k].t, sched[k].c, t);
  }

  /** The record made at the top stays for the rest of the round. */
  lemma {:induction false} RoundRecorded(n: nat, sched: seq<Move>, i: nat, k: nat, t: nat)
    requires Schedule(n, sched) && i < k <= |sched| && t < n && BeginsRound(n, sched, i, t)
    requires forall m: nat | i < m < k :: !BeginsRound(n, sched, m, t)
    ensures HistoryAt(n, sched, k).marks[t].round == Changed(HistoryAt(n, sched, i).l)
    decreases k
  {
    RoundNext(n, sched, k - 1, t);
    if i + 1 < k { RoundRecorded(n, sched, i, k - 1, t); }
  }

  lemma BackAt(n: nat, sched: seq<Move>, j: nat, t: nat)
    requires Schedule(n, sched) && j < |sched| && t < n
    requires Retries(n, sched, j, t) && !FailsSpuriously(n, sched, j, t)
    ensures HistoryAt(n, sched, j).marks[t].round < Changed(HistoryAt(n, sched, j + 1).l)
  {
    LaterIsOneStep(n, sched, j + 1);
    Reachable(n, sched[..j]);
    BackMoved(StateAt(n, sched, j), HistoryAt(n, sched, j), t, sched[j].c);
  }

  lemma RoundChanges(n: nat, sched: seq<Move>, i: nat, j: nat, t: nat)
    requires Schedule(n, sched) && i < j < |sched| && t < n && FruitlessRound(n, sched, i, j, t)
    ensures Changed(HistoryAt(n, sched, i).l) < Changed(HistoryAt(n, sched, j + 1).l)
  {
    RoundRecorded(n, sched, i, j, t);
    BackAt(n, sched, j, t);
  }

  /** What the ledger counts is what memory shows. */
  lemma ChangesBetween(n: nat, sched: seq<Move>, i: nat, k: nat)
    requires Schedule(n, sched) && i <= k <= |sched|
    ensures Changed(HistoryAt(n, sched, k).l) - Changed(HistoryAt(n, sched, i).l)
            == MovesBefore(n, sched, k) - MovesBefore(n, sched, i) >= 0
  {
    ChangesCounted(n, sched, i);
    ChangesCounted(n, sched, k);
    GrowsBetween(n, sched, i, k);
  }

  /** Each fruitless round spans a change of `head`, of `tail` or of a link. */
  lemma FruitlessRoundSpansChange(n: nat, sched: seq<Move>, i: nat, j: nat, t: nat)
    requires Schedule(n, sched) && i < j < |sched| && t < n && FruitlessRound(n, sched, i, j, t)
    ensures MovesBefore(n, sched, i) < MovesBefore(n, sched, j + 1)
  {
    RoundChanges(n, sched, i, j, t);
    ChangesBetween(n, sched, i, j + 1);
  }

  // ---- what changes while nothing takes effect -----------------------------------------------

  /** Step k makes some operation take effect: a value is appended or removed. */
  predicate TakesEffectAt(n: nat, sched: seq<Move>, k: nat)
    requires Schedule(n, sched) && k < |sched|
  {
    Changes(Emit(StateAt(n, sched, k), sched[k].t, sched[k].c))
  }

  /** No operation takes effect in steps i to k - 1: nothing is appended and nothing removed. */
  ghost predicate NoEffect(n: nat, sched: seq<Move>, i: nat, k: nat)
    requires Schedule(n, sched) && i <= k <= |sched|
  {
    forall m: nat | i <= m < k :: !TakesEffectAt(n, sched, m)
  }

  lemma QuietEnds(s: State, g: History, t: nat, c: Choice)
    requires NoteSized(s, g) && t < |s.loc| && !Changes(Emit(s, t, c))
    ensures Note(s, g, t, c).l.hi == g.l.hi && |Note(s, g, t, c).l.chain| == |g.l.chain|
  {
  }

  lemma {:induction false} EndsStand(n: nat, sched: seq<Move>, i: nat, k: nat)
    requires Schedule(n, sched) && i <= k <= |sched| && NoEffect(n, sched, i, k)
    ensures HistoryAt(n, sched, k).l.hi == HistoryAt(n, sched, i).l.hi
    ensures |HistoryAt(n, sched, k).l.chain| == |HistoryAt(n, sched, i).l.chain|
    decreases k
  {
    if i < k {
      EndsStand(n, sched, i, k - 1);
      assert !TakesEffectAt(n, sched, k - 1);
      LaterIsOneStep(n, sched, k);
      QuietEnds(StateAt(n, sched, k - 1), HistoryAt(n, sched, k - 1), sched[k - 1].t, sched[k - 1].c);
    }
  }

  lemma TailRange(n: nat, sched: seq<Move>, k: nat)
    requires Schedule(n, sched) && k <= |sched|
    ensures var l := HistoryAt(n, sched, k).l; |l.chain| - 2 <= l.ti < |l.chain|
  {
    Reachable(n, sched[..k]);
  }

  lemma QuietChanges(n: nat, sched: seq<Move>, i: nat, k: nat)
    requires Schedule(n, sched) && i <= k <= |sched| && NoEffect(n, sched, i, k)
    ensures Changed(HistoryAt(n, sched, k).l) <= Changed(HistoryAt(n, sched, i).l) + 1
  {
    EndsStand(n, sched, i, k);
    TailRange(n, sched, i);
    TailRange(n, sched, k);
  }

  /** While no operation takes effect, there is at most one change: a lagging `tail` catches up. */
  lemma AtMostOneChange(n: nat, sched: seq<Move>, i: nat, k: nat)
    requires Schedule(n, sched) && i <= k <= |sched| && NoEffect(n, sched, i, k)
    ensures MovesBefore(n, sched, k) <= MovesBefore(n, sched, i) + 1
  {
    QuietChanges(n, sched, i, k);
    ChangesBetween(n, sched, i, k);
  }

  // ---- lock-freedom --------------------------------------------------------------------------

  lemma TwoRoundsTwoChanges(n: nat, sched: seq<Move>, i: nat, j: nat, t: nat, i': nat, j': nat, t': nat)
    requires Schedule(n, sched) && i < j < i' < j' < |sched| && t < n && t' < n
    requires FruitlessRound(n, sched, i, j, t) && FruitlessRound(n, sched, i', j', t')
    ensures MovesBefore(n, sched, i) + 2 <= MovesBefore(n, sched, j' + 1)
  {
    FruitlessRoundSpansChange(n, sched, i, j, t);
    FruitlessRoundSpansChange(n, sched, i', j', t');
    ChangesBetween(n, sched, j + 1, i');
  }

  /** Lock-freedom: of two fruitless rounds, one after the other, of the same thread or of two
      threads, at least one is due to an operation that took effect between their beginning and
      their end; so whenever threads keep going round, operations keep taking effect. */
  lemma TwoFruitlessRounds(n: nat, sched: seq<Move>, i: nat, j: nat, t: nat, i': nat, j': nat, t': nat) returns (k: nat)
    requires Schedule(n, sched) && i < j < i' < j' < |sched| && t < n && t' < n
    requires FruitlessRound(n, sched, i, j, t) && FruitlessRound(n, sched, i', j', t')
    ensures i <= k <= j' && TakesEffectAt(n, sched, k)
  {
    TwoRoundsTwoChanges(n, sched, i, j, t, i', j', t');
    k := EffectBetween(n, sched, i, j' + 1);
  }

  lemma EffectBetween(n: nat, sched: seq<Move>, i: nat, k: nat) returns (m: nat)
    requires Schedule(n, sched) && i <= k <= |sched|
    requires MovesBefore(n, sched, i) + 2 <= MovesBefore(n, sched, k)
    ensures i <= m < k && TakesEffectAt(n, sched, m)
  {
    if NoEffect(n, sched, i, k) { AtMostOneChange(n, sched, i, k); }
    m :| i <= m < k && TakesEffectAt(n, sched, m);
  }
}
