/** The Peterson lock between the enqueue side (slot 0) and the dequeue side (slot 1).  Each slot is
    entered by one thread at a time, the holder of that slot's outer lock; the two conditions of the
    wait loop are read in separate steps. */
module Peterson {

  /** Where the slot's thread stands; `Outside` also while the outer lock is free. */
  datatype Pc = Outside | Entered | SetFlag | SetVictim | ReadFlag | ReadVictim | Critical | Leaving

  /** `bypassed` and `entries` are bookkeeping: how often the other slot has entered since this one
      last wrote `victim`. */
  datatype State = State(flag: seq<bool>, victim: nat, holder: seq<int>, pc: seq<Pc>, bypassed: seq<nat>)

  const FREE: int := -1

  /** Thread `t` acts for slot `i`; `contended` is what the test that precedes `lock_peterson` sees. */
  datatype Move = Move(i: nat, t: int, contended: bool)

  predicate Sized(s: State) { |s.flag| == |s.holder| == |s.pc| == |s.bypassed| == 2 && s.victim < 2 }

  function Goto(s: State, i: nat, pc: Pc): (r: State)
    requires Sized(s) && i < 2
    ensures Sized(r)
  {
    s.(pc := s.pc[i := pc])
  }

  /** Slot i gets past `lock_peterson`. */
  function Enter(s: State, i: nat): (r: State)
    requires Sized(s) && i < 2
    ensures Sized(r)
  {
    Goto(s, i, Critical).(bypassed := s.bypassed[1 - i := s.bypassed[1 - i] + 1])
  }

  function Step(s: State, m: Move): (r: State)
    requires Sized(s) && m.i < 2
    ensures Sized(r)
  {
    var i, other := m.i, 1 - m.i;
    if s.pc[i].Outside? then
      (if s.holder[i] == FREE then Goto(s, i, Entered).(holder := s.holder[i := m.t]) else s)
    else if s.holder[i] != m.t then s
    else
      match s.pc[i]
      case Entered => if m.contended then Goto(s, i, SetFlag) else Goto(s, i, Leaving)
      case SetFlag => Goto(s, i, SetVictim).(flag := s.flag[i := true])
      case SetVictim => Goto(s, i, ReadFlag).(victim := i, bypassed := s.bypassed[i := 0])
      case ReadFlag => if s.flag[other] then Goto(s, i, ReadVictim) else Enter(s, i)
      case ReadVictim => if s.victim == i then Goto(s, i, ReadFlag) else Enter(s, i)
      case Critical => Goto(s, i, Leaving).(flag := s.flag[i := false])
      case Leaving => Goto(s, i, Outside).(holder := s.holder[i := FREE])
      case Outside => s
  }

  const INIT: State := State([false, false], 0, [FREE, FREE], [Outside, Outside], [0, 0])

  predicate Schedule(sched: seq<Move>) { forall k | 0 <= k < |sched| :: sched[k].i < 2 && sched[k].t >= 0 }

  function Run(sched: seq<Move>): (s: State)
    requires Schedule(sched)
    ensures Sized(s)
    decreases |sched|, 1
  {
    if |sched| == 0 then INIT else LastMove(sched)
  }

  function LastMove(sched: seq<Move>): (s: State)
    requires Schedule(sched) && |sched| > 0
    ensures Sized(s)
    decreases |sched|, 0
  {
    Step(Run(sched[..|sched| - 1]), sched[|sched| - 1])
  }

  /** The state after k steps. */
  function StateAt(sched: seq<Move>, k: nat): (s: State)
    requires Schedule(sched) && k <= |sched|
    ensures Sized(s)
  {
    Run(sched[..k])
  }

  /** A run goes on with one step. */
  lemma RunStep(sched: seq<Move>, k: nat)
    requires Schedule(sched) && k < |sched|
    ensures StateAt(sched, k + 1) == Step(StateAt(sched, k), sched[k])
  {
    assert sched[..k + 1][..k] == sched[..k];
    assert Run(sched[..k + 1]) == LastMove(sched[..k + 1]);
  }

  // ---- the invariant -------------------------------------------------------------------------

  predicate Waiting(pc: Pc) { pc.ReadFlag? || pc.ReadVictim? }

  /** The slot's flag is up. */
  predicate Raised(pc: Pc) { pc.SetVictim? || Waiting(pc) || pc.Critical? }

  /** Flag and outer lock say where the slot is. */
  predicate Posted(s: State, i: nat)
    requires Sized(s) && i < 2
  {
    (s.flag[i] <==> Raised(s.pc[i])) && (s.holder[i] == FREE <==> s.pc[i].Outside?)
  }

  /** A slot waiting while the other is inside is the victim. */
  predicate Yielding(s: State, i: nat)
    requires Sized(s) && i < 2
  {
    && (Waiting(s.pc[i]) && s.pc[1 - i].Critical? ==> s.victim == i)
    && !(s.pc[i].Critical? && s.pc[1 - i].Critical?)
  }

  /** A slot that was overtaken while waiting is not overtaken again. */
  predicate Fair(s: State, i: nat)
    requires Sized(s) && i < 2
  {
    Waiting(s.pc[i]) ==>
      s.bypassed[i] <= 1 && (s.bypassed[i] == 1 && Waiting(s.pc[1 - i]) ==> s.victim == 1 - i)
  }

  predicate Inv(s: State) {
    Sized(s) && forall i: nat | i < 2 :: Posted(s, i) && Yielding(s, i) && Fair(s, i)
  }

  /** Only the slot's own thread writes its flag, its place and its holder. */
  lemma OtherStays(s: State, m: Move)
    requires Sized(s) && m.i < 2
    ensures var s', other := Step(s, m), 1 - m.i;
            s'.flag[other] == s.flag[other] && s'.pc[other] == s.pc[other] && s'.holder[other] == s.holder[other]
  {
  }

  /** The other slot's record goes up by one when the slot gets past `lock_peterson`. */
  lemma EntryNoted(s: State, m: Move)
    requires Sized(s) && m.i < 2
    ensures var s', other := Step(s, m), 1 - m.i;
            s'.bypassed[other] == s.bypassed[other] + if !s.pc[m.i].Critical? && s'.pc[m.i].Critical? then 1 else 0
  {
  }

  /** A slot in the wait loop stays there or enters; it is seen to be overtaken by nothing it does. */
  lemma WaitingStep(s: State, m: Move)
    requires Sized(s) && m.i < 2 && Waiting(s.pc[m.i])
    ensures var s', i := Step(s, m), m.i;
            && s'.victim == s.victim && s'.bypassed[i] == s.bypassed[i]
            && (Waiting(s'.pc[i]) || (s'.pc[i].Critical? && !(s.flag[1 - i] && s.pc[i].ReadFlag?)
                                      && !(s.victim == i && s.pc[i].ReadVictim?)))
  {
  }

  lemma PostedAfter(s: State, m: Move, i: nat)
    requires Sized(s) && m.i < 2 && m.t >= 0 && i < 2 && Posted(s, i)
    ensures Posted(Step(s, m), i)
  {
    if i != m.i { OtherStays(s, m); }
  }

  lemma YieldingAfter(s: State, m: Move, i: nat)
    requires Sized(s) && m.i < 2 && i < 2
    requires Posted(s, i) && Posted(s, 1 - i) && Yielding(s, i) && Yielding(s, 1 - i)
    ensures Yielding(Step(s, m), i)
  {
    OtherStays(s, m);
    if Waiting(s.pc[m.i]) { WaitingStep(s, m); }
  }

  lemma FairAfter(s: State, m: Move, i: nat)
    requires Sized(s) && m.i < 2 && i < 2
    requires Posted(s, i) && Yielding(s, i) && Fair(s, i)
    ensures Fair(Step(s, m), i)
  {
    OtherStays(s, m);
    EntryNoted(s, m);
    if Waiting(s.pc[m.i]) { WaitingStep(s, m); }
  }

  lemma StepKeepsInv(s: State, m: Move)
    requires Inv(s) && m.i < 2 && m.t >= 0
    ensures Inv(Step(s, m))
  {
    forall i: nat | i < 2 ensures Posted(Step(s, m), i) && Yielding(Step(s, m), i) && Fair(Step(s, m), i) {
      assert Posted(s, i) && Posted(s, 1 - i) && Yielding(s, 1 - i);
      PostedAfter(s, m, i);
      YieldingAfter(s, m, i);
      FairAfter(s, m, i);
    }
  }

  lemma {:induction false} Reachable(sched: seq<Move>)
    requires Schedule(sched)
    ensures Inv(Run(sched))
  {
    if |sched| > 0 {
      Reachable(sched[..|sched| - 1]);
      StepKeepsInv(Run(sched[..|sched| - 1]), sched[|sched| - 1]);
      RunStep(sched, |sched| - 1);
      assert sched[..|sched|] == sched;
    }
  }

  /** The enqueue side and the dequeue side are never both past `lock_peterson`. */
  lemma MutualExclusion(sched: seq<Move>)
    requires Schedule(sched)
    ensures !(Run(sched).pc[0].Critical? && Run(sched).pc[1].Critical?)
  {
    Reachable(sched);
    assert Yielding(Run(sched), 0);
  }

  // ---- progress ------------------------------------------------------------------------------

  /** Going round the wait loop alone, slot i would never get out. */
  predicate Stuck(s: State, i: nat)
    requires Sized(s) && i < 2
  {
    Waiting(s.pc[i]) && s.flag[1 - i] && s.victim == i
  }

  /** A slot that is not stuck enters within two steps of its own thread. */
  lemma EntersSoon(sched: seq<Move>, i: nat, c: bool)
    requires Schedule(sched) && i < 2 && Waiting(Run(sched).pc[i]) && !Stuck(Run(sched), i)
    ensures var s := Run(sched); var m := Move(i, s.holder[i], c);
            Step(s, m).pc[i].Critical? || Step(Step(s, m), m).pc[i].Critical?
  {
    Reachable(sched);
    assert Posted(Run(sched), i);
  }

  /** One side can always proceed: if slot i is stuck, the other slot is inside the protocol and is
      not stuck, so it can step towards `unlock_peterson`. */
  lemma NeverBothStuck(sched: seq<Move>, i: nat)
    requires Schedule(sched) && i < 2 && Stuck(Run(sched), i)
    ensures !Stuck(Run(sched), 1 - i) && Raised(Run(sched).pc[1 - i])
  {
    Reachable(sched);
    assert Posted(Run(sched), 1 - i);
  }

  // ---- bounded bypass ------------------------------------------------------------------------

  /** At step k slot i gets past `lock_peterson`. */
  predicate EntersAt(sched: seq<Move>, k: nat, i: nat)
    requires Schedule(sched) && k < |sched| && i < 2
  {
    !StateAt(sched, k).pc[i].Critical? && StateAt(sched, k + 1).pc[i].Critical?
  }

  function EntriesIn(sched: seq<Move>, a: nat, b: nat, i: nat): nat
    requires Schedule(sched) && a <= b <= |sched| && i < 2
    decreases b
  {
    if a == b then 0 else EntriesIn(sched, a, b - 1, i) + if EntersAt(sched, b - 1, i) then 1 else 0
  }

  /** At step k slot i writes `victim`. */
  predicate YieldsAt(sched: seq<Move>, k: nat, i: nat)
    requires Schedule(sched) && k < |sched| && i < 2
  {
    StateAt(sched, k).pc[i].SetVictim? && StateAt(sched, k + 1).pc[i].ReadFlag?
  }

  predicate WaitsThroughout(sched: seq<Move>, a: nat, b: nat, i: nat)
    requires Schedule(sched) && a <= b <= |sched| && i < 2
  {
    forall k: nat | a <= k <= b :: Waiting(StateAt(sched, k).pc[i])
  }

  lemma StepCounts(s: State, m: Move, i: nat)
    requires Sized(s) && m.i < 2 && i < 2 && Waiting(s.pc[i]) && Waiting(Step(s, m).pc[i])
    ensures Step(s, m).bypassed[i] ==
            s.bypassed[i] + if !s.pc[1 - i].Critical? && Step(s, m).pc[1 - i].Critical? then 1 else 0
  {
    OtherStays(s, m);
    EntryNoted(s, m);
    if m.i == i { WaitingStep(s, m); }
  }

  lemma BypassNext(sched: seq<Move>, k: nat, i: nat)
    requires Schedule(sched) && k < |sched| && i < 2
    requires Waiting(StateAt(sched, k).pc[i]) && Waiting(StateAt(sched, k + 1).pc[i])
    ensures StateAt(sched, k + 1).bypassed[i]
            == StateAt(sched, k).bypassed[i] + if EntersAt(sched, k, 1 - i) then 1 else 0
  {
    RunStep(sched, k);
    StepCounts(StateAt(sched, k), sched[k], i);
  }

  lemma {:induction false} BypassCounted(sched: seq<Move>, a: nat, b: nat, i: nat)
    requires Schedule(sched) && a <= b <= |sched| && i < 2 && WaitsThroughout(sched, a, b, i)
    ensures StateAt(sched, b).bypassed[i] == StateAt(sched, a).bypassed[i] + EntriesIn(sched, a, b, 1 - i)
    decreases b
  {
    if a < b {
      BypassCounted(sched, a, b - 1, i);
      assert Waiting(StateAt(sched, b - 1).pc[i]) && Waiting(StateAt(sched, b).pc[i]);
      BypassNext(sched, b - 1, i);
    }
  }

  lemma YieldResets(s: State, m: Move, i: nat)
    requires Sized(s) && m.i < 2 && i < 2 && s.pc[i].SetVictim? && Step(s, m).pc[i].ReadFlag?
    ensures Step(s, m).bypassed[i] == 0
  {
  }

  /** After slot i has written `victim` at step k, and for as long as it then waits, the other slot
      enters at most once. */
  lemma BypassedAtMostOnce(sched: seq<Move>, k: nat, b: nat, i: nat)
    requires Schedule(sched) && k < b <= |sched| && i < 2
    requires YieldsAt(sched, k, i) && WaitsThroughout(sched, k + 1, b, i)
    ensures EntriesIn(sched, k + 1, b, 1 - i) <= 1
  {
    BypassCounted(sched, k + 1, b, i);
    Reachable(sched[..b]);
    RunStep(sched, k);
    assert Waiting(StateAt(sched, b).pc[i]) && Fair(StateAt(sched, b), i);
    YieldResets(StateAt(sched, k), sched[k], i);
  }

  // ---- the lock as the program holds it ------------------------------------------------------

  class Lock {
    const flag: array<bool>
    var victim: nat
    const holder: array<int>
    const pc: array<Pc>
    ghost var bypassed: seq<nat>

    ghost function View(): (s: State)
      reads this, flag, holder, pc
    {
      State(flag[..], victim, holder[..], pc[..], bypassed)
    }

    ghost predicate Shaped()
      reads this
    {
      flag.Length == holder.Length == pc.Length == |bypassed| == 2 && victim < 2
    }

    ghost predicate Valid()
      reads this, flag, holder, pc
    {
      Shaped() && Inv(View())
    }

    constructor ()
      ensures Valid() && View() == INIT && fresh(flag) && fresh(holder) && fresh(pc)
    {
      flag := new bool[2](_ => false);
      victim := 0;
      holder := new int[2](_ => FREE);
      pc := new Pc[2](_ => Outside);
      bypassed := [0, 0];
      new;
      assert View() == INIT;
      Reachable([]);
    }

    /** `omp_set_lock` of the slot's own lock. */
    method SetOuter(m: Move)
      requires Shaped() && m.i < 2 && pc[m.i].Outside?
      modifies holder, pc
      ensures Shaped() && View() == Step(old(View()), m)
    {
      if holder[m.i] == FREE {
        holder[m.i] := m.t;
        pc[m.i] := Entered;
      }
    }

    /** The test in front of `lock_peterson`, and the accesses of `lock_peterson` itself. */
    method LockPeterson(m: Move)
      requires Shaped() && m.i < 2 && holder[m.i] == m.t
      requires pc[m.i].Entered? || pc[m.i].SetFlag? || pc[m.i].SetVictim? || Waiting(pc[m.i])
      modifies this, flag, pc
      ensures Shaped() && View() == Step(old(View()), m)
    {
      var other := 1 - m.i;
      match pc[m.i]
      case Entered => pc[m.i] := if m.contended then SetFlag else Leaving;
      case SetFlag =>
        flag[m.i] := true;
        pc[m.i] := SetVictim;
      case SetVictim =>
        victim := m.i;
        bypassed := bypassed[m.i := 0];
        pc[m.i] := ReadFlag;
      case ReadFlag =>
        if flag[other] {
          pc[m.i] := ReadVictim;
        } else {
          pc[m.i] := Critical;
          bypassed := bypassed[other := bypassed[other] + 1];
        }
      case ReadVictim =>
        if victim == m.i {
          pc[m.i] := ReadFlag;
        } else {
          pc[m.i] := Critical;
          bypassed := bypassed[other := bypassed[other] + 1];
        }
    }

    /** `unlock_peterson` */
    method UnlockPeterson(m: Move)
      requires Shaped() && m.i < 2 && holder[m.i] == m.t && pc[m.i].Critical?
      modifies flag, pc
      ensures Shaped() && View() == Step(old(View()), m)
    {
      flag[m.i] := false;
      pc[m.i] := Leaving;
    }

    method UnsetOuter(m: Move)
      requires Shaped() && m.i < 2 && holder[m.i] == m.t && pc[m.i].Leaving?
      modifies holder, pc
      ensures Shaped() && View() == Step(old(View()), m)
    {
      holder[m.i] := FREE;
      pc[m.i] := Outside;
    }

    method Act(m: Move)
      requires Valid() && m.i < 2 && m.t >= 0
      modifies this, flag, holder, pc
      ensures Valid() && View() == Step(old(View()), m)
    {
      StepKeepsInv(View(), m);
      if pc[m.i].Outside? { SetOuter(m); }
      else if holder[m.i] != m.t { }
      else if pc[m.i].Critical? { UnlockPeterson(m); }
      else if pc[m.i].Leaving? { UnsetOuter(m); }
      else { LockPeterson(m); }
    }
  }

  /** A fresh lock driven by any schedule ends in the state the state machine predicts. */
  method Execute(sched: seq<Move>) returns (l: Lock)
    requires Schedule(sched)
    ensures l.Valid() && l.View() == Run(sched)
  {
    l := new Lock();
    for k := 0 to |sched|
      invariant l.Valid() && fresh(l) && fresh(l.flag) && fresh(l.holder) && fresh(l.pc)
      invariant l.View() == StateAt(sched, k)
    {
      l.Act(sched[k]);
      RunStep(sched, k);
    }
    assert sched[..|sched|] == sched;
  }
}
