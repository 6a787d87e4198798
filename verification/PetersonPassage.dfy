/** How the program passes through the lock: a thread whose test sees contention always goes through
    `lock_peterson`, one whose test does not never raises its flag, and nothing but the other slot's
    flag and the outer locks can hold a thread up. */
module PetersonPassage {
  import opened Peterson

  lemma RunOn(sched: seq<Move>, m: Move)
    requires Schedule(sched) && m.i < 2 && m.t >= 0
    ensures Run(sched + [m]) == Step(Run(sched), m)
  {
    var all := sched + [m];
    RunStep(all, |sched|);
    assert all[..|sched|] == sched && all[..|sched| + 1] == all;
  }

  /** Steps of slot i, all by its thread t. */
  predicate StepsOf(moves: seq<Move>, i: nat, t: int) {
    i < 2 && t >= 0 && forall k | 0 <= k < |moves| :: moves[k].i == i && moves[k].t == t
  }

  /** The slot's test in front of `lock_peterson` is made at step k, by the slot's own thread. */
  predicate TestsAt(sched: seq<Move>, k: nat, i: nat)
    requires Schedule(sched) && k < |sched| && i < 2
  {
    var s := StateAt(sched, k);
    s.pc[i].Entered? && sched[k].i == i && sched[k].t == s.holder[i]
  }

  // ---- alone ---------------------------------------------------------------------------------

  /** Thread t acts for slot i and stands at `pc`; the other slot's flag is down. */
  predicate Stands(sched: seq<Move>, i: nat, t: int, pc: Pc) {
    && Schedule(sched) && i < 2 && t >= 0
    && Run(sched).pc[i] == pc && Run(sched).holder[i] == t && !Run(sched).flag[1 - i]
  }

  /** Where a thread that saw contention goes next. */
  function Onward(pc: Pc): Pc {
    match pc
    case Entered => SetFlag
    case SetFlag => SetVictim
    case SetVictim => ReadFlag
    case ReadFlag => Critical
    case _ => Leaving
  }

  lemma PassageStep(sched: seq<Move>, m: Move, pc: Pc)
    requires Stands(sched, m.i, m.t, pc) && (pc.Entered? ==> m.contended)
    requires pc.Entered? || pc.SetFlag? || pc.SetVictim? || pc.ReadFlag? || pc.Critical?
    ensures Stands(sched + [m], m.i, m.t, Onward(pc))
  {
    RunOn(sched, m);
    OtherStays(Run(sched), m);
  }

  lemma OneMove(sched: seq<Move>, moves: seq<Move>, k: nat)
    requires k < |moves|
    ensures sched + moves[..k + 1] == sched + moves[..k] + [moves[k]]
  {
  }

  /** The next step of a thread that runs alone. */
  lemma PassageOn(sched: seq<Move>, moves: seq<Move>, k: nat, i: nat, t: int, pc: Pc)
    requires k < |moves| && StepsOf(moves, i, t) && Stands(sched + moves[..k], i, t, pc)
    requires pc.Entered? ==> moves[k].contended
    requires pc.Entered? || pc.SetFlag? || pc.SetVictim? || pc.ReadFlag? || pc.Critical?
    ensures Stands(sched + moves[..k + 1], i, t, Onward(pc))
  {
    OneMove(sched, moves, k);
    PassageStep(sched + moves[..k], moves[k], pc);
  }

  lemma ContendedFrom(sched: seq<Move>, moves: seq<Move>, k: nat, i: nat, t: int)
    requires k + 4 <= |moves| && StepsOf(moves, i, t) && Stands(sched + moves[..k], i, t, Entered)
    requires moves[k].contended
    ensures Stands(sched + moves[..k + 4], i, t, Critical)
  {
    PassageOn(sched, moves, k, i, t, Entered);
    PassageOn(sched, moves, k + 1, i, t, SetFlag);
    PassageOn(sched, moves, k + 2, i, t, SetVictim);
    PassageOn(sched, moves, k + 3, i, t, ReadFlag);
  }

  lemma FlagIsUp(sched: seq<Move>, i: nat)
    requires Schedule(sched) && i < 2
    ensures Run(sched).flag[i] <==> Raised(Run(sched).pc[i])
    ensures Run(sched).holder[i] == FREE <==> Run(sched).pc[i].Outside?
  {
    Reachable(sched);
    assert Posted(Run(sched), i);
  }

  /** Four steps: from the contended test to being past `lock_peterson`, with the flag up. */
  lemma ContendedEnters(sched: seq<Move>, moves: seq<Move>, i: nat)
    requires Schedule(sched) && i < 2 && Run(sched).pc[i].Entered? && !Run(sched).flag[1 - i]
    requires |moves| == 4 && StepsOf(moves, i, Run(sched).holder[i]) && moves[0].contended
    ensures Schedule(sched + moves) && Run(sched + moves).pc[i].Critical? && Run(sched + moves).flag[i]
  {
    assert sched + moves[..0] == sched && moves[..4] == moves;
    ContendedFrom(sched, moves, 0, i, Run(sched).holder[i]);
    FlagIsUp(sched + moves, i);
  }

  /** Taking the outer lock of a free slot. */
  lemma TakesSlot(sched: seq<Move>, m: Move)
    requires Schedule(sched) && m.i < 2 && m.t >= 0 && Run(sched).pc[m.i].Outside?
    ensures Run(sched + [m]).pc[m.i].Entered? && Run(sched + [m]).holder[m.i] == m.t
    ensures Run(sched + [m]).flag == Run(sched).flag
  {
    FlagIsUp(sched, m.i);
    RunOn(sched, m);
  }

  /** Releasing the outer lock. */
  lemma Releases(sched: seq<Move>, m: Move)
    requires Schedule(sched) && m.i < 2 && m.t >= 0 && Run(sched).pc[m.i].Leaving?
    requires m.t == Run(sched).holder[m.i]
    ensures Run(sched + [m]).pc[m.i].Outside?
  {
    RunOn(sched, m);
  }

  /** A whole passage, alone: seven steps when the test sees contention, and after five of them the
      thread is past `lock_peterson`. */
  lemma ContendedPassage(sched: seq<Move>, moves: seq<Move>, i: nat, t: int)
    requires Schedule(sched) && |moves| == 7 && StepsOf(moves, i, t) && moves[1].contended
    requires Run(sched).pc[i].Outside? && !Run(sched).flag[1 - i]
    ensures Schedule(sched + moves[..5]) && Run(sched + moves[..5]).pc[i].Critical?
    ensures Schedule(sched + moves) && Run(sched + moves).pc[i].Outside?
    ensures !Run(sched + moves).flag[i] && Run(sched + moves).holder[i] == FREE
  {
    FirstMove(sched, moves, i, t);
    ContendedFrom(sched, moves, 1, i, t);
    PassageOn(sched, moves, 5, i, t, Critical);
    FinalMove(sched, moves, 6, i, t);
    assert moves[..7] == moves;
  }

  lemma FirstMove(sched: seq<Move>, moves: seq<Move>, i: nat, t: int)
    requires Schedule(sched) && |moves| > 0 && StepsOf(moves, i, t)
    requires Run(sched).pc[i].Outside? && !Run(sched).flag[1 - i]
    ensures Stands(sched + moves[..1], i, t, Entered)
  {
    assert sched + moves[..1] == sched + [moves[0]];
    TakesSlot(sched, moves[0]);
  }

  lemma FinalMove(sched: seq<Move>, moves: seq<Move>, k: nat, i: nat, t: int)
    requires k < |moves| && StepsOf(moves, i, t) && Stands(sched + moves[..k], i, t, Leaving)
    ensures var all := sched + moves[..k + 1];
            Schedule(all) && Run(all).pc[i].Outside? && !Run(all).flag[i] && Run(all).holder[i] == FREE
  {
    OneMove(sched, moves, k);
    Releases(sched + moves[..k], moves[k]);
    FlagIsUp(sched + moves[..k + 1], i);
  }

  /** Slot i stands at `pc`, with thread t inside unless it is free, and its flag is down. */
  predicate Down(sched: seq<Move>, i: nat, t: int, pc: Pc) {
    && Schedule(sched) && i < 2 && Run(sched).pc[i] == pc && !Run(sched).flag[i]
    && Run(sched).holder[i] == if pc.Outside? then FREE else t
  }

  lemma DownStep(sched: seq<Move>, m: Move, pc: Pc, pc': Pc)
    requires Down(sched, m.i, m.t, pc) && m.t >= 0
    requires if pc.Outside? then pc'.Entered?
             else if pc.Entered? then pc'.Leaving? && !m.contended else pc.Leaving? && pc'.Outside?
    ensures Down(sched + [m], m.i, m.t, pc')
  {
    RunOn(sched, m);
  }

  lemma DownOn(sched: seq<Move>, moves: seq<Move>, k: nat, i: nat, t: int, pc: Pc, pc': Pc)
    requires k < |moves| && StepsOf(moves, i, t) && Down(sched + moves[..k], i, t, pc)
    requires if pc.Outside? then pc'.Entered?
             else if pc.Entered? then pc'.Leaving? && !moves[k].contended else pc.Leaving? && pc'.Outside?
    ensures Down(sched + moves[..k + 1], i, t, pc')
  {
    OneMove(sched, moves, k);
    DownStep(sched + moves[..k], moves[k], pc, pc');
  }

  /** And three steps when it does not, without ever raising the flag. */
  lemma UncontendedPassage(sched: seq<Move>, moves: seq<Move>, i: nat, t: int)
    requires Schedule(sched) && |moves| == 3 && StepsOf(moves, i, t) && !moves[1].contended
    requires Run(sched).pc[i].Outside?
    ensures Down(sched, i, t, Outside) && Down(sched + moves[..1], i, t, Entered)
    ensures Down(sched + moves[..2], i, t, Leaving) && Down(sched + moves[..3], i, t, Outside)
  {
    FlagIsUp(sched, i);
    assert sched + moves[..0] == sched;
    DownOn(sched, moves, 0, i, t, Outside, Entered);
    DownOn(sched, moves, 1, i, t, Entered, Leaving);
    DownOn(sched, moves, 2, i, t, Leaving, Outside);
  }

  // ---- in every run --------------------------------------------------------------------------

  /** On the way from the test to the end of `lock_peterson`. */
  predicate Locking(pc: Pc) { pc.SetFlag? || pc.SetVictim? || Waiting(pc) }

  lemma LockingStep(s: State, m: Move, i: nat)
    requires Sized(s) && m.i < 2 && i < 2 && Locking(s.pc[i])
    ensures Locking(Step(s, m).pc[i]) || Step(s, m).pc[i].Critical?
  {
    if m.i != i { OtherStays(s, m); }
  }

  lemma ContendedTest(s: State, m: Move)
    requires Sized(s) && m.i < 2 && s.pc[m.i].Entered? && s.holder[m.i] == m.t && m.contended
    ensures Step(s, m).pc[m.i].SetFlag?
  {
  }

  /** Until it is past `lock_peterson`, a thread whose test saw contention is on its way there. */
  lemma {:induction false} StillLocking(sched: seq<Move>, k: nat, m: nat, i: nat)
    requires Schedule(sched) && k < m <= |sched| && i < 2 && TestsAt(sched, k, i) && sched[k].contended
    requires forall j: nat | k < j < m :: !StateAt(sched, j).pc[i].Critical?
    ensures Locking(StateAt(sched, m).pc[i]) || StateAt(sched, m).pc[i].Critical?
    decreases m
  {
    RunStep(sched, m - 1);
    if k + 1 == m {
      ContendedTest(StateAt(sched, k), sched[k]);
    } else {
      StillLocking(sched, k, m - 1, i);
      LockingStep(StateAt(sched, m - 1), sched[m - 1], i);
    }
  }

  /** Between a test that saw contention and any later release, the thread was past `lock_peterson`. */
  lemma ContendedWasInside(sched: seq<Move>, k: nat, m: nat, i: nat) returns (j: nat)
    requires Schedule(sched) && k < m <= |sched| && i < 2 && TestsAt(sched, k, i) && sched[k].contended
    requires StateAt(sched, m).pc[i].Leaving?
    ensures k < j < m && StateAt(sched, j).pc[i].Critical?
  {
    if forall j: nat | k < j < m :: !StateAt(sched, j).pc[i].Critical? {
      StillLocking(sched, k, m, i);
    }
    j :| k < j < m && StateAt(sched, j).pc[i].Critical?;
  }

  lemma LeavingStep(s: State, m: Move, i: nat)
    requires Inv(s) && m.i < 2 && i < 2 && s.pc[i].Leaving?
    ensures Step(s, m).pc[i].Leaving? || Step(s, m).pc[i].Outside?
    ensures !Step(s, m).flag[i]
  {
    assert Posted(s, i);
    if m.i != i { OtherStays(s, m); }
  }

  /** After a test that saw none, the thread is at its release and its flag is down until it has
      left the slot. */
  lemma {:induction false} UncontendedStaysDown(sched: seq<Move>, k: nat, m: nat, i: nat)
    requires Schedule(sched) && k < m <= |sched| && i < 2 && TestsAt(sched, k, i) && !sched[k].contended
    requires forall j: nat | k < j <= m :: !StateAt(sched, j).pc[i].Outside?
    ensures StateAt(sched, m).pc[i].Leaving? && !StateAt(sched, m).flag[i]
    decreases m
  {
    RunStep(sched, m - 1);
    Reachable(sched[..m - 1]);
    assert Posted(StateAt(sched, m - 1), i);
    if k + 1 < m {
      UncontendedStaysDown(sched, k, m - 1, i);
      LeavingStep(StateAt(sched, m - 1), sched[m - 1], i);
    }
  }
}
