/** The specification every queue is measured against: a log of events, the sequential FIFO queue
    that replays it, and what each returned call must have done. */
module Fifo {

  datatype Option<+T> = None | Some(value: T)

  datatype Call = Enq(v: int) | Deq

  /** What one step of thread t means to an observer.  `Append`, `Remove` and `SawEmpty` are the
      instants at which a call takes effect. */
  datatype Event =
    | Invoke(t: nat, call: Call)
    | Append(t: nat, v: int)
    | Remove(t: nat, v: int)
    | SawEmpty(t: nat)
    | Return(t: nat, code: int, v: int)
    | Internal(t: nat)

  predicate Changes(e: Event) { e.Append? || e.Remove? }

  /** One event on the sequential queue; None when a FIFO queue could not have done it. */
  function Apply(q: Option<seq<int>>, e: Event): Option<seq<int>> {
    if q.None? then None else
    match e
    case Append(_, v) => Some(q.value + [v])
    case Remove(_, v) => if |q.value| > 0 && q.value[0] == v then Some(q.value[1..]) else None
    case SawEmpty(_) => if q.value == [] then q else None
    case _ => q
  }

  function Replay(log: seq<Event>): Option<seq<int>> {
    if |log| == 0 then Some([]) else Apply(Replay(log[..|log| - 1]), log[|log| - 1])
  }

  lemma ReplayStep(log: seq<Event>, e: Event)
    ensures Replay(log + [e]) == Apply(Replay(log), e)
  {
    assert (log + [e])[..|log|] == log;
  }

  /** The visible events of thread t's call in progress. */
  function Since(log: seq<Event>, t: nat): seq<Event> {
    if |log| == 0 then []
    else
      var e := log[|log| - 1];
      var s := Since(log[..|log| - 1], t);
      if e.t != t || e.Internal? then s else if e.Return? then [] else s + [e]
  }

  lemma SinceStep(log: seq<Event>, e: Event, t: nat)
    ensures Since(log + [e], t) ==
            if e.t != t || e.Internal? then Since(log, t) else if e.Return? then [] else Since(log, t) + [e]
  {
    assert (log + [e])[..|log|] == log;
  }

  lemma SinceInternal(log: seq<Event>, t: nat)
    ensures Since(log + [Internal(t)], t) == Since(log, t)
  {
    SinceStep(log, Internal(t), t);
  }

  /** Nothing has happened to the queue since the call of `deq` began, except that the thread may
      have found it empty. */
  predicate Searching(s: seq<Event>, t: nat) {
    && |s| > 0 && s[0] == Invoke(t, Deq)
    && forall i | 1 <= i < |s| :: s[i] == SawEmpty(t)
  }

  /** A finished call: exactly one change and the right one, or an empty queue seen on the way. */
  predicate Fulfils(s: seq<Event>, t: nat, code: int, v: int) {
    if |s| > 0 && s[0].Invoke? && s[0].call.Enq? then
      || (code == 1 && s == [Invoke(t, s[0].call), Append(t, s[0].call.v)])
      || (code == 0 && s == [Invoke(t, s[0].call)])
    else
      || (code == 1 && |s| > 0 && Searching(s[..|s| - 1], t) && s[|s| - 1] == Remove(t, v))
      || (code == 0 && |s| > 1 && Searching(s, t))
  }

  /** Every call that has returned did what it reported. */
  ghost predicate AllFulfilled(log: seq<Event>) {
    forall m: nat | m < |log| && log[m].Return? :: Fulfils(Since(log[..m], log[m].t), log[m].t, log[m].code, log[m].v)
  }

  lemma FulfilledStep(log: seq<Event>, e: Event)
    requires AllFulfilled(log)
    requires e.Return? ==> Fulfils(Since(log, e.t), e.t, e.code, e.v)
    ensures AllFulfilled(log + [e])
  {
    var log' := log + [e];
    assert log'[..|log|] == log;
    forall m: nat | m < |log'| && log'[m].Return?
      ensures Fulfils(Since(log'[..m], log'[m].t), log'[m].t, log'[m].code, log'[m].v)
    {
      if m < |log| { assert log'[..m] == log[..m]; }
    }
  }

  /** The latest event of thread t. */
  function LatestOf(log: seq<Event>, t: nat): Option<Event> {
    if |log| == 0 then None
    else if log[|log| - 1].t == t then Some(log[|log| - 1])
    else LatestOf(log[..|log| - 1], t)
  }

  lemma LatestStep(log: seq<Event>, e: Event, t: nat)
    ensures LatestOf(log + [e], t) == if e.t == t then Some(e) else LatestOf(log, t)
  {
    assert (log + [e])[..|log|] == log;
  }
}
