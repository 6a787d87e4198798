/** What `Replay` and `AllFulfilled` mean for whole calls: linearizability of a log. */
module FifoCalls {
  import opened Fifo

  function Appended(log: seq<Event>): seq<int> {
    if |log| == 0 then []
    else
      var e := log[|log| - 1];
      Appended(log[..|log| - 1]) + if e.Append? then [e.v] else []
  }

  function Removed(log: seq<Event>): seq<int> {
    if |log| == 0 then []
    else
      var e := log[|log| - 1];
      Removed(log[..|log| - 1]) + if e.Remove? then [e.v] else []
  }

  /** What has been dequeued, followed by what is still queued, is what has been enqueued. */
  lemma {:induction false} NothingLost(log: seq<Event>)
    requires Replay(log).Some?
    ensures Removed(log) + Replay(log).value == Appended(log)
  {
    if |log| > 0 {
      NothingLost(log[..|log| - 1]);
      var q := Replay(log[..|log| - 1]).value;
      if log[|log| - 1].Remove? { assert q == [q[0]] + q[1..]; }
    }
  }

  lemma {:induction false} PrefixReplays(log: seq<Event>, k: nat)
    requires Replay(log).Some? && k <= |log|
    ensures Replay(log[..k]).Some?
  {
    if k < |log| {
      var front := log[..|log| - 1];
      assert front[..k] == log[..k];
      PrefixReplays(front, k);
    } else {
      assert log[..k] == log;
    }
  }

  /** A thread that saw an empty queue saw it at an instant at which it was empty. */
  lemma SeenEmptyWasEmpty(log: seq<Event>, k: nat)
    requires Replay(log).Some? && k < |log| && log[k].SawEmpty?
    ensures Replay(log[..k]) == Some([])
  {
    PrefixReplays(log, k + 1);
    assert log[..k + 1][..k] == log[..k];
  }

  // ---- the events of one call, located in the log ---------------------------------------------

  /** From i on, until m, thread t is silent. */
  ghost predicate Silent(log: seq<Event>, t: nat, i: nat, m: nat)
    requires m <= |log|
  {
    forall j: nat | i < j < m && log[j].t == t :: log[j].Internal?
  }

  /** Where the latest visible event of the call in progress is. */
  lemma {:induction false} LastEvent(log: seq<Event>, t: nat) returns (k: nat)
    requires Since(log, t) != []
    ensures k < |log| && log[k] == Since(log, t)[|Since(log, t)| - 1] && log[k].t == t
    ensures Since(log[..k], t) == Since(log, t)[..|Since(log, t)| - 1]
    ensures Silent(log, t, k, |log|)
  {
    var m := |log| - 1;
    var e := log[m];
    if e.t != t || e.Internal? {
      k := LastEvent(log[..m], t);
      assert log[..m][..k] == log[..k];
      forall j: nat | k < j < |log| && log[j].t == t ensures log[j].Internal? {
        if j < m { assert log[..m][j] == log[j]; }
      }
    } else {
      k := m;
    }
  }

  /** A searching `deq` has, since its invocation, at most seen the queue empty. */
  ghost predicate OnlySearched(log: seq<Event>, t: nat, i: nat, m: nat)
    requires m <= |log|
  {
    forall j: nat | i < j < m && log[j].t == t :: log[j].Internal? || log[j].SawEmpty?
  }

  lemma {:induction false} SearchBegan(log: seq<Event>, t: nat) returns (i: nat)
    requires Searching(Since(log, t), t)
    ensures i < |log| && log[i] == Invoke(t, Deq) && OnlySearched(log, t, i, |log|)
    decreases |log|
  {
    var k := LastEvent(log, t);
    if |Since(log, t)| == 1 {
      i := k;
    } else {
      i := SearchBegan(log[..k], t);
      forall j: nat | i < j < |log| && log[j].t == t ensures log[j].Internal? || log[j].SawEmpty? {
        if j < k { assert log[..k][j] == log[j]; }
      }
    }
  }

  /** Thread t's call runs from its invocation at i to its return at m. */
  ghost predicate CallRuns(log: seq<Event>, t: nat, i: nat, m: nat) {
    && i < m < |log| && log[i].Invoke? && log[i].t == t && log[m].Return? && log[m].t == t
    && forall j: nat | i < j < m && log[j].t == t :: !log[j].Invoke? && !log[j].Return?
  }

  /** The event at k is the only change the call makes. */
  ghost predicate OnlyChange(log: seq<Event>, t: nat, i: nat, m: nat, k: nat) {
    i < k < m < |log| && Changes(log[k]) && forall j: nat | i < j < m && log[j].t == t && j != k :: !Changes(log[j])
  }

  ghost predicate NoChange(log: seq<Event>, t: nat, i: nat, m: nat) {
    i < m < |log| && forall j: nat | i < j < m && log[j].t == t :: !Changes(log[j])
  }

  /** Every returned `enq` appended its argument once, between its invocation and its return; one
      that reports failure changed nothing. */
  lemma EnqueueTakesEffect(log: seq<Event>, m: nat) returns (i: nat, k: nat)
    requires AllFulfilled(log) && m < |log| && log[m].Return?
    requires var q := Since(log[..m], log[m].t); |q| > 0 && q[0].Invoke? && q[0].call.Enq?
    ensures CallRuns(log, log[m].t, i, m) && log[i].call.Enq?
    ensures log[m].code == 1 ==> OnlyChange(log, log[m].t, i, m, k) && log[k] == Append(log[m].t, log[i].call.v)
    ensures log[m].code == 0 ==> NoChange(log, log[m].t, i, m)
  {
    var t := log[m].t;
    assert Fulfils(Since(log[..m], t), t, log[m].code, log[m].v);
    k := LastEvent(log[..m], t);
    i := k;
    forall j: nat | k < j < m && log[j].t == t ensures log[j].Internal? { assert log[..m][j] == log[j]; }
    if log[m].code == 1 {
      assert log[..m][..k] == log[..k];
      i := LastEvent(log[..k], t);
      forall j: nat | i < j < k && log[j].t == t ensures log[j].Internal? { assert log[..k][j] == log[j]; }
    }
  }

  /** Every returned `deq` that reports success removed the value it returns, once, between its
      invocation and its return; one that reports failure changed nothing, and between its
      invocation and its return there was an instant at which the queue was empty. */
  lemma DequeueTakesEffect(log: seq<Event>, m: nat) returns (i: nat, k: nat)
    requires AllFulfilled(log) && Replay(log).Some? && m < |log| && log[m].Return?
    requires var q := Since(log[..m], log[m].t); |q| > 0 && q[0] == Invoke(log[m].t, Deq)
    ensures CallRuns(log, log[m].t, i, m) && log[i].call.Deq?
    ensures log[m].code == 1 ==> OnlyChange(log, log[m].t, i, m, k) && log[k] == Remove(log[m].t, log[m].v)
    ensures log[m].code != 1 ==>
              NoChange(log, log[m].t, i, m) && i < k < m && log[k] == SawEmpty(log[m].t) && Replay(log[..k]) == Some([])
  {
    var t := log[m].t;
    assert Fulfils(Since(log[..m], t), t, log[m].code, log[m].v);
    k := LastEvent(log[..m], t);
    assert log[..m][..k] == log[..k];
    forall j: nat | k < j < m && log[j].t == t ensures log[j].Internal? { assert log[..m][j] == log[j]; }
    i := SearchBegan(log[..k], t);
    forall j: nat | i < j < k && log[j].t == t ensures log[j].Internal? || log[j].SawEmpty? {
      assert log[..k][j] == log[j];
    }
    if log[m].code != 1 { SeenEmptyWasEmpty(log, k); }
  }
}
