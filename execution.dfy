/**
 * One execution pass over a tier queue with a fixed quantum, as a function of
 * the queue and the clock before the pass. The pass visits the processes left
 * to right once; a process that is not finished after its one slice stays in
 * the queue at its place and is not visited again.
 */
module Execution {
  import opened Processes
  import opened Queues

  /** What a pass leaves behind: the queue, the results it recorded (in finish order) and the clock. */
  datatype Outcome = Outcome(survivors: seq<Process>, completed: seq<Result>, clock: int)

  /** Units a process runs in one slice: its remaining burst, but at most the quantum. */
  function ExecutionTime(remaining: int, quantum: int): (run: int)
    ensures run <= remaining && run <= quantum
    ensures run == remaining || run == quantum
  {
    if remaining < quantum then remaining else quantum
  }

  /** The clock once it has waited for a process arriving at `arrival`. */
  function StartTime(clock: int, arrival: int): (start: int)
    ensures start >= clock && start >= arrival
    ensures start == clock || start == arrival
  {
    if arrival > clock then arrival else clock
  }

  /**
   * One visit: after the pass so far ended in `o`, the clock waits for `p` to
   * arrive if it lags, `p` runs for its remaining burst but at most the
   * quantum, and the clock advances by as much. A process with nothing left
   * is recorded at the current clock; any other is kept, with its remaining
   * burst reduced.
   */
  function Visit(o: Outcome, p: Process, quantum: int): (r: Outcome)
  {
    var run := ExecutionTime(p.remainingBurst, quantum);
    var now := StartTime(o.clock, p.arrivalTime) + run;
    if p.remainingBurst - run <= 0 then
      Outcome(o.survivors, o.completed + [Result(p.pid, p.arrivalTime, p.burst, now)], now)
    else
      Outcome(o.survivors + [p.(remainingBurst := p.remainingBurst - run)], o.completed, now)
  }

  /** The pass over `q` from clock `clock`: one visit per process, left to right. */
  function Pass(q: seq<Process>, quantum: int, clock: int): Outcome
    decreases |q|
  {
    if q == [] then Outcome([], [], clock)
    else Visit(Pass(q[..|q| - 1], quantum, clock), q[|q| - 1], quantum)
  }

  /** The pass over the first `n + 1` processes is the pass over the first `n` and one visit of `q[n]`. */
  lemma PassStep(q: seq<Process>, n: int, quantum: int, clock: int)
    requires 0 <= n < |q|
    ensures Pass(q[..n + 1], quantum, clock) == Visit(Pass(q[..n], quantum, clock), q[n], quantum)
  {
    assert q[..n + 1][..n] == q[..n];
  }

  /** Every survivor recorded in `o` still has work left. */
  predicate Pending(o: Outcome)
  {
    forall k :: 0 <= k < |o.survivors| ==> o.survivors[k].remainingBurst > 0
  }

  /**
   * The state of the sweep in place after `n` visits: the queue holds the
   * survivors so far followed by the unvisited processes, and `i` is the
   * position of the next one.
   */
  ghost predicate SweepState(q0: seq<Process>, quantum: int, clock: int, n: int, o: Outcome, q: seq<Process>, i: int)
  {
    0 <= n <= |q0| && o == Pass(q0[..n], quantum, clock) && Pending(o) &&
    q == o.survivors + q0[n..] && i == |o.survivors|
  }

  /**
   * One step of the sweep in place. The next process is `q0[n]`; after its
   * slice it is either unlinked, being the first record equal to itself, or
   * it stays in place. Either way the sweep is in the state after `n + 1`
   * visits, and the clock and the results follow the visit.
   */
  lemma SweepStep(q0: seq<Process>, quantum: int, clock: int, n: int, o: Outcome, q: seq<Process>, i: int)
    requires SweepState(q0, quantum, clock, n, o, q, i) && i < |q|
    ensures var o' := Visit(o, q0[n], quantum);
      var p := q[i];
      var run := ExecutionTime(p.remainingBurst, quantum);
      var p' := p.(remainingBurst := p.remainingBurst - run);
      p == q0[n] &&
      o'.clock == StartTime(o.clock, p.arrivalTime) + run &&
      (p'.remainingBurst <= 0 ==>
        SweepState(q0, quantum, clock, n + 1, o', RemoveFirst(q[i := p'], p'), i) &&
        o'.completed == o.completed + [Result(p.pid, p.arrivalTime, p.burst, o'.clock)]) &&
      (p'.remainingBurst > 0 ==>
        SweepState(q0, quantum, clock, n + 1, o', q[i := p'], i + 1) &&
        o'.completed == o.completed)
  {
    var o' := Visit(o, q0[n], quantum);
    assert q[..i] == o.survivors;
    assert q0[n..] == [q0[n]] + q0[n + 1..];
    assert q0[..n + 1][..n] == q0[..n];
    var p := q[i];
    var p' := p.(remainingBurst := p.remainingBurst - ExecutionTime(p.remainingBurst, quantum));
    assert p == q0[n];
    assert o' == Pass(q0[..n + 1], quantum, clock);
    if p'.remainingBurst <= 0 {
      var r := q[i := p'];
      assert r[..i] == o.survivors && r[i + 1..] == q0[n + 1..];
      RemoveFirstAt(r, p', i);
      assert o'.survivors == o.survivors;
      assert RemoveFirst(r, p') == o'.survivors + q0[n + 1..];
    } else {
      assert o'.survivors == o.survivors + [p'];
      assert q[i := p'] == o'.survivors + q0[n + 1..];
    }
  }

  /** A visited process finishes within its slice exactly when it needs no more than the quantum. */
  lemma FinishesIff(remaining: int, quantum: int)
    ensures remaining - ExecutionTime(remaining, quantum) <= 0 <==> remaining <= quantum
    ensures remaining <= quantum ==> ExecutionTime(remaining, quantum) == remaining
    ensures remaining > quantum ==> remaining - ExecutionTime(remaining, quantum) == remaining - quantum
  {
  }

  lemma AppendAssoc(a: seq<Result>, b: seq<Result>, x: Result)
    ensures a + b + [x] == a + (b + [x])
  {
  }

  /**
   * Reference for what stays queued: the processes that need more than one
   * quantum, in their order, each with one quantum taken off.
   */
  function Unfinished(q: seq<Process>, quantum: int): seq<Process>
    decreases |q|
  {
    if q == [] then []
    else
      var p := q[|q| - 1];
      Unfinished(q[..|q| - 1], quantum) +
        (if p.remainingBurst > quantum then [p.(remainingBurst := p.remainingBurst - quantum)] else [])
  }

  /** Reference for what completes: the processes that need at most one quantum, in their order. */
  function Finished(q: seq<Process>, quantum: int): seq<Process>
    decreases |q|
  {
    if q == [] then []
    else
      var p := q[|q| - 1];
      Finished(q[..|q| - 1], quantum) + (if p.remainingBurst <= quantum then [p] else [])
  }

  /** Result `r` records process `p`. */
  predicate Records(r: Result, p: Process)
  {
    r.pid == p.pid && r.arrival == p.arrivalTime && r.burst == p.burst
  }

  /**
   * After a pass the queue holds exactly the processes that needed more than
   * one quantum, in their original order, each reduced by exactly one
   * quantum; whatever the clock was.
   */
  lemma {:induction false} PassSurvivors(q: seq<Process>, quantum: int, clock: int)
    ensures Pass(q, quantum, clock).survivors == Unfinished(q, quantum)
    decreases |q|
  {
    if q != [] {
      var p := q[|q| - 1];
      PassSurvivors(q[..|q| - 1], quantum, clock);
      FinishesIff(p.remainingBurst, quantum);
    }
  }

  /**
   * A pass records one result per process needing at most one quantum, in
   * visit order, and nothing for the others.
   */
  lemma {:induction false} PassCompleted(q: seq<Process>, quantum: int, clock: int)
    ensures |Pass(q, quantum, clock).completed| == |Finished(q, quantum)|
    ensures forall k :: 0 <= k < |Finished(q, quantum)| ==>
      Records(Pass(q, quantum, clock).completed[k], Finished(q, quantum)[k])
    decreases |q|
  {
    if q != [] {
      var p := q[|q| - 1];
      PassCompleted(q[..|q| - 1], quantum, clock);
      FinishesIff(p.remainingBurst, quantum);
    }
  }

  /** Every process visited either stays queued or is recorded, never both. */
  lemma {:induction false} PassAccountsForAll(q: seq<Process>, quantum: int, clock: int)
    ensures |Pass(q, quantum, clock).survivors| + |Pass(q, quantum, clock).completed| == |q|
    decreases |q|
  {
    if q != [] {
      PassAccountsForAll(q[..|q| - 1], quantum, clock);
    }
  }

  /** All remaining bursts in `q` are non-negative. */
  predicate NonNegativeBursts(q: seq<Process>)
  {
    forall i :: 0 <= i < |q| ==> q[i].remainingBurst >= 0
  }

  /**
   * With a non-negative quantum and non-negative remaining bursts the clock
   * never goes back: it ends no earlier than it started, and the recorded
   * completion times lie between the two and never decrease along the ledger.
   */
  lemma {:induction false} PassClockMonotone(q: seq<Process>, quantum: int, clock: int)
    requires quantum >= 0 && NonNegativeBursts(q)
    ensures var o := Pass(q, quantum, clock);
      clock <= o.clock &&
      (forall k :: 0 <= k < |o.completed| ==> clock <= o.completed[k].completion <= o.clock) &&
      (forall i, k :: 0 <= i < k < |o.completed| ==> o.completed[i].completion <= o.completed[k].completion)
    decreases |q|
  {
    if q != [] {
      PassClockMonotone(q[..|q| - 1], quantum, clock);
    }
  }

  /** The results of a pass over a prefix of `q` begin the results of the pass over `q`. */
  lemma {:induction false} PassPrefix(q: seq<Process>, n: int, quantum: int, clock: int)
    requires 0 <= n <= |q|
    ensures var o := Pass(q[..n], quantum, clock);
      |o.completed| <= |Pass(q, quantum, clock).completed| &&
      Pass(q, quantum, clock).completed[..|o.completed|] == o.completed
    decreases |q|
  {
    if n < |q| {
      assert q[..|q| - 1][..n] == q[..n];
      PassPrefix(q[..|q| - 1], n, quantum, clock);
    } else {
      assert q[..n] == q;
    }
  }

  /**
   * The process at position `k` that needs at most one quantum finishes when
   * it is visited, and its result, at position `|Finished(q[..k], quantum)|`
   * of the ledger entries, carries the completion time
   * `max(clock before the visit, arrival) + remaining burst`.
   */
  lemma {:induction false} CompletionOnVisit(q: seq<Process>, k: int, quantum: int, clock: int)
    requires 0 <= k < |q| && q[k].remainingBurst <= quantum
    ensures var before := Pass(q[..k], quantum, clock).clock;
      var i := |Finished(q[..k], quantum)|;
      i < |Pass(q, quantum, clock).completed| &&
      Pass(q, quantum, clock).completed[i] ==
        Result(q[k].pid, q[k].arrivalTime, q[k].burst,
               StartTime(before, q[k].arrivalTime) + q[k].remainingBurst)
  {
    var p := q[k];
    assert q[..k + 1][..k] == q[..k];
    FinishesIff(p.remainingBurst, quantum);
    PassCompleted(q[..k], quantum, clock);
    PassPrefix(q, k + 1, quantum, clock);
  }

  /**
   * The process at position `k` that needs more than one quantum produces no
   * result and stays queued with one quantum taken off.
   */
  lemma {:induction false} SurvivorOnVisit(q: seq<Process>, k: int, quantum: int, clock: int)
    requires 0 <= k < |q| && q[k].remainingBurst > quantum
    ensures var i := |Unfinished(q[..k], quantum)|;
      i < |Pass(q, quantum, clock).survivors| &&
      Pass(q, quantum, clock).survivors[i] == q[k].(remainingBurst := q[k].remainingBurst - quantum)
    ensures Pass(q[..k + 1], quantum, clock).completed == Pass(q[..k], quantum, clock).completed
    ensures Finished(q[..k + 1], quantum) == Finished(q[..k], quantum)
  {
    FinishesIff(q[k].remainingBurst, quantum);
    PassSurvivors(q, quantum, clock);
    UnfinishedPrefix(q, k + 1, quantum);
    assert q[..k + 1][..k] == q[..k];
  }

  lemma {:induction false} UnfinishedPrefix(q: seq<Process>, n: int, quantum: int)
    requires 0 <= n <= |q|
    ensures |Unfinished(q[..n], quantum)| <= |Unfinished(q, quantum)|
    ensures Unfinished(q, quantum)[..|Unfinished(q[..n], quantum)|] == Unfinished(q[..n], quantum)
    decreases |q|
  {
    if n < |q| {
      assert q[..|q| - 1][..n] == q[..n];
      UnfinishedPrefix(q[..|q| - 1], n, quantum);
    } else {
      assert q[..n] == q;
    }
  }

  /** Every remaining burst in `q` lies between zero and the process's burst. */
  predicate BurstsWithin(q: seq<Process>)
  {
    forall i :: 0 <= i < |q| ==> 0 <= q[i].remainingBurst <= q[i].burst
  }

  /**
   * With a non-negative quantum, a pass over processes whose remaining burst
   * lies between zero and their burst leaves survivors that still satisfy
   * those bounds and all have work left.
   */
  lemma {:induction false} PassKeepsBurstBounds(q: seq<Process>, quantum: int, clock: int)
    requires quantum >= 0 && BurstsWithin(q)
    ensures BurstsWithin(Pass(q, quantum, clock).survivors) && Pending(Pass(q, quantum, clock))
    decreases |q|
  {
    if q != [] {
      var p := q[|q| - 1];
      assert BurstsWithin(q[..|q| - 1]);
      PassKeepsBurstBounds(q[..|q| - 1], quantum, clock);
      FinishesIff(p.remainingBurst, quantum);
      var o := Pass(q[..|q| - 1], quantum, clock);
      var s := Pass(q, quantum, clock).survivors;
      assert 0 <= p.remainingBurst <= p.burst;
      if p.remainingBurst > quantum {
        var p' := p.(remainingBurst := p.remainingBurst - quantum);
        assert s == o.survivors + [p'];
        forall i | 0 <= i < |s| ensures 0 < s[i].remainingBurst <= s[i].burst {
          if i < |o.survivors| {
            assert s[i] == o.survivors[i];
          }
        }
      }
    }
  }

  /** A pass keeps every survivor in its tier: only remaining bursts change. */
  lemma {:induction false} PassKeepsTier(q: seq<Process>, quantum: int, clock: int, t: Tier)
    requires InTier(q, t)
    ensures InTier(Pass(q, quantum, clock).survivors, t)
    decreases |q|
  {
    if q != [] {
      assert forall p :: p in q[..|q| - 1] ==> p in q;
      PassKeepsTier(q[..|q| - 1], quantum, clock, t);
    }
  }
}
