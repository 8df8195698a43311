/**
 * The scheduler state: three tier queues, the result ledger and the shared
 * simulation clock, with admission, the execution pass over one tier, the
 * batch run over all three tiers and the reset.
 */
module Engine {
  import opened Processes
  import opened Queues
  import opened ArrivalSort
  import opened Execution
  import opened Metrics

  class Scheduler {
    var q1: seq<Process>
    var q2: seq<Process>
    var q3: seq<Process>
    var ledger: seq<Result>
    var clock: int

    /** The queue of tier `t`. */
    function Queue(t: Tier): seq<Process>
      reads this
    {
      match t
      case High => q1
      case Medium => q2
      case Low => q3
    }

    /** Every queued process sits in the queue its priority selects. */
    ghost predicate Valid()
      reads this
    {
      InTier(q1, High) && InTier(q2, Medium) && InTier(q3, Low)
    }

    constructor ()
      ensures Valid()
      ensures q1 == [] && q2 == [] && q3 == [] && ledger == [] && clock == 0
    {
      q1, q2, q3 := [], [], [];
      ledger := [];
      clock := 0;
    }

    /**
     * Admits one process: its remaining burst starts at its burst and it is
     * appended at the tail of the one queue its priority selects.
     */
    method Admit(pid: int, priority: int, arrivalTime: int, burst: int)
      requires Valid()
      modifies this
      ensures Valid()
      ensures var p := Process(pid, priority, arrivalTime, burst, burst);
        q1 == (if TierOf(priority) == High then old(q1) + [p] else old(q1)) &&
        q2 == (if TierOf(priority) == Medium then old(q2) + [p] else old(q2)) &&
        q3 == (if TierOf(priority) == Low then old(q3) + [p] else old(q3))
      ensures ledger == old(ledger) && clock == old(clock)
    {
      var p := Admitted(pid, priority, arrivalTime, burst);
      if priority >= 100 {
        q1 := q1 + [p];
      } else if priority >= 50 {
        q2 := q2 + [p];
      } else {
        q3 := q3 + [p];
      }
    }

    /**
     * One execution pass over the queue of tier `t` with the given quantum.
     * An empty queue changes nothing; otherwise the queue is swept once and
     * replaced by what the sweep leaves in it.
     */
    method Schedule(t: Tier, quantum: int)
      requires Valid()
      modifies this
      ensures Valid()
      ensures var o := Pass(old(Queue(t)), quantum, old(clock));
        Queue(t) == o.survivors && ledger == old(ledger) + o.completed && clock == o.clock
      ensures t != High ==> q1 == old(q1)
      ensures t != Medium ==> q2 == old(q2)
      ensures t != Low ==> q3 == old(q3)
    {
      var q := Queue(t);
      if q == [] {
        return;
      }
      q := Sweep(q, quantum);
      PassKeepsTier(Queue(t), quantum, old(clock), t);
      match t
      case High => q1 := q;
      case Medium => q2 := q;
      case Low => q3 := q;
    }

    /**
     * The loop of the execution pass. Each process in turn: the clock jumps
     * to its arrival if it lags, the process runs for its remaining burst but
     * at most the quantum, and the clock advances by as much; a process with
     * nothing left is recorded in the ledger at the current clock and
     * unlinked, any other stays in place and is not visited again.
     */
    method Sweep(q0: seq<Process>, quantum: int) returns (q: seq<Process>)
      modifies this`clock, this`ledger
      ensures var o := Pass(q0, quantum, old(clock));
        q == o.survivors && ledger == old(ledger) + o.completed && clock == o.clock
    {
      q := q0;
      ghost var l0, c0 := ledger, clock;
      ghost var visited := 0;
      ghost var o := Outcome([], [], c0);
      // `i` is the position of the source's `current` in `q`
      var i := 0;
      while i < |q|
        invariant SweepState(q0, quantum, c0, visited, o, q, i)
        invariant ledger == l0 + o.completed && clock == o.clock
        decreases |q| - i
      {
        SweepStep(q0, quantum, c0, visited, o, q, i);
        ghost var o' := Visit(o, q0[visited], quantum);
        var p := q[i];
        if p.arrivalTime > clock {
          clock := p.arrivalTime;
        }
        var run := if p.remainingBurst < quantum then p.remainingBurst else quantum;
        assert run == ExecutionTime(p.remainingBurst, quantum);
        clock := clock + run;
        p := p.(remainingBurst := p.remainingBurst - run);
        q := q[i := p];
        assert clock == o'.clock;
        if p.remainingBurst <= 0 {
          ghost var r := Result(p.pid, p.arrivalTime, p.burst, clock);
          assert o'.completed == o.completed + [r];
          AppendAssoc(l0, o.completed, r);
          ledger := RecordResult(ledger, p.pid, p.arrivalTime, p.burst, clock);
          assert ledger == l0 + o'.completed;
          q := Dequeue(q, p);
          assert SweepState(q0, quantum, c0, visited + 1, o', q, i);
        } else {
          assert o'.completed == o.completed;
          i := i + 1;
          assert SweepState(q0, quantum, c0, visited + 1, o', q, i);
        }
        visited, o := visited + 1, o';
      }
      assert q0[..visited] == q0;
    }

    /**
     * One scheduling run: the clock restarts at zero, each queue is ordered
     * by arrival, and the three queues get one pass each, with quanta 3, 2
     * and 1, in the order high, medium, low. The ledger keeps what earlier
     * runs recorded.
     */
    method Run()
      requires Valid()
      modifies this
      ensures Valid()
      ensures var o1 := Pass(ArrivalOrder(old(q1)), TimeQ1, 0);
        var o2 := Pass(ArrivalOrder(old(q2)), TimeQ2, o1.clock);
        var o3 := Pass(ArrivalOrder(old(q3)), TimeQ3, o2.clock);
        q1 == o1.survivors && q2 == o2.survivors && q3 == o3.survivors &&
        ledger == old(ledger) + o1.completed + o2.completed + o3.completed &&
        clock == o3.clock
    {
      clock := 0;
      SortQueues();
      ghost var l0 := ledger;
      ghost var o1 := Pass(q1, TimeQ1, 0);
      Schedule(High, TimeQ1);
      assert q1 == o1.survivors && ledger == l0 + o1.completed && clock == o1.clock;
      ghost var o2 := Pass(q2, TimeQ2, clock);
      Schedule(Medium, TimeQ2);
      assert q2 == o2.survivors && ledger == l0 + o1.completed + o2.completed && clock == o2.clock;
      ghost var o3 := Pass(q3, TimeQ3, clock);
      Schedule(Low, TimeQ3);
      assert q3 == o3.survivors && clock == o3.clock;
      assert ledger == l0 + o1.completed + o2.completed + o3.completed;
    }

    /** Orders each of the three queues by arrival time, stably. */
    method SortQueues()
      requires Valid()
      modifies this`q1, this`q2, this`q3
      ensures Valid()
      ensures q1 == ArrivalOrder(old(q1)) && q2 == ArrivalOrder(old(q2)) && q3 == ArrivalOrder(old(q3))
    {
      ghost var s1, s2, s3 := q1, q2, q3;
      q1 := SortByArrival(q1);
      q2 := SortByArrival(q2);
      q3 := SortByArrival(q3);
      PermutationKeepsTier(s1, q1, High);
      PermutationKeepsTier(s2, q2, Medium);
      PermutationKeepsTier(s3, q3, Low);
    }

    /** Empties the three queues and the ledger; the clock is left as it is. */
    method Reset()
      modifies this
      ensures Valid()
      ensures q1 == [] && q2 == [] && q3 == [] && ledger == []
      ensures clock == old(clock)
    {
      q1, q2, q3 := [], [], [];
      ledger := [];
    }
  }

  /**
   * Two high-priority processes that each fit in one quantum both complete in
   * one pass, at times 2 and 3.
   */
  lemma HighTierPass()
    ensures var p1, p2 := Process(1, 100, 0, 2, 2), Process(2, 100, 1, 1, 1);
      Pass(ArrivalOrder([p1, p2]), TimeQ1, 0) == Outcome([], [Result(1, 0, 2, 2), Result(2, 1, 1, 3)], 3)
  {
    var p1, p2 := Process(1, 100, 0, 2, 2), Process(2, 100, 1, 1, 1);
    ArrivalOrderIdempotent([p1, p2]);
    assert [p1, p2][..1] == [p1] && [p1][..0] == [];
    assert Pass([p1], TimeQ1, 0) == Outcome([], [Result(1, 0, 2, 2)], 2);
  }

  /**
   * A low-priority process that needs five units gets one unit in a pass and
   * stays queued with four left; nothing is recorded.
   */
  lemma LowTierPass()
    ensures var p := Process(3, 10, 0, 5, 5);
      Pass(ArrivalOrder([p]), TimeQ3, 0) == Outcome([Process(3, 10, 0, 5, 4)], [], 1)
  {
    var p := Process(3, 10, 0, 5, 5);
    ArrivalOrderIdempotent([p]);
    assert [p][..0] == [];
  }

  /** Admitting the two processes of `HighTierPass` and running records both. */
  method HighTierExample()
  {
    var s := new Scheduler();
    s.Admit(1, 100, 0, 2);
    s.Admit(2, 100, 1, 1);
    assert s.q1 == [Process(1, 100, 0, 2, 2), Process(2, 100, 1, 1, 1)] && s.q2 == [] && s.q3 == [];
    HighTierPass();
    s.Run();
    assert s.ledger == [Result(1, 0, 2, 2), Result(2, 1, 1, 3)];
    assert s.q1 == [] && s.clock == 3;
  }

  /** Admitting the process of `LowTierPass` and running leaves it queued. */
  method LowTierExample()
  {
    var s := new Scheduler();
    s.Admit(3, 10, 0, 5);
    assert s.q1 == [] && s.q2 == [] && s.q3 == [Process(3, 10, 0, 5, 5)];
    LowTierPass();
    s.Run();
    assert s.q3 == [Process(3, 10, 0, 5, 4)];
    assert s.ledger == [];
  }

  /**
   * One run with only the process of `RepeatedRunsWaitNegative` queued, `k`
   * units of it left: the run serves it one unit from clock zero.
   */
  method RunLowTierAlone(s: Scheduler, k: int)
    requires k >= 1 && s.Valid()
    requires s.q1 == [] && s.q2 == [] && s.q3 == [Process(3, 10, 0, 5, k)]
    modifies s
    ensures s.Valid() && s.q1 == [] && s.q2 == []
    ensures k == 1 ==> s.q3 == [] && s.ledger == old(s.ledger) + [Result(3, 0, 5, 1)]
    ensures k > 1 ==> s.q3 == [Process(3, 10, 0, 5, k - 1)] && s.ledger == old(s.ledger)
  {
    ArrivalOrderIdempotent([]);
    ArrivalOrderIdempotent([Process(3, 10, 0, 5, k)]);
    OneUnitPerRun(k);
    s.Run();
  }

  /**
   * The process of `RepeatedRunsWaitNegative` admitted alone and run five
   * times: each run serves it one unit from clock zero, and the fifth records
   * it at time 1 with waiting time -4.
   */
  method RepeatedRunsExample() returns (ledger: seq<Result>)
    ensures ledger == [Result(3, 0, 5, 1)] && Waiting(ledger[0]) == -4
  {
    var s := new Scheduler();
    s.Admit(3, 10, 0, 5);
    assert s.q1 == [] && s.q2 == [] && s.q3 == [Process(3, 10, 0, 5, 5)] && s.ledger == [];
    RunLowTierAlone(s, 5);
    RunLowTierAlone(s, 4);
    RunLowTierAlone(s, 3);
    RunLowTierAlone(s, 2);
    RunLowTierAlone(s, 1);
    ledger := s.ledger;
  }
}
