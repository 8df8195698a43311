/**
 * Per-process timing metrics over the result ledger and the report built
 * from it: one row per result, the number of results and the integer totals
 * from which the two averages are taken.
 */
module Metrics {
  import opened Processes
  import opened Execution

  /** Turnaround time: completion minus arrival (ARTS.c:316). */
  function Turnaround(r: Result): (t: int)
    ensures r.arrival + t == r.completion
  {
    r.completion - r.arrival
  }

  /** Waiting time: turnaround minus burst (ARTS.c:317). */
  function Waiting(r: Result): (w: int)
    ensures w >= 0 <==> r.completion >= r.arrival + r.burst
  {
    Turnaround(r) - r.burst
  }

  /** One line of the results table. */
  datatype Row = Row(pid: int, arrival: int, burst: int, completion: int, waiting: int)

  function RowOf(r: Result): Row
  {
    Row(r.pid, r.arrival, r.burst, r.completion, Waiting(r))
  }

  /** The report: no data for an empty ledger, otherwise the table and its totals. */
  datatype Report =
    | NoResults
    | Table(rows: seq<Row>, count: nat, totalWaiting: int, totalTurnaround: int)

  function TotalWaiting(l: seq<Result>): int
    decreases |l|
  {
    if l == [] then 0 else TotalWaiting(l[..|l| - 1]) + Waiting(l[|l| - 1])
  }

  function TotalTurnaround(l: seq<Result>): int
    decreases |l|
  {
    if l == [] then 0 else TotalTurnaround(l[..|l| - 1]) + Turnaround(l[|l| - 1])
  }

  function TotalBurst(l: seq<Result>): int
    decreases |l|
  {
    if l == [] then 0 else TotalBurst(l[..|l| - 1]) + l[|l| - 1].burst
  }

  /** The totals agree with the per-result formula: total waiting is total turnaround minus total burst. */
  lemma {:induction false} TotalsAgree(l: seq<Result>)
    ensures TotalWaiting(l) == TotalTurnaround(l) - TotalBurst(l)
    decreases |l|
  {
    if l != [] {
      TotalsAgree(l[..|l| - 1]);
    }
  }

  /**
   * Builds the report by walking the ledger in append order, accumulating
   * the totals and the count; an empty ledger reports that there is no data
   * instead of averaging over zero results.
   */
  method Summarize(ledger: seq<Result>) returns (report: Report)
    ensures report == NoResults <==> ledger == []
    ensures report.Table? ==>
      report.count == |ledger| > 0 &&
      |report.rows| == |ledger| &&
      (forall i :: 0 <= i < |ledger| ==> report.rows[i] == RowOf(ledger[i])) &&
      report.totalWaiting == TotalWaiting(ledger) &&
      report.totalTurnaround == TotalTurnaround(ledger)
  {
    if ledger == [] {
      return NoResults;
    }
    var rows: seq<Row> := [];
    var totalWait, totalTat := 0, 0;
    var count: nat := 0;
    while count < |ledger|
      invariant count <= |ledger|
      invariant |rows| == count
      invariant forall i :: 0 <= i < count ==> rows[i] == RowOf(ledger[i])
      invariant totalWait == TotalWaiting(ledger[..count])
      invariant totalTat == TotalTurnaround(ledger[..count])
    {
      var r := ledger[count];
      var tat := r.completion - r.arrival;
      var wait := tat - r.burst;
      rows := rows + [Row(r.pid, r.arrival, r.burst, r.completion, wait)];
      assert ledger[..count + 1][..count] == ledger[..count];
      totalWait := totalWait + wait;
      totalTat := totalTat + tat;
      count := count + 1;
    }
    assert ledger[..count] == ledger;
    report := Table(rows, count, totalWait, totalTat);
  }

  /**
   * In a queue whose processes all still hold their whole burst, as after
   * admitting a batch into empty queues, every result of a pass has a
   * non-negative waiting time, whatever the clock was.
   */
  lemma {:induction false} FreshWaitingNonNegative(q: seq<Process>, quantum: int, clock: int)
    requires forall i :: 0 <= i < |q| ==> q[i].remainingBurst == q[i].burst
    ensures forall r :: r in Pass(q, quantum, clock).completed ==> Waiting(r) >= 0
    decreases |q|
  {
    if q != [] {
      FreshWaitingNonNegative(q[..|q| - 1], quantum, clock);
      FinishesIff(q[|q| - 1].remainingBurst, quantum);
    }
  }

  /**
   * A process that still holds its whole burst and fits in one quantum gets a
   * non-negative waiting time, whatever else is queued around it: it
   * completes no earlier than its arrival plus its burst.
   */
  lemma FreshProcessWaitsNonNegative(q: seq<Process>, k: int, quantum: int, clock: int)
    requires 0 <= k < |q| && q[k].remainingBurst == q[k].burst <= quantum
    ensures var i := |Finished(q[..k], quantum)|;
      i < |Pass(q, quantum, clock).completed| &&
      Pass(q, quantum, clock).completed[i].pid == q[k].pid &&
      Waiting(Pass(q, quantum, clock).completed[i]) >= 0
  {
    CompletionOnVisit(q, k, quantum, clock);
  }

  /**
   * Across runs the guarantee above is lost: every run restarts the clock at
   * zero while a partly served process keeps its reduced remaining burst. A
   * low-tier process arriving at 0 with burst 5 is served one unit per run
   * and, in the fifth run, completes at time 1 with waiting time -4.
   * `Engine.RepeatedRunsExample` reaches the same ledger through `Run`.
   */
  lemma RepeatedRunsWaitNegative()
    ensures var q0 := [Process(3, 10, 0, 5, 5)];
      var q1 := Pass(q0, TimeQ3, 0).survivors;
      var q2 := Pass(q1, TimeQ3, 0).survivors;
      var q3 := Pass(q2, TimeQ3, 0).survivors;
      var q4 := Pass(q3, TimeQ3, 0).survivors;
      Pass(q4, TimeQ3, 0).completed == [Result(3, 0, 5, 1)] &&
      Waiting(Pass(q4, TimeQ3, 0).completed[0]) == -4
  {
    OneUnitPerRun(5);
    OneUnitPerRun(4);
    OneUnitPerRun(3);
    OneUnitPerRun(2);
    OneUnitPerRun(1);
  }

  /** One run serves the process of `RepeatedRunsWaitNegative` for one unit, from clock zero. */
  lemma OneUnitPerRun(k: int)
    requires k >= 1
    ensures Pass([Process(3, 10, 0, 5, k)], TimeQ3, 0) ==
      (if k == 1 then Outcome([], [Result(3, 0, 5, 1)], 1)
       else Outcome([Process(3, 10, 0, 5, k - 1)], [], 1))
  {
    assert [Process(3, 10, 0, 5, k)][..0] == [];
  }
}
