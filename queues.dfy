/**
 * The two list operations the scheduler uses besides appending a process:
 * unlinking one node from a tier queue, and appending a result to the
 * ledger. The linked lists of the source are sequences here; the node to
 * unlink is identified by its record, and the first record equal to it is
 * the one removed.
 */
module Queues {
  import opened Processes

  /** `q` without its first element equal to `x`; `q` itself when no element is. */
  function RemoveFirst(q: seq<Process>, x: Process): seq<Process>
  {
    if q == [] then []
    else if q[0] == x then q[1..]
    else [q[0]] + RemoveFirst(q[1..], x)
  }

  /** When the first occurrence of `x` is at index `i`, exactly that element goes. */
  lemma {:induction false} RemoveFirstAt(q: seq<Process>, x: Process, i: int)
    requires 0 <= i < |q| && q[i] == x && x !in q[..i]
    ensures RemoveFirst(q, x) == q[..i] + q[i + 1..]
  {
    if i > 0 {
      var t := q[1..];
      assert q[..i][0] == q[0] && q[..i][1..] == t[..i - 1];
      assert q[0] != x;
      RemoveFirstAt(t, x, i - 1);
      assert RemoveFirst(q, x) == [q[0]] + (t[..i - 1] + t[i..]);
      assert t[i..] == q[i + 1..] && [q[0]] + t[..i - 1] == q[..i];
    }
  }

  /** Removing a record that is not in the queue leaves the queue unchanged. */
  lemma {:induction false} RemoveFirstAbsent(q: seq<Process>, x: Process)
    requires x !in q
    ensures RemoveFirst(q, x) == q
  {
    if q != [] {
      assert q[0] != x && x !in q[1..];
      RemoveFirstAbsent(q[1..], x);
      assert [q[0]] + q[1..] == q;
    }
  }

  /** Removing a record that is in the queue drops exactly one copy of it. */
  lemma {:induction false} RemoveFirstPresent(q: seq<Process>, x: Process)
    requires x in q
    ensures |RemoveFirst(q, x)| == |q| - 1
    ensures multiset(RemoveFirst(q, x)) == multiset(q) - multiset{x}
  {
    if q[0] != x {
      assert x in q[1..];
      RemoveFirstPresent(q[1..], x);
      assert q == [q[0]] + q[1..];
    } else {
      assert q == [q[0]] + q[1..];
    }
  }

  /**
   * Appending a record to a queue that does not hold it and then removing it
   * gives back the original queue.
   */
  lemma {:induction false} RemoveFirstAfterAppend(q: seq<Process>, p: Process)
    requires p !in q
    ensures RemoveFirst(q + [p], p) == q
  {
    assert (q + [p])[..|q|] == q;
    RemoveFirstAt(q + [p], p, |q|);
    assert (q + [p])[|q| + 1..] == [];
  }

  /**
   * Unlinks the first node equal to `target`: the head is checked first, then
   * the list is walked until the successor of the current node is the target.
   */
  method Dequeue(q: seq<Process>, target: Process) returns (r: seq<Process>)
    ensures r == RemoveFirst(q, target)
    ensures target !in q ==> r == q
    ensures target in q ==> |r| == |q| - 1 && multiset(r) == multiset(q) - multiset{target}
  {
    if q == [] {
      r := [];
    } else if q[0] == target {
      r := q[1..];
    } else {
      // `i` is the position of the successor of the current node
      var i := 1;
      while i < |q| && q[i] != target
        invariant 1 <= i <= |q|
        invariant target !in q[..i]
      {
        i := i + 1;
      }
      if i < |q| {
        RemoveFirstAt(q, target, i);
        r := q[..i] + q[i + 1..];
      } else {
        assert q[..i] == q;
        RemoveFirstAbsent(q, target);
        r := q;
      }
    }
    if target in q {
      RemoveFirstPresent(q, target);
    }
  }

  /**
   * Appends one result at the end of the ledger: every earlier entry stays
   * where it was, and the ledger grows by exactly one.
   */
  function RecordResult(results: seq<Result>, pid: int, arrival: int, burst: int, completion: int): (r: seq<Result>)
    ensures |r| == |results| + 1
    ensures r[..|results|] == results
    ensures r[|results|] == Result(pid, arrival, burst, completion)
  {
    results + [Result(pid, arrival, burst, completion)]
  }
}
