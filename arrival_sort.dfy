/**
 * Ordering of a tier queue by arrival time before it is scheduled. The source
 * uses a bubble sort that swaps node payloads in place; `ArrivalOrder` is an
 * independent reference (a stable insertion sort), and a sorted sequence with
 * the same per-arrival-time subsequences as its input is shown to be unique,
 * so the bubble sort and the reference agree on every input.
 */
module ArrivalSort {
  import opened Processes

  /** Arrival times never decrease along `s`. */
  predicate SortedByArrival(s: seq<Process>)
  {
    forall i, j :: 0 <= i < j < |s| ==> s[i].arrivalTime <= s[j].arrivalTime
  }

  /** The processes of `s` that arrive at time `t`, in their order in `s`. */
  function ArrivingAt(s: seq<Process>, t: int): seq<Process>
  {
    if s == [] then []
    else (if s[0].arrivalTime == t then [s[0]] else []) + ArrivingAt(s[1..], t)
  }

  /** `ArrivingAt(s, t)` holds exactly the processes of `s` arriving at `t`. */
  lemma {:induction false} ArrivingAtMembers(s: seq<Process>, t: int, p: Process)
    ensures p in ArrivingAt(s, t) <==> p in s && p.arrivalTime == t
  {
    if s != [] {
      ArrivingAtMembers(s[1..], t, p);
      assert s == [s[0]] + s[1..];
    }
  }

  /**
   * Stability: for every arrival time, the processes arriving then appear in
   * `r` in exactly the order (and the number) they appear in `s`.
   */
  ghost predicate SameArrivalOrder(s: seq<Process>, r: seq<Process>)
  {
    forall t :: ArrivingAt(r, t) == ArrivingAt(s, t)
  }

  lemma {:induction false} ArrivingAtConcat(a: seq<Process>, b: seq<Process>, t: int)
    ensures ArrivingAt(a + b, t) == ArrivingAt(a, t) + ArrivingAt(b, t)
  {
    if a != [] {
      assert (a + b)[1..] == a[1..] + b;
      ArrivingAtConcat(a[1..], b, t);
    } else {
      assert a + b == b;
    }
  }

  /** `s` with the elements at `j` and `j + 1` exchanged. */
  function SwapAdjacent(s: seq<Process>, j: int): (r: seq<Process>)
    requires 0 <= j && j + 1 < |s|
    ensures |r| == |s|
  {
    s[..j] + [s[j + 1], s[j]] + s[j + 2..]
  }

  /**
   * Exchanging two neighbours with different arrival times changes neither
   * the multiset of processes nor the order within any arrival time.
   */
  lemma SwapKeepsArrivalOrder(s: seq<Process>, j: int)
    requires 0 <= j && j + 1 < |s|
    requires s[j].arrivalTime != s[j + 1].arrivalTime
    ensures SwapAdjacent(s, j) == s[j := s[j + 1]][j + 1 := s[j]]
    ensures multiset(SwapAdjacent(s, j)) == multiset(s)
    ensures SameArrivalOrder(s, SwapAdjacent(s, j))
  {
    var pre, x, y, post := s[..j], s[j], s[j + 1], s[j + 2..];
    assert s == pre + [x, y] + post;
    forall t
      ensures ArrivingAt(SwapAdjacent(s, j), t) == ArrivingAt(s, t)
    {
      ArrivingAtConcat(pre + [x, y], post, t);
      ArrivingAtConcat(pre, [x, y], t);
      ArrivingAtConcat(pre + [y, x], post, t);
      ArrivingAtConcat(pre, [y, x], t);
      assert [x, y][1..] == [y] && [y, x][1..] == [x];
    }
  }

  /** Inserts `p` before the first element that arrives no earlier than it. */
  function Insert(p: Process, s: seq<Process>): seq<Process>
  {
    if s == [] || p.arrivalTime <= s[0].arrivalTime then [p] + s
    else [s[0]] + Insert(p, s[1..])
  }

  /** Reference ordering: a stable insertion sort by arrival time. */
  function ArrivalOrder(s: seq<Process>): seq<Process>
  {
    if s == [] then [] else Insert(s[0], ArrivalOrder(s[1..]))
  }

  /** Every process of `s` arrives at `b` or later. */
  predicate ArriveFrom(s: seq<Process>, b: int)
  {
    forall k :: 0 <= k < |s| ==> b <= s[k].arrivalTime
  }

  /** A sorted queue stays sorted when a process arriving no later than all of it goes in front. */
  lemma SortedCons(h: Process, r: seq<Process>)
    requires SortedByArrival(r) && ArriveFrom(r, h.arrivalTime)
    ensures SortedByArrival([h] + r)
  {
    var x := [h] + r;
    forall i, j | 0 <= i < j < |x| ensures x[i].arrivalTime <= x[j].arrivalTime {
      assert x[j] == r[j - 1];
      if i > 0 {
        assert x[i] == r[i - 1];
      }
    }
  }

  /** Inserting keeps a lower bound on arrival times that the inserted process meets. */
  lemma {:induction false} InsertArriveFrom(p: Process, s: seq<Process>, b: int)
    requires ArriveFrom(s, b) && b <= p.arrivalTime
    ensures ArriveFrom(Insert(p, s), b)
  {
    if s != [] && p.arrivalTime > s[0].arrivalTime {
      InsertArriveFrom(p, s[1..], b);
      var x := [s[0]] + Insert(p, s[1..]);
      forall k | 0 <= k < |x| ensures b <= x[k].arrivalTime {
        if k > 0 {
          assert x[k] == Insert(p, s[1..])[k - 1];
        }
      }
    } else {
      var x := [p] + s;
      forall k | 0 <= k < |x| ensures b <= x[k].arrivalTime {
        if k > 0 {
          assert x[k] == s[k - 1];
        }
      }
    }
  }

  lemma {:induction false} InsertSorted(p: Process, s: seq<Process>)
    requires SortedByArrival(s)
    ensures SortedByArrival(Insert(p, s))
  {
    if s != [] && p.arrivalTime > s[0].arrivalTime {
      InsertSorted(p, s[1..]);
      assert ArriveFrom(s[1..], s[0].arrivalTime);
      InsertArriveFrom(p, s[1..], s[0].arrivalTime);
      SortedCons(s[0], Insert(p, s[1..]));
    } else {
      SortedCons(p, s);
    }
  }

  lemma {:induction false} InsertMultiset(p: Process, s: seq<Process>)
    ensures multiset(Insert(p, s)) == multiset{p} + multiset(s)
  {
    if s != [] && p.arrivalTime > s[0].arrivalTime {
      InsertMultiset(p, s[1..]);
      assert s == [s[0]] + s[1..];
    }
  }

  lemma {:induction false} InsertArrivals(p: Process, s: seq<Process>, t: int)
    ensures ArrivingAt(Insert(p, s), t) == (if p.arrivalTime == t then [p] else []) + ArrivingAt(s, t)
  {
    if s == [] || p.arrivalTime <= s[0].arrivalTime {
      assert ([p] + s)[1..] == s;
    } else {
      var rest := Insert(p, s[1..]);
      var x := [s[0]] + rest;
      InsertArrivals(p, s[1..], t);
      assert x[0] == s[0] && x[1..] == rest;
      var head := if s[0].arrivalTime == t then [s[0]] else [];
      var mine := if p.arrivalTime == t then [p] else [];
      assert ArrivingAt(x, t) == head + ArrivingAt(rest, t);
      assert ArrivingAt(rest, t) == mine + ArrivingAt(s[1..], t);
      assert ArrivingAt(s, t) == head + ArrivingAt(s[1..], t);
      // `p` arrives strictly after `s[0]`, so at most one of them arrives at `t`
      if mine == [] {
        assert mine + ArrivingAt(s[1..], t) == ArrivingAt(s[1..], t);
        assert mine + ArrivingAt(s, t) == ArrivingAt(s, t);
      } else {
        assert head == [];
        assert head + ArrivingAt(rest, t) == ArrivingAt(rest, t);
        assert head + ArrivingAt(s[1..], t) == ArrivingAt(s[1..], t);
      }
    }
  }

  /** The reference ordering is sorted, a permutation, and stable. */
  lemma {:induction false} ArrivalOrderProperties(s: seq<Process>)
    ensures SortedByArrival(ArrivalOrder(s))
    ensures multiset(ArrivalOrder(s)) == multiset(s)
    ensures SameArrivalOrder(s, ArrivalOrder(s))
  {
    if s != [] {
      var rest := ArrivalOrder(s[1..]);
      ArrivalOrderProperties(s[1..]);
      InsertSorted(s[0], rest);
      InsertMultiset(s[0], rest);
      assert s == [s[0]] + s[1..];
      forall t ensures ArrivingAt(ArrivalOrder(s), t) == ArrivingAt(s, t) {
        InsertArrivals(s[0], rest, t);
      }
    }
  }

  /**
   * A sorted sequence is determined by its per-arrival-time subsequences: two
   * sorted sequences that agree on all of them are equal.
   */
  lemma {:induction false} SortedUnique(a: seq<Process>, b: seq<Process>)
    requires SortedByArrival(a) && SortedByArrival(b)
    requires SameArrivalOrder(a, b)
    ensures a == b
  {
    if a == [] || b == [] {
      var c := a + b;
      if c != [] {
        ArrivingAtMembers(a, c[0].arrivalTime, c[0]);
        ArrivingAtMembers(b, c[0].arrivalTime, c[0]);
      }
    } else {
      var m, n := a[0].arrivalTime, b[0].arrivalTime;
      ArrivingAtMembers(a, m, a[0]);
      ArrivingAtMembers(b, m, a[0]);
      ArrivingAtMembers(b, n, b[0]);
      ArrivingAtMembers(a, n, b[0]);
      assert m == n;
      assert ArrivingAt(a, m) == [a[0]] + ArrivingAt(a[1..], m);
      assert ArrivingAt(b, m) == [b[0]] + ArrivingAt(b[1..], m);
      assert ArrivingAt(a, m)[0] == a[0] && ArrivingAt(b, m)[0] == b[0];
      forall t ensures ArrivingAt(b[1..], t) == ArrivingAt(a[1..], t)
      {
        if t == m {
          assert ArrivingAt(a, t) == [a[0]] + ArrivingAt(a[1..], t);
          assert ArrivingAt(b, t) == [b[0]] + ArrivingAt(b[1..], t);
          assert ArrivingAt(a, t)[1..] == ArrivingAt(a[1..], t);
          assert ArrivingAt(b, t)[1..] == ArrivingAt(b[1..], t);
        } else {
          assert ArrivingAt(a, t) == ArrivingAt(a[1..], t);
          assert ArrivingAt(b, t) == ArrivingAt(b[1..], t);
        }
      }
      SortedUnique(a[1..], b[1..]);
      assert a == [a[0]] + a[1..] && b == [b[0]] + b[1..];
    }
  }

  /** Any stable sort by arrival time of `s` is the reference ordering. */
  lemma ArrivalOrderUnique(s: seq<Process>, r: seq<Process>)
    requires SortedByArrival(r) && SameArrivalOrder(s, r)
    ensures r == ArrivalOrder(s)
  {
    ArrivalOrderProperties(s);
    SortedUnique(r, ArrivalOrder(s));
  }

  /**
   * Idempotence: an already sorted queue is left as it is, and ordering twice
   * is ordering once.
   */
  lemma ArrivalOrderIdempotent(s: seq<Process>)
    ensures SortedByArrival(s) ==> ArrivalOrder(s) == s
    ensures ArrivalOrder(ArrivalOrder(s)) == ArrivalOrder(s)
  {
    if SortedByArrival(s) {
      ArrivalOrderUnique(s, s);
    }
    var r := ArrivalOrder(s);
    ArrivalOrderProperties(s);
    ArrivalOrderProperties(r);
    SortedUnique(ArrivalOrder(r), r);
  }

  /** No process of `r[..j]` arrives later than `r[j]`. */
  predicate LatestAt(r: seq<Process>, j: int)
    requires 0 <= j < |r|
  {
    forall i :: 0 <= i < j ==> r[i].arrivalTime <= r[j].arrivalTime
  }

  /** `r[..n]` is in order of arrival. */
  predicate SortedPrefix(r: seq<Process>, n: int)
    requires 0 <= n <= |r|
  {
    forall i, k :: 0 <= i < k < n ==> r[i].arrivalTime <= r[k].arrivalTime
  }

  /**
   * `r[bound..]` is in order and no process of `r[..bound]` arrives later
   * than any process of `r[bound..]`.
   */
  predicate SettledFrom(r: seq<Process>, bound: int)
    requires 0 <= bound <= |r|
  {
    (forall i, k :: bound <= i < k < |r| ==> r[i].arrivalTime <= r[k].arrivalTime) &&
    (forall i, k :: 0 <= i < bound <= k < |r| ==> r[i].arrivalTime <= r[k].arrivalTime)
  }

  /**
   * One pass of the bubble sort over `r[..bound]`: each neighbour pair is
   * swapped when the first arrives strictly later, so the latest arrival of
   * the unsettled prefix ends at position `bound - 1`. `swapped` tells whether
   * any swap happened; a pass without one leaves the whole queue in order.
   */
  method BubblePass(r0: seq<Process>, bound: int) returns (r: seq<Process>, swapped: bool)
    requires 1 <= bound <= |r0|
    requires SettledFrom(r0, bound)
    ensures |r| == |r0|
    ensures SettledFrom(r, bound - 1)
    ensures swapped ==> bound >= 2
    ensures !swapped ==> r == r0 && SortedByArrival(r)
    ensures multiset(r) == multiset(r0)
    ensures SameArrivalOrder(r0, r)
  {
    r, swapped := r0, false;
    // `j` is the position of the source's `ptr`, `bound` that of `lptr`
    var j := 0;
    while j + 1 < bound
      invariant PassInvariant(r0, r, j, bound, swapped)
      decreases bound - j
    {
      if r[j].arrivalTime > r[j + 1].arrivalTime {
        SwapStep(r0, r, j, bound, swapped);
        r := r[j := r[j + 1]][j + 1 := r[j]];
        swapped := true;
      } else {
        KeepStep(r0, r, j, bound, swapped);
      }
      j := j + 1;
    }
    PassEnd(r, bound, swapped);
  }

  /**
   * What holds during a pass after `j` steps: the latest arrival of `r[..j + 1]`
   * sits at `j`, the settled suffix is kept, the queue is a stable reordering
   * of `r0`, and without a swap it is `r0` with `r0[..j + 1]` in order.
   */
  ghost predicate PassInvariant(r0: seq<Process>, r: seq<Process>, j: int, bound: int, swapped: bool)
  {
    0 <= j < bound <= |r| == |r0| &&
    (swapped ==> j >= 1) &&
    (!swapped ==> r == r0 && SortedPrefix(r, j + 1)) &&
    LatestAt(r, j) && SettledFrom(r, bound) &&
    multiset(r) == multiset(r0) && SameArrivalOrder(r0, r)
  }

  lemma SameArrivalOrderTrans(a: seq<Process>, b: seq<Process>, c: seq<Process>)
    requires SameArrivalOrder(a, b) && SameArrivalOrder(b, c)
    ensures SameArrivalOrder(a, c)
  {
  }

  /** A swap moves the latest arrival seen so far one position on. */
  lemma SwapStep(r0: seq<Process>, r: seq<Process>, j: int, bound: int, swapped: bool)
    requires PassInvariant(r0, r, j, bound, swapped) && j + 1 < bound
    requires r[j].arrivalTime > r[j + 1].arrivalTime
    ensures PassInvariant(r0, r[j := r[j + 1]][j + 1 := r[j]], j + 1, bound, true)
  {
    var r' := r[j := r[j + 1]][j + 1 := r[j]];
    SwapKeepsArrivalOrder(r, j);
    SwapKeepsSettled(r, j, bound);
    SameArrivalOrderTrans(r0, r, r');
  }

  /** Without a swap the latest arrival seen so far is the next element. */
  lemma KeepStep(r0: seq<Process>, r: seq<Process>, j: int, bound: int, swapped: bool)
    requires PassInvariant(r0, r, j, bound, swapped) && j + 1 < bound
    requires r[j].arrivalTime <= r[j + 1].arrivalTime
    ensures PassInvariant(r0, r, j + 1, bound, swapped)
  {
  }

  lemma PassEnd(r: seq<Process>, bound: int, swapped: bool)
    requires 1 <= bound <= |r|
    requires LatestAt(r, bound - 1) && SettledFrom(r, bound)
    requires !swapped ==> SortedPrefix(r, bound)
    ensures SettledFrom(r, bound - 1)
    ensures !swapped ==> SortedByArrival(r)
  {
  }

  lemma SwapKeepsSettled(r: seq<Process>, j: int, bound: int)
    requires 0 <= j && j + 1 < bound <= |r|
    requires SettledFrom(r, bound)
    ensures SettledFrom(r[j := r[j + 1]][j + 1 := r[j]], bound)
  {
    var r' := r[j := r[j + 1]][j + 1 := r[j]];
    forall i, k | 0 <= i < bound <= k < |r|
      ensures r'[i].arrivalTime <= r'[k].arrivalTime
    {
      var i' := if i == j then j + 1 else if i == j + 1 then j else i;
      assert r'[i] == r[i'] && r'[k] == r[k];
    }
  }

  /**
   * Bubble sort by arrival time. `bound` plays the part of the source's
   * `lptr`: `r[bound..]` is settled and shrinks by one position per pass.
   * Sorting stops after a pass that made no swap; a queue of zero or one
   * process is returned as it is.
   */
  method SortByArrival(queue: seq<Process>) returns (r: seq<Process>)
    ensures SortedByArrival(r)
    ensures multiset(r) == multiset(queue)
    ensures SameArrivalOrder(queue, r)
    ensures r == ArrivalOrder(queue)
  {
    r := queue;
    if |r| > 1 {
      var swapped := true;
      var bound: nat := |r|;
      while swapped
        invariant |r| == |queue|
        invariant bound <= |r|
        invariant swapped ==> bound >= 1
        invariant SettledFrom(r, bound)
        invariant !swapped ==> SortedByArrival(r)
        invariant multiset(r) == multiset(queue)
        invariant SameArrivalOrder(queue, r)
        decreases bound
      {
        r, swapped := BubblePass(r, bound);
        bound := bound - 1;
      }
    }
    ArrivalOrderUnique(queue, r);
  }
}
