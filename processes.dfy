/**
 * Process and result records of the three-tier batch scheduler, the tier
 * thresholds used at admission and the per-tier time quanta.
 */
module Processes {

  /** One node of a tier queue, without its `next` link (ARTS.c:36-43). */
  datatype Process = Process(
    pid: int,
    priority: int,
    arrivalTime: int,
    burst: int,
    remainingBurst: int)

  /** One node of the result ledger, without its `next` link (ARTS.c:46-52). */
  datatype Result = Result(pid: int, arrival: int, burst: int, completion: int)

  /** The three queues: q1 (High), q2 (Medium) and q3 (Low). */
  datatype Tier = High | Medium | Low

  /** Time quanta of the three tiers (ARTS.c:28-30). */
  const TimeQ1: int := 3
  const TimeQ2: int := 2
  const TimeQ3: int := 1

  /** The queue a newly read process is enqueued on, chosen by its priority alone. */
  function TierOf(priority: int): (t: Tier)
    ensures t == High <==> priority >= 100
    ensures t == Medium <==> 50 <= priority < 100
    ensures t == Low <==> priority < 50
  {
    if priority >= 100 then High
    else if priority >= 50 then Medium
    else Low
  }

  /** A freshly admitted process: its remaining burst starts at its whole burst. */
  function Admitted(pid: int, priority: int, arrivalTime: int, burst: int): (p: Process)
    ensures p.pid == pid && p.priority == priority && p.arrivalTime == arrivalTime && p.burst == burst
    ensures p.remainingBurst == p.burst
  {
    Process(pid, priority, arrivalTime, burst, burst)
  }

  /** Every process of `q` belongs to tier `t` by its priority. */
  ghost predicate InTier(q: seq<Process>, t: Tier)
  {
    forall p :: p in q ==> TierOf(p.priority) == t
  }

  /** Reordering a queue keeps it within its tier. */
  lemma PermutationKeepsTier(a: seq<Process>, b: seq<Process>, t: Tier)
    requires multiset(a) == multiset(b) && InTier(a, t)
    ensures InTier(b, t)
  {
    forall p | p in b ensures TierOf(p.priority) == t {
      assert p in multiset(b);
    }
  }
}
