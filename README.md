# Three-tier static-priority batch scheduler, modelled in Dafny

The system admits synthetic processes with a pid, a priority, an arrival time
and a burst. Each process goes to one of three tier queues by priority:
q1 for priority 100 and up, q2 for 50 to 99, q3 below 50. A run restarts the
shared simulation clock at zero and bubble-sorts each queue by arrival time.
It then makes one pass over q1, q2 and q3, in that order, with quanta 3, 2
and 1. In a pass each process in turn gets at most one quantum. The clock
first jumps forward to the process's arrival if it lags. A process with
nothing left is appended to the result ledger with the current clock as its
completion time and is unlinked from its queue. Any other process stays in
place with a reduced remaining burst. The report lists, for every ledger
entry, its pid, arrival, burst, completion and waiting time (turnaround minus
burst, where turnaround is completion minus arrival). It also gives the
averages of waiting and of turnaround over all entries; the model keeps the
totals and the count they are taken from. A reset empties the queues and the
ledger.

Layout:

- `processes.dfy` (`Processes`): process and result records, the tiers,
  the quanta and the tier choice.
- `queues.dfy` (`Queues`): unlinking the first matching node
  (`Dequeue`, specified by `RemoveFirst`) and appending to the ledger.
- `arrival_sort.dfy` (`ArrivalSort`): the bubble sort (`SortByArrival`,
  `BubblePass`). It is proved equal to a reference stable insertion sort,
  `ArrivalOrder`. Stability is stated through `ArrivingAt`, the
  subsequence of processes with a given arrival time.
- `execution.dfy` (`Execution`): one pass over a queue as a function of the
  queue and the clock (`Pass`, one `Visit` per process). The lemmas relate
  it to independent descriptions of what stays queued (`Unfinished`) and
  what completes (`Finished`).
- `metrics.dfy` (`Metrics`): turnaround, waiting, the report, and the sign
  of the waiting time.
- `engine.dfy` (`Engine`): the `Scheduler` class. Its fields are the three
  queues, the ledger and the clock. It provides admission, the pass over one
  tier (`Schedule` with its loop `Sweep`), the run and the reset. Three worked
  examples are included.

Two behaviours of the code are worth knowing:

- The reset empties the queues and the ledger but leaves the clock alone
  (ARTS.c:130-138). Only a run sets the clock back to zero (ARTS.c:109).
- The waiting time is not always non-negative. Each run restarts the clock
  at zero, but a partly served process keeps its reduced remaining burst.
  A process that finishes in a later run can therefore complete before its
  arrival plus its burst. `Engine.RepeatedRunsExample` admits one process
  and runs the scheduler five times; the ledger ends with waiting time -4. `Metrics.FreshProcessWaitsNonNegative`
  proves the non-negative bound for every process that still holds its whole
  burst when it finishes, wherever it sits in the queue.

## Model

| member | source | states |
|---|---|---|
| Processes.TierOf | ARTS.c:97-103 | The tier is High exactly when priority ≥ 100, Medium exactly when 50 ≤ priority < 100, and Low exactly when priority < 50. |
| Processes.Admitted | ARTS.c:90-94 | A newly read process keeps the pid, priority, arrival time and burst it was given, and its remaining burst starts at its whole burst. |
| Processes.PermutationKeepsTier | ARTS.c:225-265 | A reordering of a queue whose processes all belong to one tier still holds only processes of that tier. |
| Engine.Scheduler.constructor | ARTS.c:67-68 | The scheduler starts with three empty queues and an empty ledger, and with clock 0 as the global clock is initialised at ARTS.c:33. |
| Engine.Scheduler.Admit | ARTS.c:94-103 | The new process, with remaining burst equal to its burst, is appended at the tail of the one queue its priority selects. The other two queues, the ledger and the clock are unchanged. All queues stay within their tiers. |
| Queues.RemoveFirstAt | ARTS.c:165-184 | When the first occurrence of the target is at index i, removal drops exactly that element and keeps every other element in its relative order. |
| Queues.RemoveFirstAbsent | ARTS.c:178-183 | Removing a target that is not in the queue, including from an empty queue, leaves the queue unchanged. |
| Queues.RemoveFirstPresent | ARTS.c:165-184 | Removing a target that is in the queue shortens it by one and removes exactly one copy of the target from its multiset. |
| Queues.RemoveFirstAfterAppend | ARTS.c:155-163 | Enqueueing a process at the tail of a queue that does not hold it and then dequeuing it gives back the original queue. |
| Queues.Dequeue | ARTS.c:165-184 | The head is checked first, then the list is walked to the target. The result is the reference removal `RemoveFirst`. An absent target leaves the queue as it was. A present one shortens the queue by one and removes one copy. |
| Queues.RecordResult | ARTS.c:195-214 | The ledger grows by exactly one. Every earlier entry is unchanged, and the new last entry carries the given pid, arrival, burst and completion. |
| ArrivalSort.ArrivingAtMembers | ARTS.c:237 | A process is in the arrival-time-t subsequence exactly when it is in the queue and arrives at t. |
| ArrivalSort.SwapKeepsArrivalOrder | ARTS.c:237-257 | Exchanging neighbours with different arrival times keeps the multiset and every per-arrival-time subsequence. |
| ArrivalSort.ArrivalOrderProperties | ARTS.c:225-265 | The reference ordering is sorted by arrival, is a permutation of its input, and keeps the relative order of equal arrivals. |
| ArrivalSort.SortedUnique | ARTS.c:237 | Two sequences sorted by arrival with the same per-arrival-time subsequences are equal. So a stable sort has only one possible output. |
| ArrivalSort.ArrivalOrderUnique | ARTS.c:225-265 | Any sorted sequence with the same per-arrival-time subsequences as the input is the reference ordering. |
| ArrivalSort.ArrivalOrderIdempotent | ARTS.c:226-237 | A queue already sorted by arrival, including any queue of zero or one process, is left unchanged. Sorting twice is sorting once. |
| ArrivalSort.SwapStep | ARTS.c:237-257 | A swap on a strict `>` moves the latest arrival seen in the pass one position on. It keeps the settled suffix, the multiset and the per-arrival-time order. |
| ArrivalSort.KeepStep | ARTS.c:236-259 | Without a swap, the latest arrival seen in the pass is the next process, and the queue is unchanged. |
| ArrivalSort.BubblePass | ARTS.c:232-261 | One inner pass up to `lptr` settles one more position and keeps the multiset and the per-arrival-time order. A pass without swaps leaves the queue unchanged and sorted. |
| ArrivalSort.SortByArrival | ARTS.c:225-265 | The result is sorted by arrival, is a permutation of the input, and keeps the relative order of equal arrivals. It equals the reference ordering `ArrivalOrder`. |
| Execution.ExecutionTime | ARTS.c:280-282 | A slice runs for the remaining burst or the quantum, whichever is smaller. |
| Execution.StartTime | ARTS.c:276-278 | Before a slice the clock becomes the larger of the clock and the arrival time. |
| Execution.Visit | ARTS.c:276-297 | One iteration of the pass, defined as a function of the state so far: the clock becomes max(clock, arrival) plus min(remaining, quantum). A process with nothing left is recorded at that clock, and any other is kept with its remaining burst reduced. |
| Execution.Pass | ARTS.c:274-298 | The whole pass over a queue from a given clock: one `Visit` per process, left to right. Its results are characterised by `PassSurvivors`, `PassCompleted`, `CompletionOnVisit`, `SurvivorOnVisit`, `PassAccountsForAll` and `PassClockMonotone`. |
| Execution.FinishesIff | ARTS.c:286-288 | A visited process finishes exactly when its remaining burst is at most the quantum. It then runs for its whole remaining burst; otherwise it runs for exactly one quantum. |
| Execution.SweepStep | ARTS.c:274-297 | One step of the loop over the queue as it is being unlinked matches one visit of the pass over the original queue. A finished process is the first record equal to itself, so unlinking it by value removes exactly that node. |
| Execution.PassSurvivors | ARTS.c:288-297 | After a pass, the queue holds exactly the processes that needed more than one quantum, in their original order, each reduced by exactly one quantum. |
| Execution.PassCompleted | ARTS.c:288-291 | A pass records exactly one result per process needing at most one quantum, in visit order. Each result carries that process's pid, arrival and burst. |
| Execution.PassAccountsForAll | ARTS.c:288-297 | Every visited process either stays queued or is recorded, never both. |
| Execution.PassClockMonotone | ARTS.c:276-286 | With a non-negative quantum and non-negative remaining bursts the clock never decreases. Recorded completions lie between the start and end clock and do not decrease along the ledger. |
| Execution.CompletionOnVisit | ARTS.c:276-291 | A process needing at most one quantum is recorded at completion time max(clock before its visit, arrival) + remaining burst, at its position among the finished ones. |
| Execution.SurvivorOnVisit | ARTS.c:295-297 | A process needing more than one quantum records nothing: the pass's results after its visit are those before it, and it is not among the finished processes. It stays queued, at its position among the survivors, with one quantum taken off. |
| Execution.PassKeepsBurstBounds | ARTS.c:280-297 | With a non-negative quantum, if every remaining burst lies between zero and the process's burst before a pass, every survivor still satisfies those bounds and has work left. So the queues a later run sees meet the requirement of `PassClockMonotone`. |
| Execution.PassKeepsTier | ARTS.c:286 | A pass changes only remaining bursts, so every survivor stays in its tier. |
| Engine.Scheduler.Sweep | ARTS.c:274-298 | The loop leaves the queue, the ledger and the clock exactly as the pass over the original queue describes: the survivors, the old ledger followed by the pass's results, and the pass's final clock. |
| Engine.Scheduler.Schedule | ARTS.c:268-299 | The selected tier's queue becomes the pass's survivors, the pass's results are appended to the ledger, and the clock becomes the pass's clock. The other two queues are unchanged and tiers are kept. For an empty queue the pass changes neither the clock nor the ledger (ARTS.c:269-272). |
| Engine.Scheduler.SortQueues | ARTS.c:112-114 | Each tier queue is replaced by its stable arrival order and stays in its tier. |
| Engine.Scheduler.Run | ARTS.c:108-123 | The clock restarts at 0. Each queue is sorted by arrival, then passed with quanta 3, 2 and 1, high to medium to low. The clock is threaded from pass to pass and all results are appended after what earlier runs recorded. |
| Engine.Scheduler.Reset | ARTS.c:130-138 | All three queues and the ledger become empty; the clock keeps its value. |
| Engine.HighTierPass | ARTS.c:268-299 | Two high-tier processes (arrival 0, burst 2; arrival 1, burst 1) complete at times 2 and 3 in one pass, leaving the queue empty and the clock at 3. |
| Engine.LowTierPass | ARTS.c:268-299 | A low-tier process with burst 5 is served one unit in a pass. It stays queued with 4 left, and nothing is recorded. |
| Metrics.Turnaround | ARTS.c:316 | Turnaround is the time from arrival to completion: arrival plus turnaround is the completion time. |
| Metrics.Waiting | ARTS.c:317 | Waiting time is turnaround minus burst. It is non-negative exactly when the process completes no earlier than its arrival plus its burst. |
| Metrics.TotalsAgree | ARTS.c:316-325 | Total waiting equals total turnaround minus total burst. |
| Metrics.Summarize | ARTS.c:302-327 | An empty ledger yields "no results", and only an empty one does. Otherwise the report has one row per entry, in ledger order, with waiting = completion − arrival − burst. It also carries the count and the waiting and turnaround totals. |
| Metrics.FreshWaitingNonNegative | ARTS.c:316-317 | In a queue whose processes all still hold their whole burst, every result of a pass has a non-negative waiting time. |
| Metrics.FreshProcessWaitsNonNegative | ARTS.c:276-291 | A process that still holds its whole burst and fits in one quantum is recorded, at its position among the finished ones, with a non-negative waiting time, whatever else is in the queue. |
| Metrics.RepeatedRunsWaitNegative | ARTS.c:108-122 | A low-tier process (arrival 0, burst 5) served one unit per pass from clock 0 completes in its fifth pass at time 1, with waiting time -4. |
| Engine.RunLowTierAlone | ARTS.c:108-122 | A run with q1 and q2 empty and only that low-tier process queued serves it one unit: it is recorded at time 1 when one unit was left, and otherwise stays queued with one unit less. |
| Engine.RepeatedRunsExample | ARTS.c:108-122 | Admitting that process to a new scheduler and running it five times leaves a ledger with exactly one entry, recorded at time 1 with waiting time -4. |
| Metrics.OneUnitPerRun | ARTS.c:276-297 | From clock 0, a pass serves that low-tier process exactly one unit: it finishes at time 1 when one unit is left and otherwise stays queued with one unit less. |

## Left out

- The interactive menu, all reading of input and all printing (ARTS.c:71-150, 284, 308-321). Admission receives the fields as parameters, and the report is returned as a value.
- Metrics.Summarize: the averages are floating-point divisions in the source (ARTS.c:312, 329-330). The report carries the integer totals and the count they are divided by, not the quotients.
- Allocation failure and `exit`, and the freeing of nodes (ARTS.c:84-87, 186-192, 197-200, 216-222). Allocation never fails, and freeing is not modelled: a reset assigns empty sequences.
- C `int` overflow of the clock, bursts and sums. All integers are unbounded.
- Queues.Dequeue: the source finds the node to unlink by pointer identity; the model removes the first record equal to it. In `Sweep`, every record before the current one has work left and the current one has none, so the first equal record is the current node (`Execution.SweepStep`).
- Engine.Scheduler.Schedule: the source updates the tier queue through a pointer to its head while walking it. The model sweeps a local copy and stores the result once the pass is over. No other code observes the queue during the pass.
- Engine.Scheduler.Admit: enqueueing walks to the tail of the list (ARTS.c:159-161); on a sequence this is an append with no walk. The same holds for `Queues.RecordResult` (ARTS.c:210-212).
- ArrivalSort.SortByArrival: the source exchanges the data fields of two nodes in place; the model exchanges two elements of a sequence. The resulting contents are the same.
- Metrics.FreshProcessWaitsNonNegative: the non-negative waiting bound is proved only for processes that still hold their whole burst when they finish. It does not hold across runs (see `Metrics.RepeatedRunsWaitNegative`).
