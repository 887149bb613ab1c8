# CPU scheduling engine — a verified model

This project models the scheduling engine `core/scheduling.py`. It has
four CPU-scheduling simulators and one metrics helper:

- first-come-first-served (`fcfs`);
- shortest-job-first (`sjf`);
- round robin with a fixed quantum (`round_robin`);
- non-preemptive priority scheduling (`priority_scheduling`);
- the metrics helper `calculate_metrics`.

Each simulator takes a list of process records (`id`, `arrival`, `burst`,
`priority`). It returns a Gantt chart of execution slices and a list of
per-process results: start, finish, waiting time and turnaround time.

The model follows the program's structure:

- `Processes` — the records: `Process`, the chart entry `Slice`, the
  result record `Result`. Also the input constraints and `Chronological`,
  the shape of a chart.
- `Sorting` — the stable sort by arrival that every simulator starts with,
  as an insertion sort. It is proved sorted, a permutation and stable: for
  each arrival time, the processes arriving then keep their input order.
- `Timeline` — a non-preemptive run as a sequence of dispatches, and the
  chart and result list read off it.
- `Fcfs` — `fcfs`, a loop proved equal to the recursive run `Plan`. The
  lemmas about `Plan` give the promised shape of the output.
- `Selection` — Python's `min(available, key=...)`: the first arrived
  process with the smallest key. Also `remaining.remove(...)` as removal
  at the chosen position.
- `NonPreemptive` — `sjf` and `priority_scheduling`. Their loops are
  identical apart from the key, so both are one method `Run` parameterised
  by the key. `Run` is proved by a loop invariant against `Schedules`:
  - every process is run exactly once, to completion;
  - the CPU runs one process at a time from time 0;
  - nobody starts before arriving;
  - the CPU idles only while nothing pending has arrived;
  - every process was rightly chosen over every process run after it.
- `Chart` — what a chart says about one process: its CPU time, its number
  of slices, its first start and its last finish.
- `RoundRobin` — `round_robin`, with its results dict as a
  `map<string, Entry>` keyed by id, its FIFO queue of ids and its
  admission cursor. The main loop is also written as a state machine:
  `Turn` takes the state at the top of one turn to the next (admission,
  then an idle jump or the dispatch `Dispatched` of the queue's head), and
  `Runs` says a sequence of states is the loop's run. The method returns
  that run as a ghost `trace`. The run is unique, and the CPU idles only
  when every arrived process has finished. For every process, the proof
  shows:
  - its slices add up to its burst;
  - it gets `burst / quantum` rounded up slices;
  - every slice but its last is a full quantum;
  - it starts with its first slice, never before arriving;
  - it finishes with its last slice.
  The chart is chronological, and no slice is longer than a quantum.
- `Metrics` — `calculate_metrics`: nothing for an empty list, otherwise
  the count and the two averages. Lemmas give what the averages of each
  simulator's output satisfy.

The requirements that the code relies on but does not check are
preconditions:

- `arrival >= 0` and `burst >= 1` for every process (`WellFormed`);
- `quantum >= 1`;
- distinct ids for round robin (`UniqueIds`).

With ids that are not distinct, round robin's dict merges the records of
different processes. Without a positive quantum, its loop does not end.

An empty input list is not an error: the simulators return an empty chart
and an empty result list, as the code does; the code raises no validation
error for it, and neither does the model.

## Model

| member | source | states |
|---|---|---|
| Sorting.SortByArrival | core/scheduling.py:3 | the list sorted by arrival is ordered by arrival, has the same length and is a permutation of the input |
| Sorting.SortIsStable | core/scheduling.py:3 | the sort is stable: for every arrival time, the processes arriving at that time appear in the same order as in the input |
| Sorting.SortKeepsWellFormed | core/scheduling.py:41 | sorting keeps every arrival non-negative and every burst positive |
| Sorting.SortKeepsUniqueIds | core/scheduling.py:85 | sorting keeps ids distinct |
| Processes.ChronologicalPairwise | core/scheduling.py:34 | in a chart where each slice starts no earlier than the previous finish, every slice ends before any later one starts |
| Fcfs.Fcfs | core/scheduling.py:1-36 | `fcfs` returns the chart and records of the FCFS run of the arrival-sorted input; one entry and one record per process, in sorted order; each starts at the later of its arrival and the previous finish; it finishes after its burst; turnaround is finish minus arrival; waiting is turnaround minus burst, never negative; the chart is chronological |
| Fcfs.Plan | core/scheduling.py:8-34 | the FCFS run has one dispatch per process; its order and start times are stated by `PlanOrder` and `PlanStarts` |
| Fcfs.RunInOrder | core/scheduling.py:8-34 | the loop over the sorted list produces the chart and records of `Plan` |
| Fcfs.PlanOrder | core/scheduling.py:8 | the FCFS run dispatches exactly the given processes, in the given order |
| Fcfs.PlanStarts | core/scheduling.py:9-13 | each process starts at the later of its arrival and the finish of its predecessor |
| Fcfs.PlanStep | core/scheduling.py:9-14 | the i-th dispatch of the run is the i-th process at the later of its arrival and the previous finish, and the CPU is next free at its finish |
| Fcfs.PlanIsWorkConserving | core/scheduling.py:9-10 | the FCFS run of a sorted list is serial, starts nobody before arrival and idles only while nothing pending has arrived |
| Fcfs.PlanReport | core/scheduling.py:12-34 | the FCFS run of a sorted, well-formed list has the output shape `fcfs` promises (`FcfsOrder`) |
| Timeline.Gantt | core/scheduling.py:58-62 | the chart has one entry per dispatch; what each entry holds is stated by `RunReported` |
| Timeline.Report | core/scheduling.py:64-75 | the result list has one record per dispatch, in dispatch order; what each record holds is stated by `ReportTimes` |
| Timeline.GanttChronological | core/scheduling.py:77 | a serial run of well-formed processes gives a chronological chart starting no earlier than the initial clock |
| Timeline.ReportTimes | core/scheduling.py:64-65 | each record of a run has turnaround = finish − arrival and waiting = turnaround − burst, both non-negative when nobody starts before arriving |
| Timeline.RunReported | core/scheduling.py:55-75 | chart entries and records agree one by one; each process runs for its whole burst; the chart is chronological |
| Timeline.RecordDispatch | core/scheduling.py:58-75 | one more dispatch appends exactly one chart entry and one record |
| Selection.BestFrom | core/scheduling.py:54 | the scan behind `min` (line 54, and line 165 with the priority key): continuing from a best-so-far candidate, the result has arrived, no arrived process has a smaller key, and every arrived process before it has a strictly larger one |
| Selection.Select | core/scheduling.py:48-54 | the chosen process has arrived; no arrived process has a smaller key; every arrived process before it in the list has a strictly larger key (ties go to the first candidate) |
| Selection.RemoveAt | core/scheduling.py:78 | removal takes out exactly the one element at the position |
| Selection.RemoveAtIndex | core/scheduling.py:190 | where each element of the shortened list comes from |
| Selection.SelectIsFirstOccurrence | core/scheduling.py:78 | no earlier element equals the chosen one, so removing the first equal element removes the chosen one |
| NonPreemptive.SelectChosenOver | core/scheduling.py:159-165 | the selected process is rightly chosen over every other pending process |
| NonPreemptive.RemoveAtKeepsInput | core/scheduling.py:190 | the pending list stays sorted and well formed after a removal |
| NonPreemptive.ProgressStart | core/scheduling.py:42-45 | the loop invariant holds initially |
| NonPreemptive.ProgressJump | core/scheduling.py:50-52 | when nothing pending has arrived, jumping to the first pending arrival keeps the invariant, and something has then arrived |
| NonPreemptive.ProgressDispatch | core/scheduling.py:54-78 | running the selected process to completion and dropping it keeps the invariant |
| NonPreemptive.ProgressEnd | core/scheduling.py:47 | when nothing is pending, the run has every property of `Schedules` |
| NonPreemptive.RunNext | core/scheduling.py:54-78 | one dispatch: the selected process runs to completion from now, is charted and reported, and leaves the pending list; the loop invariant is kept |
| NonPreemptive.Run | core/scheduling.py:45-78 | the shared loop returns the chart and records of a run that satisfies `Schedules` for the key; waiting and turnaround are as reported; the chart is chronological |
| NonPreemptive.Sjf | core/scheduling.py:39-80 | `sjf` runs the sorted input as `Schedules` describes, shortest burst first, and reports it consistently |
| NonPreemptive.PriorityScheduling | core/scheduling.py:150-192 | `priority_scheduling` does the same by (priority, arrival) and reports each priority |
| Chart.Append | core/scheduling.py:114-118 | appending a slice changes the CPU time, slice count, first start and last finish of its own process only |
| Chart.NoSlices | core/scheduling.py:108-109 | a process with no slices got no CPU time and has no start |
| Chart.SomeSlices | core/scheduling.py:108-109 | a process with slices has a start |
| Chart.LastFinishBound | core/scheduling.py:130 | a process's last finish is no later than the end of the chart |
| Chart.WorkSpan | core/scheduling.py:113-121 | in a chronological chart, a process gets at most the time between its first start and its last finish |
| Chart.AppendFull | core/scheduling.py:111-117 | appending a slice keeps "every slice of the process is a full quantum" exactly when the new slice is full or belongs to another process; "all but the last are full" holds after a slice of the process exactly when all were full before, and a slice of another process leaves it as it was |
| Chart.AllFullSlices | core/scheduling.py:111 | when all slices of a process are full, each of them lasts a quantum |
| Chart.FullButLastSlices | core/scheduling.py:111 | when all but the last slice of a process are full, every slice of it that is followed by another of its slices lasts a quantum |
| RoundRobin.InitialTable | core/scheduling.py:88-90 | the table has one entry per input id, with remaining = burst, no start and finish 0 |
| RoundRobin.Min | core/scheduling.py:111 | `min` is the smaller of its arguments |
| RoundRobin.CeilDivOfBounds | core/scheduling.py:111 | c slices of at most `quantum`, all full but the last, cover `burst` exactly when c is `burst / quantum` rounded up |
| RoundRobin.Served | core/scheduling.py:108-120 | one slice charged to an entry: arrival, burst and finish are kept; the start is set on the first slice only; the remaining work never goes negative and, for a positive quantum, drops strictly while work was left; work still left means the slice was a full quantum |
| RoundRobin.Admitted | core/scheduling.py:96-98 | admission appends, in order, the ids of the processes from the cursor on that have arrived by now, and stops at the first that has not |
| RoundRobin.DispatchedSpec | core/scheduling.py:107-130 | one dispatch: the head runs `min(quantum, remaining)` from now and only its entry changes; its start is set on its first slice; the processes that arrived by the end of the slice join the queue before the head is requeued, and a head without work left gets finish = now |
| RoundRobin.NoIdleWithWork | core/scheduling.py:100-103 | a turn of the run that charts no slice jumps the clock only past arrivals whose processes have no work left |
| RoundRobin.TurnDeterministic | core/scheduling.py:94-130 | a turn of the loop has exactly one outcome |
| RoundRobin.ExitsOnlyAtEnd | core/scheduling.py:104-105 | in a run, only the last state is one the loop leaves from |
| RoundRobin.RunsAgree | core/scheduling.py:94-130 | two runs from the same initial state agree state by state |
| RoundRobin.RunsUnique | core/scheduling.py:85-130 | the run of the main loop is determined by the sorted input and the quantum |
| RoundRobin.InvReady | core/scheduling.py:96-128 | under the loop invariant every process has an entry with no negative work, and every admitted process with work left is queued |
| RoundRobin.TraceOn | core/scheduling.py:94-130 | a turn to a state satisfying the invariant extends the run so far by that state |
| RoundRobin.InvStart | core/scheduling.py:85-92 | the loop invariant holds for the initial table, empty queue and clock 0 |
| RoundRobin.InvAdmit | core/scheduling.py:96-98 | admitting the process under the cursor keeps the invariant |
| RoundRobin.InvAdmitAll | core/scheduling.py:123-125 | admitting an arrived run of processes keeps the invariant |
| RoundRobin.InvJump | core/scheduling.py:100-103 | with the queue empty, jumping to the next arrival keeps the invariant |
| RoundRobin.InvSlice | core/scheduling.py:107-120 | charting the head's slice keeps the invariant with the head in flight; the slice lasts between 1 and `quantum`; the outstanding work drops by the slice length |
| RoundRobin.InvRequeue | core/scheduling.py:127-128 | a process with work left goes back to the tail and the invariant holds |
| RoundRobin.InvComplete | core/scheduling.py:129-130 | a process without work left gets finish = now = end of its last slice |
| RoundRobin.EntryFinished | core/scheduling.py:127-130 | a completed entry has CPU time equal to its burst, `burst / quantum` rounded up slices, start = first slice start ≥ arrival, and finish = last slice end |
| RoundRobin.InvEnd | core/scheduling.py:100-105 | when the loop exits, every process has completed |
| RoundRobin.Admit | core/scheduling.py:96-98 | the admission loop appends, in order, the ids of the processes under the cursor that have arrived, and stops at the first that has not |
| RoundRobin.RunSlice | core/scheduling.py:107-120 | the head runs for `min(quantum, remaining)` from now; its start is set only on its first dispatch; its remaining work drops by the slice; exactly one chart entry is appended |
| RoundRobin.Step | core/scheduling.py:107-130 | one turn with a non-empty queue produces exactly the state `Dispatched` gives, whose content `DispatchedSpec` states; the invariant is kept and the outstanding work decreases |
| RoundRobin.Collect | core/scheduling.py:133-147 | one record per process in table order, with turnaround and waiting computed from the completed entry |
| RoundRobin.Start | core/scheduling.py:85-92 | the initial table satisfies the loop invariant, and the run so far is the initial state alone |
| RoundRobin.Advance | core/scheduling.py:94-130 | one turn of the main loop: the run is extended by the turn's state, or, when the loop leaves, it is complete and every process has finished; the measure decreases |
| RoundRobin.Schedule | core/scheduling.py:94-130 | the main loop returns the table and chart of the last state of the loop's run, and every process has finished with a chronological chart |
| RoundRobin.RoundRobin | core/scheduling.py:83-147 | `round_robin` returns the chart of the main loop's run (`Runs`) and one record per process in arrival order, built from that run's final table; the chart is chronological, of the input's slices, none above a quantum; each process gets slices adding up to its burst, `burst / quantum` rounded up of them, all but the last a full quantum; it starts with its first slice, never before arrival, and finishes with its last; turnaround and waiting follow, and waiting ≥ 0 |
| Metrics.CalculateMetrics | core/scheduling.py:195-207 | no metrics for an empty list; otherwise the count is the list length and each average times the count is its total |
| Metrics.TotalWaiting | core/scheduling.py:200 | the sum of the waiting times, not negative when none is |
| Metrics.TotalTurnaround | core/scheduling.py:201 | the sum of the turnaround times, not negative when none is |
| Metrics.Totals | core/scheduling.py:200-201 | over consistent records, total turnaround = total waiting + total burst, and total waiting ≥ 0 |
| Metrics.AveragesOfConsistent | core/scheduling.py:200-201 | over consistent records, average waiting ≥ 0 and average turnaround = average waiting + average burst |
| Metrics.FcfsMetrics | core/scheduling.py:21-22 | the averages of `fcfs` output satisfy that |
| Metrics.NonPreemptiveMetrics | core/scheduling.py:175-176 | so do those of `sjf` and `priority_scheduling` output |
| Metrics.RoundRobinMetrics | core/scheduling.py:135-136 | so do those of `round_robin` output |

## Left out

- The Streamlit interface (`GUI/app.py`) is not part of this model. It is
  forms, session state, chart drawing and tables, and it is where the
  numeric input limits are enforced; here they are preconditions.
- Metrics.CalculateMetrics: the averages are exact real quotients. The
  floating-point division and `round(..., 2)` are not modelled.
- NonPreemptive.Run, NonPreemptive.Sjf, NonPreemptive.PriorityScheduling: the run is
  specified by its properties (`Schedules`). There is no independent
  function that computes the schedule. Among pending processes with equal
  key and equal arrival, `Schedules` does not fix which runs first.
  `Selection.Select` does fix it: the first in the pending list.
- NonPreemptive.Run, NonPreemptive.Sjf, NonPreemptive.PriorityScheduling:
  the dispatch sequence `done` is a ghost out-parameter. It exists only to
  state the contract; the code keeps no such list.
- RoundRobin.RoundRobin: the input must have distinct ids. The code does
  not check this; with duplicates it merges entries of its results dict,
  and the model does not describe that merging.
- Python list and dict idioms (`pop(0)`, `remove` by value, dict iteration
  order) are modelled by sequence indexing, removal at a known position,
  and iteration over the sorted list. Under distinct ids, that list is the
  dict's insertion order.
- Timeline.Gantt, Timeline.Report: their own contracts state only the
  lengths. What each entry and record holds is stated by
  `Timeline.ReportTimes` and `Timeline.RunReported`. Stating it on the
  functions makes every proof that mentions a chart much more costly.
- RoundRobin.RoundRobin, RoundRobin.Schedule, RoundRobin.Advance: the run
  `trace` is a ghost out-parameter. It exists only to state the contract;
  the code keeps only the current state.
- Input validation with a typed error is not modelled, because the code
  has none.
