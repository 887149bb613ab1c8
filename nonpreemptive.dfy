/** Shortest-Job-First and priority scheduling: both run the same
    non-preemptive loop over the arrival-sorted list and differ only in the
    key the next process is chosen by. */
module NonPreemptive {
  import opened Processes
  import opened Sorting
  import opened Timeline
  import opened Selection

  /** `p`, dispatched at `t`, was rightly chosen over `q`: if `q` had arrived
      by then, its key is not smaller, and with an equal key it did not
      arrive earlier. */
  predicate ChosenOver(policy: Policy, p: Process, q: Process, t: int) {
    Arrived(q, t) ==>
      && !Precedes(policy, q, p)
      && (!Precedes(policy, p, q) ==> p.arrival <= q.arrival)
  }

  /** Every dispatch was rightly chosen over every later one. */
  ghost predicate Greedy(policy: Policy, ds: seq<Dispatch>) {
    forall i, j :: 0 <= i < j < |ds| ==> ChosenOver(policy, ds[i].process, ds[j].process, ds[i].start)
  }

  /** What the two schedulers promise of the run `ds` of the arrival-sorted
      list `sorted`: every process is dispatched exactly once, the CPU runs
      one process at a time from time 0, nobody starts before arriving, the
      CPU idles only while no pending process has arrived, and each process
      dispatched was rightly chosen over every process dispatched later. */
  ghost predicate Schedules(policy: Policy, sorted: seq<Process>, ds: seq<Dispatch>) {
    && multiset(Order(ds)) == multiset(sorted)
    && Serial(ds, 0) && AfterArrival(ds)
    && WorkConserving(ds, 0)
    && Greedy(policy, ds)
  }

  /** The selected process is rightly chosen over every other pending one:
      earlier candidates with an equal key would have been selected, and
      later ones arrived no earlier. */
  lemma SelectChosenOver(policy: Policy, rem: seq<Process>, t: int, m: nat)
    requires SortedByArrival(rem) && HasArrived(rem, t)
    requires m < |rem| && m != Select(policy, rem, t)
    ensures ChosenOver(policy, rem[Select(policy, rem, t)], rem[m], t)
  {
  }

  /** Removing the dispatched process keeps the pending list sorted and
      well formed. */
  lemma RemoveAtKeepsInput(rem: seq<Process>, k: nat)
    requires k < |rem|
    ensures SortedByArrival(rem) ==> SortedByArrival(RemoveAt(rem, k))
    ensures WellFormed(rem) ==> WellFormed(RemoveAt(rem, k))
  {
    var r := RemoveAt(rem, k);
    forall i | 0 <= i < |r| ensures r[i] == rem[if i < k then i else i + 1] {
      RemoveAtIndex(rem, k, i);
    }
  }

  // The loop invariant, in parts: `done` is what has been dispatched,
  // `remaining` what is still pending, `clock` the current time.

  /** Every input process is either dispatched or pending. */
  ghost predicate Accounted(sorted: seq<Process>, done: seq<Dispatch>, remaining: seq<Process>) {
    multiset(Order(done)) + multiset(remaining) == multiset(sorted)
  }

  ghost predicate Pending(remaining: seq<Process>) {
    SortedByArrival(remaining) && WellFormed(remaining)
  }

  /** The dispatches so far are serial and the CPU is free again by `clock`. */
  ghost predicate Timed(done: seq<Dispatch>, clock: int) {
    && WellFormedRun(done) && Serial(done, 0) && AfterArrival(done)
    && FreeAt(done, 0, |done|) <= clock
  }

  /** Every idle period so far, including one that would end at `clock`,
      happened while nothing pending had arrived. */
  ghost predicate Idle(done: seq<Dispatch>, remaining: seq<Process>, clock: int) {
    && WorkConserving(done, 0)
    && (clock == FreeAt(done, 0, |done|) || forall m :: 0 <= m < |remaining| ==> remaining[m].arrival >= clock)
    && forall i, m :: 0 <= i < |done| && 0 <= m < |remaining| && done[i].start != FreeAt(done, 0, i) ==>
         remaining[m].arrival >= done[i].start
  }

  /** Every dispatch so far was rightly chosen over every later dispatch and
      over every pending process. */
  ghost predicate Chosen(policy: Policy, done: seq<Dispatch>, remaining: seq<Process>) {
    && Greedy(policy, done)
    && forall i, m :: 0 <= i < |done| && 0 <= m < |remaining| ==>
         ChosenOver(policy, done[i].process, remaining[m], done[i].start)
  }

  ghost predicate Progress(policy: Policy, sorted: seq<Process>, done: seq<Dispatch>, remaining: seq<Process>, clock: int) {
    && Accounted(sorted, done, remaining) && Pending(remaining)
    && Timed(done, clock) && Idle(done, remaining, clock) && Chosen(policy, done, remaining)
  }

  lemma ProgressStart(policy: Policy, sorted: seq<Process>)
    requires SortedByArrival(sorted) && WellFormed(sorted)
    ensures Progress(policy, sorted, [], sorted, 0)
  {
  }

  /** Nothing pending has arrived: the clock jumps to the first pending
      arrival, where something has. */
  lemma ProgressJump(policy: Policy, sorted: seq<Process>, done: seq<Dispatch>, remaining: seq<Process>, clock: int)
    requires Progress(policy, sorted, done, remaining, clock)
    requires remaining != [] && !HasArrived(remaining, clock)
    ensures Progress(policy, sorted, done, remaining, remaining[0].arrival)
    ensures HasArrived(remaining, remaining[0].arrival)
  {
    assert !Arrived(remaining[0], clock);
    assert Arrived(remaining[0], remaining[0].arrival);
  }

  lemma AccountedDispatch(sorted: seq<Process>, done: seq<Dispatch>, remaining: seq<Process>, k: nat, start: int)
    requires Accounted(sorted, done, remaining) && k < |remaining|
    ensures Accounted(sorted, done + [Dispatch(remaining[k], start)], RemoveAt(remaining, k))
  {
    RecordDispatch(done, Dispatch(remaining[k], start), false);
  }

  lemma TimedDispatch(done: seq<Dispatch>, clock: int, p: Process)
    requires Timed(done, clock) && Arrived(p, clock) && p.arrival >= 0 && p.burst >= 1
    ensures Timed(done + [Dispatch(p, clock)], clock + p.burst)
  {
    var d := Dispatch(p, clock);
    var ds := done + [d];
    RecordDispatch(done, d, false);
    assert forall i :: 0 <= i < |done| ==> ds[i] == done[i];
    assert forall i :: 0 <= i <= |done| ==> FreeAt(ds, 0, i) == FreeAt(done, 0, i);
  }

  lemma IdleDispatch(done: seq<Dispatch>, remaining: seq<Process>, clock: int, k: nat)
    requires Idle(done, remaining, clock) && SortedByArrival(remaining) && k < |remaining|
    ensures Idle(done + [Dispatch(remaining[k], clock)], RemoveAt(remaining, k), clock + remaining[k].burst)
  {
    var d := Dispatch(remaining[k], clock);
    var ds := done + [d];
    var r := RemoveAt(remaining, k);
    assert forall i :: 0 <= i < |done| ==> ds[i] == done[i];
    assert forall i :: 0 <= i <= |done| ==> FreeAt(ds, 0, i) == FreeAt(done, 0, i);
    forall m | 0 <= m < |r| ensures r[m] == remaining[if m < k then m else m + 1] {
      RemoveAtIndex(remaining, k, m);
    }
  }

  lemma ChosenDispatch(policy: Policy, done: seq<Dispatch>, remaining: seq<Process>, clock: int)
    requires Chosen(policy, done, remaining) && SortedByArrival(remaining) && HasArrived(remaining, clock)
    ensures var k := Select(policy, remaining, clock);
      Chosen(policy, done + [Dispatch(remaining[k], clock)], RemoveAt(remaining, k))
  {
    var k := Select(policy, remaining, clock);
    var d := Dispatch(remaining[k], clock);
    var ds := done + [d];
    var r := RemoveAt(remaining, k);
    assert forall i :: 0 <= i < |done| ==> ds[i] == done[i];
    forall m | 0 <= m < |r| ensures r[m] == remaining[if m < k then m else m + 1] {
      RemoveAtIndex(remaining, k, m);
    }
    forall m | 0 <= m < |r| ensures ChosenOver(policy, d.process, r[m], d.start) {
      SelectChosenOver(policy, remaining, clock, if m < k then m else m + 1);
    }
  }

  /** The selected process is dispatched now and runs to completion. */
  lemma ProgressDispatch(policy: Policy, sorted: seq<Process>, done: seq<Dispatch>, remaining: seq<Process>, clock: int)
    requires Progress(policy, sorted, done, remaining, clock) && HasArrived(remaining, clock)
    ensures var k := Select(policy, remaining, clock);
      Progress(policy, sorted, done + [Dispatch(remaining[k], clock)], RemoveAt(remaining, k), clock + remaining[k].burst)
  {
    var k := Select(policy, remaining, clock);
    AccountedDispatch(sorted, done, remaining, k, clock);
    RemoveAtKeepsInput(remaining, k);
    TimedDispatch(done, clock, remaining[k]);
    IdleDispatch(done, remaining, clock, k);
    ChosenDispatch(policy, done, remaining, clock);
  }

  /** Once nothing is pending, the run has every promised property. */
  lemma ProgressEnd(policy: Policy, sorted: seq<Process>, done: seq<Dispatch>, clock: int)
    requires Progress(policy, sorted, done, [], clock)
    ensures Schedules(policy, sorted, done)
  {
    var none: seq<Process> := [];
    assert multiset(Order(done)) + multiset(none) == multiset(Order(done));
  }

  /** One dispatch of the shared loop: the first arrived pending process
      with the smallest key runs to completion from `clock`, is charted and
      reported, and leaves the pending list. */
  method RunNext(policy: Policy, sorted: seq<Process>, ghost done: seq<Dispatch>, remaining: seq<Process>, clock: int,
                 gantt: seq<Slice>, results: seq<Result>)
    returns (gantt': seq<Slice>, results': seq<Result>, ghost done': seq<Dispatch>, remaining': seq<Process>, clock': int)
    requires Progress(policy, sorted, done, remaining, clock) && HasArrived(remaining, clock)
    requires gantt == Gantt(done) && results == Report(done, policy == LowestPriority)
    ensures var k := Select(policy, remaining, clock);
      && done' == done + [Dispatch(remaining[k], clock)] && remaining' == RemoveAt(remaining, k)
      && clock' == clock + remaining[k].burst
    ensures Progress(policy, sorted, done', remaining', clock')
    ensures gantt' == Gantt(done') && results' == Report(done', policy == LowestPriority)
  {
    var withPriority := policy == LowestPriority;
    var k := Select(policy, remaining, clock);
    var p := remaining[k];
    var start, finish := clock, clock + p.burst;
    gantt' := gantt + [Slice(p.id, start, finish)];
    var turnaround := finish - p.arrival;
    var waiting := turnaround - p.burst;
    var priority := if withPriority then Some(p.priority) else None;
    results' := results + [Result(p.id, p.arrival, p.burst, priority, start, finish, waiting, turnaround)];
    assert Result(p.id, p.arrival, p.burst, priority, start, finish, waiting, turnaround)
        == Completed(p, start, finish, withPriority);
    RecordDispatch(done, Dispatch(p, start), withPriority);
    ProgressDispatch(policy, sorted, done, remaining, clock);
    done' := done + [Dispatch(p, start)];
    clock' := finish;
    remaining' := RemoveAt(remaining, k);
  }

  /** The loop shared by `sjf` and `priority_scheduling`, on the
      arrival-sorted list: while something is pending, either jump the clock
      to the first pending arrival when nothing has arrived, or run the
      selected arrived process to completion and drop it from the pending
      list. Priority scheduling also reports each process's priority. */
  method Run(policy: Policy, sorted: seq<Process>) returns (gantt: seq<Slice>, results: seq<Result>, ghost done: seq<Dispatch>)
    requires SortedByArrival(sorted) && WellFormed(sorted)
    ensures gantt == Gantt(done) && results == Report(done, policy == LowestPriority)
    ensures Schedules(policy, sorted, done)
    ensures Reported(gantt, results)
  {
    var withPriority := policy == LowestPriority;
    var clock := 0;
    gantt, results := [], [];
    done := [];
    var remaining := sorted;
    ProgressStart(policy, sorted);
    while remaining != []
      invariant Progress(policy, sorted, done, remaining, clock)
      invariant gantt == Gantt(done) && results == Report(done, withPriority)
      decreases |remaining|, if HasArrived(remaining, clock) then 0 else 1
    {
      if !HasArrived(remaining, clock) {
        ProgressJump(policy, sorted, done, remaining, clock);
        clock := remaining[0].arrival;
      } else {
        gantt, results, done, remaining, clock := RunNext(policy, sorted, done, remaining, clock, gantt, results);
      }
    }
    ProgressEnd(policy, sorted, done, clock);
    RunReported(done, 0, withPriority);
  }

  /** `sjf`: the arrival-sorted input run shortest burst first. */
  method Sjf(processes: seq<Process>) returns (gantt: seq<Slice>, results: seq<Result>, ghost done: seq<Dispatch>)
    requires WellFormed(processes)
    ensures gantt == Gantt(done) && results == Report(done, false)
    ensures Schedules(ShortestJob, SortByArrival(processes), done)
    ensures Reported(gantt, results)
  {
    SortKeepsWellFormed(processes);
    gantt, results, done := Run(ShortestJob, SortByArrival(processes));
  }

  /** `priority_scheduling`: the arrival-sorted input run lowest priority
      number first, earlier arrival first among equal priorities. */
  method PriorityScheduling(processes: seq<Process>) returns (gantt: seq<Slice>, results: seq<Result>, ghost done: seq<Dispatch>)
    requires WellFormed(processes)
    ensures gantt == Gantt(done) && results == Report(done, true)
    ensures Schedules(LowestPriority, SortByArrival(processes), done)
    ensures Reported(gantt, results)
  {
    SortKeepsWellFormed(processes);
    gantt, results, done := Run(LowestPriority, SortByArrival(processes));
  }
}
