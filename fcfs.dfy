/** First-Come-First-Served: processes run to completion in stable arrival order. */
module Fcfs {
  import opened Processes
  import opened Sorting
  import opened Timeline

  /** The run of `ps`, in the given order, on a CPU that is free from `clock`:
      each process waits for the CPU and for its own arrival. */
  function Plan(ps: seq<Process>, clock: int): (ds: seq<Dispatch>)
    ensures |ds| == |ps|
  {
    if ps == [] then []
    else
      var start := if clock < ps[0].arrival then ps[0].arrival else clock;
      [Dispatch(ps[0], start)] + Plan(ps[1..], start + ps[0].burst)
  }

  /** The run dispatches exactly the given processes, in the given order. */
  lemma {:induction false} PlanOrder(ps: seq<Process>, clock: int)
    ensures Order(Plan(ps, clock)) == ps
  {
    if ps != [] {
      var start := if clock < ps[0].arrival then ps[0].arrival else clock;
      var rest := Plan(ps[1..], start + ps[0].burst);
      PlanOrder(ps[1..], start + ps[0].burst);
      assert Plan(ps, clock) == [Dispatch(ps[0], start)] + rest;
      assert ps == [ps[0]] + Order(rest);
    }
  }

  function Max(a: int, b: int): int {
    if a < b then b else a
  }

  /** Each process starts at the later of its arrival and the previous finish. */
  lemma {:induction false} PlanStarts(ps: seq<Process>, clock: int)
    ensures var ds := Plan(ps, clock);
      forall i :: 0 <= i < |ds| ==> ds[i].start == Max(ps[i].arrival, FreeAt(ds, clock, i))
  {
    if ps != [] {
      var ds := Plan(ps, clock);
      var start := if clock < ps[0].arrival then ps[0].arrival else clock;
      var rest := Plan(ps[1..], start + ps[0].burst);
      assert ds == [Dispatch(ps[0], start)] + rest;
      PlanStarts(ps[1..], start + ps[0].burst);
      PlanOrder(ps, clock);
      assert Order(ds) == ps;
      forall i | 0 < i < |ds| ensures ds[i].start == Max(ps[i].arrival, FreeAt(ds, clock, i)) {
        assert ds[i] == rest[i - 1];
        assert ps[1..][i - 1] == ps[i];
        assert FreeAt(rest, start + ps[0].burst, i - 1) == FreeAt(ds, clock, i);
      }
    }
  }

  /** An FCFS run of arrival-sorted processes is serial, starts nobody before
      arrival and idles only while nothing pending has arrived. */
  lemma PlanIsWorkConserving(ps: seq<Process>, clock: int)
    requires SortedByArrival(ps)
    ensures var ds := Plan(ps, clock);
      Serial(ds, clock) && AfterArrival(ds) && WorkConserving(ds, clock)
  {
    var ds := Plan(ps, clock);
    PlanStarts(ps, clock);
    PlanOrder(ps, clock);
    assert forall i :: 0 <= i < |ds| ==> ds[i].process == Order(ds)[i] == ps[i];
    forall i | 0 <= i < |ds| && ds[i].start != FreeAt(ds, clock, i)
      ensures forall j :: i <= j < |ds| ==> ds[j].process.arrival >= ds[i].start
    {
      assert ds[i].start == ps[i].arrival;
    }
  }

  /** What `fcfs` promises about its output for the arrival-sorted list `ps`:
      one entry and one record per process, in that order; each process
      starts at the later of its arrival and the previous finish and runs for
      its whole burst; turnaround and waiting follow from start and finish,
      waiting is never negative, and the chart is chronological. */
  ghost predicate FcfsOrder(ps: seq<Process>, gantt: seq<Slice>, results: seq<Result>) {
    && |gantt| == |results| == |ps|
    && (forall i :: 0 <= i < |ps| ==>
         && gantt[i] == Slice(ps[i].id, results[i].start, results[i].finish)
         && results[i].id == ps[i].id && results[i].arrival == ps[i].arrival
         && results[i].burst == ps[i].burst && results[i].priority == None
         && results[i].start == Max(ps[i].arrival, if i == 0 then 0 else results[i - 1].finish)
         && results[i].finish == results[i].start + ps[i].burst
         && results[i].turnaround == results[i].finish - results[i].arrival
         && results[i].waiting == results[i].turnaround - results[i].burst
         && results[i].waiting >= 0)
    && Chronological(gantt)
  }

  /** The FCFS run of arrival-sorted, well-formed processes has that form. */
  lemma PlanReport(ps: seq<Process>)
    requires SortedByArrival(ps) && WellFormed(ps)
    ensures FcfsOrder(ps, Gantt(Plan(ps, 0)), Report(Plan(ps, 0), false))
  {
    var ds := Plan(ps, 0);
    var gantt, results := Gantt(ds), Report(ds, false);
    PlanStarts(ps, 0);
    PlanIsWorkConserving(ps, 0);
    PlanOrder(ps, 0);
    ReportTimes(ds, false);
    forall i | 0 <= i < |ps|
      ensures gantt[i] == Slice(ps[i].id, results[i].start, results[i].finish)
      ensures results[i].start == Max(ps[i].arrival, if i == 0 then 0 else results[i - 1].finish)
    {
      assert ds[i].process == Order(ds)[i] == ps[i];
      assert ds[i].start == Max(ps[i].arrival, FreeAt(ds, 0, i));
    }
    GanttChronological(ds, 0);
  }

  /** `fcfs`: the chart and the results of the FCFS run of the arrival-sorted
      input, which have the form `FcfsOrder` describes. */
  method Fcfs(processes: seq<Process>) returns (gantt: seq<Slice>, results: seq<Result>)
    requires WellFormed(processes)
    ensures var ds := Plan(SortByArrival(processes), 0);
      gantt == Gantt(ds) && results == Report(ds, false)
    ensures FcfsOrder(SortByArrival(processes), gantt, results)
  {
    var sorted := SortByArrival(processes);
    gantt, results := RunInOrder(sorted);
    SortKeepsWellFormed(processes);
    PlanReport(sorted);
  }

  /** The loop of `fcfs` over the sorted list: the clock waits for each
      arrival and then advances by the whole burst. */
  method RunInOrder(sorted: seq<Process>) returns (gantt: seq<Slice>, results: seq<Result>)
    ensures gantt == Gantt(Plan(sorted, 0)) && results == Report(Plan(sorted, 0), false)
  {
    ghost var plan := Plan(sorted, 0);
    var clock := 0;
    gantt, results := [], [];
    for i := 0 to |sorted|
      invariant clock == FreeAt(plan, 0, i)
      invariant gantt == Gantt(plan[..i]) && results == Report(plan[..i], false)
    {
      var p := sorted[i];
      PlanStep(sorted, i);
      if clock < p.arrival {
        clock := p.arrival;
      }
      var start, finish := clock, clock + p.burst;
      gantt := gantt + [Slice(p.id, start, finish)];
      var turnaround := finish - p.arrival;
      var waiting := turnaround - p.burst;
      results := results + [Result(p.id, p.arrival, p.burst, None, start, finish, waiting, turnaround)];
      assert Result(p.id, p.arrival, p.burst, None, start, finish, waiting, turnaround) == Completed(p, start, finish, false);
      RecordDispatch(plan[..i], plan[i], false);
      clock := finish;
    }
    assert plan[..|sorted|] == plan;
  }

  /** The `i`-th dispatch of the run from time 0: the `i`-th process, at the
      later of its arrival and the previous finish, after which the CPU is
      free once its burst is done. */
  lemma PlanStep(ps: seq<Process>, i: nat)
    requires i < |ps|
    ensures Plan(ps, 0)[i] == Dispatch(ps[i], Max(ps[i].arrival, FreeAt(Plan(ps, 0), 0, i)))
    ensures FreeAt(Plan(ps, 0), 0, i + 1) == Finish(Plan(ps, 0)[i])
    ensures Plan(ps, 0)[..i + 1] == Plan(ps, 0)[..i] + [Plan(ps, 0)[i]]
  {
    var plan := Plan(ps, 0);
    PlanStarts(ps, 0);
    PlanOrder(ps, 0);
    assert plan[i].process == Order(plan)[i] == ps[i];
    assert plan[i].start == Max(ps[i].arrival, FreeAt(plan, 0, i));
  }
}
