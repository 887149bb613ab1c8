/** Non-preemptive runs: a run is the sequence of dispatch decisions, each
    process running to completion from its start; the Gantt chart and the
    result list are read off it. */
module Timeline {
  import opened Processes

  /** `process` is given the CPU at `start` and keeps it for its whole burst. */
  datatype Dispatch = Dispatch(process: Process, start: int)

  function Finish(d: Dispatch): int {
    d.start + d.process.burst
  }

  /** When the CPU became free before the `i`-th dispatch. */
  function FreeAt(ds: seq<Dispatch>, clock: int, i: nat): int
    requires i <= |ds|
  {
    if i == 0 then clock else Finish(ds[i - 1])
  }

  function Order(ds: seq<Dispatch>): seq<Process> {
    seq(|ds|, i requires 0 <= i < |ds| => ds[i].process)
  }

  ghost predicate WellFormedRun(ds: seq<Dispatch>) {
    WellFormed(Order(ds))
  }

  /** No dispatch starts before the CPU is free. */
  ghost predicate Serial(ds: seq<Dispatch>, clock: int) {
    forall i :: 0 <= i < |ds| ==> ds[i].start >= FreeAt(ds, clock, i)
  }

  /** No process starts before it has arrived. */
  ghost predicate AfterArrival(ds: seq<Dispatch>) {
    forall i :: 0 <= i < |ds| ==> ds[i].start >= ds[i].process.arrival
  }

  /** The CPU idles only while nothing pending has arrived: every dispatch
      starts when the CPU is free, or else no process still to run arrives
      before it. With `Serial` and `AfterArrival` this says that each start is
      the later of the free time and the earliest pending arrival. */
  ghost predicate WorkConserving(ds: seq<Dispatch>, clock: int) {
    forall i :: 0 <= i < |ds| ==>
      ds[i].start == FreeAt(ds, clock, i) ||
      forall j :: i <= j < |ds| ==> ds[j].process.arrival >= ds[i].start
  }

  /** The Gantt chart: one entry per dispatch, covering its whole burst. */
  function Gantt(ds: seq<Dispatch>): (g: seq<Slice>)
    ensures |g| == |ds|
  {
    seq(|ds|, i requires 0 <= i < |ds| => Slice(ds[i].process.id, ds[i].start, Finish(ds[i])))
  }

  /** The result list: one record per dispatch, in dispatch order. */
  function Report(ds: seq<Dispatch>, withPriority: bool): (rs: seq<Result>)
    ensures |rs| == |ds|
  {
    seq(|ds|, i requires 0 <= i < |ds| => Completed(ds[i].process, ds[i].start, Finish(ds[i]), withPriority))
  }

  /** A serial run of well-formed processes gives a chronological chart that
      starts no earlier than `clock`. */
  lemma GanttChronological(ds: seq<Dispatch>, clock: int)
    requires WellFormedRun(ds) && Serial(ds, clock)
    ensures Chronological(Gantt(ds))
    ensures forall i :: 0 <= i < |ds| ==> Gantt(ds)[i].start >= clock
  {
    var g := Gantt(ds);
    forall i | 0 <= i < |ds| ensures g[i].start < g[i].finish {
      assert Order(ds)[i] == ds[i].process;
    }
    forall i | 0 < i < |ds| ensures g[i - 1].finish <= g[i].start {
      assert ds[i].start >= FreeAt(ds, clock, i);
    }
    StartsAfterClock(ds, clock);
  }

  lemma {:induction false} StartsAfterClock(ds: seq<Dispatch>, clock: int)
    requires WellFormedRun(ds) && Serial(ds, clock)
    ensures forall i :: 0 <= i < |ds| ==> ds[i].start >= clock
  {
    if ds != [] {
      var init := ds[..|ds| - 1];
      assert Order(init) == Order(ds)[..|ds| - 1];
      assert forall i :: 0 <= i < |init| ==> FreeAt(init, clock, i) == FreeAt(ds, clock, i);
      StartsAfterClock(init, clock);
      if |ds| > 1 {
        assert Order(ds)[|ds| - 2] == ds[|ds| - 2].process;
      }
    }
  }

  /** The records a run reports carry the turnaround and waiting times the
      scheduler promises, and neither is negative when no process starts
      before it arrives. */
  lemma ReportTimes(ds: seq<Dispatch>, withPriority: bool)
    requires AfterArrival(ds)
    ensures |Report(ds, withPriority)| == |ds|
    ensures forall i :: 0 <= i < |ds| ==>
      var r := Report(ds, withPriority)[i];
      && r.id == ds[i].process.id && r.arrival == ds[i].process.arrival && r.burst == ds[i].process.burst
      && r.start == ds[i].start && r.finish == r.start + r.burst
      && r.turnaround == r.finish - r.arrival && r.waiting == r.turnaround - r.burst
      && r.waiting >= 0 && r.turnaround >= r.burst
  {
  }

  /** The chart and the result list agree entry by entry, each process runs
      for its burst, turnaround and waiting follow from start and finish,
      nobody waits a negative time, and the chart is chronological. */
  ghost predicate Reported(gantt: seq<Slice>, results: seq<Result>) {
    && |gantt| == |results|
    && (forall i :: 0 <= i < |results| ==>
         && gantt[i] == Slice(results[i].id, results[i].start, results[i].finish)
         && results[i].finish == results[i].start + results[i].burst
         && results[i].turnaround == results[i].finish - results[i].arrival
         && results[i].waiting == results[i].turnaround - results[i].burst
         && results[i].waiting >= 0)
    && Chronological(gantt)
  }

  /** A serial run of well-formed processes that starts nobody before arrival
      is reported consistently. */
  lemma RunReported(ds: seq<Dispatch>, clock: int, withPriority: bool)
    requires WellFormedRun(ds) && Serial(ds, clock) && AfterArrival(ds)
    ensures Reported(Gantt(ds), Report(ds, withPriority))
  {
    ReportTimes(ds, withPriority);
    GanttChronological(ds, clock);
  }

  /** Recording one more dispatch appends one entry to the chart and one
      record to the result list. */
  lemma RecordDispatch(ds: seq<Dispatch>, d: Dispatch, withPriority: bool)
    ensures Gantt(ds + [d]) == Gantt(ds) + [Slice(d.process.id, d.start, Finish(d))]
    ensures Report(ds + [d], withPriority)
         == Report(ds, withPriority) + [Completed(d.process, d.start, Finish(d), withPriority)]
    ensures Order(ds + [d]) == Order(ds) + [d.process]
  {
    assert forall i :: 0 <= i < |ds| ==> (ds + [d])[i] == ds[i];
  }
}
