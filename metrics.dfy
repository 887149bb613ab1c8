/** `calculate_metrics`: the average waiting and turnaround times over a
    result list, and its length. Averages are exact quotients; the rounding
    to two decimals is not modelled. */
module Metrics {
  import opened Processes
  import opened Timeline
  import opened Fcfs
  import opened RoundRobin

  /** The three figures `calculate_metrics` reports. */
  datatype Summary = Summary(avgWaiting: real, avgTurnaround: real, totalProcesses: nat)

  /** The waiting times of the records added up; not negative when none of
      them is. */
  function TotalWaiting(rs: seq<Result>): (total: int)
    ensures (forall i :: 0 <= i < |rs| ==> rs[i].waiting >= 0) ==> total >= 0
  {
    if rs == [] then 0 else TotalWaiting(rs[..|rs| - 1]) + rs[|rs| - 1].waiting
  }

  /** The turnaround times of the records added up; not negative when none
      of them is. */
  function TotalTurnaround(rs: seq<Result>): (total: int)
    ensures (forall i :: 0 <= i < |rs| ==> rs[i].turnaround >= 0) ==> total >= 0
  {
    if rs == [] then 0 else TotalTurnaround(rs[..|rs| - 1]) + rs[|rs| - 1].turnaround
  }

  function TotalBurst(rs: seq<Result>): int {
    if rs == [] then 0 else TotalBurst(rs[..|rs| - 1]) + rs[|rs| - 1].burst
  }

  /** No metrics for an empty list; otherwise the count of records and the
      two averages, each of which times the count gives back its total. */
  function CalculateMetrics(results: seq<Result>): (m: Option<Summary>)
    ensures m.None? <==> results == []
    ensures m.Some? ==>
      && m.value.totalProcesses == |results|
      && m.value.avgWaiting * (|results| as real) == TotalWaiting(results) as real
      && m.value.avgTurnaround * (|results| as real) == TotalTurnaround(results) as real
  {
    if results == [] then None
    else
      var n := |results| as real;
      Some(Summary(TotalWaiting(results) as real / n, TotalTurnaround(results) as real / n, |results|))
  }

  /** Records whose times are related as every scheduler reports them:
      turnaround is waiting plus burst, and nobody waits a negative time. */
  ghost predicate Consistent(rs: seq<Result>) {
    forall i :: 0 <= i < |rs| ==> rs[i].turnaround == rs[i].waiting + rs[i].burst && rs[i].waiting >= 0
  }

  /** Over consistent records the total turnaround is the total waiting plus
      the total burst, and the total waiting is not negative. */
  lemma {:induction false} Totals(rs: seq<Result>)
    requires Consistent(rs)
    ensures TotalTurnaround(rs) == TotalWaiting(rs) + TotalBurst(rs)
    ensures TotalWaiting(rs) >= 0
  {
    if rs != [] {
      var init := rs[..|rs| - 1];
      assert Consistent(init) by {
        forall i | 0 <= i < |init| ensures init[i] == rs[i] {}
      }
      Totals(init);
    }
  }

  /** Over consistent records the average waiting time is not negative, and
      the average turnaround exceeds it by the average burst. */
  lemma AveragesOfConsistent(rs: seq<Result>)
    requires Consistent(rs) && rs != []
    ensures var m := CalculateMetrics(rs).value;
      && m.avgWaiting >= 0.0
      && m.avgTurnaround == m.avgWaiting + TotalBurst(rs) as real / (|rs| as real)
  {
    Totals(rs);
    var m := CalculateMetrics(rs).value;
    Averages(TotalWaiting(rs), TotalTurnaround(rs), TotalBurst(rs), |rs| as real, m.avgWaiting, m.avgTurnaround);
  }

  /** The arithmetic behind it: dividing totals related by addition. */
  lemma Averages(waiting: int, turnaround: int, burst: int, n: real, avgWaiting: real, avgTurnaround: real)
    requires n > 0.0 && waiting >= 0 && turnaround == waiting + burst
    requires avgWaiting == waiting as real / n && avgTurnaround == turnaround as real / n
    ensures avgWaiting >= 0.0 && avgTurnaround == avgWaiting + burst as real / n
  {
  }

  /** The metrics of every scheduler's output: waiting is on average not
      negative, and turnaround exceeds it on average by the average burst. */
  lemma FcfsMetrics(ps: seq<Process>, gantt: seq<Slice>, results: seq<Result>)
    requires FcfsOrder(ps, gantt, results) && results != []
    ensures var m := CalculateMetrics(results).value;
      && m.avgWaiting >= 0.0
      && m.avgTurnaround == m.avgWaiting + TotalBurst(results) as real / (|results| as real)
  {
    AveragesOfConsistent(results);
  }

  lemma NonPreemptiveMetrics(gantt: seq<Slice>, results: seq<Result>)
    requires Reported(gantt, results) && results != []
    ensures var m := CalculateMetrics(results).value;
      && m.avgWaiting >= 0.0
      && m.avgTurnaround == m.avgWaiting + TotalBurst(results) as real / (|results| as real)
  {
    AveragesOfConsistent(results);
  }

  lemma RoundRobinMetrics(ps: seq<Process>, quantum: int, gantt: seq<Slice>, results: seq<Result>)
    requires quantum >= 1 && RoundRobinOutcome(ps, quantum, gantt, results) && results != []
    ensures var m := CalculateMetrics(results).value;
      && m.avgWaiting >= 0.0
      && m.avgTurnaround == m.avgWaiting + TotalBurst(results) as real / (|results| as real)
  {
    assert Consistent(results) by {
      forall i | 0 <= i < |results| ensures results[i].turnaround == results[i].waiting + results[i].burst {
        assert Reports(ps[i], quantum, gantt, results[i]);
      }
    }
    AveragesOfConsistent(results);
  }
}
