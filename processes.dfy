/** Process records, timeline entries and per-process results shared by all
    four schedulers. */
module Processes {

  datatype Option<T> = None | Some(value: T)

  /** A process descriptor: the input record of every scheduler. */
  datatype Process = Process(id: string, arrival: int, burst: int, priority: int)

  /** One contiguous execution span of the Gantt chart. */
  datatype Slice = Slice(process: string, start: int, finish: int)

  /** A per-process outcome; `priority` is present only in the output of
      priority scheduling. */
  datatype Result = Result(id: string, arrival: int, burst: int, priority: Option<int>,
                           start: int, finish: int, waiting: int, turnaround: int)

  /** What the input form guarantees: arrivals are non-negative, bursts positive. */
  ghost predicate WellFormed(ps: seq<Process>) {
    forall i :: 0 <= i < |ps| ==> ps[i].arrival >= 0 && ps[i].burst >= 1
  }

  ghost predicate UniqueIds(ps: seq<Process>) {
    forall i, j :: 0 <= i < j < |ps| ==> ps[i].id != ps[j].id
  }

  ghost predicate SortedByArrival(ps: seq<Process>) {
    forall i, j :: 0 <= i < j < |ps| ==> ps[i].arrival <= ps[j].arrival
  }

  /** The result record of a process that first ran at `start` and completed at
      `finish`: turnaround is finish minus arrival, waiting is turnaround minus burst. */
  function Completed(p: Process, start: int, finish: int, withPriority: bool): Result {
    var turnaround := finish - p.arrival;
    Result(p.id, p.arrival, p.burst, if withPriority then Some(p.priority) else None,
           start, finish, turnaround - p.burst, turnaround)
  }

  /** Entries are in time order and never overlap: each has positive length and
      starts no earlier than its predecessor finished. */
  ghost predicate Chronological(g: seq<Slice>) {
    && (forall i :: 0 <= i < |g| ==> g[i].start < g[i].finish)
    && (forall i :: 0 < i < |g| ==> g[i - 1].finish <= g[i].start)
  }

  /** Chronological order between neighbours extends to every pair of entries. */
  lemma {:induction false} ChronologicalPairwise(g: seq<Slice>)
    requires Chronological(g)
    ensures forall i, j :: 0 <= i < j < |g| ==> g[i].finish <= g[j].start
  {
    if |g| > 1 {
      var h := g[..|g| - 1];
      assert Chronological(h);
      ChronologicalPairwise(h);
      forall i | 0 <= i < |g| - 1 ensures g[i].finish <= g[|g| - 1].start {
        if i < |g| - 2 {
          assert h[i].finish <= h[|g| - 2].start;
        }
      }
    }
  }
}
