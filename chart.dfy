/** What a Gantt chart says about one process: how much CPU time it got, in
    how many slices, when it first ran and when its last slice ended. */
module Chart {
  import opened Processes

  function Duration(s: Slice): int {
    s.finish - s.start
  }

  /** The CPU time the chart gives to `id`. */
  function Work(g: seq<Slice>, id: string): int {
    if g == [] then 0
    else Work(g[..|g| - 1], id) + (if g[|g| - 1].process == id then Duration(g[|g| - 1]) else 0)
  }

  /** The number of slices `id` gets. */
  function Count(g: seq<Slice>, id: string): nat {
    if g == [] then 0
    else Count(g[..|g| - 1], id) + (if g[|g| - 1].process == id then 1 else 0)
  }

  /** The start of the first slice of `id`, if any. */
  function FirstStart(g: seq<Slice>, id: string): Option<int> {
    if g == [] then None
    else if FirstStart(g[..|g| - 1], id).Some? then FirstStart(g[..|g| - 1], id)
    else if g[|g| - 1].process == id then Some(g[|g| - 1].start)
    else None
  }

  /** The end of the last slice of `id`, or 0 when it has none. */
  function LastFinish(g: seq<Slice>, id: string): int {
    if g == [] then 0
    else if g[|g| - 1].process == id then g[|g| - 1].finish
    else LastFinish(g[..|g| - 1], id)
  }

  /** Every slice of `id` is exactly `quantum` long. */
  ghost predicate AllFull(g: seq<Slice>, id: string, quantum: int) {
    g == [] || (AllFull(g[..|g| - 1], id, quantum) && (g[|g| - 1].process == id ==> Duration(g[|g| - 1]) == quantum))
  }

  /** Every slice of `id` except its last is exactly `quantum` long. */
  ghost predicate FullButLast(g: seq<Slice>, id: string, quantum: int) {
    g == [] || if g[|g| - 1].process == id then AllFull(g[..|g| - 1], id, quantum) else FullButLast(g[..|g| - 1], id, quantum)
  }

  /** Appending a slice changes the figures of its own process only. */
  lemma Append(g: seq<Slice>, s: Slice, id: string)
    ensures Work(g + [s], id) == Work(g, id) + (if s.process == id then Duration(s) else 0)
    ensures Count(g + [s], id) == Count(g, id) + (if s.process == id then 1 else 0)
    ensures FirstStart(g + [s], id)
         == if FirstStart(g, id).Some? then FirstStart(g, id) else if s.process == id then Some(s.start) else None
    ensures LastFinish(g + [s], id) == if s.process == id then s.finish else LastFinish(g, id)
  {
    assert (g + [s])[..|g|] == g;
  }

  /** A process without slices got no CPU time and never started. */
  lemma {:induction false} NoSlices(g: seq<Slice>, id: string)
    requires Count(g, id) == 0
    ensures Work(g, id) == 0 && FirstStart(g, id) == None
  {
    if g != [] {
      NoSlices(g[..|g| - 1], id);
    }
  }

  /** A process with slices has started. */
  lemma {:induction false} SomeSlices(g: seq<Slice>, id: string)
    requires Count(g, id) > 0
    ensures FirstStart(g, id).Some?
  {
    if g != [] && Count(g[..|g| - 1], id) > 0 {
      SomeSlices(g[..|g| - 1], id);
    }
  }

  lemma {:induction false} LastFinishBound(g: seq<Slice>, id: string)
    requires Chronological(g) && g != [] && Count(g, id) > 0
    ensures LastFinish(g, id) <= g[|g| - 1].finish
  {
    var init := g[..|g| - 1];
    if g[|g| - 1].process != id {
      assert Chronological(init);
      LastFinishBound(init, id);
      assert init[|init| - 1] == g[|g| - 2];
    }
  }

  /** In a chronological chart a process gets at most the time between its
      first start and its last finish. */
  lemma {:induction false} WorkSpan(g: seq<Slice>, id: string)
    requires Chronological(g) && Count(g, id) > 0
    ensures FirstStart(g, id).Some?
    ensures Work(g, id) <= LastFinish(g, id) - FirstStart(g, id).value
  {
    SomeSlices(g, id);
    var init, s := g[..|g| - 1], g[|g| - 1];
    assert Chronological(init);
    if s.process != id {
      WorkSpan(init, id);
    } else if Count(init, id) == 0 {
      NoSlices(init, id);
    } else {
      WorkSpan(init, id);
      SomeSlices(init, id);
      LastFinishBound(init, id);
      assert init[|init| - 1] == g[|g| - 2];
    }
  }

  /** Appending a slice of `id` keeps all its slices full when it is full
      itself, and leaves all but the new last one full when they all were. */
  lemma AppendFull(g: seq<Slice>, s: Slice, id: string, quantum: int)
    ensures AllFull(g + [s], id, quantum) == (AllFull(g, id, quantum) && (s.process == id ==> Duration(s) == quantum))
    ensures FullButLast(g + [s], id, quantum) == if s.process == id then AllFull(g, id, quantum) else FullButLast(g, id, quantum)
  {
    assert (g + [s])[..|g|] == g;
  }

  /** Under `AllFull`, every slice of `id` is a full quantum. */
  lemma {:induction false} AllFullSlices(g: seq<Slice>, id: string, quantum: int)
    requires AllFull(g, id, quantum)
    ensures forall s :: 0 <= s < |g| && g[s].process == id ==> Duration(g[s]) == quantum
  {
    if g != [] {
      var init := g[..|g| - 1];
      AllFullSlices(init, id, quantum);
      assert forall s :: 0 <= s < |init| ==> g[s] == init[s];
    }
  }

  /** Under `FullButLast`, a slice of `id` that `id` gets again later is a
      full quantum. */
  lemma {:induction false} FullButLastSlices(g: seq<Slice>, id: string, quantum: int)
    requires FullButLast(g, id, quantum)
    ensures forall s, t :: 0 <= s < t < |g| && g[s].process == id && g[t].process == id ==> Duration(g[s]) == quantum
  {
    if g != [] {
      var init := g[..|g| - 1];
      if g[|g| - 1].process == id {
        AllFullSlices(init, id, quantum);
      } else {
        FullButLastSlices(init, id, quantum);
      }
      assert forall s :: 0 <= s < |init| ==> g[s] == init[s];
    }
  }
}
