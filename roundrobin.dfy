/** Round-robin scheduling: arrived processes wait in a FIFO queue, each
    dispatch runs the head of the queue for at most one quantum, and a
    process that still has work goes to the back of the queue after the
    processes that arrived during its slice. */
module RoundRobin {
  import opened Processes
  import opened Sorting
  import opened Chart

  /** The per-process record of the `results` table: remaining work, the time
      of the first dispatch (none before it) and the completion time (0
      until completion). */
  datatype Entry = Entry(arrival: int, burst: int, remaining: int, start: Option<int>, finish: int)

  function Ids(ps: seq<Process>): set<string> {
    set i | 0 <= i < |ps| :: ps[i].id
  }

  /** The ids of `ps`, in order. */
  function IdsOf(ps: seq<Process>): (r: seq<string>)
    ensures |r| == |ps| && forall i :: 0 <= i < |ps| ==> r[i] == ps[i].id
  {
    seq(|ps|, i requires 0 <= i < |ps| => ps[i].id)
  }

  lemma IdsOfExtend(ps: seq<Process>, lo: nat, hi: nat)
    requires lo <= hi < |ps|
    ensures IdsOf(ps[lo..hi + 1]) == IdsOf(ps[lo..hi]) + [ps[hi].id]
  {
    assert ps[lo..hi + 1] == ps[lo..hi] + [ps[hi]];
  }

  lemma IdsOfCons(ps: seq<Process>, lo: nat, hi: nat)
    requires lo < hi <= |ps|
    ensures IdsOf(ps[lo..hi]) == [ps[lo].id] + IdsOf(ps[lo + 1..hi])
  {
    assert ps[lo..hi] == [ps[lo]] + ps[lo + 1..hi];
  }

  function Min(a: int, b: int): (m: int)
    ensures m <= a && m <= b && (m == a || m == b)
  {
    if a < b then a else b
  }

  /** The number of slices of at most `quantum` needed for `burst`. */
  function CeilDiv(burst: int, quantum: int): int
    requires quantum >= 1
  {
    (burst + quantum - 1) / quantum
  }

  /** Below one quantum there is no whole multiple of it above zero. */
  lemma MultipleBelow(quantum: int, x: int)
    requires quantum >= 1 && quantum * x < quantum
    ensures x < 1
  {
  }

  /** `c` slices of at most `quantum` each, all but the last full, cover
      exactly `burst`: then `c` is `burst / quantum` rounded up. */
  lemma CeilDivOfBounds(burst: int, quantum: int, c: int)
    requires quantum >= 1 && quantum * (c - 1) < burst <= quantum * c
    ensures c == CeilDiv(burst, quantum)
  {
    var n := burst + quantum - 1;
    var d, m := n / quantum, n % quantum;
    assert n == quantum * d + m && 0 <= m < quantum;
    assert quantum * (c - d) == quantum * c - quantum * d;
    MultipleBelow(quantum, c - d);
    MultipleBelow(quantum, d - c);
  }

  /** The table as first built: one entry per input process, keyed by id. */
  function InitialTable(ps: seq<Process>): (table: map<string, Entry>)
    requires UniqueIds(ps)
    ensures table.Keys == Ids(ps)
    ensures forall j :: 0 <= j < |ps| ==> table[ps[j].id] == Entry(ps[j].arrival, ps[j].burst, ps[j].burst, None, 0)
  {
    map i | 0 <= i < |ps| :: ps[i].id := Entry(ps[i].arrival, ps[i].burst, ps[i].burst, None, 0)
  }

  /** The entry after one more slice, of `min(quantum, remaining)`, starting
      at `clock`: the start is set on the first slice only, the remaining work
      never drops below zero, and when work is left the slice was a full
      quantum. */
  function Served(e: Entry, clock: int, quantum: int): (r: Entry)
    ensures r.arrival == e.arrival && r.burst == e.burst && r.finish == e.finish
    ensures r.start == if e.start.Some? then e.start else Some(clock)
    ensures r.remaining >= 0 && (quantum >= 0 && e.remaining >= 0 ==> r.remaining <= e.remaining)
    ensures quantum >= 1 && e.remaining > 0 ==> r.remaining < e.remaining
    ensures r.remaining > 0 ==> r.remaining == e.remaining - quantum
  {
    e.(start := if e.start.None? then Some(clock) else e.start,
       remaining := e.remaining - Min(quantum, e.remaining))
  }

  lemma AdmittedCons(ps: seq<Process>, queue: seq<string>, lo: nat, hi: nat, q: seq<string>)
    requires lo < hi <= |ps| && q == queue + [ps[lo].id] + IdsOf(ps[lo + 1..hi])
    ensures q == queue + IdsOf(ps[lo..hi])
  {
    IdsOfCons(ps, lo, hi);
  }

  // The main loop of `round_robin` as a state machine over the values its
  // variables hold at the top of each turn.

  datatype State = State(table: map<string, Entry>, gantt: seq<Slice>, queue: seq<string>, index: nat, clock: int)

  /** The admission loop: every process under the cursor that has arrived by
      `clock` joins the back of the queue, in order, up to the first that has
      not arrived; the result is the new queue and cursor. */
  function Admitted(ps: seq<Process>, clock: int, queue: seq<string>, index: nat): (r: (seq<string>, nat))
    requires index <= |ps|
    ensures index <= r.1 <= |ps| && r.0 == queue + IdsOf(ps[index..r.1])
    ensures forall j :: index <= j < r.1 ==> ps[j].arrival <= clock
    ensures r.1 == |ps| || ps[r.1].arrival > clock
    decreases |ps| - index
  {
    if index < |ps| && ps[index].arrival <= clock then
      var r := Admitted(ps, clock, queue + [ps[index].id], index + 1);
      AdmittedCons(ps, queue, index, r.1, r.0);
      r
    else
      assert ps[index..index] == [];
      (queue, index)
  }

  /** One dispatch from `s`: the head of the queue runs for
      `min(quantum, remaining)` and is charged for it, the processes that
      arrived meanwhile are admitted, and then the head goes to the back of
      the queue if it has work left, or else completes at the end of its
      slice. */
  function Dispatched(ps: seq<Process>, quantum: int, s: State): State
    requires s.queue != [] && s.queue[0] in s.table && s.index <= |ps|
  {
    var id := s.queue[0];
    var e := Served(s.table[id], s.clock, quantum);
    var clock := s.clock + Min(quantum, s.table[id].remaining);
    var gantt := s.gantt + [Slice(id, s.clock, clock)];
    var a := Admitted(ps, clock, s.queue[1..], s.index);
    if e.remaining > 0 then State(s.table[id := e], gantt, a.0 + [id], a.1, clock)
    else State(s.table[id := e.(finish := clock)], gantt, a.0, a.1, clock)
  }

  /** `Dispatched` in terms of the table, chart and clock after the slice
      and the queue and cursor after the admission that follows it. */
  lemma DispatchedAfter(ps: seq<Process>, quantum: int, s: State, table: map<string, Entry>, gantt: seq<Slice>,
                        clock: int, a: (seq<string>, nat))
    requires s.queue != [] && s.queue[0] in s.table && s.index <= |ps|
    requires clock == s.clock + Min(quantum, s.table[s.queue[0]].remaining)
    requires table == s.table[s.queue[0] := Served(s.table[s.queue[0]], s.clock, quantum)]
    requires gantt == s.gantt + [Slice(s.queue[0], s.clock, clock)]
    requires a == Admitted(ps, clock, s.queue[1..], s.index)
    ensures Dispatched(ps, quantum, s)
         == if table[s.queue[0]].remaining > 0 then State(table, gantt, a.0 + [s.queue[0]], a.1, clock)
            else State(table[s.queue[0] := table[s.queue[0]].(finish := clock)], gantt, a.0, a.1, clock)
  {
  }

  /** A dispatch from `s`: the head of the queue gets one slice of
      `min(quantum, remaining)` from the current clock and is charged for it;
      its start is set if this was its first slice and kept otherwise; the
      processes that arrived by the end of the slice join the queue, in
      order, ahead of the head, which goes to the back when it has work left
      and otherwise completes at the end of the slice. */
  lemma DispatchedSpec(ps: seq<Process>, quantum: int, s: State)
    requires s.queue != [] && s.queue[0] in s.table && s.index <= |ps|
    ensures var r := Dispatched(ps, quantum, s); var id := s.queue[0]; var e := s.table[id];
      && r.clock - s.clock == Min(quantum, e.remaining)
      && r.gantt == s.gantt + [Slice(id, s.clock, r.clock)]
      && r.table.Keys == s.table.Keys
      && (forall other :: other in s.table && other != id ==> r.table[other] == s.table[other])
      && r.table[id].remaining == e.remaining - (r.clock - s.clock)
      && r.table[id].start == (if e.start.Some? then e.start else Some(s.clock))
      && r.table[id].finish == (if r.table[id].remaining > 0 then e.finish else r.clock)
      && s.index <= r.index <= |ps|
      && (forall j :: s.index <= j < r.index ==> ps[j].arrival <= r.clock)
      && (r.index == |ps| || ps[r.index].arrival > r.clock)
      && r.queue == s.queue[1..] + IdsOf(ps[s.index..r.index]) + (if r.table[id].remaining > 0 then [id] else [])
  {
  }

  /** One turn of the main loop, from `s` to `s'`: admission, and then, with
      the queue empty, the clock jumps to the next arrival, and otherwise the
      head of the queue is dispatched. */
  ghost predicate Turn(ps: seq<Process>, quantum: int, s: State, s': State) {
    && s.index <= |ps|
    && var a := Admitted(ps, s.clock, s.queue, s.index);
       if a.0 == [] then a.1 < |ps| && s' == State(s.table, s.gantt, [], a.1, ps[a.1].arrival)
       else a.0[0] in s.table && s' == Dispatched(ps, quantum, State(s.table, s.gantt, a.0, a.1, s.clock))
  }

  /** The loop leaves from `s`: after admission nothing is queued and every
      process has been admitted. */
  ghost predicate Exits(ps: seq<Process>, s: State) {
    s.index <= |ps| && Admitted(ps, s.clock, s.queue, s.index) == ([], |ps|)
  }

  /** The `i`-th turn of `trace` leads to its next state. */
  ghost predicate Linked(ps: seq<Process>, quantum: int, trace: seq<State>, i: int)
    requires 0 <= i < |trace| - 1
  {
    Turn(ps, quantum, trace[i], trace[i + 1])
  }

  ghost predicate Chain(ps: seq<Process>, quantum: int, trace: seq<State>) {
    forall i {:trigger Linked(ps, quantum, trace, i)} :: 0 <= i < |trace| - 1 ==> Linked(ps, quantum, trace, i)
  }

  /** At the top of a turn every input process has an entry with no
      negative work left, and every admitted process with work left is
      waiting in the queue. */
  ghost predicate Ready(ps: seq<Process>, s: State) {
    && s.index <= |ps|
    && (forall j :: 0 <= j < |ps| ==> ps[j].id in s.table && s.table[ps[j].id].remaining >= 0)
    && (forall j :: 0 <= j < s.index && s.table[ps[j].id].remaining > 0 ==> ps[j].id in s.queue)
  }

  ghost predicate ReadyAt(ps: seq<Process>, trace: seq<State>, i: int)
    requires 0 <= i < |trace|
  {
    Ready(ps, trace[i])
  }

  /** `trace` is the run of the main loop over `ps`: it starts from the
      initial table with the clock at 0, takes one turn at a time, is ready
      at every turn, and ends where the loop leaves. */
  ghost predicate Runs(ps: seq<Process>, quantum: int, trace: seq<State>) {
    && UniqueIds(ps) && |trace| >= 1
    && trace[0] == State(InitialTable(ps), [], [], 0, 0)
    && Chain(ps, quantum, trace)
    && (forall i {:trigger ReadyAt(ps, trace, i)} :: 0 <= i < |trace| ==> ReadyAt(ps, trace, i))
    && Exits(ps, trace[|trace| - 1])
  }

  lemma TurnJump(ps: seq<Process>, quantum: int, s: State, a: (seq<string>, nat))
    requires s.index <= |ps| && a == Admitted(ps, s.clock, s.queue, s.index) && a.0 == [] && a.1 < |ps|
    ensures Turn(ps, quantum, s, State(s.table, s.gantt, [], a.1, ps[a.1].arrival))
  {
  }

  lemma TurnDispatch(ps: seq<Process>, quantum: int, s: State, a: (seq<string>, nat), s': State)
    requires s.index <= |ps| && a == Admitted(ps, s.clock, s.queue, s.index) && a.0 != [] && a.0[0] in s.table
    requires s' == Dispatched(ps, quantum, State(s.table, s.gantt, a.0, a.1, s.clock))
    ensures Turn(ps, quantum, s, s')
  {
  }

  /** `trace` is a run of the main loop over `ps` from its initial state up
      to, so far, `s`. */
  ghost predicate TraceTo(ps: seq<Process>, quantum: int, trace: seq<State>, s: State) {
    && UniqueIds(ps) && |trace| >= 1
    && trace[0] == State(InitialTable(ps), [], [], 0, 0)
    && Chain(ps, quantum, trace)
    && (forall i {:trigger ReadyAt(ps, trace, i)} :: 0 <= i < |trace| ==> ReadyAt(ps, trace, i))
    && trace[|trace| - 1] == s
  }

  /** The last state of `trace` holds `table` and `gantt`. */
  ghost predicate Ends(trace: seq<State>, table: map<string, Entry>, gantt: seq<Slice>) {
    trace != [] && trace[|trace| - 1].table == table && trace[|trace| - 1].gantt == gantt
  }

  lemma ChainExtend(ps: seq<Process>, quantum: int, trace: seq<State>, s': State)
    requires trace != [] && Chain(ps, quantum, trace) && Turn(ps, quantum, trace[|trace| - 1], s')
    ensures Chain(ps, quantum, trace + [s'])
  {
    var trace' := trace + [s'];
    forall i | 0 <= i < |trace'| - 1 ensures Linked(ps, quantum, trace', i) {
      if i < |trace| - 1 {
        assert trace'[i] == trace[i] && trace'[i + 1] == trace[i + 1];
        assert Linked(ps, quantum, trace, i);
      } else {
        assert trace'[i] == trace[|trace| - 1] && trace'[i + 1] == s';
      }
    }
  }

  lemma ReadyExtend(ps: seq<Process>, trace: seq<State>, s': State)
    requires forall i {:trigger ReadyAt(ps, trace, i)} :: 0 <= i < |trace| ==> ReadyAt(ps, trace, i)
    requires Ready(ps, s')
    ensures forall i {:trigger ReadyAt(ps, trace + [s'], i)} :: 0 <= i < |trace| + 1 ==> ReadyAt(ps, trace + [s'], i)
  {
    var trace' := trace + [s'];
    forall i | 0 <= i < |trace'| ensures ReadyAt(ps, trace', i) {
      if i < |trace| {
        assert ReadyAt(ps, trace, i) && trace'[i] == trace[i];
      }
    }
  }

  lemma TraceExtend(ps: seq<Process>, quantum: int, trace: seq<State>, s: State, s': State)
    requires TraceTo(ps, quantum, trace, s) && Turn(ps, quantum, s, s') && Ready(ps, s')
    ensures TraceTo(ps, quantum, trace + [s'], s')
  {
    ChainExtend(ps, quantum, trace, s');
    ReadyExtend(ps, trace, s');
    assert (trace + [s'])[0] == trace[0];
  }

  /** The processor idles only when no process that has arrived has work
      left: a turn of the run that charts no slice leaves every process that
      arrived before the clock it jumps to already finished. */
  lemma NoIdleWithWork(ps: seq<Process>, quantum: int, trace: seq<State>, i: nat)
    requires SortedByArrival(ps) && Runs(ps, quantum, trace) && i < |trace| - 1
    requires |trace[i + 1].gantt| == |trace[i].gantt|
    ensures forall j :: 0 <= j < |ps| && ps[j].arrival < trace[i + 1].clock ==>
              ps[j].id in trace[i].table && trace[i].table[ps[j].id].remaining == 0
  {
    assert Linked(ps, quantum, trace, i) && ReadyAt(ps, trace, i);
    var s := trace[i];
    var a := Admitted(ps, s.clock, s.queue, s.index);
    if a.0 != [] {
      assert false;
    }
    assert a.1 == s.index && s.queue == [];
    forall j | 0 <= j < |ps| && ps[j].arrival < trace[i + 1].clock
      ensures ps[j].id in s.table && s.table[ps[j].id].remaining == 0
    {
      assert j < a.1;
    }
  }

  /** A turn has one outcome, and none once the loop leaves. */
  lemma TurnDeterministic(ps: seq<Process>, quantum: int, s: State, s1: State, s2: State)
    requires Turn(ps, quantum, s, s1) && Turn(ps, quantum, s, s2)
    ensures s1 == s2
  {
  }

  /** Only the last state of a run is one the loop leaves from. */
  lemma ExitsOnlyAtEnd(ps: seq<Process>, quantum: int, trace: seq<State>, k: nat)
    requires Runs(ps, quantum, trace) && k < |trace| - 1
    ensures !Exits(ps, trace[k])
  {
    assert Linked(ps, quantum, trace, k);
  }

  lemma {:induction false} RunsAgree(ps: seq<Process>, quantum: int, t1: seq<State>, t2: seq<State>, k: nat)
    requires Chain(ps, quantum, t1) && Chain(ps, quantum, t2) && k < |t1| && k < |t2| && t1[0] == t2[0]
    ensures t1[k] == t2[k]
  {
    if k > 0 {
      RunsAgree(ps, quantum, t1, t2, k - 1);
      assert Linked(ps, quantum, t1, k - 1) && Linked(ps, quantum, t2, k - 1);
      TurnDeterministic(ps, quantum, t1[k - 1], t1[k], t2[k]);
    }
  }

  /** The run of the main loop over `ps` is determined by `ps` and the
      quantum: two runs are the same sequence of states. */
  lemma RunsUnique(ps: seq<Process>, quantum: int, t1: seq<State>, t2: seq<State>)
    requires Runs(ps, quantum, t1) && Runs(ps, quantum, t2)
    ensures t1 == t2
  {
    if |t1| < |t2| {
      RunsAgree(ps, quantum, t1, t2, |t1| - 1);
      ExitsOnlyAtEnd(ps, quantum, t2, |t1| - 1);
      assert false;
    } else if |t2| < |t1| {
      RunsAgree(ps, quantum, t1, t2, |t2| - 1);
      ExitsOnlyAtEnd(ps, quantum, t1, |t2| - 1);
      assert false;
    }
    forall k | 0 <= k < |t1| ensures t1[k] == t2[k] {
      RunsAgree(ps, quantum, t1, t2, k);
    }
  }

  /** The record the final loop builds from the entry of `id`. */
  function Record(id: string, e: Entry): Result
    requires e.start.Some?
  {
    var turnaround := e.finish - e.arrival;
    Result(id, e.arrival, e.burst, None, e.start.value, e.finish, turnaround - e.burst, turnaround)
  }

  // The loop invariant, in parts. `g` is the chart so far, `queue` the ready
  // queue, `slots` the positions in `ps` of the queued processes, `index`
  // the admission cursor, and `running` the position of the process whose
  // slice has just been charted but which is not yet back in the queue.

  /** The entry of process `p` agrees with the chart: its remaining work is
      its burst less the CPU time charted for it so far, its start is its
      first slice's, all its slices but perhaps the last are full quanta, and
      once complete its finish is the end of its last slice. */
  ghost predicate EntryOk(p: Process, quantum: int, e: Entry, g: seq<Slice>, admitted: bool, inFlight: bool) {
    && e.arrival == p.arrival && e.burst == p.burst
    && 0 <= e.remaining <= e.burst
    && Work(g, p.id) == e.burst - e.remaining
    && e.start == FirstStart(g, p.id)
    && (e.start.Some? ==> e.start.value >= p.arrival)
    && (e.remaining > 0 ==> Work(g, p.id) == quantum * Count(g, p.id))
    && (e.remaining == 0 ==> quantum * (Count(g, p.id) - 1) < e.burst <= quantum * Count(g, p.id))
    && (e.remaining > 0 ==> AllFull(g, p.id, quantum))
    && (e.remaining == 0 ==> FullButLast(g, p.id, quantum))
    && (e.remaining == 0 && !inFlight ==> e.finish == LastFinish(g, p.id))
    && (!admitted ==> e.remaining == e.burst && Count(g, p.id) == 0)
  }

  /** The entry of the `j`-th process is in step with the chart; it has been
      admitted when `j < index`, and is in flight when it is `running`. */
  ghost predicate EntryAt(ps: seq<Process>, quantum: int, table: map<string, Entry>, g: seq<Slice>, index: nat,
                          running: Option<nat>, j: int)
    requires 0 <= j < |ps|
  {
    ps[j].id in table && EntryOk(ps[j], quantum, table[ps[j].id], g, j < index, running == Some(j))
  }

  // Entries are looked at one at a time, by naming `EntryAt` for the
  // position in question.
  ghost predicate Tracked(ps: seq<Process>, quantum: int, table: map<string, Entry>, g: seq<Slice>, index: nat, running: Option<nat>) {
    forall j {:trigger EntryAt(ps, quantum, table, g, index, running, j)} :: 0 <= j < |ps| ==>
      EntryAt(ps, quantum, table, g, index, running, j)
  }

  /** The queue holds, once each, exactly the admitted processes with work
      left, except the one in flight. */
  ghost predicate Queued(ps: seq<Process>, table: map<string, Entry>, index: nat, queue: seq<string>, slots: seq<nat>, running: Option<nat>)
    requires index <= |ps|
  {
    && |slots| == |queue|
    && (forall i :: 0 <= i < |slots| ==> slots[i] < index && queue[i] == ps[slots[i]].id && running != Some(slots[i]))
    && (forall i :: 0 <= i < |queue| ==> queue[i] in table && table[queue[i]].remaining > 0)
    && (forall i, i' :: 0 <= i < i' < |slots| ==> slots[i] != slots[i'])
    && (forall j :: 0 <= j < index && ps[j].id in table && table[ps[j].id].remaining > 0 && running != Some(j) ==> j in slots)
  }

  /** The chart is chronological, ends by `clock`, has no slice longer than a
      quantum and only slices of input processes; admitted processes have
      arrived. */
  ghost predicate Timed(ps: seq<Process>, quantum: int, table: map<string, Entry>, g: seq<Slice>, index: nat, clock: int)
    requires index <= |ps|
  {
    && Chronological(g)
    && (g != [] ==> g[|g| - 1].finish <= clock)
    && (forall s :: 0 <= s < |g| ==> Duration(g[s]) <= quantum && g[s].process in Ids(ps))
    && (forall j :: 0 <= j < index ==> ps[j].arrival <= clock)
  }

  /** The process in flight was admitted and owns the last slice, which ends now. */
  ghost predicate InFlight(ps: seq<Process>, g: seq<Slice>, index: nat, clock: int, running: Option<nat>) {
    running.Some? ==>
      && running.value < index && running.value < |ps|
      && g != [] && g[|g| - 1].process == ps[running.value].id && g[|g| - 1].finish == clock
  }

  ghost predicate Inv(ps: seq<Process>, quantum: int, table: map<string, Entry>, g: seq<Slice>,
                      queue: seq<string>, slots: seq<nat>, index: nat, clock: int, running: Option<nat>) {
    && index <= |ps|
    && Tracked(ps, quantum, table, g, index, running)
    && Queued(ps, table, index, queue, slots, running)
    && Timed(ps, quantum, table, g, index, clock)
    && InFlight(ps, g, index, clock, running)
  }

  lemma InvReady(ps: seq<Process>, quantum: int, table: map<string, Entry>, g: seq<Slice>,
                 queue: seq<string>, slots: seq<nat>, index: nat, clock: int)
    requires Inv(ps, quantum, table, g, queue, slots, index, clock, None)
    ensures Ready(ps, State(table, g, queue, index, clock))
  {
    forall j | 0 <= j < |ps| ensures ps[j].id in table && table[ps[j].id].remaining >= 0 {
      assert EntryAt(ps, quantum, table, g, index, None, j);
    }
    forall j | 0 <= j < index && table[ps[j].id].remaining > 0 ensures ps[j].id in queue {
      var i :| 0 <= i < |slots| && slots[i] == j;
      assert queue[i] == ps[j].id;
    }
  }

  lemma InvStart(ps: seq<Process>, quantum: int)
    requires WellFormed(ps) && UniqueIds(ps)
    ensures Inv(ps, quantum, InitialTable(ps), [], [], [], 0, 0, None)
  {
  }

  lemma TrackedAdmit(ps: seq<Process>, quantum: int, table: map<string, Entry>, g: seq<Slice>, index: nat, running: Option<nat>)
    requires Tracked(ps, quantum, table, g, index, running)
    ensures Tracked(ps, quantum, table, g, index + 1, running)
  {
    forall j | 0 <= j < |ps| ensures ps[j].id in table && EntryAt(ps, quantum, table, g, index + 1, running, j) {
      assert EntryAt(ps, quantum, table, g, index, running, j);
    }
  }

  lemma QueuedAdmit(ps: seq<Process>, table: map<string, Entry>, index: nat, queue: seq<string>, slots: seq<nat>, running: Option<nat>)
    requires index < |ps| && Queued(ps, table, index, queue, slots, running)
    requires running.Some? ==> running.value < index
    requires ps[index].id in table && table[ps[index].id].remaining > 0
    ensures Queued(ps, table, index + 1, queue + [ps[index].id], slots + [index], running)
  {
    var slots', queue' := slots + [index], queue + [ps[index].id];
    assert forall i :: 0 <= i < |slots| ==> slots'[i] == slots[i] && queue'[i] == queue[i];
    forall j | 0 <= j < index + 1 && ps[j].id in table && table[ps[j].id].remaining > 0 && running != Some(j)
      ensures j in slots'
    {
      if j < index {
        assert j in slots;
      } else {
        assert slots'[|slots|] == j;
      }
    }
  }

  /** Admitting the process under the cursor appends it to the queue. */
  lemma InvAdmit(ps: seq<Process>, quantum: int, table: map<string, Entry>, g: seq<Slice>,
                 queue: seq<string>, slots: seq<nat>, index: nat, next: nat, clock: int, running: Option<nat>)
    requires Inv(ps, quantum, table, g, queue, slots, index, clock, running)
    requires WellFormed(ps) && index < |ps| && ps[index].arrival <= clock && next == index + 1
    ensures Inv(ps, quantum, table, g, queue + [ps[index].id], slots + [index], next, clock, running)
  {
    TrackedAdmit(ps, quantum, table, g, index, running);
    assert EntryAt(ps, quantum, table, g, index, running, index);
    QueuedAdmit(ps, table, index, queue, slots, running);
  }

  /** With the queue empty and the next process not yet arrived, the clock
      jumps to its arrival. */
  lemma InvJump(ps: seq<Process>, quantum: int, table: map<string, Entry>, g: seq<Slice>, index: nat, clock: int)
    requires Inv(ps, quantum, table, g, [], [], index, clock, None)
    requires index < |ps| && ps[index].arrival > clock
    ensures Inv(ps, quantum, table, g, [], [], index, ps[index].arrival, None)
  {
  }

  /** The work still owed to the first `n` processes: what the loop uses up. */
  function Left(ps: seq<Process>, table: map<string, Entry>, n: nat): int
    requires n <= |ps|
  {
    if n == 0 then 0
    else Left(ps, table, n - 1) + (if ps[n - 1].id in table then table[ps[n - 1].id].remaining else 0)
  }

  lemma {:induction false} LeftUpdate(ps: seq<Process>, table: map<string, Entry>, x: nat, e: Entry, n: nat)
    requires UniqueIds(ps) && x < |ps| && ps[x].id in table && n <= |ps|
    ensures Left(ps, table[ps[x].id := e], n)
         == Left(ps, table, n) + (if x < n then e.remaining - table[ps[x].id].remaining else 0)
  {
    if n > 0 {
      LeftUpdate(ps, table, x, e, n - 1);
    }
  }

  lemma {:induction false} LeftNonNegative(ps: seq<Process>, table: map<string, Entry>, n: nat)
    requires n <= |ps|
    requires forall j :: 0 <= j < |ps| && ps[j].id in table ==> table[ps[j].id].remaining >= 0
    ensures Left(ps, table, n) >= 0
  {
    if n > 0 {
      LeftNonNegative(ps, table, n - 1);
    }
  }

  lemma TrackedLeft(ps: seq<Process>, quantum: int, table: map<string, Entry>, g: seq<Slice>, index: nat, running: Option<nat>)
    requires Tracked(ps, quantum, table, g, index, running)
    ensures Left(ps, table, |ps|) >= 0
  {
    forall j | 0 <= j < |ps| && ps[j].id in table ensures table[ps[j].id].remaining >= 0 {
      assert EntryAt(ps, quantum, table, g, index, running, j);
    }
    LeftNonNegative(ps, table, |ps|);
  }

  /** A slice of another process leaves an entry in step with the chart. */
  lemma EntryUntouched(p: Process, quantum: int, e: Entry, g: seq<Slice>, s: Slice, admitted: bool, inFlight: bool)
    requires EntryOk(p, quantum, e, g, admitted, inFlight) && s.process != p.id
    ensures EntryOk(p, quantum, e, g + [s], admitted, inFlight)
  {
    Append(g, s, p.id);
    AppendFull(g, s, p.id, quantum);
  }

  /** The slice `min(quantum, remaining)` long that the process itself gets
      keeps its entry in step with the chart. */
  lemma EntryServed(p: Process, quantum: int, e: Entry, g: seq<Slice>, clock: int)
    requires quantum >= 1 && EntryOk(p, quantum, e, g, true, false)
    requires e.remaining > 0 && p.arrival <= clock
    ensures EntryOk(p, quantum, Served(e, clock, quantum), g + [Slice(p.id, clock, clock + Min(quantum, e.remaining))], true, true)
  {
    var s := Slice(p.id, clock, clock + Min(quantum, e.remaining));
    Append(g, s, p.id);
    AppendFull(g, s, p.id, quantum);
    assert quantum * (Count(g, p.id) + 1) == quantum * Count(g, p.id) + quantum;
  }

  /** Charting one more slice of `ps[x]`, from `clock`, keeps every entry in
      step with the chart; `ps[x]` is then in flight. */
  lemma TrackedSlice(ps: seq<Process>, quantum: int, table: map<string, Entry>, g: seq<Slice>, index: nat,
                     x: nat, id: string, clock: int, run: int)
    requires UniqueIds(ps) && quantum >= 1
    requires Tracked(ps, quantum, table, g, index, None)
    requires x < index <= |ps| && id == ps[x].id && ps[x].arrival <= clock
    requires id in table && table[id].remaining > 0 && run == Min(quantum, table[id].remaining)
    ensures Tracked(ps, quantum, table[id := Served(table[id], clock, quantum)],
                    g + [Slice(id, clock, clock + run)], index, Some(x))
  {
    var e := table[id];
    var s := Slice(id, clock, clock + run);
    var table' := table[id := Served(table[id], clock, quantum)];
    forall j | 0 <= j < |ps|
      ensures EntryAt(ps, quantum, table', g + [s], index, Some(x), j)
    {
      assert EntryAt(ps, quantum, table, g, index, None, j);
      if j == x {
        EntryServed(ps[x], quantum, e, g, clock);
      } else {
        assert ps[j].id != ps[x].id;
        EntryUntouched(ps[j], quantum, table[ps[j].id], g, s, j < index, false);
      }
    }
  }

  lemma QueuedSlice(ps: seq<Process>, table: map<string, Entry>, index: nat, queue: seq<string>, slots: seq<nat>, e: Entry)
    requires UniqueIds(ps) && index <= |ps| && queue != []
    requires Queued(ps, table, index, queue, slots, None)
    ensures Queued(ps, table[queue[0] := e], index, queue[1..], slots[1..], Some(slots[0]))
  {
    var x := slots[0];
    var table' := table[queue[0] := e];
    forall j | 0 <= j < index && ps[j].id in table' && table'[ps[j].id].remaining > 0 && Some(x) != Some(j)
      ensures j in slots[1..]
    {
      assert ps[j].id != ps[x].id;
      var i :| 0 <= i < |slots| && slots[i] == j;
      assert slots[1..][i - 1] == j;
    }
    forall i | 0 <= i < |slots| - 1 ensures slots[1..][i] != x && queue[1..][i] != queue[0] {
      assert slots[i + 1] != slots[0];
    }
  }

  lemma TimedSlice(ps: seq<Process>, quantum: int, table: map<string, Entry>, g: seq<Slice>, index: nat, clock: int,
                   id: string, e: Entry, run: int)
    requires index <= |ps| && Timed(ps, quantum, table, g, index, clock)
    requires id in Ids(ps) && 1 <= run <= quantum
    ensures Timed(ps, quantum, table[id := e], g + [Slice(id, clock, clock + run)], index, clock + run)
  {
    var g' := g + [Slice(id, clock, clock + run)];
    assert forall s :: 0 <= s < |g| ==> g'[s] == g[s];
  }

  /** Taking the head `id` of the queue and charting its next slice, of
      length `run`. */
  lemma InvSlice(ps: seq<Process>, quantum: int, table: map<string, Entry>, g: seq<Slice>,
                 queue: seq<string>, slots: seq<nat>, index: nat, clock: int, id: string, run: int)
    requires UniqueIds(ps) && quantum >= 1
    requires Inv(ps, quantum, table, g, queue, slots, index, clock, None)
    requires queue != [] && id == queue[0] && run == Min(quantum, table[id].remaining)
    ensures 1 <= run <= quantum
    ensures Inv(ps, quantum, table[id := Served(table[id], clock, quantum)], g + [Slice(id, clock, clock + run)],
                queue[1..], slots[1..], index, clock + run, Some(slots[0]))
    ensures Left(ps, table[id := Served(table[id], clock, quantum)], |ps|) == Left(ps, table, |ps|) - run
  {
    var x := slots[0];
    var e := table[id];
    assert id == ps[x].id && x < index && ps[x].arrival <= clock && e.remaining > 0;
    var table' := table[id := Served(table[id], clock, quantum)];
    var g' := g + [Slice(id, clock, clock + run)];
    assert Tracked(ps, quantum, table', g', index, Some(x)) by {
      TrackedSlice(ps, quantum, table, g, index, x, id, clock, run);
    }
    assert Queued(ps, table', index, queue[1..], slots[1..], Some(x)) by {
      QueuedSlice(ps, table, index, queue, slots, Served(e, clock, quantum));
    }
    assert Timed(ps, quantum, table', g', index, clock + run) by {
      TimedSlice(ps, quantum, table, g, index, clock, id, Served(e, clock, quantum), run);
    }
    assert InFlight(ps, g', index, clock + run, Some(x));
    LeftUpdate(ps, table, x, Served(e, clock, quantum), |ps|);
  }

  /** A process with work left goes to the back of the queue. */
  lemma InvRequeue(ps: seq<Process>, quantum: int, table: map<string, Entry>, g: seq<Slice>,
                   queue: seq<string>, slots: seq<nat>, index: nat, clock: int, x: nat)
    requires Inv(ps, quantum, table, g, queue, slots, index, clock, Some(x))
    requires x < |ps| && ps[x].id in table && table[ps[x].id].remaining > 0
    ensures Inv(ps, quantum, table, g, queue + [ps[x].id], slots + [x], index, clock, None)
  {
    var slots', queue' := slots + [x], queue + [ps[x].id];
    assert forall i :: 0 <= i < |slots| ==> slots'[i] == slots[i] && queue'[i] == queue[i];
    forall j | 0 <= j < |ps| ensures EntryAt(ps, quantum, table, g, index, None, j) {
      assert EntryAt(ps, quantum, table, g, index, Some(x), j);
    }
    forall j | 0 <= j < index && ps[j].id in table && table[ps[j].id].remaining > 0
      ensures j in slots'
    {
      if j != x {
        assert j in slots;
      } else {
        assert slots'[|slots|] == j;
      }
    }
  }

  lemma TrackedComplete(ps: seq<Process>, quantum: int, table: map<string, Entry>, g: seq<Slice>, index: nat, clock: int, x: nat)
    requires UniqueIds(ps) && x < |ps| && ps[x].id in table
    requires Tracked(ps, quantum, table, g, index, Some(x))
    requires g != [] && g[|g| - 1].process == ps[x].id && g[|g| - 1].finish == clock
    ensures var id := ps[x].id;
      Tracked(ps, quantum, table[id := table[id].(finish := clock)], g, index, None)
  {
    var id := ps[x].id;
    var table' := table[id := table[id].(finish := clock)];
    forall j | 0 <= j < |ps| ensures EntryAt(ps, quantum, table', g, index, None, j) {
      assert EntryAt(ps, quantum, table, g, index, Some(x), j);
      if j != x {
        assert ps[j].id != id;
      }
    }
  }

  lemma QueuedComplete(ps: seq<Process>, table: map<string, Entry>, index: nat, queue: seq<string>, slots: seq<nat>, x: nat, clock: int)
    requires index <= |ps| && x < |ps| && ps[x].id in table && table[ps[x].id].remaining == 0
    requires Queued(ps, table, index, queue, slots, Some(x))
    ensures var id := ps[x].id;
      Queued(ps, table[id := table[id].(finish := clock)], index, queue, slots, None)
  {
  }

  /** A process without work left completes now, at the end of its last slice. */
  lemma InvComplete(ps: seq<Process>, quantum: int, table: map<string, Entry>, g: seq<Slice>,
                    queue: seq<string>, slots: seq<nat>, index: nat, clock: int, x: nat)
    requires UniqueIds(ps)
    requires Inv(ps, quantum, table, g, queue, slots, index, clock, Some(x))
    requires x < |ps| && ps[x].id in table && table[ps[x].id].remaining == 0
    ensures var id := ps[x].id;
      && Inv(ps, quantum, table[id := table[id].(finish := clock)], g, queue, slots, index, clock, None)
      && Left(ps, table[id := table[id].(finish := clock)], |ps|) == Left(ps, table, |ps|)
  {
    var id := ps[x].id;
    var table' := table[id := table[id].(finish := clock)];
    assert EntryAt(ps, quantum, table, g, index, Some(x), x);
    TrackedComplete(ps, quantum, table, g, index, clock, x);
    QueuedComplete(ps, table, index, queue, slots, x, clock);
    LeftUpdate(ps, table, x, table[id].(finish := clock), |ps|);
  }

  /** What round robin promises of each process once everything has run: its
      slices add up to its burst and number `burst / quantum` rounded up, each
      of them but the last is a full quantum, it starts with its first slice,
      never before arriving, finishes with its last, and has waited a
      non-negative time. */
  ghost predicate Finished(p: Process, quantum: int, e: Entry, g: seq<Slice>)
    requires quantum >= 1
  {
    && e.arrival == p.arrival && e.burst == p.burst && e.remaining == 0
    && Work(g, p.id) == p.burst && Count(g, p.id) == CeilDiv(p.burst, quantum)
    && (forall s, t :: 0 <= s < t < |g| && g[s].process == p.id && g[t].process == p.id ==> Duration(g[s]) == quantum)
    && e.start.Some? && e.start == FirstStart(g, p.id) && e.start.value >= p.arrival
    && e.finish == LastFinish(g, p.id)
    && e.finish - p.arrival - p.burst >= 0
  }

  lemma EntryFinished(p: Process, quantum: int, e: Entry, g: seq<Slice>)
    requires quantum >= 1 && p.burst >= 1 && Chronological(g)
    requires EntryOk(p, quantum, e, g, true, false) && e.remaining == 0
    ensures Finished(p, quantum, e, g)
  {
    CeilDivOfBounds(p.burst, quantum, Count(g, p.id));
    WorkSpan(g, p.id);
    FullButLastSlices(g, p.id, quantum);
  }

  /** The table and chart when the main loop leaves: a chronological chart
      of slices of input processes, none longer than a quantum, and every
      process finished. */
  ghost predicate Complete(ps: seq<Process>, quantum: int, table: map<string, Entry>, g: seq<Slice>)
    requires quantum >= 1
  {
    && Chronological(g)
    && (forall s :: 0 <= s < |g| ==> Duration(g[s]) <= quantum && g[s].process in Ids(ps))
    && (forall j :: 0 <= j < |ps| ==> ps[j].id in table && Finished(ps[j], quantum, table[ps[j].id], g))
  }

  /** With nothing queued and everything admitted, every process has
      completed. */
  lemma InvEnd(ps: seq<Process>, quantum: int, table: map<string, Entry>, g: seq<Slice>, clock: int)
    requires WellFormed(ps) && quantum >= 1
    requires Inv(ps, quantum, table, g, [], [], |ps|, clock, None)
    ensures Complete(ps, quantum, table, g)
  {
    forall j | 0 <= j < |ps| ensures ps[j].id in table && Finished(ps[j], quantum, table[ps[j].id], g) {
      assert EntryAt(ps, quantum, table, g, |ps|, None, j);
      assert !(j in []);
      EntryFinished(ps[j], quantum, table[ps[j].id], g);
    }
  }

  /** What `round_robin` promises of the record it reports for `p`, and of
      the slices of `p` in the chart `g`. */
  ghost predicate Reports(p: Process, quantum: int, g: seq<Slice>, r: Result)
    requires quantum >= 1
  {
    && r.id == p.id && r.arrival == p.arrival && r.burst == p.burst && r.priority == None
    && Work(g, p.id) == p.burst && Count(g, p.id) == CeilDiv(p.burst, quantum)
    && (forall s, t :: 0 <= s < t < |g| && g[s].process == p.id && g[t].process == p.id ==> Duration(g[s]) == quantum)
    && FirstStart(g, p.id) == Some(r.start) && r.start >= p.arrival
    && r.finish == LastFinish(g, p.id)
    && r.turnaround == r.finish - r.arrival && r.waiting == r.turnaround - r.burst
    && r.waiting >= 0
  }

  /** What `round_robin` promises of its output for the arrival-sorted list
      `ps`: a chronological chart of slices of input processes, none longer
      than a quantum, and one record per process, in arrival order. */
  ghost predicate RoundRobinOutcome(ps: seq<Process>, quantum: int, gantt: seq<Slice>, results: seq<Result>)
    requires quantum >= 1
  {
    && |results| == |ps|
    && Chronological(gantt)
    && (forall s :: 0 <= s < |gantt| ==> Duration(gantt[s]) <= quantum && gantt[s].process in Ids(ps))
    && (forall j :: 0 <= j < |ps| ==> Reports(ps[j], quantum, gantt, results[j]))
  }

  /** The positions `lo` to `hi - 1`, in order. */
  function Range(lo: nat, hi: nat): (r: seq<nat>)
    requires lo <= hi
    ensures |r| == hi - lo && forall i :: 0 <= i < hi - lo ==> r[i] == lo + i
  {
    seq(hi - lo, i requires 0 <= i < hi - lo => lo + i)
  }

  lemma AdmittedExtend(ps: seq<Process>, queue: seq<string>, slots: seq<nat>, lo: nat, hi: nat)
    requires lo < hi <= |ps|
    ensures queue + IdsOf(ps[lo..hi]) == queue + IdsOf(ps[lo..hi - 1]) + [ps[hi - 1].id]
    ensures slots + Range(lo, hi) == slots + Range(lo, hi - 1) + [hi - 1]
  {
    IdsOfExtend(ps, lo, hi - 1);
  }

  lemma AdmittedNone(ps: seq<Process>, queue: seq<string>, slots: seq<nat>, lo: nat)
    requires lo <= |ps|
    ensures queue + IdsOf(ps[lo..lo]) == queue && slots + Range(lo, lo) == slots
  {
  }

  /** Admitting one more process after those from `lo` to `hi - 1`. */
  lemma InvAdmitNext(ps: seq<Process>, quantum: int, table: map<string, Entry>, g: seq<Slice>,
                     queue: seq<string>, slots: seq<nat>, lo: nat, hi: nat, clock: int, running: Option<nat>)
    requires WellFormed(ps) && lo < hi <= |ps| && ps[hi - 1].arrival <= clock
    requires Inv(ps, quantum, table, g, queue + IdsOf(ps[lo..hi - 1]), slots + Range(lo, hi - 1), hi - 1, clock, running)
    ensures Inv(ps, quantum, table, g, queue + IdsOf(ps[lo..hi]), slots + Range(lo, hi), hi, clock, running)
  {
    InvAdmit(ps, quantum, table, g, queue + IdsOf(ps[lo..hi - 1]), slots + Range(lo, hi - 1), hi - 1, hi, clock, running);
    AdmittedExtend(ps, queue, slots, lo, hi);
  }

  /** Admitting a run of arrived processes under the cursor, one by one. */
  lemma {:induction false} InvAdmitAll(ps: seq<Process>, quantum: int, table: map<string, Entry>, g: seq<Slice>,
                                       queue: seq<string>, slots: seq<nat>, lo: nat, hi: nat, clock: int, running: Option<nat>)
    requires WellFormed(ps) && Inv(ps, quantum, table, g, queue, slots, lo, clock, running)
    requires lo <= hi <= |ps| && forall j :: lo <= j < hi ==> ps[j].arrival <= clock
    ensures Inv(ps, quantum, table, g, queue + IdsOf(ps[lo..hi]), slots + Range(lo, hi), hi, clock, running)
    decreases hi - lo
  {
    if hi == lo {
      AdmittedNone(ps, queue, slots, lo);
    } else {
      InvAdmitAll(ps, quantum, table, g, queue, slots, lo, hi - 1, clock, running);
      InvAdmitNext(ps, quantum, table, g, queue, slots, lo, hi, clock, running);
    }
  }

  /** The admission loop of `round_robin`: appends to the queue, in order,
      every process under the cursor that has arrived by `clock`, and stops
      at the first one that has not. */
  method Admit(ps: seq<Process>, clock: int, queue: seq<string>, index: nat)
    returns (queue': seq<string>, index': nat)
    requires index <= |ps|
    ensures index <= index' <= |ps|
    ensures queue' == queue + IdsOf(ps[index..index'])
    ensures forall j :: index <= j < index' ==> ps[j].arrival <= clock
    ensures index' == |ps| || ps[index'].arrival > clock
    ensures (queue', index') == Admitted(ps, clock, queue, index)
  {
    queue', index' := queue, index;
    while index' < |ps| && ps[index'].arrival <= clock
      invariant index <= index' <= |ps|
      invariant Admitted(ps, clock, queue', index') == Admitted(ps, clock, queue, index)
    {
      queue' := queue' + [ps[index'].id];
      index' := index' + 1;
    }
  }

  /** One dispatch of `round_robin`: the head of the queue runs for
      `min(quantum, remaining)` from `clock`, gets its start time if this is
      its first slice, and is charged the time it ran; it is then in flight. */
  method RunSlice(ps: seq<Process>, quantum: int, table: map<string, Entry>, gantt: seq<Slice>,
                  queue: seq<string>, clock: int, ghost slots: seq<nat>, ghost index: nat)
    returns (table': map<string, Entry>, gantt': seq<Slice>, queue': seq<string>, clock': int, id: string)
    requires UniqueIds(ps) && quantum >= 1 && queue != []
    requires Inv(ps, quantum, table, gantt, queue, slots, index, clock, None)
    ensures id == queue[0] && id == ps[slots[0]].id && queue' == queue[1..]
    ensures id in table && 1 <= clock' - clock == Min(quantum, table[id].remaining)
    ensures table' == table[id := Served(table[id], clock, quantum)]
    ensures gantt' == gantt + [Slice(id, clock, clock')]
    ensures Inv(ps, quantum, table', gantt', queue', slots[1..], index, clock', Some(slots[0]))
    ensures Left(ps, table', |ps|) < Left(ps, table, |ps|)
  {
    id := queue[0];
    InvSlice(ps, quantum, table, gantt, queue, slots, index, clock, id, Min(quantum, table[id].remaining));
    queue' := queue[1..];
    table' := table;
    if table'[id].start.None? {
      table' := table'[id := table'[id].(start := Some(clock))];
    }
    var executionTime := Min(quantum, table'[id].remaining);
    gantt' := gantt + [Slice(id, clock, clock + executionTime)];
    clock' := clock + executionTime;
    table' := table'[id := table'[id].(remaining := table'[id].remaining - executionTime)];
    assert table' == table[id := Served(table[id], clock, quantum)];
  }

  /** One turn of the main loop of `round_robin` once the queue is not
      empty: the head runs for a slice, the processes that arrived meanwhile
      join the queue, and then the head goes to the back of the queue if it
      still has work, or completes now. */
  method Step(ps: seq<Process>, quantum: int, table: map<string, Entry>, gantt: seq<Slice>,
              queue: seq<string>, clock: int, index: nat, ghost slots: seq<nat>)
    returns (table': map<string, Entry>, gantt': seq<Slice>, queue': seq<string>, clock': int, index': nat,
             ghost slots': seq<nat>)
    requires WellFormed(ps) && UniqueIds(ps) && quantum >= 1 && queue != []
    requires Inv(ps, quantum, table, gantt, queue, slots, index, clock, None)
    ensures queue[0] in table
    ensures State(table', gantt', queue', index', clock') == Dispatched(ps, quantum, State(table, gantt, queue, index, clock))
    ensures Inv(ps, quantum, table', gantt', queue', slots', index', clock', None)
    ensures Left(ps, table', |ps|) < Left(ps, table, |ps|)
  {
    var id;
    ghost var x := slots[0];
    table', gantt', queue', clock', id := RunSlice(ps, quantum, table, gantt, queue, clock, slots, index);
    slots' := slots[1..];
    ghost var queue0 := queue';
    queue', index' := Admit(ps, clock', queue', index);
    DispatchedAfter(ps, quantum, State(table, gantt, queue, index, clock), table', gantt', clock', (queue', index'));
    InvAdmitAll(ps, quantum, table', gantt', queue0, slots', index, index', clock', Some(x));
    slots' := slots' + Range(index, index');
    if table'[id].remaining > 0 {
      InvRequeue(ps, quantum, table', gantt', queue', slots', index', clock', x);
      queue', slots' := queue' + [id], slots' + [x];
    } else {
      InvComplete(ps, quantum, table', gantt', queue', slots', index', clock', x);
      table' := table'[id := table'[id].(finish := clock')];
    }
  }

  /** The final loop of `round_robin`: one record per entry, in the order the
      table was built, with turnaround and waiting computed from the entry. */
  method Collect(ps: seq<Process>, quantum: int, table: map<string, Entry>, gantt: seq<Slice>)
    returns (results: seq<Result>)
    requires quantum >= 1
    requires forall j :: 0 <= j < |ps| ==> ps[j].id in table && Finished(ps[j], quantum, table[ps[j].id], gantt)
    ensures |results| == |ps|
    ensures forall j :: 0 <= j < |ps| ==> Reports(ps[j], quantum, gantt, results[j])
    ensures forall j :: 0 <= j < |ps| ==> table[ps[j].id].start.Some? && results[j] == Record(ps[j].id, table[ps[j].id])
  {
    results := [];
    for j := 0 to |ps|
      invariant |results| == j
      invariant forall i :: 0 <= i < j ==> Reports(ps[i], quantum, gantt, results[i])
      invariant forall i :: 0 <= i < j ==> table[ps[i].id].start.Some? && results[i] == Record(ps[i].id, table[ps[i].id])
    {
      var data := table[ps[j].id];
      var turnaround := data.finish - data.arrival;
      var waiting := turnaround - data.burst;
      results := results + [Result(ps[j].id, data.arrival, data.burst, None, data.start.value, data.finish, waiting, turnaround)];
    }
  }

  /** Whether the next process to admit has arrived by `clock`. */
  function Waiting(ps: seq<Process>, index: nat, clock: int): nat {
    if index < |ps| && ps[index].arrival <= clock then 0 else 1
  }

  /** One turn of the main loop of `round_robin`: admission, and then either
      the clock jumps to the next arrival, or the loop leaves (`done`), or the
      head of the queue is dispatched; `trace'` is `trace` with the new state
      appended when the loop goes on. */
  method Advance(ps: seq<Process>, quantum: int, table: map<string, Entry>, gantt: seq<Slice>,
                 queue: seq<string>, clock: int, index: nat, ghost slots: seq<nat>, ghost trace: seq<State>)
    returns (table': map<string, Entry>, gantt': seq<Slice>, queue': seq<string>, clock': int, index': nat,
             ghost slots': seq<nat>, done: bool, ghost trace': seq<State>)
    requires WellFormed(ps) && UniqueIds(ps) && quantum >= 1
    requires Inv(ps, quantum, table, gantt, queue, slots, index, clock, None)
    requires TraceTo(ps, quantum, trace, State(table, gantt, queue, index, clock))
    ensures Inv(ps, quantum, table', gantt', queue', slots', index', clock', None)
    ensures done ==> Runs(ps, quantum, trace') && Ends(trace', table', gantt') && Complete(ps, quantum, table', gantt')
    ensures !done ==> TraceTo(ps, quantum, trace', State(table', gantt', queue', index', clock'))
    ensures !done ==>
      || Left(ps, table', |ps|) + (|ps| - index') < Left(ps, table, |ps|) + (|ps| - index)
      || (Left(ps, table', |ps|) + (|ps| - index') == Left(ps, table, |ps|) + (|ps| - index)
          && Waiting(ps, index', clock') < Waiting(ps, index, clock))
  {
    ghost var s := State(table, gantt, queue, index, clock);
    queue', index' := Admit(ps, clock, queue, index);
    InvAdmitAll(ps, quantum, table, gantt, queue, slots, index, index', clock, None);
    slots' := slots + Range(index, index');
    table', gantt', clock', done, trace' := table, gantt, clock, false, trace;
    if queue' == [] {
      if index' < |ps| {
        InvJump(ps, quantum, table, gantt, index', clock);
        TurnJump(ps, quantum, s, (queue', index'));
        clock' := ps[index'].arrival;
        TraceOn(ps, quantum, trace, s, table', gantt', queue', slots', index', clock');
        trace' := trace + [State(table', gantt', queue', index', clock')];
      } else {
        InvEnd(ps, quantum, table, gantt, clock);
        done := true;
      }
      return;
    }
    ghost var a := (queue', index');
    table', gantt', queue', clock', index', slots' := Step(ps, quantum, table, gantt, queue', clock, index', slots');
    TurnDispatch(ps, quantum, s, a, State(table', gantt', queue', index', clock'));
    TraceOn(ps, quantum, trace, s, table', gantt', queue', slots', index', clock');
    trace' := trace + [State(table', gantt', queue', index', clock')];
  }

  /** The turn from `s` leads to a state where the loop invariant holds: the
      run goes on to it. */
  lemma TraceOn(ps: seq<Process>, quantum: int, trace: seq<State>, s: State, table: map<string, Entry>, g: seq<Slice>,
                queue: seq<string>, slots: seq<nat>, index: nat, clock: int)
    requires TraceTo(ps, quantum, trace, s) && Turn(ps, quantum, s, State(table, g, queue, index, clock))
    requires Inv(ps, quantum, table, g, queue, slots, index, clock, None)
    ensures TraceTo(ps, quantum, trace + [State(table, g, queue, index, clock)], State(table, g, queue, index, clock))
  {
    InvReady(ps, quantum, table, g, queue, slots, index, clock);
    TraceExtend(ps, quantum, trace, s, State(table, g, queue, index, clock));
  }

  /** The table as `round_robin` first builds it, and the run of its main
      loop so far: just the initial state. */
  method Start(ps: seq<Process>, quantum: int) returns (table: map<string, Entry>, ghost trace: seq<State>)
    requires WellFormed(ps) && UniqueIds(ps)
    ensures Inv(ps, quantum, table, [], [], [], 0, 0, None)
    ensures TraceTo(ps, quantum, trace, State(table, [], [], 0, 0))
  {
    table := InitialTable(ps);
    InvStart(ps, quantum);
    InvReady(ps, quantum, table, [], [], [], 0, 0);
    trace := [State(table, [], [], 0, 0)];
  }

  /** The main loop of `round_robin` over the arrival-sorted `ps`: `trace` is
      its run turn by turn, ending in the returned table and chart, after
      which every process has finished. */
  method Schedule(ps: seq<Process>, quantum: int)
    returns (table: map<string, Entry>, gantt: seq<Slice>, ghost trace: seq<State>)
    requires WellFormed(ps) && UniqueIds(ps) && quantum >= 1
    ensures Runs(ps, quantum, trace) && Ends(trace, table, gantt)
    ensures Complete(ps, quantum, table, gantt)
  {
    var clock := 0;
    gantt := [];
    var queue: seq<string> := [];
    var index: nat := 0;
    ghost var slots: seq<nat> := [];
    table, trace := Start(ps, quantum);
    while true
      invariant Inv(ps, quantum, table, gantt, queue, slots, index, clock, None)
      invariant TraceTo(ps, quantum, trace, State(table, gantt, queue, index, clock))
      decreases Left(ps, table, |ps|) + (|ps| - index), Waiting(ps, index, clock)
    {
      TrackedLeft(ps, quantum, table, gantt, index, None);
      var done;
      table, gantt, queue, clock, index, slots, done, trace := Advance(ps, quantum, table, gantt, queue, clock, index, slots, trace);
      if done {
        break;
      }
    }
  }

  /** `round_robin`: the chart and one record per process, in arrival order,
      as `RoundRobinOutcome` describes; `trace` is the run of the main loop
      turn by turn, whose last state holds the chart and the table the
      records are built from. */
  method RoundRobin(processes: seq<Process>, quantum: int)
    returns (gantt: seq<Slice>, results: seq<Result>, ghost trace: seq<State>)
    requires WellFormed(processes) && UniqueIds(processes) && quantum >= 1
    ensures RoundRobinOutcome(SortByArrival(processes), quantum, gantt, results)
    ensures Runs(SortByArrival(processes), quantum, trace)
    ensures var last := trace[|trace| - 1]; var ps := SortByArrival(processes);
      && gantt == last.gantt && |results| == |ps|
      && forall j :: 0 <= j < |ps| ==>
           ps[j].id in last.table && last.table[ps[j].id].start.Some?
           && results[j] == Record(ps[j].id, last.table[ps[j].id])
  {
    var ps := SortByArrival(processes);
    SortKeepsWellFormed(processes);
    SortKeepsUniqueIds(processes);
    var table;
    table, gantt, trace := Schedule(ps, quantum);
    results := Collect(ps, quantum, table, gantt);
  }
}
