/** The choice the non-preemptive schedulers make at each decision point:
    among the pending processes that have arrived, the first one (in the
    arrival-sorted pending list) with the smallest key. */
module Selection {
  import opened Processes

  /** Shortest-Job-First keys on the burst; priority scheduling keys on the
      pair (priority, arrival), lower first. */
  datatype Policy = ShortestJob | LowestPriority

  /** `p`'s key is strictly smaller than `q`'s. */
  predicate Precedes(policy: Policy, p: Process, q: Process) {
    match policy
    case ShortestJob => p.burst < q.burst
    case LowestPriority => p.priority < q.priority || (p.priority == q.priority && p.arrival < q.arrival)
  }

  /** Keys are totally ordered: `Precedes` is irreflexive and its complement
      is transitive. */
  predicate Arrived(p: Process, clock: int) {
    p.arrival <= clock
  }

  /** The list of available processes is not empty. */
  predicate HasArrived(rem: seq<Process>, clock: int) {
    exists i :: 0 <= i < |rem| && Arrived(rem[i], clock)
  }

  /** `best` is the first arrived process of `rem[..i]` with the smallest key
      (and none of `rem[..i]` has arrived when it is `None`). */
  ghost predicate BestSoFar(policy: Policy, rem: seq<Process>, clock: int, i: nat, best: Option<nat>)
    requires i <= |rem|
  {
    match best
    case None => forall j :: 0 <= j < i ==> !Arrived(rem[j], clock)
    case Some(b) =>
      && b < i && Arrived(rem[b], clock)
      && (forall j :: 0 <= j < i && Arrived(rem[j], clock) ==> !Precedes(policy, rem[j], rem[b]))
      && (forall j :: 0 <= j < b && Arrived(rem[j], clock) ==> Precedes(policy, rem[b], rem[j]))
  }

  /** Python's `min` over the available list, continued from position `i`
      with the best candidate so far: a later candidate replaces it only when
      its key is strictly smaller. */
  function BestFrom(policy: Policy, rem: seq<Process>, clock: int, i: nat, best: Option<nat>): (k: nat)
    requires i <= |rem|
    requires BestSoFar(policy, rem, clock, i, best)
    requires best.Some? || exists j :: i <= j < |rem| && Arrived(rem[j], clock)
    ensures k < |rem| && Arrived(rem[k], clock)
    ensures forall j :: 0 <= j < |rem| && Arrived(rem[j], clock) ==> !Precedes(policy, rem[j], rem[k])
    ensures forall j :: 0 <= j < k && Arrived(rem[j], clock) ==> Precedes(policy, rem[k], rem[j])
    decreases |rem| - i
  {
    if i == |rem| then best.value
    else if !Arrived(rem[i], clock) then BestFrom(policy, rem, clock, i + 1, best)
    else if best.None? || Precedes(policy, rem[i], rem[best.value]) then
      BestFrom(policy, rem, clock, i + 1, Some(i))
    else BestFrom(policy, rem, clock, i + 1, best)
  }

  /** The index of the process chosen to run next: it has arrived, no
      arrived process has a smaller key, and every arrived process before it
      has a strictly larger key (ties go to the first candidate). */
  function Select(policy: Policy, rem: seq<Process>, clock: int): (k: nat)
    requires HasArrived(rem, clock)
    ensures k < |rem| && Arrived(rem[k], clock)
    ensures forall j :: 0 <= j < |rem| && Arrived(rem[j], clock) ==> !Precedes(policy, rem[j], rem[k])
    ensures forall j :: 0 <= j < k && Arrived(rem[j], clock) ==> Precedes(policy, rem[k], rem[j])
  {
    BestFrom(policy, rem, clock, 0, None)
  }

  /** `remaining.remove(process)`: the list without its `k`-th element. */
  function RemoveAt(s: seq<Process>, k: nat): (r: seq<Process>)
    requires k < |s|
    ensures |r| == |s| - 1
    ensures multiset(s) == multiset(r) + multiset{s[k]}
  {
    assert s == s[..k] + [s[k]] + s[k + 1..];
    s[..k] + s[k + 1..]
  }

  /** Where the elements of the shortened list come from. */
  lemma RemoveAtIndex(s: seq<Process>, k: nat, j: nat)
    requires k < |s| && j < |s| - 1
    ensures RemoveAt(s, k)[j] == s[if j < k then j else j + 1]
  {
  }

  /** Removing the first element equal to the chosen one (what `list.remove`
      does) removes the chosen one itself: no earlier arrived element can be
      equal to it, because it would have a strictly larger key. */
  lemma SelectIsFirstOccurrence(policy: Policy, rem: seq<Process>, clock: int)
    requires HasArrived(rem, clock)
    ensures var k := Select(policy, rem, clock);
      forall j :: 0 <= j < k ==> rem[j] != rem[k]
  {
  }
}
