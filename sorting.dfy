/** The stable sort by arrival time every scheduler starts with. */
module Sorting {
  import opened Processes

  /** Inserts `x` after every element whose arrival is not later than its own. */
  function Insert(x: Process, t: seq<Process>): (r: seq<Process>)
    ensures |r| == |t| + 1
    ensures multiset(r) == multiset(t) + multiset{x}
  {
    if t == [] then [x]
    else if x.arrival < t[0].arrival then [x] + t
    else
      assert t == [t[0]] + t[1..];
      [t[0]] + Insert(x, t[1..])
  }

  lemma {:induction false} InsertKeepsSorted(x: Process, t: seq<Process>)
    requires SortedByArrival(t)
    ensures SortedByArrival(Insert(x, t))
  {
    if t != [] && x.arrival >= t[0].arrival {
      InsertKeepsSorted(x, t[1..]);
      var rest := Insert(x, t[1..]);
      forall k | 0 <= k < |rest| ensures t[0].arrival <= rest[k].arrival {
        assert rest[k] in multiset(t[1..]) + multiset{x};
        if rest[k] != x {
          var m :| 0 <= m < |t[1..]| && t[1..][m] == rest[k];
          assert t[m + 1] == rest[k];
        }
      }
      assert Insert(x, t) == [t[0]] + rest;
    }
  }

  /** Processes ordered by arrival, ties kept in input order. */
  function SortByArrival(s: seq<Process>): (r: seq<Process>)
    ensures SortedByArrival(r)
    ensures multiset(r) == multiset(s)
    ensures |r| == |s|
  {
    if s == [] then []
    else
      assert s == s[..|s| - 1] + [s[|s| - 1]];
      var sortedInit := SortByArrival(s[..|s| - 1]);
      InsertKeepsSorted(s[|s| - 1], sortedInit);
      Insert(s[|s| - 1], sortedInit)
  }

  /** The processes of `s` arriving at time `a`, in their order in `s`. */
  function ArrivingAt(s: seq<Process>, a: int): seq<Process> {
    if s == [] then []
    else (if s[0].arrival == a then [s[0]] else []) + ArrivingAt(s[1..], a)
  }

  lemma {:induction false} ArrivingAtConcat(s: seq<Process>, t: seq<Process>, a: int)
    ensures ArrivingAt(s + t, a) == ArrivingAt(s, a) + ArrivingAt(t, a)
  {
    if s != [] {
      var head := if s[0].arrival == a then [s[0]] else [];
      assert (s + t)[0] == s[0];
      assert (s + t)[1..] == s[1..] + t;
      assert ArrivingAt(s + t, a) == head + ArrivingAt(s[1..] + t, a);
      ArrivingAtConcat(s[1..], t, a);
      assert head + (ArrivingAt(s[1..], a) + ArrivingAt(t, a))
          == (head + ArrivingAt(s[1..], a)) + ArrivingAt(t, a);
    } else {
      assert s + t == t;
    }
  }

  lemma {:induction false} ArrivingAtNone(s: seq<Process>, a: int)
    requires forall i :: 0 <= i < |s| ==> s[i].arrival > a
    ensures ArrivingAt(s, a) == []
  {
    if s != [] {
      ArrivingAtNone(s[1..], a);
    }
  }

  lemma {:induction false} ArrivingAtInsert(x: Process, t: seq<Process>, a: int)
    requires SortedByArrival(t)
    ensures ArrivingAt(Insert(x, t), a) == ArrivingAt(t, a) + (if x.arrival == a then [x] else [])
  {
    if t == [] {
    } else if x.arrival < t[0].arrival {
      if x.arrival == a {
        ArrivingAtNone(t, a);
      }
      assert ([x] + t)[1..] == t;
    } else {
      var r := Insert(x, t[1..]);
      var head := if t[0].arrival == a then [t[0]] else [];
      ArrivingAtInsert(x, t[1..], a);
      assert Insert(x, t) == [t[0]] + r;
      assert ([t[0]] + r)[0] == t[0] && ([t[0]] + r)[1..] == r;
      assert ArrivingAt(Insert(x, t), a) == head + ArrivingAt(r, a);
    }
  }

  /** Stability: for every arrival time, the processes arriving then keep their
      input order. Together with sortedness and the permutation property this
      determines the sorted list uniquely. */
  lemma ArrivingAtSnoc(s: seq<Process>, a: int)
    requires s != []
    ensures ArrivingAt(s, a) == ArrivingAt(s[..|s| - 1], a)
                                + (if s[|s| - 1].arrival == a then [s[|s| - 1]] else [])
  {
    var init, x := s[..|s| - 1], s[|s| - 1];
    assert s == init + [x];
    ArrivingAtConcat(init, [x], a);
    assert [x][1..] == [];
  }

  lemma {:induction false} SortIsStable(s: seq<Process>, a: int)
    ensures ArrivingAt(SortByArrival(s), a) == ArrivingAt(s, a)
  {
    if s != [] {
      var init, x := s[..|s| - 1], s[|s| - 1];
      var t := SortByArrival(init);
      assert SortByArrival(s) == Insert(x, t);
      SortIsStable(init, a);
      ArrivingAtInsert(x, t, a);
      ArrivingAtSnoc(s, a);
    }
  }

  /** Sorting keeps the input constraints: every record is one of the input's. */
  lemma SortKeepsWellFormed(s: seq<Process>)
    requires WellFormed(s)
    ensures WellFormed(SortByArrival(s))
  {
    var r := SortByArrival(s);
    forall i | 0 <= i < |r| ensures r[i].arrival >= 0 && r[i].burst >= 1 {
      assert r[i] in multiset(r);
      var j :| 0 <= j < |s| && s[j] == r[i];
    }
  }

  lemma {:induction false} InsertKeepsUniqueIds(x: Process, t: seq<Process>)
    requires UniqueIds(t)
    requires forall k :: 0 <= k < |t| ==> t[k].id != x.id
    ensures UniqueIds(Insert(x, t))
  {
    if t != [] && x.arrival >= t[0].arrival {
      InsertKeepsUniqueIds(x, t[1..]);
      var rest := Insert(x, t[1..]);
      forall k | 0 <= k < |rest| ensures rest[k].id != t[0].id {
        assert rest[k] in multiset(t[1..]) + multiset{x};
        if rest[k] != x {
          var m :| 0 <= m < |t[1..]| && t[1..][m] == rest[k];
          assert t[m + 1] == rest[k];
        }
      }
    }
  }

  /** Sorting keeps identifiers distinct. */
  lemma {:induction false} SortKeepsUniqueIds(s: seq<Process>)
    requires UniqueIds(s)
    ensures UniqueIds(SortByArrival(s))
  {
    if s != [] {
      var init, x := s[..|s| - 1], s[|s| - 1];
      assert UniqueIds(init);
      SortKeepsUniqueIds(init);
      var t := SortByArrival(init);
      forall k | 0 <= k < |t| ensures t[k].id != x.id {
        assert t[k] in multiset(init);
        var m :| 0 <= m < |init| && init[m] == t[k];
        assert s[m] == t[k];
      }
      InsertKeepsUniqueIds(x, t);
    }
  }
}
