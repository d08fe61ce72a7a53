/** What `main` does with the results once every run is done: a stable ascending
    sort by throughput, a filter that drops zero-duration results, and the best
    throughput that `print_results` divides by. */
module Report {
  import opened Types

  function Rate(r: BenchmarkResult): real
  {
    r.rowsPerSec
  }

  /** Ascending by throughput. */
  predicate SortedByRate(rs: seq<BenchmarkResult>)
  {
    forall i, j :: 0 <= i < j < |rs| ==> Rate(rs[i]) <= Rate(rs[j])
  }

  // ---------------------------------------------------------------------------
  // `results.sort_by(|a, b| a.rows_per_sec.partial_cmp(&b.rows_per_sec)...)`

  /** Put `x` in front of the first element of `rs` whose rate is not below its own. */
  function Insert(x: BenchmarkResult, rs: seq<BenchmarkResult>): seq<BenchmarkResult>
  {
    if rs == [] || Rate(x) <= Rate(rs[0]) then [x] + rs else [rs[0]] + Insert(x, rs[1..])
  }

  /** `sort_by` is a library routine; what it promises is a stable ascending order.
      This insertion sort is the reference that has that order. */
  function SortByRate(rs: seq<BenchmarkResult>): seq<BenchmarkResult>
  {
    if rs == [] then [] else Insert(rs[0], SortByRate(rs[1..]))
  }

  /** A list is sorted iff its tail is and its head is at most every rate after it. */
  lemma {:induction false} SortedCons(x: BenchmarkResult, rs: seq<BenchmarkResult>)
    ensures SortedByRate([x] + rs) <==> SortedByRate(rs) && forall k :: 0 <= k < |rs| ==> Rate(x) <= Rate(rs[k])
  {
    if SortedByRate(rs) && forall k :: 0 <= k < |rs| ==> Rate(x) <= Rate(rs[k]) {
      SortedConsIntro(x, rs);
    }
    if SortedByRate([x] + rs) {
      SortedConsElim(x, rs);
    }
  }

  lemma {:induction false} SortedConsIntro(x: BenchmarkResult, rs: seq<BenchmarkResult>)
    requires SortedByRate(rs) && forall k :: 0 <= k < |rs| ==> Rate(x) <= Rate(rs[k])
    ensures SortedByRate([x] + rs)
  {
    var xs := [x] + rs;
    forall i, j | 0 <= i < j < |xs|
      ensures Rate(xs[i]) <= Rate(xs[j])
    {
      assert xs[j] == rs[j - 1];
      if i > 0 {
        assert xs[i] == rs[i - 1];
      }
    }
  }

  lemma {:induction false} SortedConsElim(x: BenchmarkResult, rs: seq<BenchmarkResult>)
    requires SortedByRate([x] + rs)
    ensures SortedByRate(rs) && forall k :: 0 <= k < |rs| ==> Rate(x) <= Rate(rs[k])
  {
    var xs := [x] + rs;
    forall i, j | 0 <= i < j < |rs|
      ensures Rate(rs[i]) <= Rate(rs[j])
    {
      assert xs[i + 1] == rs[i] && xs[j + 1] == rs[j];
      assert Rate(xs[i + 1]) <= Rate(xs[j + 1]);
    }
    forall k | 0 <= k < |rs|
      ensures Rate(x) <= Rate(rs[k])
    {
      assert xs[k + 1] == rs[k];
      assert Rate(xs[0]) <= Rate(xs[k + 1]);
    }
  }

  lemma {:induction false} InsertSorted(x: BenchmarkResult, rs: seq<BenchmarkResult>)
    requires SortedByRate(rs)
    ensures SortedByRate(Insert(x, rs))
    ensures multiset(Insert(x, rs)) == multiset(rs) + multiset{x}
  {
    if rs == [] || Rate(x) <= Rate(rs[0]) {
      SortedCons(x, rs);
      if rs != [] {
        forall k | 0 <= k < |rs|
          ensures Rate(x) <= Rate(rs[k])
        {
          if k > 0 {
            assert Rate(rs[0]) <= Rate(rs[k]);
          }
        }
      }
    } else {
      assert rs == [rs[0]] + rs[1..];
      SortedCons(rs[0], rs[1..]);
      InsertSorted(x, rs[1..]);
      var tail := Insert(x, rs[1..]);
      forall k | 0 <= k < |tail|
        ensures Rate(rs[0]) <= Rate(tail[k])
      {
        assert tail[k] in multiset(tail);
        if tail[k] != x {
          assert tail[k] in multiset(rs[1..]);
          var i :| 0 <= i < |rs[1..]| && rs[1..][i] == tail[k];
        }
      }
      SortedCons(rs[0], tail);
    }
  }

  /** The sort yields an ascending permutation of the results. */
  lemma {:induction false} SortByRateSorted(rs: seq<BenchmarkResult>)
    ensures SortedByRate(SortByRate(rs))
    ensures multiset(SortByRate(rs)) == multiset(rs)
  {
    if rs != [] {
      SortByRateSorted(rs[1..]);
      InsertSorted(rs[0], SortByRate(rs[1..]));
      assert rs == [rs[0]] + rs[1..];
    }
  }

  /** The results with throughput `v`, in order. */
  function WithRate(rs: seq<BenchmarkResult>, v: real): seq<BenchmarkResult>
  {
    if rs == [] then [] else (if Rate(rs[0]) == v then [rs[0]] else []) + WithRate(rs[1..], v)
  }

  lemma {:induction false} WithRateCons(x: BenchmarkResult, rs: seq<BenchmarkResult>, v: real)
    ensures WithRate([x] + rs, v) == (if Rate(x) == v then [x] else []) + WithRate(rs, v)
  {
    assert ([x] + rs)[1..] == rs;
  }

  lemma {:induction false} InsertWithRate(x: BenchmarkResult, rs: seq<BenchmarkResult>, v: real)
    ensures WithRate(Insert(x, rs), v) == (if Rate(x) == v then [x] else []) + WithRate(rs, v)
  {
    if rs == [] || Rate(x) <= Rate(rs[0]) {
      WithRateCons(x, rs, v);
    } else {
      InsertWithRate(x, rs[1..], v);
      WithRateCons(rs[0], Insert(x, rs[1..]), v);
      WithRateCons(rs[0], rs[1..], v);
      assert [rs[0]] + rs[1..] == rs;
      if Rate(rs[0]) == v {
        assert Rate(x) != v;
      }
    }
  }

  /** The sort is stable: the results of equal throughput keep the order they were
      appended in. */
  lemma {:induction false} SortByRateStable(rs: seq<BenchmarkResult>, v: real)
    ensures WithRate(SortByRate(rs), v) == WithRate(rs, v)
  {
    if rs != [] {
      SortByRateStable(rs[1..], v);
      InsertWithRate(rs[0], SortByRate(rs[1..]), v);
    }
  }

  // ---------------------------------------------------------------------------
  // `results.into_iter().filter(|r| r.duration.as_nanos() > 0).collect()`

  predicate Measured(r: BenchmarkResult)
  {
    r.duration > 0
  }

  function KeepMeasured(rs: seq<BenchmarkResult>): seq<BenchmarkResult>
  {
    if rs == [] then [] else (if Measured(rs[0]) then [rs[0]] else []) + KeepMeasured(rs[1..])
  }

  lemma {:induction false} KeepMeasuredCons(x: BenchmarkResult, rs: seq<BenchmarkResult>)
    ensures KeepMeasured([x] + rs) == (if Measured(x) then [x] else []) + KeepMeasured(rs)
  {
    assert ([x] + rs)[1..] == rs;
  }

  /** `a` is `b` with some entries dropped and the rest in their original order. */
  predicate Subsequence(a: seq<BenchmarkResult>, b: seq<BenchmarkResult>)
    decreases |b|
  {
    if a == [] then true
    else if b == [] then false
    else (a[0] == b[0] && Subsequence(a[1..], b[1..])) || Subsequence(a, b[1..])
  }

  /** The filter only drops results: those it keeps stay in their original order. */
  lemma {:induction false} KeepMeasuredSubsequence(rs: seq<BenchmarkResult>)
    ensures Subsequence(KeepMeasured(rs), rs)
  {
    if rs != [] {
      var kept := KeepMeasured(rs[1..]);
      KeepMeasuredSubsequence(rs[1..]);
      if Measured(rs[0]) {
        assert KeepMeasured(rs) == [rs[0]] + kept;
        assert ([rs[0]] + kept)[1..] == kept;
      } else {
        assert KeepMeasured(rs) == kept;
      }
    }
  }

  /** Filtering and then picking one throughput picks the same results as picking first. */
  lemma {:induction false} WithRateKeepMeasured(rs: seq<BenchmarkResult>, v: real)
    ensures WithRate(KeepMeasured(rs), v) == KeepMeasured(WithRate(rs, v))
  {
    if rs != [] {
      WithRateKeepMeasured(rs[1..], v);
      var x := rs[0];
      var kept := KeepMeasured(rs[1..]);
      var same := WithRate(rs[1..], v);
      assert rs == [x] + rs[1..];
      KeepMeasuredCons(x, rs[1..]);
      WithRateCons(x, rs[1..], v);
      if Measured(x) {
        assert KeepMeasured(rs) == [x] + kept;
        WithRateCons(x, kept, v);
      } else {
        assert KeepMeasured(rs) == kept;
      }
      if Rate(x) == v {
        assert WithRate(rs, v) == [x] + same;
        KeepMeasuredCons(x, same);
      } else {
        assert WithRate(rs, v) == same;
      }
    }
  }

  /** The filter keeps exactly the results with a non-zero duration, each as often as
      it occurs. */
  lemma {:induction false} KeepMeasuredSpec(rs: seq<BenchmarkResult>)
    ensures forall r :: r in KeepMeasured(rs) <==> r in rs && Measured(r)
    ensures forall r :: Measured(r) ==> multiset(KeepMeasured(rs))[r] == multiset(rs)[r]
    ensures forall r :: !Measured(r) ==> multiset(KeepMeasured(rs))[r] == 0
  {
    if rs != [] {
      KeepMeasuredSpec(rs[1..]);
      assert rs == [rs[0]] + rs[1..];
    }
  }

  /** A lower bound on every rate is one on every rate the filter keeps. */
  lemma {:induction false} KeepMeasuredBound(rs: seq<BenchmarkResult>, v: real)
    requires forall k :: 0 <= k < |rs| ==> v <= Rate(rs[k])
    ensures forall k :: 0 <= k < |KeepMeasured(rs)| ==> v <= Rate(KeepMeasured(rs)[k])
  {
    if rs != [] {
      KeepMeasuredBound(rs[1..], v);
      assert forall k :: 0 <= k < |rs[1..]| ==> rs[1..][k] == rs[k + 1];
    }
  }

  /** The filter keeps the results it keeps in order; in particular a sorted list stays
      sorted. */
  lemma {:induction false} KeepMeasuredSorted(rs: seq<BenchmarkResult>)
    requires SortedByRate(rs)
    ensures SortedByRate(KeepMeasured(rs))
  {
    if rs != [] {
      assert rs == [rs[0]] + rs[1..];
      SortedCons(rs[0], rs[1..]);
      KeepMeasuredSorted(rs[1..]);
      KeepMeasuredBound(rs[1..], Rate(rs[0]));
      SortedCons(rs[0], KeepMeasured(rs[1..]));
    }
  }

  lemma {:induction false} KeepMeasuredInsert(x: BenchmarkResult, rs: seq<BenchmarkResult>)
    requires SortedByRate(rs)
    ensures KeepMeasured(Insert(x, rs)) == if Measured(x) then Insert(x, KeepMeasured(rs)) else KeepMeasured(rs)
    decreases |rs|, 1
  {
    if rs == [] || Rate(x) <= Rate(rs[0]) {
      KeepMeasuredCons(x, rs);
      if rs != [] {
        SortedCons(rs[0], rs[1..]);
        assert rs == [rs[0]] + rs[1..];
        assert forall k :: 0 <= k < |rs| ==> Rate(x) <= Rate(rs[k]);
        KeepMeasuredBound(rs, Rate(x));
      }
    } else {
      KeepMeasuredInsertLater(x, rs);
    }
  }

  lemma {:induction false} KeepMeasuredInsertLater(x: BenchmarkResult, rs: seq<BenchmarkResult>)
    requires SortedByRate(rs) && rs != [] && Rate(x) > Rate(rs[0])
    ensures KeepMeasured(Insert(x, rs)) == if Measured(x) then Insert(x, KeepMeasured(rs)) else KeepMeasured(rs)
    decreases |rs|, 0
  {
    assert rs == [rs[0]] + rs[1..];
    SortedCons(rs[0], rs[1..]);
    KeepMeasuredInsert(x, rs[1..]);
    assert Insert(x, rs) == [rs[0]] + Insert(x, rs[1..]);
    KeepMeasuredCons(rs[0], Insert(x, rs[1..]));
    KeepMeasuredCons(rs[0], rs[1..]);
    var kept := KeepMeasured(rs[1..]);
    if Measured(x) {
      if Measured(rs[0]) {
        InsertPast(x, rs[0], kept);
        assert KeepMeasured(rs) == [rs[0]] + kept;
      } else {
        assert KeepMeasured(rs) == kept;
      }
    }
  }

  lemma {:induction false} InsertPast(x: BenchmarkResult, y: BenchmarkResult, rs: seq<BenchmarkResult>)
    requires Rate(x) > Rate(y)
    ensures Insert(x, [y] + rs) == [y] + Insert(x, rs)
  {
    assert ([y] + rs)[0] == y;
    assert ([y] + rs)[1..] == rs;
  }

  lemma {:induction false} SortCons(x: BenchmarkResult, rs: seq<BenchmarkResult>)
    ensures SortByRate([x] + rs) == Insert(x, SortByRate(rs))
  {
    assert ([x] + rs)[1..] == rs;
  }

  /** Filtering after sorting is sorting the measured results: the zero-duration
      results, the over-limit sentinels among them, have no effect on how the others
      are ranked. */
  lemma {:induction false} RankingIgnoresUnmeasured(rs: seq<BenchmarkResult>)
    ensures KeepMeasured(SortByRate(rs)) == SortByRate(KeepMeasured(rs))
  {
    if rs != [] {
      RankingIgnoresUnmeasured(rs[1..]);
      SortByRateSorted(rs[1..]);
      KeepMeasuredInsert(rs[0], SortByRate(rs[1..]));
      assert rs == [rs[0]] + rs[1..];
      KeepMeasuredCons(rs[0], rs[1..]);
      assert SortByRate(rs) == Insert(rs[0], SortByRate(rs[1..]));
      if Measured(rs[0]) {
        assert KeepMeasured(rs) == [rs[0]] + KeepMeasured(rs[1..]);
        SortCons(rs[0], KeepMeasured(rs[1..]));
      } else {
        assert KeepMeasured(rs) == KeepMeasured(rs[1..]);
      }
    }
  }

  // ---------------------------------------------------------------------------
  // `max_speed` in `print_results`

  function MaxRate(rs: seq<BenchmarkResult>): (v: real)
    requires rs != []
    ensures forall k :: 0 <= k < |rs| ==> Rate(rs[k]) <= v
    ensures exists k :: 0 <= k < |rs| && Rate(rs[k]) == v
  {
    if |rs| == 1 then Rate(rs[0])
    else
      var rest := MaxRate(rs[1..]);
      assert forall k :: 1 <= k < |rs| ==> rs[k] == rs[1..][k - 1];
      var k :| 0 <= k < |rs[1..]| && Rate(rs[1..][k]) == rest;
      assert rs[k + 1] == rs[1..][k];
      if Rate(rs[0]) >= rest then Rate(rs[0]) else rest
  }

  /** `.max_by(partial_cmp).unwrap_or(1.0)` over the rates. */
  function MaxSpeed(rs: seq<BenchmarkResult>): real
  {
    if rs == [] then 1.0 else MaxRate(rs)
  }

  /** `max_speed` is the best throughput among the results printed, or 1.0 when no
      result is left. */
  lemma {:induction false} MaxSpeedSpec(rs: seq<BenchmarkResult>)
    ensures rs == [] ==> MaxSpeed(rs) == 1.0
    ensures rs != [] ==>
      (forall k :: 0 <= k < |rs| ==> Rate(rs[k]) <= MaxSpeed(rs)) && exists k :: 0 <= k < |rs| && Rate(rs[k]) == MaxSpeed(rs)
  {
    if rs != [] {
      var k :| 0 <= k < |rs| && Rate(rs[k]) == MaxRate(rs);
      assert Rate(rs[k]) == MaxSpeed(rs);
    }
  }

  /** The results are printed in ascending order, so the best speed is the last one's. */
  lemma {:induction false} MaxSpeedOfSorted(rs: seq<BenchmarkResult>)
    requires rs != [] && SortedByRate(rs)
    ensures MaxSpeed(rs) == Rate(rs[|rs| - 1])
  {
    var i :| 0 <= i < |rs| && Rate(rs[i]) == MaxSpeed(rs);
    if i < |rs| - 1 {
      assert Rate(rs[i]) <= Rate(rs[|rs| - 1]);
    }
  }
}
