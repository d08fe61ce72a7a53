/** `main`: which strategies run, in what order, and what is kept of their results
    for `print_results`. */
module Benchmark {
  import opened Types
  import opened Database
  import opened Strategies
  import opened Traces
  import opened Report

  /** The command-line options that decide what runs. */
  datatype Cli = Cli(
    methods: seq<IngestMethod>,  // the positional, comma-separated list
    batchSizes: seq<nat>,        // --batch-sizes
    transactions: bool,          // --transactions
    csvOutput: bool,             // --csv-output
    all: bool)                   // --all

  /** The list `--all` stands for. */
  function AllMethods(): seq<IngestMethod>
  {
    [IngestMethod.InsertValues, IngestMethod.PreparedInsertValues, IngestMethod.InsertUnnest,
     IngestMethod.PreparedInsertUnnest, IngestMethod.Copy, IngestMethod.BinaryCopy]
  }

  /** `--all` names every strategy exactly once, in declaration order. */
  lemma {:induction false} AllMethodsComplete()
    ensures |AllMethods()| == 6
    ensures forall m: IngestMethod :: m in AllMethods()
    ensures forall i, j :: 0 <= i < j < |AllMethods()| ==> AllMethods()[i] != AllMethods()[j]
  {
    var all := AllMethods();
    forall m: IngestMethod
      ensures m in all
    {
      match m
      case InsertValues => assert all[0] == m;
      case PreparedInsertValues => assert all[1] == m;
      case InsertUnnest => assert all[2] == m;
      case PreparedInsertUnnest => assert all[3] == m;
      case Copy => assert all[4] == m;
      case BinaryCopy => assert all[5] == m;
    }
  }

  /** `--all` wins over `--methods`. */
  function SelectMethods(cli: Cli): (ms: seq<IngestMethod>)
    ensures cli.all ==> |ms| == 6 && forall m: IngestMethod :: m in ms
    ensures !cli.all ==> ms == cli.methods
  {
    AllMethodsComplete();
    if cli.all then AllMethods() else cli.methods
  }

  /** One (batch size, strategy) pair per run. */
  type Run = (nat, IngestMethod)

  /** The inner loop: every strategy for batch size `b`. */
  function Pairs(b: nat, ms: seq<IngestMethod>): seq<Run>
  {
    seq(|ms|, j requires 0 <= j < |ms| => (b, ms[j]))
  }

  /** The nested loops: batch sizes outside, strategies inside. */
  function Runs(bs: seq<nat>, ms: seq<IngestMethod>): seq<Run>
  {
    if bs == [] then [] else Runs(bs[..|bs| - 1], ms) + Pairs(bs[|bs| - 1], ms)
  }

  lemma {:induction false} RunsLength(bs: seq<nat>, ms: seq<IngestMethod>)
    ensures |Runs(bs, ms)| == |bs| * |ms|
    decreases |bs|
  {
    if bs != [] {
      RunsLength(bs[..|bs| - 1], ms);
      assert (|bs| - 1) * |ms| + |ms| == |bs| * |ms|;
    }
  }

  lemma {:induction false} RunsAt(bs: seq<nat>, ms: seq<IngestMethod>, i: nat, j: nat)
    requires i < |bs| && j < |ms|
    ensures i * |ms| + j < |Runs(bs, ms)| && Runs(bs, ms)[i * |ms| + j] == (bs[i], ms[j])
    decreases |bs|
  {
    var n := |bs|;
    var front := bs[..n - 1];
    RunsLength(front, ms);
    RunsLength(bs, ms);
    if i < n - 1 {
      RunsAt(front, ms, i, j);
      assert front[i] == bs[i];
    } else {
      assert i * |ms| == |Runs(front, ms)|;
    }
  }

  /** Every batch size is run with every strategy, batch-size-major: run `i * |ms| + j`
      is batch size `i` with strategy `j`. */
  lemma {:induction false} RunsOrder(bs: seq<nat>, ms: seq<IngestMethod>)
    ensures |Runs(bs, ms)| == |bs| * |ms|
    ensures forall i, j :: 0 <= i < |bs| && 0 <= j < |ms| ==> Runs(bs, ms)[i * |ms| + j] == (bs[i], ms[j])
  {
    RunsLength(bs, ms);
    forall i, j | 0 <= i < |bs| && 0 <= j < |ms|
      ensures i * |ms| + j < |Runs(bs, ms)| && Runs(bs, ms)[i * |ms| + j] == (bs[i], ms[j])
    {
      RunsAt(bs, ms, i, j);
    }
  }

  lemma {:induction false} PrefixExtend(a: seq<Run>, b: seq<Run>, c: seq<Run>)
    requires b <= c
    ensures a + b <= a + c
  {
    assert (a + c)[..|a + b|] == a + c[..|b|];
  }

  /** Every run pairs one of the batch sizes with one of the strategies. */
  lemma {:induction false} RunsIndex(bs: seq<nat>, ms: seq<IngestMethod>, k: nat)
    requires k < |Runs(bs, ms)|
    ensures Runs(bs, ms)[k].0 in bs && Runs(bs, ms)[k].1 in ms
    decreases |bs|
  {
    var front := bs[..|bs| - 1];
    if k < |Runs(front, ms)| {
      RunsIndex(front, ms, k);
      assert forall b :: b in front ==> b in bs;
    } else {
      assert Runs(bs, ms)[k] == Pairs(bs[|bs| - 1], ms)[k - |Runs(front, ms)|];
    }
  }

  lemma {:induction false} PairsPrefix(b: nat, ms: seq<IngestMethod>, j: nat)
    requires j < |ms|
    ensures Pairs(b, ms[..j + 1]) == Pairs(b, ms[..j]) + [(b, ms[j])]
    ensures Pairs(b, ms[..j + 1]) <= Pairs(b, ms)
  {
  }

  lemma {:induction false} RunsStep(bs: seq<nat>, ms: seq<IngestMethod>, i: nat)
    requires i < |bs|
    ensures Runs(bs[..i + 1], ms) == Runs(bs[..i], ms) + Pairs(bs[i], ms)
  {
    assert bs[..i + 1][..i] == bs[..i];
  }

  /** The runs done after `i` batch sizes are the first runs of all of them. */
  lemma {:induction false} RunsPrefix(bs: seq<nat>, ms: seq<IngestMethod>, i: nat)
    requires i <= |bs|
    ensures Runs(bs[..i], ms) <= Runs(bs, ms)
    decreases |bs|
  {
    if i < |bs| {
      var front := bs[..|bs| - 1];
      RunsPrefix(front, ms, i);
      assert front[..i] == bs[..i];
    } else {
      assert bs[..i] == bs;
    }
  }

  /** How far the loops have got: the commands sent, the results collected, and the
      error that ended `main`, if one did. */
  datatype Progress = Progress(sent: seq<Cmd>, results: seq<BenchmarkResult>, stopped: Option<Abort>)

  /** One run from log position `pos`: what reaches the server and what the strategy
      returns. */
  datatype Attempt = Attempt(sent: seq<Cmd>, outcome: RunOutcome)

  /** How run `k`, started at log position `pos`, goes. */
  type Stepper = (Run, nat, nat) -> Attempt

  /** The strategies as `main` calls them: the run's batch size and strategy, the
      records and `--transactions`, and `clock(k)` as the elapsed time of run `k`
      that `Instant::now()` measures. */
  function StrategyStep(records: seq<BatterySensorData>, transactions: bool, failures: set<nat>,
                        clock: nat -> nat): Stepper
  {
    (x: Run, pos: nat, k: nat) =>
      Attempt(Issued(Plan(x.1, records, transactions, x.0), pos, failures),
              Outcome(x.1, records, transactions, x.0, clock(k), pos, failures))
  }

  /** `p` followed by one more run. */
  function Then(p: Progress, a: Attempt): Progress
  {
    if p.stopped.Some? then p
    else
      match a.outcome
      case Done(r) => Progress(p.sent + a.sent, p.results + [r], None)
      case Aborted(e) => Progress(p.sent + a.sent, p.results, Some(e))
  }

  /** The runs `runs` one after another from log position `at`. A strategy's error is
      passed on by `?`, so the first abort ends the loops. */
  function Suite(runs: seq<Run>, at: nat, step: Stepper): Progress
  {
    if runs == [] then Progress([], [], None)
    else
      var p := Suite(runs[..|runs| - 1], at, step);
      Then(p, step(runs[|runs| - 1], at + |p.sent|, |runs| - 1))
  }

  lemma {:induction false} SuiteSnoc(runs: seq<Run>, x: Run, at: nat, step: Stepper)
    ensures var p := Suite(runs, at, step);
      Suite(runs + [x], at, step) == Then(p, step(x, at + |p.sent|, |runs|))
  {
    assert (runs + [x])[..|runs|] == runs;
  }

  /** What one more run adds to the log and to the results, for a log that held
      `before` and holds `after` once the run is done. */
  lemma {:induction false} SuiteAdvance(done: seq<Run>, x: Run, log0: seq<Cmd>, step: Stepper, before: seq<Cmd>,
                                        after: seq<Cmd>, o: RunOutcome)
    requires before == log0 + Suite(done, |log0|, step).sent && Suite(done, |log0|, step).stopped.None?
    requires after == before + step(x, |before|, |done|).sent && o == step(x, |before|, |done|).outcome
    ensures var p := Suite(done + [x], |log0|, step);
      after == log0 + p.sent
      && p.stopped == (if o.Aborted? then Some(o.reason) else None)
      && p.results == Suite(done, |log0|, step).results + (if o.Done? then [o.result] else [])
  {
    SuiteSnoc(done, x, |log0|, step);
    var p := Suite(done, |log0|, step);
    assert log0 + (p.sent + step(x, |before|, |done|).sent) == after;
  }

  /** Once a run has aborted, nothing after it runs. */
  lemma {:induction false} SuiteStoppedStays(prefix: seq<Run>, runs: seq<Run>, at: nat, step: Stepper)
    requires prefix <= runs
    requires Suite(prefix, at, step).stopped.Some?
    ensures Suite(runs, at, step) == Suite(prefix, at, step)
    decreases |runs|
  {
    if |runs| > |prefix| {
      var front := runs[..|runs| - 1];
      assert prefix <= front;
      SuiteStoppedStays(prefix, front, at, step);
    } else {
      assert runs == prefix;
    }
  }

  /** Without an abort there is one result per run, in run order, each the one its
      run returns. */
  lemma {:induction false} SuiteResults(runs: seq<Run>, at: nat, step: Stepper, expected: (Run, nat) -> BenchmarkResult)
    requires forall x: Run, pos: nat, k: nat :: step(x, pos, k).outcome.Done? ==> step(x, pos, k).outcome.result == expected(x, k)
    ensures var p := Suite(runs, at, step);
      p.stopped.None? ==>
        |p.results| == |runs| && forall k :: 0 <= k < |runs| ==> p.results[k] == expected(runs[k], k)
    decreases |runs|
  {
    if runs != [] {
      var n := |runs|;
      var front := runs[..n - 1];
      SuiteResults(front, at, step, expected);
      assert forall k :: 0 <= k < n - 1 ==> front[k] == runs[k];
    }
  }

  /** A DbError that ends the loops names a position of the log that the server
      rejected and that the runs reached. */
  lemma {:induction false} SuiteErrorPosition(runs: seq<Run>, at: nat, step: Stepper, failures: set<nat>)
    requires forall x: Run, pos: nat, k: nat :: step(x, pos, k).outcome.Aborted? && step(x, pos, k).outcome.reason.DbError? ==>
      var e := step(x, pos, k).outcome.reason.position;
      e in failures && pos <= e < pos + |step(x, pos, k).sent|
    ensures var p := Suite(runs, at, step);
      p.stopped.Some? && p.stopped.value.DbError? ==>
        p.stopped.value.position in failures && at <= p.stopped.value.position < at + |p.sent|
    decreases |runs|
  {
    if runs != [] {
      SuiteErrorPosition(runs[..|runs| - 1], at, step, failures);
    }
  }

  /** A ZeroChunkSize that ends the loops comes from a run whose batch size is 0. */
  lemma {:induction false} SuiteZeroChunkSize(runs: seq<Run>, at: nat, step: Stepper)
    requires forall x: Run, pos: nat, k: nat :: step(x, pos, k).outcome == Aborted(ZeroChunkSize) ==> x.0 == 0
    ensures Suite(runs, at, step).stopped == Some(ZeroChunkSize) ==> exists k :: 0 <= k < |runs| && runs[k].0 == 0
    decreases |runs|
  {
    if runs != [] {
      var n := |runs|;
      var front := runs[..n - 1];
      SuiteZeroChunkSize(front, at, step);
      if Suite(front, at, step).stopped == Some(ZeroChunkSize) {
        var k :| 0 <= k < |front| && front[k].0 == 0;
        assert runs[k] == front[k];
      }
    }
  }

  /** When every run from position `at` on with a non-zero batch size completes, and
      no batch size is zero, the loops run to the end. */
  lemma {:induction false} SuiteCompletes(runs: seq<Run>, at: nat, step: Stepper)
    requires forall x: Run, pos: nat, k: nat :: at <= pos && x.0 > 0 ==> step(x, pos, k).outcome.Done?
    requires forall k :: 0 <= k < |runs| ==> runs[k].0 > 0
    ensures Suite(runs, at, step).stopped.None?
    decreases |runs|
  {
    if runs != [] {
      var n := |runs|;
      var front := runs[..n - 1];
      assert forall k :: 0 <= k < n - 1 ==> front[k] == runs[k];
      SuiteCompletes(front, at, step);
      assert runs[n - 1].0 > 0;
    }
  }

  /** A strategy run returns the result for its own strategy, batch size and elapsed
      time, stops on a position the server rejected, panics only for batch size 0, and
      completes when nothing from its first position on is rejected. */
  lemma {:induction false} StrategyStepSpec(records: seq<BatterySensorData>, transactions: bool, failures: set<nat>,
                                            clock: nat -> nat, x: Run, pos: nat, k: nat)
    ensures var a := StrategyStep(records, transactions, failures, clock)(x, pos, k);
      (a.outcome.Done? ==> a.outcome.result == ResultFor(x.1, |records|, transactions, x.0, clock(k)))
      && (a.outcome.Aborted? && a.outcome.reason.DbError? ==>
            a.outcome.reason.position in failures && pos <= a.outcome.reason.position < pos + |a.sent|)
      && (a.outcome == Aborted(ZeroChunkSize) ==> x.0 == 0)
      && ((forall e :: e in failures ==> e < pos) && x.0 > 0 ==> a.outcome.Done?)
  {
    var plan := Plan(x.1, records, transactions, x.0);
    OutcomeCases(x.1, records, transactions, x.0, clock(k), pos, failures);
    IssuedSpec(plan, pos, failures);
  }

  /** Without an abort, `main` collects one result per (batch size, strategy) pair,
      in the order of `Runs`, each the result of that strategy for that batch size and
      that run's elapsed time. */
  lemma {:induction false} BenchmarkResults(bs: seq<nat>, ms: seq<IngestMethod>, records: seq<BatterySensorData>,
                                            transactions: bool, at: nat, failures: set<nat>, clock: nat -> nat)
    ensures var runs := Runs(bs, ms);
      var p := Suite(runs, at, StrategyStep(records, transactions, failures, clock));
      p.stopped.None? ==>
        |p.results| == |runs| == |bs| * |ms|
        && forall k :: 0 <= k < |runs| ==>
             p.results[k] == ResultFor(runs[k].1, |records|, transactions, runs[k].0, clock(k))
  {
    var step := StrategyStep(records, transactions, failures, clock);
    var expected := (x: Run, k: nat) => ResultFor(x.1, |records|, transactions, x.0, clock(k));
    forall x: Run, pos: nat, k: nat | step(x, pos, k).outcome.Done?
      ensures step(x, pos, k).outcome.result == expected(x, k)
    {
      StrategyStepSpec(records, transactions, failures, clock, x, pos, k);
    }
    SuiteResults(Runs(bs, ms), at, step, expected);
    RunsLength(bs, ms);
  }

  /** What ends `main` early: a command the server rejected, at or after the first
      position of the benchmark, or a zero batch size reaching `chunks`; and when the
      server rejects nothing and no batch size is zero, nothing does. */
  lemma {:induction false} BenchmarkAborts(bs: seq<nat>, ms: seq<IngestMethod>, records: seq<BatterySensorData>,
                                           transactions: bool, at: nat, failures: set<nat>, clock: nat -> nat)
    ensures var p := Suite(Runs(bs, ms), at, StrategyStep(records, transactions, failures, clock));
      p.stopped.Some? && p.stopped.value.DbError? ==>
        p.stopped.value.position in failures && at <= p.stopped.value.position < at + |p.sent|
    ensures Suite(Runs(bs, ms), at, StrategyStep(records, transactions, failures, clock)).stopped == Some(ZeroChunkSize)
      ==> exists i :: 0 <= i < |bs| && bs[i] == 0 && ms != []
    ensures (forall e :: e in failures ==> e < at) && (forall i :: 0 <= i < |bs| ==> bs[i] > 0) ==>
      Suite(Runs(bs, ms), at, StrategyStep(records, transactions, failures, clock)).stopped.None?
  {
    var step := StrategyStep(records, transactions, failures, clock);
    var runs := Runs(bs, ms);
    forall x: Run, pos: nat, k: nat
      ensures step(x, pos, k).outcome.Aborted? && step(x, pos, k).outcome.reason.DbError? ==>
        var e := step(x, pos, k).outcome.reason.position;
        e in failures && pos <= e < pos + |step(x, pos, k).sent|
      ensures step(x, pos, k).outcome == Aborted(ZeroChunkSize) ==> x.0 == 0
    {
      StrategyStepSpec(records, transactions, failures, clock, x, pos, k);
    }
    SuiteErrorPosition(runs, at, step, failures);
    SuiteZeroChunkSize(runs, at, step);
    RunsOrder(bs, ms);
    if Suite(runs, at, step).stopped == Some(ZeroChunkSize) {
      var k :| 0 <= k < |runs| && runs[k].0 == 0;
      RunsIndex(bs, ms, k);
    }
    if (forall e :: e in failures ==> e < at) && (forall i :: 0 <= i < |bs| ==> bs[i] > 0) {
      forall x: Run, pos: nat, k: nat | at <= pos && x.0 > 0
        ensures step(x, pos, k).outcome.Done?
      {
        StrategyStepSpec(records, transactions, failures, clock, x, pos, k);
      }
      forall k | 0 <= k < |runs|
        ensures runs[k].0 > 0
      {
        RunsIndex(bs, ms, k);
      }
      SuiteCompletes(runs, at, step);
    }
  }

  /** What `print_results` is given: the measured results in ascending order of
      throughput, the number of records, and the best throughput. */
  datatype Summary = Summary(rows: seq<BenchmarkResult>, totalRecords: nat, maxSpeed: real)

  function Summarize(results: seq<BenchmarkResult>, totalRecords: nat): Summary
  {
    var rows := KeepMeasured(SortByRate(results));
    Summary(rows, totalRecords, MaxSpeed(rows))
  }

  /** The rows are ascending by throughput. */
  lemma {:induction false} SummarizeSorted(results: seq<BenchmarkResult>, totalRecords: nat)
    ensures SortedByRate(Summarize(results, totalRecords).rows)
  {
    SortByRateSorted(results);
    KeepMeasuredSorted(SortByRate(results));
  }

  /** A result is a row iff it was measured: runs skipped by the sentinel are dropped. */
  lemma {:induction false} SummarizeMembers(results: seq<BenchmarkResult>, totalRecords: nat)
    ensures var s := Summarize(results, totalRecords);
      forall r :: r in s.rows <==> r in results && r.duration > 0
  {
    KeepMeasuredSpec(SortByRate(results));
    SortByRateSorted(results);
    forall r
      ensures r in SortByRate(results) <==> r in results
    {
      assert r in SortByRate(results) <==> r in multiset(SortByRate(results));
      assert r in results <==> r in multiset(results);
    }
  }

  /** Among rows of equal throughput the order of the runs is kept. */
  lemma {:induction false} SummarizeStable(results: seq<BenchmarkResult>, totalRecords: nat)
    ensures var s := Summarize(results, totalRecords);
      forall v :: WithRate(s.rows, v) == KeepMeasured(WithRate(results, v))
  {
    forall v
      ensures WithRate(KeepMeasured(SortByRate(results)), v) == KeepMeasured(WithRate(results, v))
    {
      SortByRateStable(results, v);
      WithRateKeepMeasured(SortByRate(results), v);
    }
  }

  /** The best speed is the last row's throughput, or 1.0 when no row is left. */
  lemma {:induction false} SummarizeMaxSpeed(results: seq<BenchmarkResult>, totalRecords: nat)
    ensures var s := Summarize(results, totalRecords);
      (s.rows == [] ==> s.maxSpeed == 1.0)
      && (s.rows != [] ==> s.maxSpeed == Rate(s.rows[|s.rows| - 1]))
  {
    var s := Summarize(results, totalRecords);
    SummarizeSorted(results, totalRecords);
    if s.rows != [] {
      MaxSpeedOfSorted(s.rows);
    }
  }

  /** One pass of the inner loop: run `k`, strategy `x.1` with batch size `x.0`. */
  method RunNext(client: Client, x: Run, records: seq<BatterySensorData>, transactions: bool, clock: nat -> nat,
                 k: nat, ghost log0: seq<Cmd>, ghost done: seq<Run>, ghost step: Stepper)
    returns (o: RunOutcome)
    requires step == StrategyStep(records, transactions, client.failures, clock)
    requires k == |done|
    requires client.log == log0 + Suite(done, |log0|, step).sent && Suite(done, |log0|, step).stopped.None?
    modifies client
    ensures var p := Suite(done + [x], |log0|, step);
      client.log == log0 + p.sent
      && p.stopped == (if o.Aborted? then Some(o.reason) else None)
      && p.results == Suite(done, |log0|, step).results + (if o.Done? then [o.result] else [])
  {
    ghost var before := client.log;
    o := RunOne(client, x, records, transactions, clock, k, step, |before|);
    SuiteAdvance(done, x, log0, step, before, client.log, o);
  }

  /** One run of a strategy, `x.1` with batch size `x.0`, from log position `pos`. */
  method RunOne(client: Client, x: Run, records: seq<BatterySensorData>, transactions: bool, clock: nat -> nat,
                k: nat, ghost step: Stepper, ghost pos: nat)
    returns (o: RunOutcome)
    requires step == StrategyStep(records, transactions, client.failures, clock)
    requires pos == |client.log|
    modifies client
    ensures client.log == old(client.log) + step(x, pos, k).sent && o == step(x, pos, k).outcome
  {
    o := RunStrategy(client, x.1, records, transactions, x.0, clock(k));
  }

  /** The inner loop for batch size `b`, after the runs `prior`: every strategy of
      `methods` in turn, until one aborts. */
  method RunBatch(client: Client, b: nat, methods: seq<IngestMethod>, records: seq<BatterySensorData>,
                  transactions: bool, clock: nat -> nat, results0: seq<BenchmarkResult>, k0: nat,
                  ghost log0: seq<Cmd>, ghost prior: seq<Run>, ghost step: Stepper)
    returns (results: seq<BenchmarkResult>, stopped: Option<Abort>, k: nat)
    requires step == StrategyStep(records, transactions, client.failures, clock)
    requires k0 == |prior|
    requires client.log == log0 + Suite(prior, |log0|, step).sent
    requires Suite(prior, |log0|, step).results == results0 && Suite(prior, |log0|, step).stopped.None?
    modifies client
    ensures var p := Suite(prior + Pairs(b, methods), |log0|, step);
      client.log == log0 + p.sent && results == p.results && stopped == p.stopped
    ensures stopped.None? ==> k == k0 + |methods|
  {
    results, stopped, k := results0, None, k0;
    ghost var done := prior;
    for j := 0 to |methods|
      invariant done == prior + Pairs(b, methods[..j]) && k == |done|
      invariant client.log == log0 + Suite(done, |log0|, step).sent
      invariant results == Suite(done, |log0|, step).results && Suite(done, |log0|, step).stopped.None?
    {
      var x: Run := (b, methods[j]);
      var o := RunNext(client, x, records, transactions, clock, k, log0, done, step);
      PairsPrefix(b, methods, j);
      done := done + [x];
      if o.Aborted? {
        PrefixExtend(prior, Pairs(b, methods[..j + 1]), Pairs(b, methods));
        SuiteStoppedStays(done, prior + Pairs(b, methods), |log0|, step);
        return results, Some(o.reason), k + 1;
      }
      results := results + [o.result];
      k := k + 1;
    }
    assert methods[..|methods|] == methods;
  }

  /** `main` from the point where the client is connected and the records are read.
      The first strategy error is returned, as `?` does; otherwise the summary that
      `print_results` is given. */
  method RunBenchmark(client: Client, cli: Cli, records: seq<BatterySensorData>, clock: nat -> nat)
    returns (out: Result<Summary, Abort>)
    modifies client
    ensures var p := Suite(Runs(cli.batchSizes, SelectMethods(cli)), |old(client.log)|,
                           StrategyStep(records, cli.transactions, client.failures, clock));
      client.log == old(client.log) + p.sent
      && out == if p.stopped.Some? then Err(p.stopped.value) else Ok(Summarize(p.results, |records|))
  {
    var methods := SelectMethods(cli);
    var bs := cli.batchSizes;
    ghost var log0 := client.log;
    ghost var step := StrategyStep(records, cli.transactions, client.failures, clock);
    var results: seq<BenchmarkResult> := [];
    var k := 0;
    for i := 0 to |bs|
      invariant k == |Runs(bs[..i], methods)|
      invariant client.log == log0 + Suite(Runs(bs[..i], methods), |log0|, step).sent
      invariant Suite(Runs(bs[..i], methods), |log0|, step).results == results
      invariant Suite(Runs(bs[..i], methods), |log0|, step).stopped.None?
    {
      var stopped;
      RunsStep(bs, methods, i);
      results, stopped, k := RunBatch(client, bs[i], methods, records, cli.transactions, clock, results, k,
                                      log0, Runs(bs[..i], methods), step);
      if stopped.Some? {
        RunsPrefix(bs, methods, i + 1);
        SuiteStoppedStays(Runs(bs[..i + 1], methods), Runs(bs, methods), |log0|, step);
        return Err(stopped.value);
      }
    }
    assert bs[..|bs|] == bs;
    out := Ok(Summarize(results, |records|));
  }
}
