/** The six ingestion strategies and `truncate_table`. Each strategy resets the table,
    optionally opens a transaction, sends one data operation per chunk and optionally
    commits; it gives up at the first error the server reports. */
module Strategies {
  import opened Types
  import opened Chunking
  import opened Statements
  import opened Database

  /** The VALUES strategies refuse batch sizes above this. The check is on the batch
      size itself, not on the 7 * batch_size placeholders it implies. */
  const MaxValuesBatch: nat := 4000

  /** Why a strategy did not produce a result: the server reported an error for the
      command at log position `position`, or `chunks(0)` panicked. */
  datatype Abort = DbError(position: nat) | ZeroChunkSize

  datatype RunOutcome = Done(result: BenchmarkResult) | Aborted(reason: Abort)

  /** The method label each strategy puts in its result. */
  function Label(m: IngestMethod): string
  {
    match m
    case InsertValues => "Insert VALUES"
    case PreparedInsertValues => "Prepared Insert VALUES"
    case InsertUnnest => "UNNEST insert"
    case PreparedInsertUnnest => "Prepared Insert UNNEST"
    case Copy => "Copy"
    case BinaryCopy => "Binary Copy"
  }

  /** Which strategy a reported label names. */
  function MethodOfLabel(name: string): Option<IngestMethod>
  {
    if name == "Insert VALUES" then Some(IngestMethod.InsertValues)
    else if name == "Prepared Insert VALUES" then Some(IngestMethod.PreparedInsertValues)
    else if name == "UNNEST insert" then Some(IngestMethod.InsertUnnest)
    else if name == "Prepared Insert UNNEST" then Some(IngestMethod.PreparedInsertUnnest)
    else if name == "Copy" then Some(IngestMethod.Copy)
    else if name == "Binary Copy" then Some(IngestMethod.BinaryCopy)
    else None
  }

  /** The labels tell the strategies apart: each names its own strategy, so no two
      strategies report the same name. */
  lemma {:induction false} LabelsDistinct(m: IngestMethod, m': IngestMethod)
    ensures MethodOfLabel(Label(m)) == Some(m)
    ensures Label(m) == Label(m') <==> m == m'
  {
    assert MethodOfLabel(Label(m')) == Some(m');
  }

  /** The over-limit case of the two VALUES strategies. */
  predicate IsSentinel(m: IngestMethod, batchSize: nat)
  {
    (m == IngestMethod.InsertValues || m == IngestMethod.PreparedInsertValues) && batchSize > MaxValuesBatch
  }

  /** `records.len() as f64 / duration.as_secs_f64()`, for a duration in nanoseconds,
      in exact arithmetic. A zero duration gives 0 here, where `f64` division gives infinity or NaN;
      the report drops zero-duration results before it shows any rate. */
  function RowsPerSec(rows: nat, elapsed: nat): (r: real)
    ensures r >= 0.0
    ensures elapsed > 0 ==> r * (elapsed as real) == (rows as real) * 1000000000.0
    ensures elapsed == 0 ==> r == 0.0
  {
    if elapsed == 0 then 0.0 else (rows as real) * 1000000000.0 / (elapsed as real)
  }

  /** The result a strategy returns when it gets to the end: the zero-duration,
      zero-throughput sentinel when it is over the limit, the measured one otherwise. */
  function ResultFor(m: IngestMethod, rows: nat, transactions: bool, batchSize: nat, elapsed: nat): BenchmarkResult
  {
    if IsSentinel(m, batchSize) then CreateBenchmarkResult(Label(m), 0, 0.0, transactions, batchSize)
    else CreateBenchmarkResult(Label(m), elapsed, RowsPerSec(rows, elapsed), transactions, batchSize)
  }

  /** `create_benchmark_result`, which takes its arguments in a different order from
      the fields of the record. */
  function CreateBenchmarkResult(methodName: string, duration: nat, rowsPerSec: real, transactions: bool,
                                 batchSize: nat): BenchmarkResult
  {
    BenchmarkResult(methodName, batchSize, transactions, duration, rowsPerSec)
  }

  // ---------------------------------------------------------------------------
  // The commands each strategy sends when nothing fails

  /** `truncate_table`: the four statements, in order. */
  function ResetCommands(): seq<Cmd>
  {
    [SimpleQuery(CreateTableIfNotExists), SimpleQuery(Truncate), SimpleQuery(DisableAutovacuum), SimpleQuery(Checkpoint)]
  }

  function BeginCommands(transactions: bool): seq<Cmd>
  {
    if transactions then [SimpleQuery(Begin)] else []
  }

  function CommitCommands(transactions: bool): seq<Cmd>
  {
    if transactions then [SimpleQuery(Commit)] else []
  }

  /** The four INSERT strategies, as opposed to the two COPY ones. */
  predicate IsInsert(m: IngestMethod)
  {
    !m.Copy? && !m.BinaryCopy?
  }

  predicate IsPrepared(m: IngestMethod)
  {
    m.PreparedInsertValues? || m.PreparedInsertUnnest?
  }

  /** The statement an INSERT strategy executes: the VALUES template built for
      `batchSize`, whatever the length of the chunk, or the UNNEST statement. */
  function StatementFor(m: IngestMethod, batchSize: nat): Statement
  {
    if m.InsertValues? || m.PreparedInsertValues? then ValuesInsert(ValuesTemplate(batchSize)) else UnnestInsert
  }

  /** The `client.prepare` of the two prepared strategies. */
  function PrepareCommands(m: IngestMethod, batchSize: nat): seq<Cmd>
  {
    if IsPrepared(m) then [Prepare(StatementFor(m, batchSize))] else []
  }

  /** One row write per reading, all seven fields in column order. */
  function CopyRowCommands(chunk: seq<BatterySensorData>): seq<Cmd>
  {
    if chunk == [] then [] else [WriteRow(RowValues(chunk[0], IdFirst))] + CopyRowCommands(chunk[1..])
  }

  /** The `execute` call of an INSERT strategy for one chunk: the statement, prepared
      or not, and the parameters built from the chunk. */
  function ExecuteFor(m: IngestMethod, batchSize: nat, chunk: seq<BatterySensorData>): Cmd
  {
    var stmt := StatementFor(m, batchSize);
    var target := if IsPrepared(m) then Prepared(stmt) else Unprepared(stmt);
    match m
    case InsertValues => Execute(target, ValuesParams(chunk, IdFirst))
    case PreparedInsertValues => Execute(target, ValuesParams(chunk, TimestampFirst))
    case _ => Execute(target, UnnestParams(Transpose(chunk)))
  }

  /** The data operation for one chunk: one `execute`, or a COPY of its rows. */
  function ChunkCommands(m: IngestMethod, batchSize: nat, chunk: seq<BatterySensorData>): seq<Cmd>
  {
    if IsInsert(m) then [ExecuteFor(m, batchSize, chunk)]
    else [CopyIn(FormatOf(m))] + (CopyRowCommands(chunk) + [Finish])
  }

  /** The COPY format of the text and the binary COPY strategy. */
  function FormatOf(m: IngestMethod): CopyFormat
  {
    if m.BinaryCopy? then Binary else Text
  }

  function DataCommands(m: IngestMethod, batchSize: nat, chunks: seq<seq<BatterySensorData>>): seq<Cmd>
  {
    if chunks == [] then [] else ChunkCommands(m, batchSize, chunks[0]) + DataCommands(m, batchSize, chunks[1..])
  }

  /** The data operations of `records.chunks(batchSize)`; none when `chunks(0)` panics. */
  function PlanData(m: IngestMethod, batchSize: nat, records: seq<BatterySensorData>): seq<Cmd>
  {
    if batchSize == 0 then [] else DataCommands(m, batchSize, Chunks(records, batchSize))
  }

  /** What follows the data operations: COMMIT, unless `chunks(0)` panicked first. */
  function ChunkPart(transactions: bool, batchSize: nat, data: seq<Cmd>): seq<Cmd>
  {
    if batchSize == 0 then [] else data + CommitCommands(transactions)
  }

  /** What follows the reset: nothing for the sentinel; otherwise BEGIN, PREPARE, the
      data operations `data` and COMMIT. */
  function StrategyBody(m: IngestMethod, transactions: bool, batchSize: nat, data: seq<Cmd>): seq<Cmd>
  {
    if IsSentinel(m, batchSize) then []
    else BeginCommands(transactions) + (PrepareCommands(m, batchSize) + ChunkPart(transactions, batchSize, data))
  }

  function StrategyPlan(m: IngestMethod, transactions: bool, batchSize: nat, data: seq<Cmd>): seq<Cmd>
  {
    ResetCommands() + StrategyBody(m, transactions, batchSize, data)
  }

  /** Every command strategy `m` sends when the server reports no error. */
  function Plan(m: IngestMethod, records: seq<BatterySensorData>, transactions: bool, batchSize: nat): seq<Cmd>
  {
    StrategyPlan(m, transactions, batchSize, PlanData(m, batchSize, records))
  }

  /** A strategy with a usable batch size panics in `chunks(0)`. */
  predicate Panics(m: IngestMethod, batchSize: nat)
  {
    !IsSentinel(m, batchSize) && batchSize == 0
  }

  /** What a strategy whose commands are `plan`, sent from log position `at`, returns:
      the first error the server reports, else the panic, else `result`. */
  function OutcomeOf(plan: seq<Cmd>, at: nat, failures: set<nat>, panics: bool, result: BenchmarkResult): RunOutcome
  {
    if !AllSucceed(|plan|, at, failures) then
      IssuedSpec(plan, at, failures);
      Aborted(DbError(at + |Issued(plan, at, failures)| - 1))
    else if panics then Aborted(ZeroChunkSize)
    else Done(result)
  }

  /** What strategy `m` returns when its first command goes to log position `at`. */
  function Outcome(m: IngestMethod, records: seq<BatterySensorData>, transactions: bool, batchSize: nat,
                   elapsed: nat, at: nat, failures: set<nat>): RunOutcome
  {
    OutcomeOf(Plan(m, records, transactions, batchSize), at, failures, Panics(m, batchSize),
              ResultFor(m, |records|, transactions, batchSize, elapsed))
  }

  // ---------------------------------------------------------------------------
  // The strategies

  method TruncateTable(client: Client) returns (ok: bool)
    modifies client
    ensures client.log == old(client.log) + Issued(ResetCommands(), |old(client.log)|, client.failures)
    ensures ok <==> AllSucceed(|ResetCommands()|, |old(client.log)|, client.failures)
  {
    ghost var log0 := client.log;
    ghost var plan := ResetCommands();
    ok := Perform(client, SimpleQuery(CreateTableIfNotExists), log0, plan, plan);
    if !ok { return; }
    ok := Perform(client, SimpleQuery(Truncate), log0, plan, plan[1..]);
    if !ok { return; }
    ok := Perform(client, SimpleQuery(DisableAutovacuum), log0, plan, plan[2..]);
    if !ok { return; }
    ok := Perform(client, SimpleQuery(Checkpoint), log0, plan, plan[3..]);
    if ok {
      assert client.log == log0 + plan;
      IssuedSpec(plan, |log0|, client.failures);
    }
  }

  /** After the reset the log is either final (an error) or `log0 + ResetCommands()`
      with `body` still to send. */
  lemma {:induction false} AfterReset(body: seq<Cmd>, log0: seq<Cmd>, log: seq<Cmd>, failures: set<nat>)
    requires log == log0 + Issued(ResetCommands(), |log0|, failures)
    ensures AllSucceed(|ResetCommands()|, |log0|, failures) ==>
      log + body == log0 + (ResetCommands() + body) && AllSucceed(|log| - |log0|, |log0|, failures)
    ensures !AllSucceed(|ResetCommands()|, |log0|, failures) ==>
      log == log0 + Issued(ResetCommands() + body, |log0|, failures)
      && !AllSucceed(|ResetCommands() + body|, |log0|, failures)
  {
    IssuedSpec(ResetCommands(), |log0|, failures);
    IssuedAppend(ResetCommands(), body, |log0|, failures);
  }

  /** The outcome of a strategy that stopped at the error its last command got. */
  lemma {:induction false} Failed(plan: seq<Cmd>, log0: seq<Cmd>, log: seq<Cmd>, failures: set<nat>, panics: bool, result: BenchmarkResult)
    requires log == log0 + Issued(plan, |log0|, failures) && !AllSucceed(|plan|, |log0|, failures)
    ensures OutcomeOf(plan, |log0|, failures, panics, result) == Aborted(DbError(|log| - 1))
  {
  }

  /** The outcome of a strategy that sent its whole plan without an error. */
  lemma {:induction false} Completed(plan: seq<Cmd>, log0: seq<Cmd>, log: seq<Cmd>, failures: set<nat>, panics: bool, result: BenchmarkResult)
    requires log == log0 + plan && AllSucceed(|log| - |log0|, |log0|, failures)
    ensures log == log0 + Issued(plan, |log0|, failures)
    ensures OutcomeOf(plan, |log0|, failures, panics, result) == if panics then Aborted(ZeroChunkSize) else Done(result)
  {
    IssuedSpec(plan, |log0|, failures);
  }

  /** What is left of the chunk loop from chunk `i` on. */
  lemma {:induction false} NextChunk(m: IngestMethod, batchSize: nat, chunks: seq<seq<BatterySensorData>>, i: nat, post: seq<Cmd>)
    requires i < |chunks|
    ensures DataCommands(m, batchSize, chunks[i..]) + post ==
      ChunkCommands(m, batchSize, chunks[i]) + (DataCommands(m, batchSize, chunks[i + 1..]) + post)
  {
    assert chunks[i..][1..] == chunks[i + 1..];
  }

  /** `if transactions { client.simple_query("BEGIN")?; }`, where `rest` follows BEGIN in `plan`. */
  method OpenTransaction(client: Client, transactions: bool, ghost log0: seq<Cmd>, ghost plan: seq<Cmd>, ghost rest: seq<Cmd>)
    returns (ok: bool)
    requires |log0| <= |client.log|
    requires client.log + (BeginCommands(transactions) + rest) == log0 + plan
    requires AllSucceed(|client.log| - |log0|, |log0|, client.failures)
    modifies client
    ensures |log0| <= |client.log|
    ensures client.log + rest == log0 + plan
    ensures ok ==> AllSucceed(|client.log| - |log0|, |log0|, client.failures)
    ensures !ok ==> client.log == log0 + Issued(plan, |log0|, client.failures) && !AllSucceed(|plan|, |log0|, client.failures)
  {
    ok := true;
    if transactions {
      ok := Perform(client, SimpleQuery(Begin), log0, plan, [SimpleQuery(Begin)] + rest);
      assert ([SimpleQuery(Begin)] + rest)[1..] == rest;
    } else {
      assert BeginCommands(transactions) + rest == rest;
    }
  }

  /** `if transactions { client.simple_query("COMMIT")?; }`, the last command of `plan`. */
  method CloseTransaction(client: Client, transactions: bool, ghost log0: seq<Cmd>, ghost plan: seq<Cmd>)
    returns (ok: bool)
    requires |log0| <= |client.log|
    requires client.log + CommitCommands(transactions) == log0 + plan
    requires AllSucceed(|client.log| - |log0|, |log0|, client.failures)
    modifies client
    ensures ok ==> client.log == log0 + plan
    ensures ok ==> AllSucceed(|client.log| - |log0|, |log0|, client.failures)
    ensures !ok ==> client.log == log0 + Issued(plan, |log0|, client.failures) && !AllSucceed(|plan|, |log0|, client.failures)
  {
    ok := true;
    if transactions {
      ok := Perform(client, SimpleQuery(Commit), log0, plan, [SimpleQuery(Commit)]);
    } else {
      assert client.log + CommitCommands(transactions) == client.log;
    }
  }

  /** `insert_values`, taking `elapsed` nanoseconds from BEGIN to COMMIT. */
  method InsertValuesStrategy(client: Client, records: seq<BatterySensorData>, transactions: bool, batchSize: nat,
                              elapsed: nat)
    returns (r: RunOutcome)
    modifies client
    ensures client.log == old(client.log) +
      Issued(Plan(IngestMethod.InsertValues, records, transactions, batchSize), |old(client.log)|, client.failures)
    ensures r == Outcome(IngestMethod.InsertValues, records, transactions, batchSize, elapsed,
                         |old(client.log)|, client.failures)
  {
    ghost var m := IngestMethod.InsertValues;
    ghost var data := PlanData(m, batchSize, records);
    ghost var log0 := client.log;
    ghost var plan := StrategyPlan(m, transactions, batchSize, data);
    ghost var panics := Panics(m, batchSize);
    ghost var result := ResultFor(m, |records|, transactions, batchSize, elapsed);
    var ok := TruncateTable(client);
    AfterReset(StrategyBody(m, transactions, batchSize, data), log0, client.log, client.failures);
    if !ok {
      Failed(plan, log0, client.log, client.failures, panics, result);
      return Aborted(DbError(|client.log| - 1));
    }
    if batchSize > MaxValuesBatch {
      Completed(plan, log0, client.log, client.failures, panics, result);
      return Done(CreateBenchmarkResult("Insert VALUES", 0, 0.0, transactions, batchSize));
    }
    ok := InsertValuesRun(client, records, transactions, batchSize, log0, plan);
    if !ok {
      Failed(plan, log0, client.log, client.failures, panics, result);
      return Aborted(DbError(|client.log| - 1));
    }
    Completed(plan, log0, client.log, client.failures, panics, result);
    if batchSize == 0 {
      return Aborted(ZeroChunkSize);
    }
    return Done(CreateBenchmarkResult("Insert VALUES", elapsed, RowsPerSec(|records|, elapsed), transactions, batchSize));
  }

  /** `insert_values` from BEGIN to COMMIT, the last commands of `plan`. With a zero batch
      size it stops where `chunks(0)` panics. */
  method InsertValuesRun(client: Client, records: seq<BatterySensorData>, transactions: bool, batchSize: nat,
                         ghost log0: seq<Cmd>, ghost plan: seq<Cmd>)
    returns (ok: bool)
    requires |log0| <= |client.log|
    requires client.log + (BeginCommands(transactions) + (PrepareCommands(IngestMethod.InsertValues, batchSize) +
      ChunkPart(transactions, batchSize, PlanData(IngestMethod.InsertValues, batchSize, records)))) == log0 + plan
    requires AllSucceed(|client.log| - |log0|, |log0|, client.failures)
    modifies client
    ensures ok ==> client.log == log0 + plan && AllSucceed(|client.log| - |log0|, |log0|, client.failures)
    ensures !ok ==> client.log == log0 + Issued(plan, |log0|, client.failures) && !AllSucceed(|plan|, |log0|, client.failures)
  {
    var m := IngestMethod.InsertValues;
    ghost var chunkPart := ChunkPart(transactions, batchSize, PlanData(m, batchSize, records));
    ok := OpenTransaction(client, transactions, log0, plan, PrepareCommands(m, batchSize) + chunkPart);
    if !ok {
      return;
    }
    var query := BuildValuesTemplate(batchSize);
    var stmt := ValuesInsert(query);
    assert PrepareCommands(m, batchSize) + chunkPart == chunkPart;
    if batchSize == 0 {
      assert client.log + [] == client.log;
      return;
    }
    var chunks := Chunks(records, batchSize);
    ok := InsertChunks(client, m, stmt, chunks, batchSize, log0, plan, CommitCommands(transactions));
    if !ok {
      return;
    }
    ok := CloseTransaction(client, transactions, log0, plan);
  }

  /** `prepared_insert_values`, taking `elapsed` nanoseconds from BEGIN to COMMIT. */
  method PreparedInsertValuesStrategy(client: Client, records: seq<BatterySensorData>, transactions: bool, batchSize: nat,
                              elapsed: nat)
    returns (r: RunOutcome)
    modifies client
    ensures client.log == old(client.log) +
      Issued(Plan(IngestMethod.PreparedInsertValues, records, transactions, batchSize), |old(client.log)|, client.failures)
    ensures r == Outcome(IngestMethod.PreparedInsertValues, records, transactions, batchSize, elapsed,
                         |old(client.log)|, client.failures)
  {
    ghost var m := IngestMethod.PreparedInsertValues;
    ghost var data := PlanData(m, batchSize, records);
    ghost var log0 := client.log;
    ghost var plan := StrategyPlan(m, transactions, batchSize, data);
    ghost var panics := Panics(m, batchSize);
    ghost var result := ResultFor(m, |records|, transactions, batchSize, elapsed);
    var ok := TruncateTable(client);
    AfterReset(StrategyBody(m, transactions, batchSize, data), log0, client.log, client.failures);
    if !ok {
      Failed(plan, log0, client.log, client.failures, panics, result);
      return Aborted(DbError(|client.log| - 1));
    }
    if batchSize > MaxValuesBatch {
      Completed(plan, log0, client.log, client.failures, panics, result);
      return Done(CreateBenchmarkResult("Prepared Insert VALUES", 0, 0.0, transactions, batchSize));
    }
    ok := PreparedInsertValuesRun(client, records, transactions, batchSize, log0, plan);
    if !ok {
      Failed(plan, log0, client.log, client.failures, panics, result);
      return Aborted(DbError(|client.log| - 1));
    }
    Completed(plan, log0, client.log, client.failures, panics, result);
    if batchSize == 0 {
      return Aborted(ZeroChunkSize);
    }
    return Done(CreateBenchmarkResult("Prepared Insert VALUES", elapsed, RowsPerSec(|records|, elapsed), transactions, batchSize));
  }

  /** `prepared_insert_values` from BEGIN to COMMIT, the last commands of `plan`. With a zero batch
      size it stops where `chunks(0)` panics. */
  method PreparedInsertValuesRun(client: Client, records: seq<BatterySensorData>, transactions: bool, batchSize: nat,
                         ghost log0: seq<Cmd>, ghost plan: seq<Cmd>)
    returns (ok: bool)
    requires |log0| <= |client.log|
    requires client.log + (BeginCommands(transactions) + (PrepareCommands(IngestMethod.PreparedInsertValues, batchSize) +
      ChunkPart(transactions, batchSize, PlanData(IngestMethod.PreparedInsertValues, batchSize, records)))) == log0 + plan
    requires AllSucceed(|client.log| - |log0|, |log0|, client.failures)
    modifies client
    ensures ok ==> client.log == log0 + plan && AllSucceed(|client.log| - |log0|, |log0|, client.failures)
    ensures !ok ==> client.log == log0 + Issued(plan, |log0|, client.failures) && !AllSucceed(|plan|, |log0|, client.failures)
  {
    var m := IngestMethod.PreparedInsertValues;
    ghost var chunkPart := ChunkPart(transactions, batchSize, PlanData(m, batchSize, records));
    ok := OpenTransaction(client, transactions, log0, plan, PrepareCommands(m, batchSize) + chunkPart);
    if !ok {
      return;
    }
    var query := BuildValuesTemplate(batchSize);
    var stmt := ValuesInsert(query);
    ok := Perform(client, Prepare(stmt), log0, plan, [Prepare(stmt)] + chunkPart);
    assert ([Prepare(stmt)] + chunkPart)[1..] == chunkPart;
    if !ok {
      return;
    }
    if batchSize == 0 {
      assert client.log + [] == client.log;
      return;
    }
    var chunks := Chunks(records, batchSize);
    ok := InsertChunks(client, m, stmt, chunks, batchSize, log0, plan, CommitCommands(transactions));
    if !ok {
      return;
    }
    ok := CloseTransaction(client, transactions, log0, plan);
  }

  /** `insert_unnest`, taking `elapsed` nanoseconds from BEGIN to COMMIT. */
  method InsertUnnestStrategy(client: Client, records: seq<BatterySensorData>, transactions: bool, batchSize: nat,
                              elapsed: nat)
    returns (r: RunOutcome)
    modifies client
    ensures client.log == old(client.log) +
      Issued(Plan(IngestMethod.InsertUnnest, records, transactions, batchSize), |old(client.log)|, client.failures)
    ensures r == Outcome(IngestMethod.InsertUnnest, records, transactions, batchSize, elapsed,
                         |old(client.log)|, client.failures)
  {
    ghost var m := IngestMethod.InsertUnnest;
    ghost var data := PlanData(m, batchSize, records);
    ghost var log0 := client.log;
    ghost var plan := StrategyPlan(m, transactions, batchSize, data);
    ghost var panics := Panics(m, batchSize);
    ghost var result := ResultFor(m, |records|, transactions, batchSize, elapsed);
    var ok := TruncateTable(client);
    AfterReset(StrategyBody(m, transactions, batchSize, data), log0, client.log, client.failures);
    if !ok {
      Failed(plan, log0, client.log, client.failures, panics, result);
      return Aborted(DbError(|client.log| - 1));
    }
    ok := InsertUnnestRun(client, records, transactions, batchSize, log0, plan);
    if !ok {
      Failed(plan, log0, client.log, client.failures, panics, result);
      return Aborted(DbError(|client.log| - 1));
    }
    Completed(plan, log0, client.log, client.failures, panics, result);
    if batchSize == 0 {
      return Aborted(ZeroChunkSize);
    }
    return Done(CreateBenchmarkResult("UNNEST insert", elapsed, RowsPerSec(|records|, elapsed), transactions, batchSize));
  }

  /** `insert_unnest` from BEGIN to COMMIT, the last commands of `plan`. With a zero batch
      size it stops where `chunks(0)` panics. */
  method InsertUnnestRun(client: Client, records: seq<BatterySensorData>, transactions: bool, batchSize: nat,
                         ghost log0: seq<Cmd>, ghost plan: seq<Cmd>)
    returns (ok: bool)
    requires |log0| <= |client.log|
    requires client.log + (BeginCommands(transactions) + (PrepareCommands(IngestMethod.InsertUnnest, batchSize) +
      ChunkPart(transactions, batchSize, PlanData(IngestMethod.InsertUnnest, batchSize, records)))) == log0 + plan
    requires AllSucceed(|client.log| - |log0|, |log0|, client.failures)
    modifies client
    ensures ok ==> client.log == log0 + plan && AllSucceed(|client.log| - |log0|, |log0|, client.failures)
    ensures !ok ==> client.log == log0 + Issued(plan, |log0|, client.failures) && !AllSucceed(|plan|, |log0|, client.failures)
  {
    var m := IngestMethod.InsertUnnest;
    ghost var chunkPart := ChunkPart(transactions, batchSize, PlanData(m, batchSize, records));
    ok := OpenTransaction(client, transactions, log0, plan, PrepareCommands(m, batchSize) + chunkPart);
    if !ok {
      return;
    }
    var stmt := UnnestInsert;
    assert PrepareCommands(m, batchSize) + chunkPart == chunkPart;
    if batchSize == 0 {
      assert client.log + [] == client.log;
      return;
    }
    var chunks := Chunks(records, batchSize);
    ok := InsertChunks(client, m, stmt, chunks, batchSize, log0, plan, CommitCommands(transactions));
    if !ok {
      return;
    }
    ok := CloseTransaction(client, transactions, log0, plan);
  }

  /** `prepared_insert_unnest`, taking `elapsed` nanoseconds from BEGIN to COMMIT. */
  method PreparedInsertUnnestStrategy(client: Client, records: seq<BatterySensorData>, transactions: bool, batchSize: nat,
                              elapsed: nat)
    returns (r: RunOutcome)
    modifies client
    ensures client.log == old(client.log) +
      Issued(Plan(IngestMethod.PreparedInsertUnnest, records, transactions, batchSize), |old(client.log)|, client.failures)
    ensures r == Outcome(IngestMethod.PreparedInsertUnnest, records, transactions, batchSize, elapsed,
                         |old(client.log)|, client.failures)
  {
    ghost var m := IngestMethod.PreparedInsertUnnest;
    ghost var data := PlanData(m, batchSize, records);
    ghost var log0 := client.log;
    ghost var plan := StrategyPlan(m, transactions, batchSize, data);
    ghost var panics := Panics(m, batchSize);
    ghost var result := ResultFor(m, |records|, transactions, batchSize, elapsed);
    var ok := TruncateTable(client);
    AfterReset(StrategyBody(m, transactions, batchSize, data), log0, client.log, client.failures);
    if !ok {
      Failed(plan, log0, client.log, client.failures, panics, result);
      return Aborted(DbError(|client.log| - 1));
    }
    ok := PreparedInsertUnnestRun(client, records, transactions, batchSize, log0, plan);
    if !ok {
      Failed(plan, log0, client.log, client.failures, panics, result);
      return Aborted(DbError(|client.log| - 1));
    }
    Completed(plan, log0, client.log, client.failures, panics, result);
    if batchSize == 0 {
      return Aborted(ZeroChunkSize);
    }
    return Done(CreateBenchmarkResult("Prepared Insert UNNEST", elapsed, RowsPerSec(|records|, elapsed), transactions, batchSize));
  }

  /** `prepared_insert_unnest` from BEGIN to COMMIT, the last commands of `plan`. With a zero batch
      size it stops where `chunks(0)` panics. */
  method PreparedInsertUnnestRun(client: Client, records: seq<BatterySensorData>, transactions: bool, batchSize: nat,
                         ghost log0: seq<Cmd>, ghost plan: seq<Cmd>)
    returns (ok: bool)
    requires |log0| <= |client.log|
    requires client.log + (BeginCommands(transactions) + (PrepareCommands(IngestMethod.PreparedInsertUnnest, batchSize) +
      ChunkPart(transactions, batchSize, PlanData(IngestMethod.PreparedInsertUnnest, batchSize, records)))) == log0 + plan
    requires AllSucceed(|client.log| - |log0|, |log0|, client.failures)
    modifies client
    ensures ok ==> client.log == log0 + plan && AllSucceed(|client.log| - |log0|, |log0|, client.failures)
    ensures !ok ==> client.log == log0 + Issued(plan, |log0|, client.failures) && !AllSucceed(|plan|, |log0|, client.failures)
  {
    var m := IngestMethod.PreparedInsertUnnest;
    ghost var chunkPart := ChunkPart(transactions, batchSize, PlanData(m, batchSize, records));
    ok := OpenTransaction(client, transactions, log0, plan, PrepareCommands(m, batchSize) + chunkPart);
    if !ok {
      return;
    }
    var stmt := UnnestInsert;
    ok := Perform(client, Prepare(stmt), log0, plan, [Prepare(stmt)] + chunkPart);
    assert ([Prepare(stmt)] + chunkPart)[1..] == chunkPart;
    if !ok {
      return;
    }
    if batchSize == 0 {
      assert client.log + [] == client.log;
      return;
    }
    var chunks := Chunks(records, batchSize);
    ok := InsertChunks(client, m, stmt, chunks, batchSize, log0, plan, CommitCommands(transactions));
    if !ok {
      return;
    }
    ok := CloseTransaction(client, transactions, log0, plan);
  }

  /** `copy`, taking `elapsed` nanoseconds from BEGIN to COMMIT. */
  method CopyStrategy(client: Client, records: seq<BatterySensorData>, transactions: bool, batchSize: nat,
                              elapsed: nat)
    returns (r: RunOutcome)
    modifies client
    ensures client.log == old(client.log) +
      Issued(Plan(IngestMethod.Copy, records, transactions, batchSize), |old(client.log)|, client.failures)
    ensures r == Outcome(IngestMethod.Copy, records, transactions, batchSize, elapsed,
                         |old(client.log)|, client.failures)
  {
    ghost var m := IngestMethod.Copy;
    ghost var data := PlanData(m, batchSize, records);
    ghost var log0 := client.log;
    ghost var plan := StrategyPlan(m, transactions, batchSize, data);
    ghost var panics := Panics(m, batchSize);
    ghost var result := ResultFor(m, |records|, transactions, batchSize, elapsed);
    var ok := TruncateTable(client);
    AfterReset(StrategyBody(m, transactions, batchSize, data), log0, client.log, client.failures);
    if !ok {
      Failed(plan, log0, client.log, client.failures, panics, result);
      return Aborted(DbError(|client.log| - 1));
    }
    ok := CopyRun(client, records, transactions, batchSize, log0, plan);
    if !ok {
      Failed(plan, log0, client.log, client.failures, panics, result);
      return Aborted(DbError(|client.log| - 1));
    }
    Completed(plan, log0, client.log, client.failures, panics, result);
    if batchSize == 0 {
      return Aborted(ZeroChunkSize);
    }
    return Done(CreateBenchmarkResult("Copy", elapsed, RowsPerSec(|records|, elapsed), transactions, batchSize));
  }

  /** `copy` from BEGIN to COMMIT, the last commands of `plan`. With a zero batch
      size it stops where `chunks(0)` panics. */
  method CopyRun(client: Client, records: seq<BatterySensorData>, transactions: bool, batchSize: nat,
                         ghost log0: seq<Cmd>, ghost plan: seq<Cmd>)
    returns (ok: bool)
    requires |log0| <= |client.log|
    requires client.log + (BeginCommands(transactions) + (PrepareCommands(IngestMethod.Copy, batchSize) +
      ChunkPart(transactions, batchSize, PlanData(IngestMethod.Copy, batchSize, records)))) == log0 + plan
    requires AllSucceed(|client.log| - |log0|, |log0|, client.failures)
    modifies client
    ensures ok ==> client.log == log0 + plan && AllSucceed(|client.log| - |log0|, |log0|, client.failures)
    ensures !ok ==> client.log == log0 + Issued(plan, |log0|, client.failures) && !AllSucceed(|plan|, |log0|, client.failures)
  {
    var m := IngestMethod.Copy;
    ghost var chunkPart := ChunkPart(transactions, batchSize, PlanData(m, batchSize, records));
    ok := OpenTransaction(client, transactions, log0, plan, PrepareCommands(m, batchSize) + chunkPart);
    if !ok {
      return;
    }
    assert PrepareCommands(m, batchSize) + chunkPart == chunkPart;
    if batchSize == 0 {
      assert client.log + [] == client.log;
      return;
    }
    var chunks := Chunks(records, batchSize);
    ok := CopyChunks(client, m, chunks, batchSize, log0, plan, CommitCommands(transactions));
    if !ok {
      return;
    }
    ok := CloseTransaction(client, transactions, log0, plan);
  }

  /** `binary_copy`, taking `elapsed` nanoseconds from BEGIN to COMMIT. */
  method BinaryCopyStrategy(client: Client, records: seq<BatterySensorData>, transactions: bool, batchSize: nat,
                              elapsed: nat)
    returns (r: RunOutcome)
    modifies client
    ensures client.log == old(client.log) +
      Issued(Plan(IngestMethod.BinaryCopy, records, transactions, batchSize), |old(client.log)|, client.failures)
    ensures r == Outcome(IngestMethod.BinaryCopy, records, transactions, batchSize, elapsed,
                         |old(client.log)|, client.failures)
  {
    ghost var m := IngestMethod.BinaryCopy;
    ghost var data := PlanData(m, batchSize, records);
    ghost var log0 := client.log;
    ghost var plan := StrategyPlan(m, transactions, batchSize, data);
    ghost var panics := Panics(m, batchSize);
    ghost var result := ResultFor(m, |records|, transactions, batchSize, elapsed);
    var ok := TruncateTable(client);
    AfterReset(StrategyBody(m, transactions, batchSize, data), log0, client.log, client.failures);
    if !ok {
      Failed(plan, log0, client.log, client.failures, panics, result);
      return Aborted(DbError(|client.log| - 1));
    }
    ok := BinaryCopyRun(client, records, transactions, batchSize, log0, plan);
    if !ok {
      Failed(plan, log0, client.log, client.failures, panics, result);
      return Aborted(DbError(|client.log| - 1));
    }
    Completed(plan, log0, client.log, client.failures, panics, result);
    if batchSize == 0 {
      return Aborted(ZeroChunkSize);
    }
    return Done(CreateBenchmarkResult("Binary Copy", elapsed, RowsPerSec(|records|, elapsed), transactions, batchSize));
  }

  /** `binary_copy` from BEGIN to COMMIT, the last commands of `plan`. With a zero batch
      size it stops where `chunks(0)` panics. */
  method BinaryCopyRun(client: Client, records: seq<BatterySensorData>, transactions: bool, batchSize: nat,
                         ghost log0: seq<Cmd>, ghost plan: seq<Cmd>)
    returns (ok: bool)
    requires |log0| <= |client.log|
    requires client.log + (BeginCommands(transactions) + (PrepareCommands(IngestMethod.BinaryCopy, batchSize) +
      ChunkPart(transactions, batchSize, PlanData(IngestMethod.BinaryCopy, batchSize, records)))) == log0 + plan
    requires AllSucceed(|client.log| - |log0|, |log0|, client.failures)
    modifies client
    ensures ok ==> client.log == log0 + plan && AllSucceed(|client.log| - |log0|, |log0|, client.failures)
    ensures !ok ==> client.log == log0 + Issued(plan, |log0|, client.failures) && !AllSucceed(|plan|, |log0|, client.failures)
  {
    var m := IngestMethod.BinaryCopy;
    ghost var chunkPart := ChunkPart(transactions, batchSize, PlanData(m, batchSize, records));
    ok := OpenTransaction(client, transactions, log0, plan, PrepareCommands(m, batchSize) + chunkPart);
    if !ok {
      return;
    }
    assert PrepareCommands(m, batchSize) + chunkPart == chunkPart;
    if batchSize == 0 {
      assert client.log + [] == client.log;
      return;
    }
    var chunks := Chunks(records, batchSize);
    ok := CopyChunks(client, m, chunks, batchSize, log0, plan, CommitCommands(transactions));
    if !ok {
      return;
    }
    ok := CloseTransaction(client, transactions, log0, plan);
  }

  /** The `match method` of `main`'s loop: run the strategy `m` names. */
  method RunStrategy(client: Client, m: IngestMethod, records: seq<BatterySensorData>, transactions: bool,
                     batchSize: nat, elapsed: nat)
    returns (r: RunOutcome)
    modifies client
    ensures client.log == old(client.log) + Issued(Plan(m, records, transactions, batchSize), |old(client.log)|, client.failures)
    ensures r == Outcome(m, records, transactions, batchSize, elapsed, |old(client.log)|, client.failures)
  {
    match m
    case InsertValues => r := InsertValuesStrategy(client, records, transactions, batchSize, elapsed);
    case PreparedInsertValues => r := PreparedInsertValuesStrategy(client, records, transactions, batchSize, elapsed);
    case InsertUnnest => r := InsertUnnestStrategy(client, records, transactions, batchSize, elapsed);
    case PreparedInsertUnnest => r := PreparedInsertUnnestStrategy(client, records, transactions, batchSize, elapsed);
    case Copy => r := CopyStrategy(client, records, transactions, batchSize, elapsed);
    case BinaryCopy => r := BinaryCopyStrategy(client, records, transactions, batchSize, elapsed);
  }

  /** The parameters of one chunk's `execute`, built by the source's loops. */
  method ExecuteCommand(m: IngestMethod, stmt: Statement, chunk: seq<BatterySensorData>, ghost batchSize: nat)
    returns (c: Cmd)
    requires IsInsert(m) && stmt == StatementFor(m, batchSize)
    ensures c == ExecuteFor(m, batchSize, chunk)
  {
    var target := if IsPrepared(m) then Prepared(stmt) else Unprepared(stmt);
    if m.InsertValues? {
      var params := CollectValuesParams(chunk, IdFirst);
      c := Execute(target, params);
    } else if m.PreparedInsertValues? {
      var params := CollectValuesParams(chunk, TimestampFirst);
      c := Execute(target, params);
    } else {
      var cols := CollectColumns(chunk);
      c := Execute(target, UnnestParams(cols));
    }
  }

  /** The chunk loop of an INSERT strategy: one `execute` of `stmt` per chunk, where
      the data operations of `chunks` and then `post` finish `plan`. */
  method InsertChunks(client: Client, m: IngestMethod, stmt: Statement, chunks: seq<seq<BatterySensorData>>,
                      ghost batchSize: nat, ghost log0: seq<Cmd>, ghost plan: seq<Cmd>, ghost post: seq<Cmd>)
    returns (ok: bool)
    requires IsInsert(m) && stmt == StatementFor(m, batchSize)
    requires |log0| <= |client.log|
    requires client.log + (DataCommands(m, batchSize, chunks) + post) == log0 + plan
    requires AllSucceed(|client.log| - |log0|, |log0|, client.failures)
    modifies client
    ensures |log0| <= |client.log|
    ensures ok ==> client.log + post == log0 + plan
    ensures ok ==> AllSucceed(|client.log| - |log0|, |log0|, client.failures)
    ensures !ok ==> client.log == log0 + Issued(plan, |log0|, client.failures) && !AllSucceed(|plan|, |log0|, client.failures)
  {
    ChunkLoopEnds(m, batchSize, chunks, post);
    for i := 0 to |chunks|
      invariant |log0| <= |client.log|
      invariant client.log + (DataCommands(m, batchSize, chunks[i..]) + post) == log0 + plan
      invariant AllSucceed(|client.log| - |log0|, |log0|, client.failures)
    {
      var c := ExecuteCommand(m, stmt, chunks[i], batchSize);
      NextChunk(m, batchSize, chunks, i, post);
      ghost var rest := DataCommands(m, batchSize, chunks[i + 1..]) + post;
      assert ([c] + rest)[1..] == rest;
      ok := Perform(client, c, log0, plan, [c] + rest);
      if !ok {
        return;
      }
    }
    return true;
  }

  /** The chunk loop of `copy` and `binary_copy`. */
  method CopyChunks(client: Client, m: IngestMethod, chunks: seq<seq<BatterySensorData>>,
                    ghost batchSize: nat, ghost log0: seq<Cmd>, ghost plan: seq<Cmd>, ghost post: seq<Cmd>)
    returns (ok: bool)
    requires !IsInsert(m)
    requires |log0| <= |client.log|
    requires client.log + (DataCommands(m, batchSize, chunks) + post) == log0 + plan
    requires AllSucceed(|client.log| - |log0|, |log0|, client.failures)
    modifies client
    ensures |log0| <= |client.log|
    ensures ok ==> client.log + post == log0 + plan
    ensures ok ==> AllSucceed(|client.log| - |log0|, |log0|, client.failures)
    ensures !ok ==> client.log == log0 + Issued(plan, |log0|, client.failures) && !AllSucceed(|plan|, |log0|, client.failures)
  {
    ChunkLoopEnds(m, batchSize, chunks, post);
    for i := 0 to |chunks|
      invariant |log0| <= |client.log|
      invariant client.log + (DataCommands(m, batchSize, chunks[i..]) + post) == log0 + plan
      invariant AllSucceed(|client.log| - |log0|, |log0|, client.failures)
    {
      ok := CopyNext(client, m, chunks, i, batchSize, log0, plan, post);
      if !ok {
        return;
      }
    }
    return true;
  }

  /** The chunk loop starts with all of `chunks` to send and ends with only `post` left. */
  lemma {:induction false} ChunkLoopEnds(m: IngestMethod, batchSize: nat, chunks: seq<seq<BatterySensorData>>, post: seq<Cmd>)
    ensures DataCommands(m, batchSize, chunks[0..]) == DataCommands(m, batchSize, chunks)
    ensures DataCommands(m, batchSize, chunks[|chunks|..]) + post == post
  {
    assert chunks[0..] == chunks;
    assert chunks[|chunks|..] == [];
  }

  /** Chunk `i` of the COPY chunk loop, with the chunks after it and `post` following it in `plan`. */
  method CopyNext(client: Client, m: IngestMethod, chunks: seq<seq<BatterySensorData>>, i: nat,
                  ghost batchSize: nat, ghost log0: seq<Cmd>, ghost plan: seq<Cmd>, ghost post: seq<Cmd>)
    returns (ok: bool)
    requires !IsInsert(m) && i < |chunks|
    requires |log0| <= |client.log|
    requires client.log + (DataCommands(m, batchSize, chunks[i..]) + post) == log0 + plan
    requires AllSucceed(|client.log| - |log0|, |log0|, client.failures)
    modifies client
    ensures |log0| <= |client.log|
    ensures ok ==> client.log + (DataCommands(m, batchSize, chunks[i + 1..]) + post) == log0 + plan
    ensures ok ==> AllSucceed(|client.log| - |log0|, |log0|, client.failures)
    ensures !ok ==> client.log == log0 + Issued(plan, |log0|, client.failures) && !AllSucceed(|plan|, |log0|, client.failures)
  {
    NextCopyChunk(m, batchSize, chunks, i, post);
    ok := CopyChunk(client, FormatOf(m), chunks[i], log0, plan, DataCommands(m, batchSize, chunks[i + 1..]) + post);
  }

  /** One chunk of `copy` or `binary_copy`: `copy_in`, one write per reading, `finish`,
      with `rest` following in `plan`. */
  method CopyChunk(client: Client, format: CopyFormat, chunk: seq<BatterySensorData>,
                   ghost log0: seq<Cmd>, ghost plan: seq<Cmd>, ghost rest: seq<Cmd>)
    returns (ok: bool)
    requires |log0| <= |client.log|
    requires client.log + ([CopyIn(format)] + (CopyRowCommands(chunk) + ([Finish] + rest))) == log0 + plan
    requires AllSucceed(|client.log| - |log0|, |log0|, client.failures)
    modifies client
    ensures |log0| <= |client.log|
    ensures ok ==> client.log + rest == log0 + plan
    ensures ok ==> AllSucceed(|client.log| - |log0|, |log0|, client.failures)
    ensures !ok ==> client.log == log0 + Issued(plan, |log0|, client.failures) && !AllSucceed(|plan|, |log0|, client.failures)
  {
    ghost var finish := [Finish] + rest;
    ghost var rows := CopyRowCommands(chunk) + finish;
    ok := Perform(client, CopyIn(format), log0, plan, [CopyIn(format)] + rows);
    assert ([CopyIn(format)] + rows)[1..] == rows;
    if !ok {
      return;
    }
    ok := CopyRows(client, chunk, log0, plan, finish);
    if !ok {
      return;
    }
    ok := Perform(client, Finish, log0, plan, finish);
    assert finish[1..] == rest;
  }

  /** The commands of the COPY chunks from `i` on, `post` following them, start with
      chunk `i`'s `copy_in`, its row writes and its `finish`. */
  lemma {:induction false} NextCopyChunk(m: IngestMethod, batchSize: nat, chunks: seq<seq<BatterySensorData>>, i: nat, post: seq<Cmd>)
    requires !IsInsert(m) && i < |chunks|
    ensures DataCommands(m, batchSize, chunks[i..]) + post ==
      [CopyIn(FormatOf(m))] + (CopyRowCommands(chunks[i]) + ([Finish] + (DataCommands(m, batchSize, chunks[i + 1..]) + post)))
  {
    NextChunk(m, batchSize, chunks, i, post);
    CopyRegroup(CopyIn(FormatOf(m)), CopyRowCommands(chunks[i]), Finish, DataCommands(m, batchSize, chunks[i + 1..]) + post);
  }

  /** Regrouping one COPY block in front of what follows it. */
  lemma {:induction false} CopyRegroup(open: Cmd, rows: seq<Cmd>, close: Cmd, rest: seq<Cmd>)
    ensures ([open] + (rows + [close])) + rest == [open] + (rows + ([close] + rest))
  {
    assert (rows + [close]) + rest == rows + ([close] + rest);
  }

  /** The row writes of one COPY, where `post` follows the last in `plan`. */
  method CopyRows(client: Client, chunk: seq<BatterySensorData>,
                  ghost log0: seq<Cmd>, ghost plan: seq<Cmd>, ghost post: seq<Cmd>)
    returns (ok: bool)
    requires |log0| <= |client.log|
    requires client.log + (CopyRowCommands(chunk) + post) == log0 + plan
    requires AllSucceed(|client.log| - |log0|, |log0|, client.failures)
    modifies client
    ensures |log0| <= |client.log|
    ensures ok ==> client.log + post == log0 + plan
    ensures ok ==> AllSucceed(|client.log| - |log0|, |log0|, client.failures)
    ensures !ok ==> client.log == log0 + Issued(plan, |log0|, client.failures) && !AllSucceed(|plan|, |log0|, client.failures)
  {
    assert chunk[0..] == chunk;
    for i := 0 to |chunk|
      invariant |log0| <= |client.log|
      invariant client.log + (CopyRowCommands(chunk[i..]) + post) == log0 + plan
      invariant AllSucceed(|client.log| - |log0|, |log0|, client.failures)
    {
      var c := WriteRow(RowValues(chunk[i], IdFirst));
      NextRow(chunk, i, post);
      ghost var after := CopyRowCommands(chunk[i + 1..]) + post;
      assert ([c] + after)[1..] == after;
      ok := Perform(client, c, log0, plan, [c] + after);
      if !ok {
        return;
      }
    }
    assert chunk[|chunk|..] == [];
    return true;
  }

  /** What is left of the row writes from reading `i` on. */
  lemma {:induction false} NextRow(chunk: seq<BatterySensorData>, i: nat, post: seq<Cmd>)
    requires i < |chunk|
    ensures CopyRowCommands(chunk[i..]) + post ==
      [WriteRow(RowValues(chunk[i], IdFirst))] + (CopyRowCommands(chunk[i + 1..]) + post)
  {
    assert chunk[i..][1..] == chunk[i + 1..];
  }
}
