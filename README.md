# pgingester, modelled in Dafny

pgingester is a benchmark. It loads a list of battery-sensor readings and inserts
them into one Postgres table with six strategies:
- multi-row `INSERT ... VALUES`, plain and prepared;
- `INSERT ... SELECT * FROM unnest(...)`, plain and prepared;
- text `COPY`;
- binary `COPY`.

It does this for every batch size given. It records how long each run took and
prints the runs ordered by throughput.

This project models the core of `src/main.rs` and proves properties of that model:
- **chunking** of the readings (`Chunking`);
- the **statements and parameters** each INSERT strategy builds (`Statements`):
  - the VALUES placeholder template;
  - the flattened parameter list, in which the prepared variant binds the timestamp
    first, so its parameters do not read back in column order;
  - the transposition into seven column arrays for `unnest`;
- the **database client**, as a log of commands in which chosen positions fail
  (`Database`);
- the **six strategies and `truncate_table`** as imperative methods over that
  client (`Strategies`). Each is proved to send exactly the commands of a
  specification function `Plan`, up to and including the first one that fails, and
  to return the `Outcome` function of that plan;
- **properties of those command sequences** (`Traces`), for a run in which nothing
  fails:
  - the reset comes first, and BEGIN/COMMIT appear exactly when they should;
  - there is one data operation per chunk;
  - every reading is delivered once and in order;
  - the VALUES template is sized to the batch, so a short last chunk underfills it;
- **what a run returns** (`Traces.OutcomeCases`), for every set of failing commands:
  the first database error, the `chunks(0)` panic, or the complete result record;
- **`main`'s loops** (`Benchmark`):
  - the method selection;
  - the batch-size-major cross product of runs;
  - a failing run aborting the whole program through `?`;
  - the final report: a stable ascending sort by rows per second, the filter that
    drops zero-duration results, and `max_speed`, which defaults to 1.0.

The server, the clock and the input file are not modelled as such:
- Which commands the server rejects is a set of log positions fixed when the client
  is created (`Client.failures`).
- The time a run takes is a parameter: `elapsed` for one strategy, and a function
  `clock` from run index to nanoseconds for the whole benchmark.
- The readings are a parameter of the benchmark.

Behaviour of the code that the model keeps:
- **The sentinel test.** The two VALUES strategies return the zero-duration,
  zero-throughput sentinel when `batch_size > 4000`. The test is on the batch size
  itself, not on the `7 * batch_size` parameters it implies (`src/main.rs:329`,
  `:375`). The reset runs before that test, so a sentinel run still sends the four
  reset statements.
- **The template size.** The VALUES template is built once for `batch_size` rows,
  not for each chunk (`src/main.rs:338-347`). A last chunk shorter than the batch
  therefore supplies fewer parameters than the statement has placeholders
  (`Traces.LastChunkUnderfillsTemplate`).
- **Errors.** Every strategy call in `main` ends in `?` (`src/main.rs:172-177`), so
  any database error ends `main` itself. The `Err(e) => eprintln!` arm after the
  match can never be reached. The model's benchmark stops at the first failed run
  and returns the error; it does not log and skip.
- **The prepared VALUES order.** Prepared VALUES binds timestamp, id, voltage, ...
  (`src/main.rs:400-406`) against placeholders numbered in column order. The model
  keeps that order: `Statements.PreparedOrderSwapsIdAndTimestamp` states the swap,
  and `Statements.PreparedParamsMisfitColumns` shows that the parameters cannot be
  read back as rows in column order.
- **Connection.** `main` opens one connection, `Client::connect(..., NoTls)`
  (`src/main.rs:152`), and runs every strategy on it.

## Model

| member | source | states |
|---|---|---|
| Chunking.Chunks | src/main.rs:228 | `records.chunks(b)` for `b > 0`: every chunk is non-empty and at most `b` long, every chunk but the last has exactly `b`, and there are no chunks iff there are no readings |
| Chunking.FlattenChunks | src/main.rs:228 | concatenating the chunks gives back the readings exactly, in order |
| Chunking.ChunkCount | src/main.rs:228 | the number of chunks `n` satisfies `(n-1)*b < N <= n*b`, and the last chunk holds `N - (n-1)*b` readings |
| Statements.ValuesTemplateShape | src/main.rs:338-343 | the template has one group per row of a full batch, and group `i` is `$(7i+1)` … `$(7i+7)` |
| Statements.ValuesTemplateNumbering | src/main.rs:338-347 | read in order, the template's placeholders are exactly `$1` … `$(7b)` |
| Statements.BuildValuesTemplate | src/main.rs:338-343 | the `for i in 0..batch_size` loop builds exactly that template |
| Statements.ValuesTemplate | src/main.rs:339-343 | the groups of the VALUES template: group `i`, for each `i < batch_size` in increasing order, is the placeholders `7i+1` to `7i+7` |
| Statements.ValuesParamsAt | src/main.rs:350-359 | a chunk's parameter list has 7 entries per reading, and entries `7k` … `7k+6` are reading `k`'s fields in bind order |
| Statements.ValuesParamsLength | src/main.rs:350 | the parameter list has exactly `7 * chunk.len()` entries |
| Statements.RowOfValuesInverse | src/main.rs:351-358 | reading back one reading's seven parameters in the same bind order gives that reading, and only its own parameters do |
| Statements.ValuesParamsRoundTrip | src/main.rs:350-359 | reading the parameters back in the order they were bound gives the chunk back |
| Statements.PreparedOrderSwapsIdAndTimestamp | src/main.rs:398-407 | the prepared variant's group for each reading is the plain variant's with the first two entries swapped: a timestamp comes first where the plain variant has the `int4` id |
| Statements.PreparedParamsMisfitColumns | src/main.rs:384-408 | for a non-empty chunk, the prepared parameters read in the template's column order do not decode as readings |
| Statements.CollectValuesParams | src/main.rs:350-359 | the `params.push` loop builds exactly that parameter list, in either bind order |
| Statements.ValuesParams | src/main.rs:350-359 | a chunk's `params` list: for each reading in chunk order, its seven fields in the strategy's bind order (column order, or timestamp before id for the prepared variant) |
| Statements.TransposeAt | src/main.rs:229-245 | the seven column vectors each have one entry per reading, and entry `k` of each is reading `k`'s field |
| Statements.TransposeRoundTrip | src/main.rs:229-245 | reading the column vectors back row by row gives the chunk back |
| Statements.Transpose | src/main.rs:229-245 | the seven column vectors of a chunk: starting from seven empty vectors, each reading in turn pushes each of its fields onto that field's vector |
| Statements.UnnestColumnsOfParams | src/main.rs:247 | the seven arrays passed to `execute` can be recovered from its parameter list |
| Statements.CollectColumns | src/main.rs:229-245 | the seven `push` loops build exactly the transposition of the chunk |
| Database.SentCountSpec | src/main.rs:70-83 | with `?` after every call, all `n` commands are sent when none fails; otherwise sending stops right after the first failing one, and every earlier one succeeded |
| Database.IssuedSpec | src/main.rs:70-83 | what reaches the server is a prefix of the intended commands: all of them when nothing fails, otherwise ending at the first failing one and failing nowhere before it |
| Database.IssuedAppend | src/main.rs:217-221 | sending `a` then `b` reaches `b` only if all of `a` succeeds |
| Database.Client.Send | src/main.rs:70 | one driver call appends its command to the log and reports an error exactly at the failing positions |
| Strategies.Label | src/main.rs:254 | the method name each strategy puts in its result: "UNNEST insert" (`:254`), "Copy" (`:288`), "Binary Copy" (`:322`), "Insert VALUES" (`:331`, `:368`), "Prepared Insert VALUES" (`:377`, `:416`), "Prepared Insert UNNEST" (`:460`) |
| Strategies.LabelsDistinct | src/main.rs:254-460 | every label names its own strategy (`MethodOfLabel` reads it back), so two strategies never report the same name |
| Strategies.IsSentinel | src/main.rs:329-332 | the over-limit case: one of the two VALUES strategies with `batch_size > 4000` (`MaxValuesBatch`), as at `:329` and `:375` |
| Strategies.RowsPerSec | src/main.rs:253 | throughput: a non-negative rate that, multiplied by the elapsed seconds, gives the number of readings; 0 for a zero duration |
| Strategies.CreateBenchmarkResult | src/main.rs:87-95 | builds the record from its arguments, which come in the order method, duration, rate, transactions, batch size, each stored in its own field |
| Strategies.ResultFor | src/main.rs:329-332 | the record a strategy returns when it gets to the end: the sentinel's zero duration and zero rate when it is over the limit, otherwise the measured `elapsed` and `RowsPerSec(N, elapsed)` (`:253`), with its label, batch size and transaction flag |
| Strategies.ResetCommands | src/main.rs:70-83 | `truncate_table`'s four statements in order: CREATE TABLE IF NOT EXISTS, TRUNCATE, the autovacuum ALTER, CHECKPOINT |
| Strategies.Plan | src/main.rs:215-461 | every command a strategy sends when no command fails: the reset; then nothing more for a sentinel; otherwise BEGIN when transactions are on, PREPARE for a prepared strategy, and, unless `b = 0` (where `chunks(0)` panics), one data operation per chunk followed by COMMIT when transactions are on |
| Strategies.OutcomeOf | src/main.rs:171-178 | what a strategy returns for a plan sent from log position `at`: a database error at the first failing position if a command of the plan fails, else the `chunks(0)` panic if it panics, else its result |
| Strategies.Outcome | src/main.rs:215-461 | what strategy `m` returns: `OutcomeOf` its `Plan`, panicking exactly when `b = 0` outside the sentinel, with `ResultFor` as its result |
| Strategies.OpenTransaction | src/main.rs:220-222 | sends the plan's BEGIN when transactions are on and nothing when they are off; if BEGIN fails, the log is the plan up to and including that first failure |
| Strategies.CloseTransaction | src/main.rs:249-251 | sends the plan's closing COMMIT when transactions are on and nothing when they are off; if COMMIT fails, the log is the plan up to and including that first failure |
| Strategies.InsertValuesRun | src/main.rs:334-365 | `insert_values` from BEGIN to COMMIT: sends the rest of its plan, up to and including the first command that fails, and succeeds iff none fails |
| Strategies.PreparedInsertValuesRun | src/main.rs:380-413 | the same for `prepared_insert_values`, including its PREPARE |
| Strategies.InsertUnnestRun | src/main.rs:220-251 | the same for `insert_unnest` |
| Strategies.PreparedInsertUnnestRun | src/main.rs:424-457 | the same for `prepared_insert_unnest`, including its PREPARE |
| Strategies.CopyRun | src/main.rs:262-285 | the same for `copy` |
| Strategies.BinaryCopyRun | src/main.rs:296-319 | the same for `binary_copy` |
| Strategies.TruncateTable | src/main.rs:69-85 | sends CREATE TABLE IF NOT EXISTS, TRUNCATE, the autovacuum ALTER and CHECKPOINT in order, stopping after the first that fails, and succeeds iff none fails |
| Strategies.InsertValuesStrategy | src/main.rs:325-369 | `insert_values` sends exactly the allowed prefix of its plan and returns that plan's outcome |
| Strategies.PreparedInsertValuesStrategy | src/main.rs:371-417 | the same for `prepared_insert_values`, whose plan prepares the template once and binds the timestamp first |
| Strategies.InsertUnnestStrategy | src/main.rs:215-255 | the same for `insert_unnest`: one `execute` of seven column arrays per chunk |
| Strategies.PreparedInsertUnnestStrategy | src/main.rs:419-461 | the same for `prepared_insert_unnest`, which prepares the statement once before the chunk loop |
| Strategies.CopyStrategy | src/main.rs:257-289 | the same for `copy`: per chunk, a text `copy_in`, one row write per reading and `finish` |
| Strategies.BinaryCopyStrategy | src/main.rs:291-323 | the same for `binary_copy`, with the binary COPY format |
| Strategies.RunStrategy | src/main.rs:171-178 | the `match method` runs the strategy named, sending its plan's allowed prefix and returning its outcome |
| Strategies.ExecuteCommand | src/main.rs:349-360 | the `execute` built for a chunk is the prepared or plain statement with, for that strategy, the flattened parameters or the seven column arrays |
| Strategies.InsertChunks | src/main.rs:349-361 | the chunk loop of an INSERT strategy sends one `execute` per chunk, in order, and stops at the first error |
| Strategies.CopyChunks | src/main.rs:266-281 | the chunk loop of a COPY strategy sends `copy_in`, the rows and `finish` per chunk, in order, and stops at the first error |
| Strategies.CopyChunk | src/main.rs:267-280 | one chunk's COPY: `copy_in`, its row writes, `finish`, stopping at the first error |
| Strategies.CopyRows | src/main.rs:271-279 | one row write per reading of the chunk, in order, stopping at the first error |
| Traces.PlanShape | src/main.rs:325-365 | every plan starts with the four reset statements; a sentinel plan is only those; BEGIN is in the plan iff transactions are on and it is not a sentinel, and then it comes right after the reset; COMMIT is in it iff additionally the batch size is positive, and then it comes last |
| Traces.BeginCommitNowhereElse | src/main.rs:325-365 | BEGIN stands nowhere in a plan but at index 4, right after the reset, and COMMIT nowhere but at the last index: no other statement and no data operation is either |
| Traces.PlanParts | src/main.rs:217-251 | for a usable batch size a plan is its non-data prefix (reset, BEGIN, PREPARE), the chunks' data operations, and COMMIT |
| Traces.OperationsPerChunk | src/main.rs:228-248 | for a positive batch size outside the sentinel: an INSERT plan has exactly one `execute` per chunk and no other data operation; a COPY plan has one `copy_in` and one `finish` per chunk and one row write per reading |
| Traces.Delivery | src/main.rs:349-361 | for a positive batch size, the readings a plan carries, taken in order from its data operations, are all the readings in their original order, each once; a sentinel plan carries none |
| Traces.TemplatePlaceholders | src/main.rs:338-347 | the VALUES statement has exactly `7 * batch_size` placeholders |
| Traces.FullChunksFillTemplate | src/main.rs:338-361 | every chunk but the last supplies exactly as many parameters as the VALUES statement has placeholders |
| Traces.LastChunkUnderfillsTemplate | src/main.rs:338-361 | when `batch_size` does not divide the number of readings, the last chunk supplies `7 * (N % b)` parameters, fewer than the placeholders |
| Traces.OutcomeCases | src/main.rs:325-369 | a run reports a database error iff some command of its plan fails, at the first failing position; it panics in `chunks(0)` iff nothing fails and `b = 0` outside the sentinel; otherwise its result carries the label, batch size and transaction flag, with the sentinel's zero duration and rate when `b > 4000` and the measured `elapsed` and `RowsPerSec(N, elapsed)` otherwise |
| Report.SortByRate | src/main.rs:187 | the reference ordering: insertion of each result before the first one with a rate at least its own, so equal rates keep their run order |
| Report.SortByRateSorted | src/main.rs:187 | the sort is ascending by rows per second and a permutation of its input |
| Report.SortByRateStable | src/main.rs:187 | the sort keeps the order of results with equal throughput |
| Report.KeepMeasured | src/main.rs:188 | the results with `duration > 0`, in the order given |
| Report.KeepMeasuredSpec | src/main.rs:188 | the filter keeps exactly the results with a positive duration, each as often as it occurred |
| Report.KeepMeasuredSorted | src/main.rs:188 | filtering a sorted list leaves it sorted |
| Report.WithRateKeepMeasured | src/main.rs:188 | picking the results of one throughput commutes with the filter, so among results of equal throughput the filter keeps their order |
| Report.KeepMeasuredSubsequence | src/main.rs:188 | the filter only drops results: the ones it keeps are a subsequence of its input, in their original order |
| Report.RankingIgnoresUnmeasured | src/main.rs:187-188 | sorting and then filtering gives the same list as filtering and then sorting |
| Report.MaxRate | src/main.rs:98-101 | the maximum is at least every rate and equal to one of them |
| Report.MaxSpeed | src/main.rs:98-101 | the largest rate, or 1.0 for no results |
| Report.MaxSpeedSpec | src/main.rs:98-101 | `max_speed` is 1.0 for no results, and otherwise the largest rate among them |
| Report.MaxSpeedOfSorted | src/main.rs:98-101 | for a sorted list `max_speed` is the last entry's rate |
| Benchmark.AllMethods | src/main.rs:157-164 | the list `--all` stands for: the six strategies in declaration order |
| Benchmark.AllMethodsComplete | src/main.rs:156-164 | `--all` lists the six strategies, each once |
| Benchmark.SelectMethods | src/main.rs:156-167 | with `--all` the methods are all six, otherwise exactly the ones given |
| Benchmark.Pairs | src/main.rs:170 | one pass of the inner loop: batch size `b` paired with each method in turn |
| Benchmark.Runs | src/main.rs:169-170 | the runs of the two nested loops: for each batch size in turn, that batch size paired with each method in turn |
| Benchmark.RunsLength | src/main.rs:169-170 | the nested loops make `|batch_sizes| * |methods|` runs |
| Benchmark.RunsOrder | src/main.rs:169-170 | run `i * |methods| + j` is batch size `i` with method `j`: the batch size is the outer loop |
| Benchmark.RunsIndex | src/main.rs:169-170 | every run pairs one of the batch sizes with one of the methods |
| Benchmark.Suite | src/main.rs:169-185 | the runs done one after another, each starting at the log position where the previous one stopped; a run's result is collected, and the first aborted run ends the loops with its reason |
| Benchmark.StrategyStep | src/main.rs:171-178 | one run: the commands its strategy sends from the current log position and the outcome it returns, with the clock reading for its index |
| Benchmark.SuiteStoppedStays | src/main.rs:171-178 | once a run has failed, no later run changes anything |
| Benchmark.StrategyStepSpec | src/main.rs:171-178 | one step of the loops returns that strategy's result for its clock reading; a database error lies within the commands it sent; the `chunks(0)` panic only happens for batch size 0; with no failure ahead and a positive batch size it completes |
| Benchmark.BenchmarkResults | src/main.rs:169-185 | when no run fails, there is one result per run, in run order, and result `k` is the strategy's result for run `k` and clock reading `k` |
| Benchmark.BenchmarkAborts | src/main.rs:169-185 | a database error that stops the benchmark is at a failing log position within what was sent; a `chunks(0)` panic needs a batch size of 0 and at least one method; with no failure ahead and positive batch sizes nothing stops |
| Benchmark.Summarize | src/main.rs:187-189 | the report: the results sorted by rate, then filtered to positive durations, with the reading count and `max_speed` of the rows kept |
| Benchmark.SummarizeSorted | src/main.rs:187-188 | the reported rows are ascending by rows per second |
| Benchmark.SummarizeMembers | src/main.rs:187-188 | a result is reported iff it was produced and its duration is positive, so no sentinel is reported |
| Benchmark.SummarizeStable | src/main.rs:187-188 | among reported rows of equal throughput, the order of the runs is kept |
| Benchmark.SummarizeMaxSpeed | src/main.rs:97-101 | `max_speed` over the reported rows is 1.0 when none is left, otherwise the last row's rate |
| Benchmark.RunOne | src/main.rs:171-178 | one strategy call at the current log position sends exactly that run's commands and returns its outcome |
| Benchmark.RunNext | src/main.rs:171-183 | one pass of the inner loop extends the log, the results and the stop reason exactly as one more run of the specification does |
| Benchmark.RunBatch | src/main.rs:170-184 | the inner loop over the methods for one batch size extends the log and the results exactly as the specification of the runs does, and stops at the first failed run |
| Benchmark.RunBenchmark | src/main.rs:145-191 | `main` after parsing and connecting: sends exactly the commands the runs' specification says, and returns the first error or else the sorted, filtered report with its `max_speed` |

## Left out

- Reading the CSV file (`read_csv`, `src/main.rs:193-213`), command-line parsing, the `CONNECTION_STRING` lookup and `Client::connect`. These are I/O. The readings arrive as a parameter, and the client as an object whose failing positions are given.
- The wire protocol: statement text, the `ToSql` encoding, the text COPY line format and the binary COPY encoding. One row of a COPY is one `WriteRow` command carrying the reading's seven fields. How the server reacts to a statement (including the mismatched prepared VALUES order or an underfilled template) is whatever the `failures` set says.
- The individual `write!` calls of a text COPY row (`src/main.rs:272-278`). They are one `WriteRow`, so a failure part-way through a row is not distinguished from a failure of the whole row.
- `Instant::now` and `elapsed`. Time is a parameter: `elapsed` per strategy, `clock(k)` for run `k` of the benchmark.
- Types.BatterySensorData: the five `f64` measurements (`src/main.rs:53-57`) are `real`. The model only passes them on to the driver, so rounding, NaN and infinities are not modelled.
- Strategies.RowsPerSec: floating point. `rows_per_sec` is computed in exact real arithmetic from a duration in nanoseconds. A zero duration gives 0 rather than Rust's infinity or NaN; such results are dropped by the filter before they are reported.
- Report.SortByRate: `sort_by` with `partial_cmp(...).unwrap_or(Equal)` is modelled as a stable insertion sort on exact reals. NaN rates, for which the comparison is not a total order, do not arise in the model.
- `print_results`' formatting (`src/main.rs:103-142`): the CSV or table layout and the relative speed `max_speed / rows_per_sec` of each row. The model stops at the sorted, filtered rows and `max_speed`. `Cli.csvOutput` only chooses the layout, so it affects nothing modelled.
- The panic of `records.chunks(0)` is modelled as the run outcome `Aborted(ZeroChunkSize)`, which then ends the benchmark like an error. Nothing about the panic message or unwinding is modelled.
- The `eprintln!` of the sentinel runs (`src/main.rs:330`, `:376`) and of the unreachable `Err` arm (`src/main.rs:182`): diagnostic output only.
- Rust's `usize` width for batch sizes and placeholder numbers. It cannot overflow on this path: the template and the parameters are only built when `batch_size <= 4000`.
