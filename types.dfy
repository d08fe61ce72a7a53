/** The entities of the benchmark: the ingest methods, one sensor reading, and the
    result of one measured run. */
module Types {

  /** Rust's `i32`, the type of a reading's id. */
  newtype Int32 = x: int | -0x8000_0000 <= x < 0x8000_0000

  /** Stand-in for `DateTime<Utc>`: nanoseconds since the Unix epoch. The model only
      moves timestamps around, it never inspects them. */
  type Timestamp = int

  /** The six strategies, in declaration order. */
  datatype IngestMethod =
    | InsertValues
    | PreparedInsertValues
    | InsertUnnest
    | PreparedInsertUnnest
    | Copy
    | BinaryCopy

  /** One reading. The five measurements are `f64` in the source; they are passed
      through unchanged, so `real` stands in for them. */
  datatype BatterySensorData = BatterySensorData(
    id: Int32,
    timestamp: Timestamp,
    voltage: real,
    current: real,
    temperature: real,
    stateOfCharge: real,
    internalResistance: real)

  /** The outcome of one measured run. `duration` is in nanoseconds. The source builds
      this record with `create_benchmark_result`, which only fills in the fields. */
  datatype BenchmarkResult = BenchmarkResult(
    methodName: string,
    batchSize: nat,
    transaction: bool,
    duration: nat,
    rowsPerSec: real)

  datatype Result<+T, +E> = Ok(value: T) | Err(error: E)

  datatype Option<+T> = None | Some(value: T)
}
