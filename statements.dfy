/** What the strategies send to the server besides plain commands: the VALUES
    placeholder template, the flat parameter list of a VALUES insert, and the seven
    column arrays of an UNNEST insert. */
module Statements {
  import opened Types
  import opened Chunking

  /** A bound parameter, as the Postgres type it is sent as. */
  datatype SqlValue =
    | Int4(int4: Int32)
    | TimestampTz(stamp: Timestamp)
    | Float8(float8: real)
    | Int4Array(int4s: seq<Int32>)
    | TimestampTzArray(stamps: seq<Timestamp>)
    | Float8Array(float8s: seq<real>)

  /** The two insert statements. A VALUES insert is kept as its placeholder groups:
      `ValuesInsert([[1, ..., 7], [8, ..., 14]])` is the text
      `INSERT INTO power_generation VALUES ($1, ..., $7), ($8, ..., $14)`. The UNNEST
      insert is one fixed text with the seven placeholders `$1` to `$7`. */
  datatype Statement =
    | ValuesInsert(groups: seq<seq<nat>>)
    | UnnestInsert

  function PlaceholderCount(s: Statement): nat
  {
    match s
    case ValuesInsert(groups) => |Flatten(groups)|
    case UnnestInsert => 7
  }

  // ---------------------------------------------------------------------------
  // The VALUES template

  /** Group `i` of the template: `($7i+1, ..., $7i+7)`. */
  function PlaceholderGroup(i: nat): seq<nat>
  {
    var offset := i * 7;
    [offset + 1, offset + 2, offset + 3, offset + 4, offset + 5, offset + 6, offset + 7]
  }

  /** The groups pushed onto `value_strings` for `i` in `0..batch_size`. */
  function ValuesTemplate(batchSize: nat): seq<seq<nat>>
  {
    if batchSize == 0 then [] else ValuesTemplate(batchSize - 1) + [PlaceholderGroup(batchSize - 1)]
  }

  /** The template has one group per row of a full batch, group `i` for row `i`. */
  lemma {:induction false} ValuesTemplateShape(batchSize: nat)
    ensures |ValuesTemplate(batchSize)| == batchSize
    ensures forall i :: 0 <= i < batchSize ==> ValuesTemplate(batchSize)[i] == PlaceholderGroup(i)
  {
    if batchSize > 0 {
      ValuesTemplateShape(batchSize - 1);
    }
  }

  /** Read left to right, the template's placeholders are exactly `$1` to
      `$7*batch_size`, each once and in increasing order, whatever the chunk length. */
  lemma {:induction false} ValuesTemplateNumbering(batchSize: nat)
    ensures Flatten(ValuesTemplate(batchSize)) == seq(7 * batchSize, k => k + 1)
  {
    if batchSize > 0 {
      var b := batchSize - 1;
      ValuesTemplateNumbering(b);
      FlattenAppend(ValuesTemplate(b), [PlaceholderGroup(b)]);
      assert Flatten([PlaceholderGroup(b)]) == PlaceholderGroup(b);
      assert Flatten(ValuesTemplate(batchSize)) == seq(7 * b, k => k + 1) + PlaceholderGroup(b);
    }
  }

  /** The loop that builds `value_strings`. */
  method BuildValuesTemplate(batchSize: nat) returns (valueStrings: seq<seq<nat>>)
    ensures valueStrings == ValuesTemplate(batchSize)
  {
    valueStrings := [];
    for i := 0 to batchSize
      invariant valueStrings == ValuesTemplate(i)
    {
      var offset := i * 7;
      valueStrings := valueStrings + [[offset + 1, offset + 2, offset + 3, offset + 4, offset + 5, offset + 6, offset + 7]];
    }
  }

  // ---------------------------------------------------------------------------
  // Flat parameters of a VALUES insert

  /** Value of table column `j` of a reading: generator_id, timestamp, then the five
      measurements, in the order of the table and of the struct's fields. */
  function Column(r: BatterySensorData, j: nat): SqlValue
    requires j < 7
  {
    if j == 0 then Int4(r.id)
    else if j == 1 then TimestampTz(r.timestamp)
    else if j == 2 then Float8(r.voltage)
    else if j == 3 then Float8(r.current)
    else if j == 4 then Float8(r.temperature)
    else if j == 5 then Float8(r.stateOfCharge)
    else Float8(r.internalResistance)
  }

  /** The order in which a strategy pushes a reading's fields: `insert_values` pushes
      id first, `prepared_insert_values` pushes the timestamp first. */
  datatype BindOrder = IdFirst | TimestampFirst

  /** The column whose value a strategy pushes in position `j` of a reading's group. */
  function BoundColumn(order: BindOrder, j: nat): nat
  {
    match order
    case IdFirst => j
    case TimestampFirst => if j == 0 then 1 else if j == 1 then 0 else j
  }

  /** The seven pushes for one reading: position `j` holds column `BoundColumn(order, j)`. */
  function RowValues(r: BatterySensorData, order: BindOrder): (v: seq<SqlValue>)
  {
    seq(7, j requires 0 <= j < 7 => Column(r, BoundColumn(order, j)))
  }

  /** The `params` list built for one chunk. */
  function ValuesParams(chunk: seq<BatterySensorData>, order: BindOrder): seq<SqlValue>
  {
    if chunk == [] then []
    else ValuesParams(chunk[..|chunk| - 1], order) + RowValues(chunk[|chunk| - 1], order)
  }

  /** The `k`-th group of seven entries of a flat parameter list. */
  function Group(params: seq<SqlValue>, k: nat): seq<SqlValue>
    requires 7 * k + 7 <= |params|
  {
    params[7 * k .. 7 * k + 7]
  }

  /** The list holds seven entries per reading, and its `k`-th group of seven is what
      reading `k` contributes. */
  lemma {:induction false} ValuesParamsAt(chunk: seq<BatterySensorData>, order: BindOrder, k: nat)
    requires k < |chunk|
    ensures |ValuesParams(chunk, order)| == 7 * |chunk|
    ensures Group(ValuesParams(chunk, order), k) == RowValues(chunk[k], order)
  {
    var n := |chunk| - 1;
    var prefix := ValuesParams(chunk[..n], order);
    var last := RowValues(chunk[n], order);
    ValuesParamsLength(chunk[..n], order);
    assert ValuesParams(chunk, order) == prefix + last;
    if k < n {
      ValuesParamsAt(chunk[..n], order, k);
      assert (prefix + last)[7 * k .. 7 * k + 7] == prefix[7 * k .. 7 * k + 7];
    } else {
      assert (prefix + last)[7 * k .. 7 * k + 7] == last;
    }
  }

  lemma {:induction false} ValuesParamsLength(chunk: seq<BatterySensorData>, order: BindOrder)
    ensures |ValuesParams(chunk, order)| == 7 * |chunk|
  {
    if chunk != [] {
      ValuesParamsLength(chunk[..|chunk| - 1], order);
    }
  }

  /** The prepared variant binds the same values as the plain one, except that in
      every reading's group the first two (id and timestamp) change places. So the
      placeholder the statement declares for generator_id receives a timestamp. */
  lemma {:induction false} PreparedOrderSwapsIdAndTimestamp(chunk: seq<BatterySensorData>)
    ensures |ValuesParams(chunk, TimestampFirst)| == |ValuesParams(chunk, IdFirst)| == 7 * |chunk|
    ensures forall k :: 0 <= k < |chunk| ==>
      var g := Group(ValuesParams(chunk, IdFirst), k);
      Group(ValuesParams(chunk, TimestampFirst), k) == [g[1], g[0]] + g[2..]
    ensures forall k :: 0 <= k < |chunk| ==>
      Group(ValuesParams(chunk, TimestampFirst), k)[0].TimestampTz? && Group(ValuesParams(chunk, IdFirst), k)[0].Int4?
  {
    ValuesParamsLength(chunk, TimestampFirst);
    ValuesParamsLength(chunk, IdFirst);
    forall k | 0 <= k < |chunk|
      ensures var g := Group(ValuesParams(chunk, IdFirst), k);
        Group(ValuesParams(chunk, TimestampFirst), k) == [g[1], g[0]] + g[2..]
      ensures Group(ValuesParams(chunk, TimestampFirst), k)[0].TimestampTz? && Group(ValuesParams(chunk, IdFirst), k)[0].Int4?
    {
      ValuesParamsAt(chunk, TimestampFirst, k);
      ValuesParamsAt(chunk, IdFirst, k);
    }
  }

  /** Reading one reading back from the seven values of its group when they are read
      in `order`; `None` when a value is not of its column's type. */
  function RowOfValues(v: seq<SqlValue>, order: BindOrder): Option<BatterySensorData>
    requires |v| == 7
  {
    var id := v[BoundColumn(order, 0)];
    var stamp := v[BoundColumn(order, 1)];
    if id.Int4? && stamp.TimestampTz? && v[2].Float8? && v[3].Float8? && v[4].Float8? && v[5].Float8? && v[6].Float8?
    then Some(BatterySensorData(id.int4, stamp.stamp, v[2].float8, v[3].float8, v[4].float8, v[5].float8, v[6].float8))
    else None
  }

  /** A reading's group reads back as that reading, and that group is the only one
      that reads back as it. */
  lemma {:induction false} RowOfValuesInverse(r: BatterySensorData, v: seq<SqlValue>, order: BindOrder)
    ensures RowOfValues(RowValues(r, order), order) == Some(r)
    ensures |v| == 7 && RowOfValues(v, order) == Some(r) ==> v == RowValues(r, order)
  {
    if |v| == 7 && RowOfValues(v, order) == Some(r) {
      assert forall j :: 0 <= j < 7 ==> v[j] == RowValues(r, order)[j];
    }
  }

  /** Reading a flat parameter list back group by group; `None` when its length is not
      a multiple of seven or a group does not read back. */
  function ParamsRows(params: seq<SqlValue>, order: BindOrder): Option<seq<BatterySensorData>>
    decreases |params|
  {
    if params == [] then Some([])
    else if |params| < 7 then None
    else
      var n := |params| - 7;
      match (ParamsRows(params[..n], order), RowOfValues(params[n..], order))
      case (Some(rows), Some(r)) => Some(rows + [r])
      case _ => None
  }

  /** Reading back a list that ends with one more group of seven. */
  lemma {:induction false} ParamsRowsSnoc(prefix: seq<SqlValue>, v: seq<SqlValue>, order: BindOrder)
    requires |v| == 7
    ensures ParamsRows(prefix + v, order) ==
      if ParamsRows(prefix, order).Some? && RowOfValues(v, order).Some?
      then Some(ParamsRows(prefix, order).value + [RowOfValues(v, order).value])
      else None
  {
    var params := prefix + v;
    assert params[..|params| - 7] == prefix;
    assert params[|params| - 7..] == v;
  }

  /** Flattening loses nothing: reading the parameters back in the order they were
      pushed gives the chunk again. */
  lemma {:induction false} ValuesParamsRoundTrip(chunk: seq<BatterySensorData>, order: BindOrder)
    ensures ParamsRows(ValuesParams(chunk, order), order) == Some(chunk)
  {
    if chunk != [] {
      var k := |chunk| - 1;
      ValuesParamsRoundTrip(chunk[..k], order);
      RowOfValuesInverse(chunk[k], [], order);
      ParamsRowsSnoc(ValuesParams(chunk[..k], order), RowValues(chunk[k], order), order);
      assert chunk[..k] + [chunk[k]] == chunk;
    }
  }

  /** Read in the order of the table's columns, the parameters the prepared variant
      pushes do not fit: the first value of each group, meant for generator_id, is a
      timestamp. */
  lemma {:induction false} PreparedParamsMisfitColumns(chunk: seq<BatterySensorData>)
    requires chunk != []
    ensures ParamsRows(ValuesParams(chunk, TimestampFirst), IdFirst) == None
  {
    var k := |chunk| - 1;
    ParamsRowsSnoc(ValuesParams(chunk[..k], TimestampFirst), RowValues(chunk[k], TimestampFirst), IdFirst);
  }

  /** The loop that fills `params` for one chunk. */
  method CollectValuesParams(chunk: seq<BatterySensorData>, order: BindOrder) returns (params: seq<SqlValue>)
    ensures params == ValuesParams(chunk, order)
  {
    params := [];
    for i := 0 to |chunk|
      invariant params == ValuesParams(chunk[..i], order)
    {
      var record := chunk[i];
      assert chunk[..i + 1][..i] == chunk[..i];
      match order
      case IdFirst =>
        params := params + [Int4(record.id), TimestampTz(record.timestamp)];
        params := params + [Float8(record.voltage), Float8(record.current), Float8(record.temperature),
                            Float8(record.stateOfCharge), Float8(record.internalResistance)];
      case TimestampFirst =>
        params := params + [TimestampTz(record.timestamp), Int4(record.id)];
        params := params + [Float8(record.voltage), Float8(record.current), Float8(record.temperature),
                            Float8(record.stateOfCharge), Float8(record.internalResistance)];
    }
    assert chunk[..|chunk|] == chunk;
  }

  // ---------------------------------------------------------------------------
  // Column arrays of an UNNEST insert

  /** The seven vectors `ids`, `timestamps`, `voltages`, `currents`, `temperatures`,
      `socs` and `resistances`. */
  datatype ColumnArrays = ColumnArrays(
    ids: seq<Int32>,
    timestamps: seq<Timestamp>,
    voltages: seq<real>,
    currents: seq<real>,
    temperatures: seq<real>,
    socs: seq<real>,
    resistances: seq<real>)
  {
    /** All seven vectors have the same length. */
    predicate Rectangular()
    {
      |timestamps| == |ids| && |voltages| == |ids| && |currents| == |ids|
      && |temperatures| == |ids| && |socs| == |ids| && |resistances| == |ids|
    }

    /** Push one reading's fields onto the seven vectors. */
    function Push(r: BatterySensorData): ColumnArrays
    {
      ColumnArrays(ids + [r.id], timestamps + [r.timestamp], voltages + [r.voltage],
                   currents + [r.current], temperatures + [r.temperature],
                   socs + [r.stateOfCharge], resistances + [r.internalResistance])
    }

    /** Reading `k` put back together from element `k` of every vector. */
    function RowAt(k: nat): BatterySensorData
      requires Rectangular() && k < |ids|
    {
      BatterySensorData(ids[k], timestamps[k], voltages[k], currents[k], temperatures[k], socs[k], resistances[k])
    }
  }

  const EmptyColumns := ColumnArrays([], [], [], [], [], [], [])

  /** The seven vectors after pushing every reading of the chunk. */
  function Transpose(chunk: seq<BatterySensorData>): ColumnArrays
  {
    if chunk == [] then EmptyColumns
    else Transpose(chunk[..|chunk| - 1]).Push(chunk[|chunk| - 1])
  }

  /** Every vector has one element per reading, and element `k` of a vector is the
      matching field of reading `k`. */
  lemma {:induction false} TransposeAt(chunk: seq<BatterySensorData>)
    ensures Transpose(chunk).Rectangular() && |Transpose(chunk).ids| == |chunk|
    ensures forall k :: 0 <= k < |chunk| ==> Transpose(chunk).RowAt(k) == chunk[k]
  {
    if chunk != [] {
      var n := |chunk| - 1;
      TransposeAt(chunk[..n]);
      var prev := Transpose(chunk[..n]);
      var cols := Transpose(chunk);
      assert cols == prev.Push(chunk[n]);
      forall k | 0 <= k < |chunk|
        ensures cols.RowAt(k) == chunk[k]
      {
        if k < n {
          assert prev.RowAt(k) == chunk[..n][k];
        }
      }
    }
  }

  /** Reading the vectors back row by row. */
  function Rows(cols: ColumnArrays): seq<BatterySensorData>
    requires cols.Rectangular()
  {
    seq(|cols.ids|, k requires 0 <= k < |cols.ids| => cols.RowAt(k))
  }

  /** Transposition loses nothing: reading the vectors back row by row gives the
      chunk again. */
  lemma {:induction false} TransposeRoundTrip(chunk: seq<BatterySensorData>)
    ensures Transpose(chunk).Rectangular() && Rows(Transpose(chunk)) == chunk
  {
    TransposeAt(chunk);
  }

  /** The seven array parameters of `client.execute(stmt, &[&ids, &timestamps, ...])`. */
  function UnnestParams(cols: ColumnArrays): seq<SqlValue>
  {
    [Int4Array(cols.ids), TimestampTzArray(cols.timestamps), Float8Array(cols.voltages),
     Float8Array(cols.currents), Float8Array(cols.temperatures), Float8Array(cols.socs),
     Float8Array(cols.resistances)]
  }

  /** The column arrays of an UNNEST parameter list, when it has that shape. */
  function UnnestColumns(params: seq<SqlValue>): Option<ColumnArrays>
  {
    if |params| == 7 && params[0].Int4Array? && params[1].TimestampTzArray?
       && params[2].Float8Array? && params[3].Float8Array? && params[4].Float8Array?
       && params[5].Float8Array? && params[6].Float8Array?
    then Some(ColumnArrays(params[0].int4s, params[1].stamps, params[2].float8s, params[3].float8s,
                           params[4].float8s, params[5].float8s, params[6].float8s))
    else None
  }

  lemma {:induction false} UnnestColumnsOfParams(cols: ColumnArrays)
    ensures UnnestColumns(UnnestParams(cols)) == Some(cols)
  {
  }

  /** The loop that fills the seven vectors for one chunk. */
  method CollectColumns(chunk: seq<BatterySensorData>) returns (cols: ColumnArrays)
    ensures cols == Transpose(chunk)
  {
    var ids: seq<Int32> := [];
    var timestamps: seq<Timestamp> := [];
    var voltages: seq<real> := [];
    var currents: seq<real> := [];
    var temperatures: seq<real> := [];
    var socs: seq<real> := [];
    var resistances: seq<real> := [];
    for i := 0 to |chunk|
      invariant ColumnArrays(ids, timestamps, voltages, currents, temperatures, socs, resistances)
                == Transpose(chunk[..i])
    {
      var record := chunk[i];
      assert chunk[..i + 1][..i] == chunk[..i];
      ids := ids + [record.id];
      timestamps := timestamps + [record.timestamp];
      voltages := voltages + [record.voltage];
      currents := currents + [record.current];
      temperatures := temperatures + [record.temperature];
      socs := socs + [record.stateOfCharge];
      resistances := resistances + [record.internalResistance];
    }
    assert chunk[..|chunk|] == chunk;
    cols := ColumnArrays(ids, timestamps, voltages, currents, temperatures, socs, resistances);
  }
}
