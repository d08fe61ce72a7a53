/** What the strategies' command sequences add up to: their shape, the number of
    operations per chunk, the readings they carry, and what a run returns. */
module Traces {
  import opened Types
  import opened Chunking
  import opened Statements
  import opened Database
  import opened Strategies

  // ---------------------------------------------------------------------------
  // Shape of a strategy's commands

  /** The commands that move readings, as opposed to the statements around them. */
  predicate IsDataOp(c: Cmd)
  {
    c.Execute? || c.CopyIn? || c.WriteRow? || c.Finish?
  }

  lemma {:induction false} CopyRowsAreWrites(chunk: seq<BatterySensorData>)
    ensures forall c :: c in CopyRowCommands(chunk) ==> c.WriteRow?
  {
    if chunk != [] {
      CopyRowsAreWrites(chunk[1..]);
    }
  }

  lemma {:induction false} DataCommandsAreDataOps(m: IngestMethod, batchSize: nat, chunks: seq<seq<BatterySensorData>>)
    ensures forall c :: c in DataCommands(m, batchSize, chunks) ==> IsDataOp(c)
  {
    if chunks != [] {
      DataCommandsAreDataOps(m, batchSize, chunks[1..]);
      CopyRowsAreWrites(chunks[0]);
    }
  }

  /** Every strategy sends the four reset statements first. The over-limit sentinel
      sends nothing else. Otherwise BEGIN follows them iff `transactions`, and COMMIT
      is the last command iff `transactions` and the batch size is usable (with a
      zero batch size `chunks(0)` panics before COMMIT). That BEGIN and COMMIT appear
      nowhere else is `BeginCommitNowhereElse`. */
  lemma {:induction false} PlanShape(m: IngestMethod, records: seq<BatterySensorData>, transactions: bool, batchSize: nat)
    ensures var plan := Plan(m, records, transactions, batchSize);
      4 <= |plan| && plan[..4] == ResetCommands()
    ensures IsSentinel(m, batchSize) ==> Plan(m, records, transactions, batchSize) == ResetCommands()
    ensures SimpleQuery(Begin) in Plan(m, records, transactions, batchSize) <==>
      transactions && !IsSentinel(m, batchSize)
    ensures transactions && !IsSentinel(m, batchSize) ==> Plan(m, records, transactions, batchSize)[4] == SimpleQuery(Begin)
    ensures SimpleQuery(Commit) in Plan(m, records, transactions, batchSize) <==>
      transactions && !IsSentinel(m, batchSize) && batchSize > 0
    ensures transactions && !IsSentinel(m, batchSize) && batchSize > 0 ==>
      var plan := Plan(m, records, transactions, batchSize);
      plan[|plan| - 1] == SimpleQuery(Commit)
  {
    var data := PlanData(m, batchSize, records);
    if batchSize > 0 {
      DataCommandsAreDataOps(m, batchSize, Chunks(records, batchSize));
    }
    assert SimpleQuery(Begin) !in data && SimpleQuery(Commit) !in data;
    var body := StrategyBody(m, transactions, batchSize, data);
    BodyShape(m, transactions, batchSize, data);
    var plan := ResetCommands() + body;
    assert plan == Plan(m, records, transactions, batchSize);
    assert plan[..4] == ResetCommands();
    assert SimpleQuery(Begin) in plan <==> SimpleQuery(Begin) in body;
    assert SimpleQuery(Commit) in plan <==> SimpleQuery(Commit) in body;
    if body != [] {
      assert plan[4] == body[0];
      assert plan[|plan| - 1] == body[|body| - 1];
    }
  }

  /** BEGIN can only stand right after the reset, and COMMIT only at the end: no
      other statement and no data operation is either. */
  lemma {:induction false} BeginCommitNowhereElse(m: IngestMethod, records: seq<BatterySensorData>, transactions: bool, batchSize: nat)
    ensures var plan := Plan(m, records, transactions, batchSize);
      forall i :: 0 <= i < |plan| && plan[i] == SimpleQuery(Begin) ==> i == 4
    ensures var plan := Plan(m, records, transactions, batchSize);
      forall i :: 0 <= i < |plan| && plan[i] == SimpleQuery(Commit) ==> i == |plan| - 1
  {
    var data := PlanData(m, batchSize, records);
    if batchSize > 0 {
      DataCommandsAreDataOps(m, batchSize, Chunks(records, batchSize));
    }
    assert SimpleQuery(Begin) !in data && SimpleQuery(Commit) !in data;
    var body := StrategyBody(m, transactions, batchSize, data);
    BodyBeginCommit(m, transactions, batchSize, data);
    assert SimpleQuery(Begin) !in ResetCommands() && SimpleQuery(Commit) !in ResetCommands();
    ShiftAt(ResetCommands(), body, SimpleQuery(Begin), 0);
    ShiftAt(ResetCommands(), body, SimpleQuery(Commit), |body| - 1);
  }

  /** What follows the reset holds BEGIN only first and COMMIT only last. */
  lemma {:induction false} BodyBeginCommit(m: IngestMethod, transactions: bool, batchSize: nat, data: seq<Cmd>)
    requires SimpleQuery(Begin) !in data && SimpleQuery(Commit) !in data
    ensures var body := StrategyBody(m, transactions, batchSize, data);
      forall i :: 0 <= i < |body| && body[i] == SimpleQuery(Begin) ==> i == 0
    ensures var body := StrategyBody(m, transactions, batchSize, data);
      forall i :: 0 <= i < |body| && body[i] == SimpleQuery(Commit) ==> i == |body| - 1
  {
    if !IsSentinel(m, batchSize) {
      var begin, prep := BeginCommands(transactions), PrepareCommands(m, batchSize);
      var tail := ChunkPart(transactions, batchSize, data);
      var commit := CommitCommands(transactions);
      assert SimpleQuery(Begin) !in prep && SimpleQuery(Commit) !in prep;
      assert SimpleQuery(Begin) !in tail;
      assert SimpleQuery(Commit) !in begin;
      if batchSize > 0 {
        ShiftAt(data, commit, SimpleQuery(Commit), |commit| - 1);
      }
      ShiftAt(prep, tail, SimpleQuery(Commit), |tail| - 1);
      ShiftAt(begin, prep + tail, SimpleQuery(Commit), |prep + tail| - 1);
      OnlyAt(begin, prep + tail, SimpleQuery(Begin), 0);
    }
  }

  /** A command missing from `t` stands in `s + t` only where it stands in `s`. */
  lemma {:induction false} OnlyAt(s: seq<Cmd>, t: seq<Cmd>, c: Cmd, k: int)
    requires c !in t
    requires forall i :: 0 <= i < |s| && s[i] == c ==> i == k
    ensures forall i :: 0 <= i < |s + t| && (s + t)[i] == c ==> i == k
  {
  }

  /** A command missing from `s` stands in `s + t` only `|s|` places after where it
      stands in `t`. */
  lemma {:induction false} ShiftAt(s: seq<Cmd>, t: seq<Cmd>, c: Cmd, k: int)
    requires c !in s
    requires forall i :: 0 <= i < |t| && t[i] == c ==> i == k
    ensures forall i :: 0 <= i < |s + t| && (s + t)[i] == c ==> i == |s| + k
  {
    forall i | 0 <= i < |s + t| && (s + t)[i] == c
      ensures i == |s| + k
    {
      if i >= |s| {
        assert t[i - |s|] == c;
      }
    }
  }

  /** Where BEGIN and COMMIT stand in what follows the reset, given data operations
      that are neither. */
  lemma {:induction false} BodyShape(m: IngestMethod, transactions: bool, batchSize: nat, data: seq<Cmd>)
    requires SimpleQuery(Begin) !in data && SimpleQuery(Commit) !in data
    ensures var body := StrategyBody(m, transactions, batchSize, data);
      (SimpleQuery(Begin) in body <==> transactions && !IsSentinel(m, batchSize))
      && (SimpleQuery(Commit) in body <==> transactions && !IsSentinel(m, batchSize) && batchSize > 0)
      && (transactions && !IsSentinel(m, batchSize) ==> body != [] && body[0] == SimpleQuery(Begin))
      && (transactions && !IsSentinel(m, batchSize) && batchSize > 0 ==>
            body != [] && body[|body| - 1] == SimpleQuery(Commit))
  {
    if !IsSentinel(m, batchSize) {
      var tail := ChunkPart(transactions, batchSize, data);
      var prep := PrepareCommands(m, batchSize);
      assert SimpleQuery(Begin) !in prep && SimpleQuery(Commit) !in prep;
      assert SimpleQuery(Begin) !in tail;
      assert SimpleQuery(Commit) in tail <==> transactions && batchSize > 0;
    }
  }

  /** With a usable batch size, the plan is the statements before the data
      operations, the data operations, and the statements after them. */
  lemma {:induction false} PlanParts(m: IngestMethod, records: seq<BatterySensorData>, transactions: bool, batchSize: nat)
    requires batchSize > 0 && !IsSentinel(m, batchSize)
    ensures Plan(m, records, transactions, batchSize) ==
      Before(m, transactions, batchSize) + (DataCommands(m, batchSize, Chunks(records, batchSize)) + CommitCommands(transactions))
    ensures forall c :: c in Before(m, transactions, batchSize) ==> !IsDataOp(c)
    ensures forall c :: c in CommitCommands(transactions) ==> !IsDataOp(c)
  {
    var data := DataCommands(m, batchSize, Chunks(records, batchSize));
    var begin, prep, commit := BeginCommands(transactions), PrepareCommands(m, batchSize), CommitCommands(transactions);
    assert PlanData(m, batchSize, records) == data;
    assert ChunkPart(transactions, batchSize, data) == data + commit;
    assert StrategyBody(m, transactions, batchSize, data) == begin + (prep + (data + commit));
    assert ResetCommands() + (begin + (prep + (data + commit))) == (ResetCommands() + begin + prep) + (data + commit);
  }

  /** The statements a strategy sends before its first data operation. */
  function Before(m: IngestMethod, transactions: bool, batchSize: nat): seq<Cmd>
  {
    ResetCommands() + BeginCommands(transactions) + PrepareCommands(m, batchSize)
  }

  // ---------------------------------------------------------------------------
  // Operations per chunk

  /** The number of commands in `cmds` that satisfy `p`. */
  function CountIf(cmds: seq<Cmd>, p: Cmd -> bool): nat
  {
    if cmds == [] then 0 else (if p(cmds[0]) then 1 else 0) + CountIf(cmds[1..], p)
  }

  lemma {:induction false} CountIfAppend(a: seq<Cmd>, b: seq<Cmd>, p: Cmd -> bool)
    ensures CountIf(a + b, p) == CountIf(a, p) + CountIf(b, p)
  {
    if a == [] {
      assert a + b == b;
    } else {
      assert (a + b)[1..] == a[1..] + b;
      CountIfAppend(a[1..], b, p);
    }
  }

  predicate IsExecute(c: Cmd) { c.Execute? }
  predicate IsCopyIn(c: Cmd) { c.CopyIn? }
  predicate IsWriteRow(c: Cmd) { c.WriteRow? }
  predicate IsFinish(c: Cmd) { c.Finish? }

  /** How many `execute`, `copy_in`, row write and `finish` calls a command sequence
      holds. */
  datatype Tally = Tally(executes: nat, copyIns: nat, writes: nat, finishes: nat)

  function TallyOf(cmds: seq<Cmd>): Tally
  {
    Tally(CountIf(cmds, IsExecute), CountIf(cmds, IsCopyIn), CountIf(cmds, IsWriteRow), CountIf(cmds, IsFinish))
  }

  lemma {:induction false} TallyAppend(a: seq<Cmd>, b: seq<Cmd>)
    ensures TallyOf(a + b) == Tally(TallyOf(a).executes + TallyOf(b).executes, TallyOf(a).copyIns + TallyOf(b).copyIns,
                                   TallyOf(a).writes + TallyOf(b).writes, TallyOf(a).finishes + TallyOf(b).finishes)
  {
    CountIfAppend(a, b, IsExecute);
    CountIfAppend(a, b, IsCopyIn);
    CountIfAppend(a, b, IsWriteRow);
    CountIfAppend(a, b, IsFinish);
  }

  lemma {:induction false} TallySingle(c: Cmd)
    ensures TallyOf([c]) == Tally(if c.Execute? then 1 else 0, if c.CopyIn? then 1 else 0,
                                  if c.WriteRow? then 1 else 0, if c.Finish? then 1 else 0)
  {
    assert [c][1..] == [];
    assert CountIf([c], IsExecute) == (if c.Execute? then 1 else 0);
    assert CountIf([c], IsCopyIn) == (if c.CopyIn? then 1 else 0);
    assert CountIf([c], IsWriteRow) == (if c.WriteRow? then 1 else 0);
    assert CountIf([c], IsFinish) == (if c.Finish? then 1 else 0);
  }

  lemma {:induction false} NonDataTally(cmds: seq<Cmd>)
    requires forall c :: c in cmds ==> !IsDataOp(c)
    ensures TallyOf(cmds) == Tally(0, 0, 0, 0)
  {
    if cmds != [] {
      NonDataTally(cmds[1..]);
      assert cmds[0] in cmds;
      TallySingle(cmds[0]);
      TallyAppend([cmds[0]], cmds[1..]);
      assert [cmds[0]] + cmds[1..] == cmds;
    }
  }

  /** Statements around the data add nothing to the tally. */
  lemma {:induction false} FramedTally(pre: seq<Cmd>, data: seq<Cmd>, post: seq<Cmd>)
    requires forall c :: c in pre ==> !IsDataOp(c)
    requires forall c :: c in post ==> !IsDataOp(c)
    ensures TallyOf(pre + (data + post)) == TallyOf(data)
  {
    NonDataTally(pre);
    NonDataTally(post);
    TallyAppend(data, post);
    TallyAppend(pre, data + post);
  }

  lemma {:induction false} CopyRowsTally(chunk: seq<BatterySensorData>)
    ensures TallyOf(CopyRowCommands(chunk)) == Tally(0, 0, |chunk|, 0)
  {
    if chunk != [] {
      CopyRowsTally(chunk[1..]);
      TallySingle(WriteRow(RowValues(chunk[0], IdFirst)));
      TallyAppend([WriteRow(RowValues(chunk[0], IdFirst))], CopyRowCommands(chunk[1..]));
    }
  }

  /** What one chunk's data operation holds. */
  function ChunkTally(m: IngestMethod, n: nat): Tally
  {
    if IsInsert(m) then Tally(1, 0, 0, 0) else Tally(0, 1, n, 1)
  }

  lemma {:induction false} ChunkCommandsTally(m: IngestMethod, batchSize: nat, chunk: seq<BatterySensorData>)
    ensures TallyOf(ChunkCommands(m, batchSize, chunk)) == ChunkTally(m, |chunk|)
  {
    if IsInsert(m) {
      TallySingle(ExecuteFor(m, batchSize, chunk));
    } else {
      CopyRowsTally(chunk);
      TallySingle(Finish);
      TallySingle(CopyIn(FormatOf(m)));
      TallyAppend(CopyRowCommands(chunk), [Finish]);
      TallyAppend([CopyIn(FormatOf(m))], CopyRowCommands(chunk) + [Finish]);
    }
  }

  /** A tally of `k` chunk operations over `n` readings in all. */
  function ChunksTally(m: IngestMethod, k: nat, n: nat): Tally
  {
    if IsInsert(m) then Tally(k, 0, 0, 0) else Tally(0, k, n, k)
  }

  lemma {:induction false} DataCommandsTally(m: IngestMethod, batchSize: nat, chunks: seq<seq<BatterySensorData>>)
    ensures TallyOf(DataCommands(m, batchSize, chunks)) == ChunksTally(m, |chunks|, |Flatten(chunks)|)
  {
    if chunks != [] {
      DataCommandsTally(m, batchSize, chunks[1..]);
      ChunkCommandsTally(m, batchSize, chunks[0]);
      TallyAppend(ChunkCommands(m, batchSize, chunks[0]), DataCommands(m, batchSize, chunks[1..]));
    }
  }

  /** With a usable batch size a strategy sends exactly one data operation per chunk:
      one `execute` for the INSERT strategies; one `copy_in` and one `finish` for the
      COPY strategies, with one row write per reading between them. */
  lemma {:induction false} OperationsPerChunk(m: IngestMethod, records: seq<BatterySensorData>, transactions: bool, batchSize: nat)
    requires batchSize > 0 && !IsSentinel(m, batchSize)
    ensures TallyOf(Plan(m, records, transactions, batchSize)) == ChunksTally(m, |Chunks(records, batchSize)|, |records|)
  {
    var chunks := Chunks(records, batchSize);
    PlanParts(m, records, transactions, batchSize);
    FramedTally(Before(m, transactions, batchSize), DataCommands(m, batchSize, chunks), CommitCommands(transactions));
    DataCommandsTally(m, batchSize, chunks);
    FlattenChunks(records, batchSize);
  }

  // ---------------------------------------------------------------------------
  // The readings the commands carry

  /** The order in which strategy `m` pushes a reading's values. */
  function OrderOf(m: IngestMethod): BindOrder
  {
    if m.PreparedInsertValues? then TimestampFirst else IdFirst
  }

  /** The readings one command carries, with VALUES parameters read in `order`. */
  function Carried(c: Cmd, order: BindOrder): Option<seq<BatterySensorData>>
  {
    match c
    case Execute(target, params) =>
      if target.stmt.UnnestInsert? then
        match UnnestColumns(params)
        case Some(cols) => if cols.Rectangular() then Some(Rows(cols)) else None
        case None => None
      else ParamsRows(params, order)
    case WriteRow(fields) =>
      if |fields| == 7 then
        match RowOfValues(fields, IdFirst)
        case Some(r) => Some([r])
        case None => None
      else None
    case _ => Some([])
  }

  /** Both sequences of readings, one after the other, when both read back. */
  function Join(x: Option<seq<BatterySensorData>>, y: Option<seq<BatterySensorData>>): Option<seq<BatterySensorData>>
  {
    if x.Some? && y.Some? then Some(x.value + y.value) else None
  }

  lemma {:induction false} JoinAssociative(x: Option<seq<BatterySensorData>>, y: Option<seq<BatterySensorData>>,
                        z: Option<seq<BatterySensorData>>)
    ensures Join(x, Join(y, z)) == Join(Join(x, y), z)
  {
    if x.Some? && y.Some? && z.Some? {
      assert x.value + (y.value + z.value) == (x.value + y.value) + z.value;
    }
  }

  /** The readings a command sequence carries, in order; `None` when one does not read back. */
  function CarriedAll(cmds: seq<Cmd>, order: BindOrder): Option<seq<BatterySensorData>>
  {
    if cmds == [] then Some([]) else Join(Carried(cmds[0], order), CarriedAll(cmds[1..], order))
  }

  lemma {:induction false} CarriedAllAppend(a: seq<Cmd>, b: seq<Cmd>, order: BindOrder)
    ensures CarriedAll(a + b, order) == Join(CarriedAll(a, order), CarriedAll(b, order))
  {
    if a != [] {
      assert (a + b)[1..] == a[1..] + b;
      CarriedAllAppend(a[1..], b, order);
      JoinAssociative(Carried(a[0], order), CarriedAll(a[1..], order), CarriedAll(b, order));
    } else {
      assert a + b == b;
      var y := CarriedAll(b, order);
      assert y.Some? ==> [] + y.value == y.value;
    }
  }

  lemma {:induction false} NonDataCarry(cmds: seq<Cmd>, order: BindOrder)
    requires forall c :: c in cmds ==> !IsDataOp(c)
    ensures CarriedAll(cmds, order) == Some([])
  {
    if cmds != [] {
      NonDataCarry(cmds[1..], order);
      assert cmds[0] in cmds;
      var none: seq<BatterySensorData> := [];
      assert none + none == none;
    }
  }

  /** A command without parameters or fields carries no reading. */
  lemma {:induction false} NonReadingCarry(c: Cmd, order: BindOrder)
    requires !c.Execute? && !c.WriteRow?
    ensures CarriedAll([c], order) == Some([])
  {
    assert [c][1..] == [];
    var none: seq<BatterySensorData> := [];
    assert none + none == none;
  }

  /** Statements around the data carry no readings. */
  lemma {:induction false} FramedCarry(pre: seq<Cmd>, data: seq<Cmd>, post: seq<Cmd>, order: BindOrder, rows: seq<BatterySensorData>)
    requires CarriedAll(pre, order) == Some([]) && CarriedAll(post, order) == Some([])
    requires CarriedAll(data, order) == Some(rows)
    ensures CarriedAll(pre + (data + post), order) == Some(rows)
  {
    CarriedAllAppend(data, post, order);
    assert rows + [] == rows;
    CarriedAllAppend(pre, data + post, order);
    assert [] + rows == rows;
  }

  lemma {:induction false} CopyRowsCarry(chunk: seq<BatterySensorData>)
    ensures CarriedAll(CopyRowCommands(chunk), IdFirst) == Some(chunk)
  {
    if chunk != [] {
      CopyRowsCarry(chunk[1..]);
      RowOfValuesInverse(chunk[0], [], IdFirst);
      assert [chunk[0]] + chunk[1..] == chunk;
    }
  }

  lemma {:induction false} ChunkCarries(m: IngestMethod, batchSize: nat, chunk: seq<BatterySensorData>)
    ensures CarriedAll(ChunkCommands(m, batchSize, chunk), OrderOf(m)) == Some(chunk)
  {
    if IsInsert(m) {
      ExecuteCarries(m, batchSize, chunk);
      var cmds := ChunkCommands(m, batchSize, chunk);
      assert cmds == [ExecuteFor(m, batchSize, chunk)];
      assert cmds[1..] == [];
      assert chunk + [] == chunk;
    } else {
      CopyRowsCarry(chunk);
      NonReadingCarry(CopyIn(FormatOf(m)), IdFirst);
      NonReadingCarry(Finish, IdFirst);
      FramedCarry([CopyIn(FormatOf(m))], CopyRowCommands(chunk), [Finish], IdFirst, chunk);
    }
  }

  /** An `execute` carries its chunk: the VALUES parameters read back in the order they
      were pushed, the UNNEST arrays read back row by row. */
  lemma {:induction false} ExecuteCarries(m: IngestMethod, batchSize: nat, chunk: seq<BatterySensorData>)
    requires IsInsert(m)
    ensures Carried(ExecuteFor(m, batchSize, chunk), OrderOf(m)) == Some(chunk)
  {
    if m.InsertValues? || m.PreparedInsertValues? {
      ValuesParamsRoundTrip(chunk, OrderOf(m));
    } else {
      TransposeRoundTrip(chunk);
      UnnestColumnsOfParams(Transpose(chunk));
    }
  }

  lemma {:induction false} DataCommandsCarry(m: IngestMethod, batchSize: nat, chunks: seq<seq<BatterySensorData>>)
    ensures CarriedAll(DataCommands(m, batchSize, chunks), OrderOf(m)) == Some(Flatten(chunks))
  {
    if chunks != [] {
      DataCommandsCarry(m, batchSize, chunks[1..]);
      ChunkCarries(m, batchSize, chunks[0]);
      CarriedAllAppend(ChunkCommands(m, batchSize, chunks[0]), DataCommands(m, batchSize, chunks[1..]), OrderOf(m));
    }
  }

  /** Nothing lost, nothing repeated, nothing reordered: read back in the order each
      strategy pushes them, the commands of a strategy with a usable batch size carry
      exactly the readings, in order; the over-limit sentinel carries none. */
  lemma {:induction false} Delivery(m: IngestMethod, records: seq<BatterySensorData>, transactions: bool, batchSize: nat)
    requires batchSize > 0
    ensures CarriedAll(Plan(m, records, transactions, batchSize), OrderOf(m)) ==
      Some(if IsSentinel(m, batchSize) then [] else records)
  {
    if !IsSentinel(m, batchSize) {
      var chunks := Chunks(records, batchSize);
      PlanParts(m, records, transactions, batchSize);
      DataCommandsCarry(m, batchSize, chunks);
      FlattenChunks(records, batchSize);
      NonDataCarry(Before(m, transactions, batchSize), OrderOf(m));
      NonDataCarry(CommitCommands(transactions), OrderOf(m));
      FramedCarry(Before(m, transactions, batchSize), DataCommands(m, batchSize, chunks), CommitCommands(transactions),
                  OrderOf(m), records);
    } else {
      NonDataCarry(ResetCommands(), OrderOf(m));
      assert Plan(m, records, transactions, batchSize) == ResetCommands() + [];
      assert ResetCommands() + [] == ResetCommands();
    }
  }

  // ---------------------------------------------------------------------------
  // The VALUES template against the chunks

  /** The template has seven placeholders per row of a full batch. */
  lemma {:induction false} TemplatePlaceholders(batchSize: nat)
    ensures PlaceholderCount(ValuesInsert(ValuesTemplate(batchSize))) == 7 * batchSize
  {
    ValuesTemplateNumbering(batchSize);
  }

  /** Every chunk but the last supplies exactly as many parameters as the VALUES
      template has placeholders. */
  lemma {:induction false} FullChunksFillTemplate(m: IngestMethod, records: seq<BatterySensorData>, batchSize: nat)
    requires m.InsertValues? || m.PreparedInsertValues?
    requires batchSize > 0
    ensures var cs := Chunks(records, batchSize);
      forall i :: 0 <= i < |cs| - 1 ==>
        |ExecuteFor(m, batchSize, cs[i]).params| == PlaceholderCount(ExecuteFor(m, batchSize, cs[i]).target.stmt)
  {
    var cs := Chunks(records, batchSize);
    TemplatePlaceholders(batchSize);
    forall i | 0 <= i < |cs| - 1
      ensures |ExecuteFor(m, batchSize, cs[i]).params| == PlaceholderCount(ExecuteFor(m, batchSize, cs[i]).target.stmt)
    {
      ValuesParamsLength(cs[i], OrderOf(m));
    }
  }

  /** When the batch size does not divide the number of readings, the last chunk
      supplies fewer: the template is built for the batch size, not for the chunk. */
  lemma {:induction false} LastChunkUnderfillsTemplate(m: IngestMethod, records: seq<BatterySensorData>, batchSize: nat)
    requires m.InsertValues? || m.PreparedInsertValues?
    requires batchSize > 0 && |records| % batchSize != 0
    ensures var cs := Chunks(records, batchSize);
      var c := ExecuteFor(m, batchSize, cs[|cs| - 1]);
      |c.params| == 7 * (|records| % batchSize) < PlaceholderCount(c.target.stmt)
  {
    var cs := Chunks(records, batchSize);
    TemplatePlaceholders(batchSize);
    ChunkCount(records, batchSize);
    var n := |cs|;
    var last := cs[n - 1];
    ValuesParamsLength(last, OrderOf(m));
    RemainderOfLastChunk(|records|, batchSize, n - 1, |last|);
  }

  lemma {:induction false} MulAtLeast(k: int, size: nat)
    requires k >= 1
    ensures k * size >= size
  {
    if k > 1 {
      MulAtLeast(k - 1, size);
      assert k * size == (k - 1) * size + size;
    }
  }

  /** Euclidean division is unique. */
  lemma {:induction false} ModUnique(s: nat, size: nat, q: nat, r: nat)
    requires r < size && s == q * size + r
    ensures s % size == r
  {
    var q', r' := s / size, s % size;
    assert (q - q') * size == r' - r;
    if q > q' {
      MulAtLeast(q - q', size);
    } else if q' > q {
      assert (q' - q) * size == r - r';
      MulAtLeast(q' - q, size);
    }
  }

  /** `s = q * size + r` with `0 < r <= size` and `s % size != 0` means `r` is that remainder. */
  lemma {:induction false} RemainderOfLastChunk(s: nat, size: nat, q: nat, r: nat)
    requires size > 0 && s == q * size + r && 0 < r <= size && s % size != 0
    ensures r == s % size && r < size
  {
    if r == size {
      assert s == (q + 1) * size + 0;
      ModUnique(s, size, q + 1, 0);
    } else {
      ModUnique(s, size, q, r);
    }
  }

  // ---------------------------------------------------------------------------
  // What a strategy returns

  /** A strategy whose first command goes to log position `at` stops at the first
      error the server reports, and reports its position; without an error it
      returns its result, except that `chunks(0)` panics for a zero batch size. The
      over-limit sentinel has zero duration and zero throughput; every other result
      has the measured duration. */
  lemma {:induction false} OutcomeCases(m: IngestMethod, records: seq<BatterySensorData>, transactions: bool, batchSize: nat,
                     elapsed: nat, at: nat, failures: set<nat>)
    ensures var r := Outcome(m, records, transactions, batchSize, elapsed, at, failures);
      r.Aborted? && r.reason.DbError? <==> !AllSucceed(|Plan(m, records, transactions, batchSize)|, at, failures)
    ensures var r := Outcome(m, records, transactions, batchSize, elapsed, at, failures);
      r.Aborted? && r.reason.DbError? ==>
        var p := r.reason.position;
        p in failures && at <= p < at + |Plan(m, records, transactions, batchSize)| && AllSucceed(p - at, at, failures)
    ensures Outcome(m, records, transactions, batchSize, elapsed, at, failures) == Aborted(ZeroChunkSize) <==>
      AllSucceed(|Plan(m, records, transactions, batchSize)|, at, failures) && batchSize == 0 && !IsSentinel(m, batchSize)
    ensures var r := Outcome(m, records, transactions, batchSize, elapsed, at, failures);
      r.Done? ==>
        r.result.methodName == Label(m) && r.result.batchSize == batchSize && r.result.transaction == transactions
        && (IsSentinel(m, batchSize) ==> r.result.duration == 0 && r.result.rowsPerSec == 0.0)
        && (!IsSentinel(m, batchSize) ==>
              r.result.duration == elapsed && batchSize > 0 && r.result.rowsPerSec == RowsPerSec(|records|, elapsed))
  {
    IssuedSpec(Plan(m, records, transactions, batchSize), at, failures);
  }
}
