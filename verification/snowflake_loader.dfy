/**
 * `SnowflakeLoader`: appends a batch to a RAW table, stamps it with a run id,
 * records every attempt in the run ledger, and keeps the per-dataset
 * watermark. The warehouse's replies (does the connection open, what does
 * `write_pandas` report, do the metadata statements succeed), the run-id
 * generator and the clock are parameters.
 */
module Load {
  import opened Wrappers
  import opened Frames
  import opened Snowflake

  /** `self.conn`: never established (None), open, or closed. */
  datatype Connection = NoConnection | Open | Closed

  /** What `snowflake.connector.connect` does when the loader asks for a connection. */
  datatype ConnectAttempt = Connects | ConnectFails(error: string)

  /** `write_pandas`'s reply: success with its counts, not-success with its output, or an exception. */
  datatype WriteOutcome =
    | Written(numChunks: nat, numRows: nat)
    | NotWritten(output: string)
    | WriteRaised(error: string)

  /**
   * Everything one `load_to_raw` call receives from outside: the connection
   * attempt, the id `generate_run_id` returns, the write's reply when the
   * target table exists, the text of the exception it raises when the table
   * does not exist, whether the ledger INSERT succeeds, and `datetime.now()`
   * at the ledger write.
   */
  datatype LoadEnv = LoadEnv(
    connect: ConnectAttempt, runId: string, write: WriteOutcome, missingTableError: string, ledgerOk: bool, now: int)

  /** The returned dictionary, or the exception `load_to_raw` raises. */
  datatype LoadResult =
    | Skipped
    | LoadCompleted(runId: string, recordsLoaded: nat, chunks: nat)
    | LoadRaised(error: string)

  datatype LoadStep = LoadStep(store: Store, conn: Connection, result: LoadResult)

  /** `_get_connection`: an open connection is reused, otherwise a new one is attempted. */
  function ConnectionAfter(conn: Connection, attempt: ConnectAttempt): Connection {
    if conn == Open || attempt.Connects? then Open else conn
  }

  /** `str(e)` for the exception the write path raises. */
  function WriteErrorText(write: WriteOutcome): string
    requires !write.Written?
  {
    match write
    case NotWritten(output) => "Load failed: " + output
    case WriteRaised(error) => error
  }

  /**
   * `write_pandas`'s reply to an append into RAW.<table>: with
   * `auto_create_table=False` a table that does not exist is never created,
   * and the write raises.
   */
  function WriteReply(tables: map<TableRef, seq<Row>>, table: string, env: LoadEnv): WriteOutcome {
    if RawTable(table) in tables then env.write else WriteRaised(env.missingTableError)
  }

  /** The one ledger row a non-empty load writes, given the write's reply. */
  function RunRecordFor(dataset: string, table: string, env: LoadEnv, write: WriteOutcome): RunRecord {
    match write
    case Written(_, numRows) => RunRecord(env.runId, dataset, table, env.now, numRows, Completed, None)
    case _ => RunRecord(env.runId, dataset, table, env.now, 0, Failed, Some(WriteErrorText(write)))
  }

  /**
   * `_log_ingest_run`: the INSERT goes through `self.conn`; when there is no
   * open connection or the statement fails, the error is swallowed.
   */
  function LedgerAfterLog(ledger: seq<RunRecord>, conn: Connection, record: RunRecord, ok: bool): seq<RunRecord> {
    if conn == Open && ok then ledger + [record] else ledger
  }

  /** `update_watermark`: a MERGE keyed by dataset name; errors are swallowed. */
  function WatermarksAfterUpdate(
    watermarks: map<string, Watermark>, conn: Connection, dataset: string, value: Cell, ok: bool, now: int
  ): map<string, Watermark>
  {
    if conn == Open && ok then watermarks[dataset := Watermark(value, now)] else watermarks
  }

  /** `get_watermark`: the stored value, or None when there is none or the read fails. */
  function ReadWatermark(watermarks: map<string, Watermark>, conn: Connection, dataset: string, ok: bool): Option<Cell> {
    if conn == Open && ok && dataset in watermarks then Some(watermarks[dataset].value) else None
  }

  /** The effect and result of `load_to_raw(df, table, dataset)`. */
  function LoadSpec(s: Store, conn: Connection, df: Frame, table: string, dataset: string, env: LoadEnv): LoadStep
    requires WellFormed(df)
  {
    if Empty(df) then
      LoadStep(s, conn, Skipped)
    else if ConnectionAfter(conn, env.connect) != Open then
      LoadStep(s, conn, LoadRaised(env.connect.error))
    else
      var write := WriteReply(s.tables, table, env);
      var tables :=
        if write.Written? then Append(s.tables, RawTable(table), RowsOf(PreparedBatch(df, env.runId)))
        else s.tables;
      var ledger := LedgerAfterLog(s.ledger, Open, RunRecordFor(dataset, table, env, write), env.ledgerOk);
      var result :=
        if write.Written? then LoadCompleted(env.runId, write.numRows, write.numChunks)
        else LoadRaised(WriteErrorText(write));
      LoadStep(Store(tables, ledger, s.watermarks), Open, result)
  }

  // ---------------------------------------------------------------------
  // Properties of a load

  /** An empty batch is skipped: no connection, no table write, no ledger record. */
  lemma EmptyBatchIsSkipped(s: Store, conn: Connection, df: Frame, table: string, dataset: string, env: LoadEnv)
    requires WellFormed(df) && Empty(df)
    ensures LoadSpec(s, conn, df, table, dataset, env) == LoadStep(s, conn, Skipped)
  {
  }

  /** A connection that cannot be established raises before anything is written. */
  lemma ConnectFailureWritesNothing(s: Store, conn: Connection, df: Frame, table: string, dataset: string, env: LoadEnv)
    requires WellFormed(df) && !Empty(df)
    requires conn != Open && env.connect.ConnectFails?
    ensures LoadSpec(s, conn, df, table, dataset, env) == LoadStep(s, conn, LoadRaised(env.connect.error))
  {
  }

  /**
   * A load that reaches the warehouse appends at most one ledger record (one
   * exactly when the INSERT succeeds): `completed` with the warehouse's row
   * count when the write succeeded, otherwise `failed` with zero rows and the
   * text of the exception the load raises. The run id is the one stamped on
   * the rows, and the returned result carries the same id and count.
   */
  lemma LoadRecordsOneRun(s: Store, conn: Connection, df: Frame, table: string, dataset: string, env: LoadEnv)
    requires WellFormed(df) && !Empty(df) && ConnectionAfter(conn, env.connect) == Open
    ensures var step := LoadSpec(s, conn, df, table, dataset, env);
      var write := WriteReply(s.tables, table, env);
      && step.conn == Open
      && step.store.ledger == s.ledger + (if env.ledgerOk then [RunRecordFor(dataset, table, env, write)] else [])
      && (write.Written? <==> step.result.LoadCompleted?)
      && (step.result.LoadCompleted? ==>
            step.result.runId == env.runId && step.result.recordsLoaded == write.numRows)
      && (step.result.LoadRaised? ==> step.result.error == WriteErrorText(write))
  {
  }

  /** The ledger record a load writes says `completed` exactly when the warehouse reported success. */
  lemma RunRecordMatchesOutcome(dataset: string, table: string, env: LoadEnv, write: WriteOutcome)
    ensures var r := RunRecordFor(dataset, table, env, write);
      && r.runId == env.runId && r.datasetName == dataset && r.tableName == table && r.runTimestamp == env.now
      && (r.status == Completed <==> write.Written?)
      && (r.status == Completed ==> r.recordsLoaded == write.numRows && r.errorMessage == None)
      && (r.status == Failed ==> r.recordsLoaded == 0 && r.errorMessage == Some(WriteErrorText(write)))
  {
  }

  /**
   * Loads only append: no table is created or dropped; every table keeps its
   * rows as a prefix; only RAW.<table> grows, by the prepared batch when the
   * write succeeded; the ledger only grows; the watermarks are never touched.
   */
  lemma LoadIsAppendOnly(s: Store, conn: Connection, df: Frame, table: string, dataset: string, env: LoadEnv)
    requires WellFormed(df)
    ensures var t := LoadSpec(s, conn, df, table, dataset, env).store;
      && t.watermarks == s.watermarks
      && s.ledger <= t.ledger
      && (forall ref :: RowsIn(s.tables, ref) <= RowsIn(t.tables, ref))
      && (forall ref :: ref != RawTable(table) ==> RowsIn(t.tables, ref) == RowsIn(s.tables, ref))
      && RowsIn(t.tables, RawTable(table)) ==
           RowsIn(s.tables, RawTable(table))
             + (if !Empty(df) && ConnectionAfter(conn, env.connect) == Open && WriteReply(s.tables, table, env).Written?
                then RowsOf(PreparedBatch(df, env.runId)) else [])
      && (forall ref :: ref in t.tables <==> ref in s.tables)
  {
  }

  /**
   * A load into a RAW table that does not exist raises the write's exception,
   * creates no table and records a `failed` run (when the INSERT succeeds).
   */
  lemma MissingTableNeverLoads(s: Store, conn: Connection, df: Frame, table: string, dataset: string, env: LoadEnv)
    requires WellFormed(df) && !Empty(df) && ConnectionAfter(conn, env.connect) == Open
    requires RawTable(table) !in s.tables
    ensures var step := LoadSpec(s, conn, df, table, dataset, env);
      && step.result == LoadRaised(env.missingTableError)
      && step.store.tables == s.tables
      && (env.ledgerOk ==>
            step.store.ledger[|s.ledger|].status == Failed
            && step.store.ledger[|s.ledger|].errorMessage == Some(env.missingTableError))
  {
  }

  /**
   * Every row a successful load appends carries the run id of the load's
   * ledger record and result, and the caller's other columns with their
   * date columns truncated.
   */
  lemma {:induction false} LoadedRowsCarryRunId(s: Store, conn: Connection, df: Frame, table: string, dataset: string, env: LoadEnv)
    requires WellFormed(df) && !Empty(df) && ConnectionAfter(conn, env.connect) == Open
    requires WriteReply(s.tables, table, env).Written?
    ensures var t := LoadSpec(s, conn, df, table, dataset, env).store;
      var old_ := RowsIn(s.tables, RawTable(table));
      var new_ := RowsIn(t.tables, RawTable(table));
      && |new_| == |old_| + df.rows
      && (forall i :: |old_| <= i < |new_| ==> FieldValue(new_[i], RunIdColumn) == Some(Text(env.runId)))
      && (forall i, j :: |old_| <= i < |new_| && 0 <= j < |df.columns| && df.columns[j].name != RunIdColumn ==>
            FieldValue(new_[i], df.columns[j].name) == Some(NormalizedColumn(df.columns[j]).cells[i - |old_|]))
  {
    PreparedRows(df, env.runId);
    var t := LoadSpec(s, conn, df, table, dataset, env).store;
    var old_ := RowsIn(s.tables, RawTable(table));
    var added := RowsOf(PreparedBatch(df, env.runId));
    assert RowsIn(t.tables, RawTable(table)) == old_ + added;
    assert forall i :: |old_| <= i < |old_| + |added| ==> (old_ + added)[i] == added[i - |old_|];
  }

  /**
   * The loader does no deduplication: loading the same batch twice into a
   * table leaves both copies there and two `completed` ledger records.
   */
  lemma ReloadDuplicatesRows(s: Store, df: Frame, table: string, dataset: string, env1: LoadEnv, env2: LoadEnv)
    requires WellFormed(df) && !Empty(df)
    requires RawTable(table) in s.tables
    requires env1.connect.Connects? && env1.write.Written? && env1.ledgerOk
    requires env2.write.Written? && env2.ledgerOk
    ensures var first := LoadSpec(s, NoConnection, df, table, dataset, env1);
      var second := LoadSpec(first.store, first.conn, df, table, dataset, env2);
      && RowsIn(second.store.tables, RawTable(table))
           == RowsIn(s.tables, RawTable(table)) + RowsOf(PreparedBatch(df, env1.runId)) + RowsOf(PreparedBatch(df, env2.runId))
      && second.store.ledger == s.ledger + [RunRecordFor(dataset, table, env1, env1.write), RunRecordFor(dataset, table, env2, env2.write)]
      && second.store.ledger[|s.ledger|].status == Completed && second.store.ledger[|s.ledger| + 1].status == Completed
  {
  }

  // ---------------------------------------------------------------------
  // Properties of the watermark store

  /**
   * `update_watermark` then `get_watermark` on an open connection reads back
   * the value just written; other datasets keep their watermarks. With no
   * open connection, or when the MERGE fails, nothing changes.
   */
  lemma WatermarkReadBack(watermarks: map<string, Watermark>, conn: Connection, dataset: string, value: Cell, ok: bool, now: int)
    ensures var after := WatermarksAfterUpdate(watermarks, conn, dataset, value, ok, now);
      && (conn == Open && ok ==> ReadWatermark(after, Open, dataset, true) == Some(value))
      && (forall other :: other != dataset ==> (other in after <==> other in watermarks))
      && (forall other :: other != dataset && other in watermarks ==> after[other] == watermarks[other])
      && (conn != Open || !ok ==> after == watermarks)
  {
  }

  /**
   * Nothing makes the watermark move forward only: a later update with an
   * earlier date replaces a later one.
   */
  lemma WatermarkCanMoveBackwards(watermarks: map<string, Watermark>, dataset: string, later: int, earlier: int, now1: int, now2: int)
    requires earlier < later
    ensures var first := WatermarksAfterUpdate(watermarks, Open, dataset, CalendarDate(later), true, now1);
      var second := WatermarksAfterUpdate(first, Open, dataset, CalendarDate(earlier), true, now2);
      ReadWatermark(second, Open, dataset, true) == Some(CalendarDate(earlier))
  {
  }

  // ---------------------------------------------------------------------
  // The loader object

  class SnowflakeLoader {
    const warehouse: Warehouse
    var conn: Connection

    constructor (warehouse: Warehouse)
      ensures this.warehouse == warehouse && conn == NoConnection
    {
      this.warehouse := warehouse;
      conn := NoConnection;
    }

    /** `_get_connection`: reuses an open connection, otherwise connects. */
    method GetConnection(attempt: ConnectAttempt) returns (error: Option<string>)
      modifies this`conn
      ensures conn == ConnectionAfter(old(conn), attempt)
      ensures error.None? <==> conn == Open
      ensures error.Some? ==> error.value == attempt.error
    {
      if conn == Open {
        return None;
      }
      match attempt
      case Connects =>
        conn := Open;
        error := None;
      case ConnectFails(e) =>
        error := Some(e);
    }

    /** `_log_ingest_run`: never raises. */
    method LogIngestRun(record: RunRecord, ok: bool)
      modifies warehouse`ledger
      ensures warehouse.ledger == LedgerAfterLog(old(warehouse.ledger), conn, record, ok)
    {
      if conn == Open && ok {
        warehouse.ledger := warehouse.ledger + [record];
      }
    }

    /** `load_to_raw`. */
    method LoadToRaw(df: Frame, table: string, dataset: string, env: LoadEnv) returns (r: LoadResult)
      requires WellFormed(df)
      modifies this`conn, warehouse`tables, warehouse`ledger
      ensures LoadStep(warehouse.Snapshot(), conn, r) == LoadSpec(old(warehouse.Snapshot()), old(conn), df, table, dataset, env)
    {
      if Empty(df) {
        return Skipped;
      }
      var connectError := GetConnection(env.connect);
      if connectError.Some? {
        return LoadRaised(connectError.value);
      }
      var runId := env.runId;
      var batch := NormalizeDateColumns(df);
      batch := WithRunId(batch, runId);
      var reply := WriteReply(warehouse.tables, table, env);
      match reply
      case Written(numChunks, numRows) =>
        warehouse.tables := Append(warehouse.tables, RawTable(table), RowsOf(batch));
        LogIngestRun(RunRecord(runId, dataset, table, env.now, numRows, Completed, None), env.ledgerOk);
        r := LoadCompleted(runId, numRows, numChunks);
      case NotWritten(output) =>
        var error := "Load failed: " + output;
        LogIngestRun(RunRecord(runId, dataset, table, env.now, 0, Failed, Some(error)), env.ledgerOk);
        r := LoadRaised(error);
      case WriteRaised(error) =>
        LogIngestRun(RunRecord(runId, dataset, table, env.now, 0, Failed, Some(error)), env.ledgerOk);
        r := LoadRaised(error);
    }

    /** `update_watermark`: never raises. */
    method UpdateWatermark(dataset: string, value: Cell, ok: bool, now: int)
      modifies warehouse`watermarks
      ensures warehouse.watermarks == WatermarksAfterUpdate(old(warehouse.watermarks), conn, dataset, value, ok, now)
    {
      if conn == Open && ok {
        warehouse.watermarks := warehouse.watermarks[dataset := Watermark(value, now)];
      }
    }

    /** `get_watermark`: the stored value, or None when none is stored or the read fails. */
    method GetWatermark(dataset: string, ok: bool) returns (value: Option<Cell>)
      ensures value == ReadWatermark(warehouse.watermarks, conn, dataset, ok)
      ensures value.Some? <==> conn == Open && ok && dataset in warehouse.watermarks
      ensures value.Some? ==> value.value == warehouse.watermarks[dataset].value
    {
      if conn == Open && ok && dataset in warehouse.watermarks {
        value := Some(warehouse.watermarks[dataset].value);
      } else {
        value := None;
      }
    }

    /** `close`: closes an open connection; otherwise does nothing. */
    method Close()
      modifies this`conn
      ensures conn == (if old(conn) == Open then Closed else old(conn))
      ensures conn != Open
    {
      if conn == Open {
        conn := Closed;
      }
    }
  }
}
