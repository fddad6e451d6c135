/**
 * The warehouse the loader writes to, reduced to the three things the
 * pipeline touches: tables of rows (keyed by schema and name), the
 * METADATA.INGEST_RUNS ledger and the METADATA.WATERMARKS table.
 * `Store` is its value; `Warehouse` is the shared, mutable instance every
 * loader of a pipeline run talks to.
 */
module Snowflake {
  import opened Wrappers
  import opened Frames

  datatype TableRef = TableRef(schema: string, name: string)

  const RawSchema: string := "RAW"

  /** The table `write_pandas(..., schema='RAW')` targets. */
  function RawTable(name: string): TableRef {
    TableRef(RawSchema, name)
  }

  datatype RunStatus = Completed | Failed

  /** A row of METADATA.INGEST_RUNS. */
  datatype RunRecord = RunRecord(
    runId: string,
    datasetName: string,
    tableName: string,
    runTimestamp: int,
    recordsLoaded: nat,
    status: RunStatus,
    errorMessage: Option<string>)

  /** A row of METADATA.WATERMARKS, keyed by dataset name. */
  datatype Watermark = Watermark(value: Cell, updatedAt: int)

  datatype Store = Store(
    tables: map<TableRef, seq<Row>>,
    ledger: seq<RunRecord>,
    watermarks: map<string, Watermark>)

  /** The rows of a table; a table that does not exist has none. */
  function RowsIn(tables: map<TableRef, seq<Row>>, ref: TableRef): seq<Row> {
    if ref in tables then tables[ref] else []
  }

  /** An append-mode write: the new rows follow the rows already there. */
  function Append(tables: map<TableRef, seq<Row>>, ref: TableRef, rows: seq<Row>): (r: map<TableRef, seq<Row>>)
    ensures r.Keys == tables.Keys + {ref}
    ensures RowsIn(r, ref) == RowsIn(tables, ref) + rows
    ensures forall other :: other != ref ==> RowsIn(r, other) == RowsIn(tables, other)
  {
    tables[ref := RowsIn(tables, ref) + rows]
  }

  class Warehouse {
    var tables: map<TableRef, seq<Row>>
    var ledger: seq<RunRecord>
    var watermarks: map<string, Watermark>

    constructor (initial: Store)
      ensures Snapshot() == initial
    {
      tables, ledger, watermarks := initial.tables, initial.ledger, initial.watermarks;
    }

    function Snapshot(): Store
      reads this
    {
      Store(tables, ledger, watermarks)
    }
  }
}
