# Finance ingestion pipeline: a verified model of its load-and-track path

This project is a Dafny model of the ingestion side of a Yahoo Finance → Snowflake pipeline. It covers three parts:

- **`SnowflakeLoader`**: appends a batch of rows to a table in the warehouse's `RAW` schema and stamps every row with one fresh run id. It writes at most one record per load that reaches the write to the run ledger (`METADATA.INGEST_RUNS`): none for an empty batch, a failed connection or a failed ledger INSERT and keeps a per-dataset watermark (`METADATA.WATERMARKS`).
- **The Airflow DAG `finance_pipeline_dag`**:
  - a fixed graph `start → {prices, company info, benchmarks} → verify_data_quality → transform_dbt → end`;
  - three extract-and-load tasks; the prices and benchmarks tasks advance their dataset's watermark after a completed load of a non-empty batch that has a `date` column (without one the task raises KeyError), and the company-info task keeps none;
  - a data-quality gate that counts rows in three tables and warns about stale prices.
- **The manual runner `scripts/run_extraction.py`**: runs the same three loads in a fixed order and stops at the first exception.

The warehouse is modelled as a value `Store`:

- tables of rows keyed by schema and name;
- the ledger, as a sequence of run records;
- the watermarks, as a map from dataset name to value and time.

A shared mutable `Warehouse` object holds a `Store`, and every loader of a run talks to it. A `SnowflakeLoader` is a class with a `conn` field (never opened, open, or closed).

Everything outside the code is a parameter, collected in `LoadEnv` and `TaskEnv`:

- whether the connection opens;
- what `write_pandas` reports;
- whether the metadata statements succeed;
- the run id;
- `datetime.now()`.

The extractors' output is also a parameter: a batch or an error. Dates are day numbers, and "today" is a parameter of the gate.

Each stateful operation is a method proved against a specification function:

- `LoadToRaw` against `Load.LoadSpec`;
- `ExtractAndLoad` against `PipelineTasks.ExtractTaskSpec`;
- `VerifyDataQuality` against `QualityGate.GateSpec`;
- `RunStep` and `ManualRun` against `RunExtraction.StepSpec` and `RunSteps`.

The lemmas state the source's promises about those functions.

Files:

- `frames.dfy`: batches, the date-column rule, the run-id stamp, rows, and the column maximum.
- `snowflake.dfy`: the warehouse.
- `snowflake_loader.dfy`: the loader.
- `pipeline_graph.dfy`: the graph, `default_args`, the trigger rule and a scheduler.
- `pipeline_tasks.dfy`: the DAG's extract-and-load tasks.
- `quality_gate.dfy`: `verify_data_quality`.
- `run_extraction.dfy`: the manual runner.

In these places the code's behaviour is easy to misread:

- **Empty batch.** `load_to_raw` returns `{'records_loaded': 0, 'status': 'skipped'}` and writes **no** ledger record. There is no `skipped` record.
- **Connection failure.** A failure to connect happens before the `try` block. It raises and writes no ledger record.
- **Failed ledger INSERT.** When the ledger INSERT fails, nothing stops the watermark from advancing. `PipelineTasks.WatermarkAdvancesWithoutLedgerRecord` shows a watermark set with no `completed` record behind it.
- **Watermark moves backwards.** `update_watermark` is an unconditional upsert, so the watermark is not monotone (`Load.WatermarkCanMoveBackwards`).
- **Retries everywhere.** `default_args` gives `retries=2` to every task, the gate and the transform included (`PipelineGraph.EveryTaskRetriesTwice`). A retry re-runs the whole callable on the warehouse the failed attempt left behind: a batch without a `date` column for prices or benchmarks is loaded three times, with three `completed` records, before the task fails (`PipelineTasks.RetriesRepeatCompletedLoad`).
- **Tables must exist.** Every load passes `create_table=False`, so an append to a RAW table that does not exist raises and writes a `failed` record (`Load.MissingTableNeverLoads`).
- **Stale data only warns.** The gate fails when it cannot connect, when a checked table is missing or empty, or when `MAX(date)` is not a date (NULL, or a timestamp that cannot be subtracted from today's date). Stale data only draws a warning and never fails the gate (`QualityGate.StalenessOnlyWarns`, `QualityGate.GatePassesIff`).

## Model

| member | source | states |
|---|---|---|
| Frames.Lower | src/load/snowflake_loader.py:122 | `col.lower()` keeps the length, leaves no upper-case letter, maps each upper-case letter to the same letter in lower case and keeps every other character |
| Frames.ContainsIffOccurs | src/load/snowflake_loader.py:122 | the scan for `'date' in name` succeeds exactly when "date" occurs at some position |
| Frames.DateColumnNameIffOccurs | src/load/snowflake_loader.py:122 | the loader's name test (`== 'date'` or contains `'date'`) holds exactly when "date" occurs in the lower-cased name |
| Frames.NormalizedColumn | src/load/snowflake_loader.py:121-124 | a column keeps its name and length through normalisation |
| Frames.NormalizeDates | src/load/snowflake_loader.py:118-124 | the normalised copy is well formed with the same rows and number of columns |
| Frames.NormalizeDatesMeaning | src/load/snowflake_loader.py:121-124 | date-named datetime columns are truncated cell by cell to calendar dates, with no timestamp left; every other column is unchanged; names and order are kept |
| Frames.NormalizeDateColumns | src/load/snowflake_loader.py:118-124 | the column loop over the copy yields exactly the normalised frame |
| Frames.IndexOfColumn | src/load/snowflake_loader.py:127 | finds the column with a given label, or reports that there is none |
| Frames.WithRunId | src/load/snowflake_loader.py:127 | stamping `source_run_id` keeps the frame well formed with the same rows |
| Frames.PreparedBatch | src/load/snowflake_loader.py:118-127 | the batch handed to the warehouse has as many rows as the caller's batch |
| Frames.RowsReadBack | src/load/snowflake_loader.py:133-142 | the rows written read back as the frame's columns: each column's name holds its cell in every row, and a name that labels no column reads as absent |
| Frames.FieldValue | src/load/snowflake_loader.py:133-142 | a column read from a row is absent exactly when no field has that name |
| Frames.PreparedRows | src/load/snowflake_loader.py:117-127 | every prepared row carries the one run id under `source_run_id` and each other column's normalised cell under its own name |
| Frames.ColumnMax | dags/finance_pipeline_dag.py:70 | `df['date'].max()`: NaT when there is no date; otherwise one of the column's dates, and not before any of them |
| Frames.ColumnNamed | dags/finance_pipeline_dag.py:70 | `df['date']` selects the column so labelled, or there is none |
| Snowflake.Append | src/load/snowflake_loader.py:133-142 | an append-mode write puts the new rows after the existing ones and touches no other table |
| Load.EmptyBatchIsSkipped | src/load/snowflake_loader.py:110-112 | an empty batch returns `skipped` and changes neither the store nor the connection |
| Load.ConnectFailureWritesNothing | src/load/snowflake_loader.py:114 | a failed connection raises its error with nothing written, not even a ledger record |
| Load.LoadRecordsOneRun | src/load/snowflake_loader.py:131-175 | a load that reaches the warehouse appends one ledger record when the INSERT succeeds and none otherwise; it completes iff the write succeeded (a missing RAW table makes the write raise), carrying the run id and reported row count, and otherwise raises the write's error text |
| Load.RunRecordMatchesOutcome | src/load/snowflake_loader.py:144-175 | the record is `completed` with `num_rows` and no error iff the write succeeded; otherwise it is `failed` with 0 rows and the error text |
| Load.LoadIsAppendOnly | src/load/snowflake_loader.py:133-142 | every table keeps its rows as a prefix; no table is created or dropped; only `RAW.<table>` grows, by the prepared batch when the write succeeds; the ledger only grows; watermarks are untouched |
| Load.LoadedRowsCarryRunId | src/load/snowflake_loader.py:115-142 | the appended rows number as many as the batch, all carry the load's run id, and carry the caller's normalised columns |
| Load.MissingTableNeverLoads | src/load/snowflake_loader.py:133-175 | with `auto_create_table=False`, a load into a RAW table that does not exist raises the write's exception, creates no table, and records a `failed` run when the INSERT succeeds |
| Load.ReloadDuplicatesRows | src/load/snowflake_loader.py:133-161 | loading the same batch twice into an existing RAW table leaves both copies and two `completed` records (no deduplication) |
| Load.WatermarkReadBack | src/load/snowflake_loader.py:210-249 | after an upsert on an open connection, reading returns the value written; other datasets are unchanged; with no open connection or a failed MERGE nothing changes |
| Load.WatermarkCanMoveBackwards | src/load/snowflake_loader.py:213-225 | a later upsert with an earlier date replaces a later one |
| Load.SnowflakeLoader.constructor | src/load/snowflake_loader.py:22-30 | a new loader has no connection |
| Load.SnowflakeLoader.GetConnection | src/load/snowflake_loader.py:32-65 | an open connection is reused; otherwise a connection is attempted, and its error is returned on failure |
| Load.SnowflakeLoader.LogIngestRun | src/load/snowflake_loader.py:177-208 | appends the record when the connection is open and the INSERT succeeds; never raises |
| Load.SnowflakeLoader.LoadToRaw | src/load/snowflake_loader.py:91-175 | the new warehouse state, connection and result are those of `LoadSpec` |
| Load.SnowflakeLoader.UpdateWatermark | src/load/snowflake_loader.py:210-230 | upserts the dataset's watermark when possible; never raises |
| Load.SnowflakeLoader.GetWatermark | src/load/snowflake_loader.py:232-249 | returns `ReadWatermark` of the stored watermarks: the stored value, or None when there is none, no open connection or the read fails |
| Load.SnowflakeLoader.Close | src/load/snowflake_loader.py:251-255 | after `close` the connection is not open |
| PipelineGraph.EveryTaskRetriesTwice | dags/finance_pipeline_dag.py:26-33 | every task inherits two retries, five minutes apart, without depends_on_past |
| PipelineGraph.EdgesAreDeclared | dags/finance_pipeline_dag.py:248-249 | the chain declares exactly the eight edges start→extracts, extracts→verify, verify→transform, transform→end |
| PipelineGraph.EdgesAdvanceOneLayer | dags/finance_pipeline_dag.py:248-249 | every edge leads to the next group; there are no edges among the extract tasks |
| PipelineGraph.EdgeClimbsOneLayer | dags/finance_pipeline_dag.py:248-249 | an edge leads from one group of the chain to the next |
| PipelineGraph.PathClimbsLayers | dags/finance_pipeline_dag.py:249 | a path of n edges climbs exactly n groups |
| PipelineGraph.Acyclic | dags/finance_pipeline_dag.py:249 | no path returns to the task it started from |
| PipelineGraph.Upstream | dags/finance_pipeline_dag.py:249 | every upstream task of a task sits in the group just before it in the chain |
| PipelineGraph.UpstreamMatchesEdges | dags/finance_pipeline_dag.py:248-249 | a task waits for exactly the tasks with an edge into it: start for each extract, all three extracts for the gate, the gate for dbt, dbt for end |
| PipelineGraph.RunAttempts | dags/finance_pipeline_dag.py:31-32 | a task that runs ends succeeded or failed |
| PipelineGraph.RunAttemptsSucceedsIff | dags/finance_pipeline_dag.py:31-32 | a task succeeds iff one of its allowed attempts succeeds |
| PipelineGraph.TriggerState | dags/finance_pipeline_dag.py:249 | under all-success a task is upstream_failed iff some upstream task did not succeed, and never stays pending |
| PipelineGraph.RanOnlyAfterUpstream | dags/finance_pipeline_dag.py:249 | a task ran iff all its upstream tasks succeeded |
| PipelineGraph.SingleUpstream | dags/finance_pipeline_dag.py:249 | a task with one upstream task runs iff that task succeeded |
| PipelineGraph.GateWaitsForAllExtracts | dags/finance_pipeline_dag.py:249 | the gate runs iff prices, company info and benchmarks all succeeded |
| PipelineGraph.TransformWaitsForGate | dags/finance_pipeline_dag.py:249 | dbt runs iff the gate succeeded; a gate that did not succeed blocks transform and end |
| PipelineGraph.FailedExtractBlocksDownstream | dags/finance_pipeline_dag.py:249 | one failed extract marks gate, transform and end upstream_failed |
| PipelineGraph.ExtractDependsOnlyOnItself | dags/finance_pipeline_dag.py:212-226 | an extract's outcome depends only on its own three attempts, not on its siblings |
| PipelineGraph.Schedule | dags/finance_pipeline_dag.py:248-249 | settling tasks in any topological order gives every task its final state under the trigger rule |
| PipelineTasks.ExtractAndLoad | dags/finance_pipeline_dag.py:45-144 | a DAG task's new warehouse state and outcome are those of `ExtractTaskSpec`; a loader exists iff extraction succeeded, and it is closed on every path |
| PipelineTasks.EmptyBatchChangesNothing | dags/finance_pipeline_dag.py:61-71 | an empty batch in the DAG changes nothing and the task returns |
| PipelineTasks.WatermarkOnlyAfterCompletedLoad | dags/finance_pipeline_dag.py:60-71 | a watermark changes only for a watermark dataset after a completed load of a non-empty batch, and then only its own, set to the batch's latest date |
| PipelineTasks.FailedLoadKeepsWatermarks | dags/finance_pipeline_dag.py:60-79 | a raising load makes the task raise the same error with watermarks untouched |
| PipelineTasks.CompanyInfoKeepsWatermarks | dags/finance_pipeline_dag.py:82-109 | the company-info task never changes a watermark |
| PipelineTasks.WatermarkAdvancesWithoutLedgerRecord | dags/finance_pipeline_dag.py:60-71 | with a failed ledger INSERT, a completed load still sets the watermark and the ledger is unchanged |
| PipelineTasks.TaskDelta | dags/finance_pipeline_dag.py:45-144 | a task appends only to its own RAW table, and only when that table exists; it adds at most its own ledger record, and writes at most its own watermark |
| PipelineTasks.ExtractTasksCommute | dags/finance_pipeline_dag.py:212-226 | two parallel extracts, run in either order, leave the same tables, the same watermarks and the same ledger records |
| PipelineTasks.RetriedTaskMatchesGraph | dags/finance_pipeline_dag.py:31 | the attempt outcomes of a callable re-run on the changing warehouse give the graph's task state: succeeded iff some attempt returned |
| PipelineTasks.ExtractStateIsRetriedTask | dags/finance_pipeline_dag.py:31 | an extract task of the graph ends succeeded iff one of its three attempts on the warehouse returned, and failed otherwise |
| PipelineTasks.LoadThenKeyError | dags/finance_pipeline_dag.py:60-71 | for a watermark dataset, a batch without a `date` column is loaded and recorded as `completed` before `df['date']` raises KeyError |
| PipelineTasks.RetriesRepeatCompletedLoad | dags/finance_pipeline_dag.py:31 | such a batch is appended again, with another `completed` record, on every attempt (three under `retries=2`), and the task still fails |
| QualityGate.RunChecks | dags/finance_pipeline_dag.py:160-170 | the counts pass iff every table exists and is non-empty; otherwise the first failing check is reported |
| QualityGate.CountsReportEveryCheck | dags/finance_pipeline_dag.py:160-165 | the results dict holds every check's name, mapped to its table's row count |
| QualityGate.NamesOfPrefix | dags/finance_pipeline_dag.py:160-165 | the reported names of a list of checks are those of all but its last check, plus the last check's name |
| QualityGate.PrefixFailureStands | dags/finance_pipeline_dag.py:169-170 | once a check fails, later checks do not run and the failure stands |
| QualityGate.CountChecks | dags/finance_pipeline_dag.py:160-170 | the loop computes exactly `RunChecks` |
| QualityGate.MaxDateMeaning | dags/finance_pipeline_dag.py:173-179 | `MAX(date)` is NULL iff no row of the table holds a date; otherwise it is some row's `date` and no row's date comes after it |
| QualityGate.VerifyDataQuality | dags/finance_pipeline_dag.py:147-195 | the gate's verdict is `GateSpec` of the warehouse, and its loader is closed |
| QualityGate.VerifyDataQualityAsWritten | dags/finance_pipeline_dag.py:147-195 | the gate as the DAG defines it, on the COBRA tables its queries name: its verdict is `GateSpec` with those checks |
| QualityGate.GateStopsAtFirstFailure | dags/finance_pipeline_dag.py:161-170 | the gate raises for the first missing or empty table, whatever the later tables hold |
| QualityGate.GatePassesIff | dags/finance_pipeline_dag.py:147-192 | the gate passes iff it connects, every checked table holds rows and the latest price date is a date; it then reports every name |
| QualityGate.StalenessOnlyWarns | dags/finance_pipeline_dag.py:172-192 | the day the gate runs never changes whether it passes; it warns iff data is more than 7 days old, so 7 days draws no warning |
| QualityGate.RunChecksReadsOnlyChecked | dags/finance_pipeline_dag.py:161-163 | the counts depend only on the checked tables |
| QualityGate.GateReadsOnlyChecked | dags/finance_pipeline_dag.py:147-192 | the verdict depends only on the checked tables and the freshness table |
| QualityGate.LoadLeavesOtherTables | src/load/snowflake_loader.py:133-142 | a load leaves every other table exactly as it was |
| QualityGate.AsWrittenGateIgnoresLoads | dags/finance_pipeline_dag.py:154-158 | as written, a load changes nothing the gate reads, as long as the `COBRA` objects are base tables that the loads do not feed |
| QualityGate.AsWrittenGateFailsOnLoadedRawTables | dags/finance_pipeline_dag.py:154-170 | with all three RAW tables loaded and no COBRA table, the gate as written fails at its first check |
| QualityGate.CompletedLoadPassesCheck | src/load/snowflake_loader.py:133-161 | a completed non-empty load makes its RAW table pass a count check |
| QualityGate.LoadKeepsChecksPassing | src/load/snowflake_loader.py:133-142 | loads never make a passing check fail |
| QualityGate.CorrectedChecksPassAfterLoads | dags/finance_pipeline_dag.py:154-170 | with the corrected checks, completed loads of the three datasets make every count check pass |
| RunExtraction.MissingColumn | scripts/run_extraction.py:50 | reports a logged column that the batch lacks, or confirms that they are all present |
| RunExtraction.RunStep | scripts/run_extraction.py:30-161 | a runner step's new warehouse state and outcome are those of `StepSpec`; a loader is built only for a non-empty batch, and it is closed |
| RunExtraction.ManualRun | scripts/run_extraction.py:164-190 | `main`'s effect and outcome are those of running the three steps in order, stopping at the first exception |
| RunExtraction.EmptyExtractionWritesNothing | scripts/run_extraction.py:45-47 | an empty extraction returns with nothing written and no loader, the same store effect as the DAG's `skipped` path |
| RunExtraction.StepMatchesDagTask | scripts/run_extraction.py:53-74 | once a runner step builds its loader it behaves exactly as the DAG task; before that it changes nothing |
| RunExtraction.StepWatermarkOnlyAfterCompletedLoad | scripts/run_extraction.py:57-71 | the runner sets a watermark only after a completed load, to the batch's latest date; company info never does |
| RunExtraction.StepDelta | scripts/run_extraction.py:30-161 | a step appends only to its own table, ledger record and watermark |
| RunExtraction.StepLedger | scripts/run_extraction.py:57-63 | a step appends at most one ledger record, for its own dataset |
| RunExtraction.RunLedgerInStepOrder | scripts/run_extraction.py:170-178 | the ledger grows by each step's records in step order, at most one per step and for that step's dataset |
| RunExtraction.StepLeavesOtherDataset | scripts/run_extraction.py:30-161 | a step leaves another dataset's RAW table (whether it exists, and its rows) and its watermark as they were |
| RunExtraction.PricesFailureEndsRun | scripts/run_extraction.py:170-190 | if prices raises, `main` re-raises it and company info and benchmarks never run |
| RunExtraction.CompanyInfoFailureEndsRun | scripts/run_extraction.py:170-190 | if company info raises, benchmarks never runs |

## Left out

- Connection establishment (profiles, private-key parsing, connector parameters) is a single connect-or-fail parameter. `execute_query` is modelled by what the gate's two queries read.
- `generate_run_id`, `datetime.now()` and the extractors' network calls are parameters. YAML configuration and logging are left out.
- Frames.ColumnMax: only date-like cells and NaT are modelled as values of `df['date'].max()`. Text and number cells are skipped as if they were NaT, whereas pandas returns the greatest string or number, or raises TypeError on a mix of strings and timestamps. The extractors build `date` from the price history's datetime index (src/extract/yahoo_benchmark_series.py:67-98), so the batches hold datetime64 values.
- QualityGate.AsWrittenGateIgnoresLoads: `COBRA.*` tables are modelled as base tables that nothing ties to `RAW.*`. A view cannot be expressed in the model. If a deployment defines the `COBRA` objects as views over `RAW` (for example after an earlier dbt run), a load does change what the gate reads.
- `create_table=True` is not modelled: every call passes `False`, so a write to a missing RAW table raises. The text of that exception is a parameter of the load.
- `write_pandas` is modelled as all-or-nothing, with a reported row count that may differ from the batch. A partial commit before an exception is not modelled.
- Load.WatermarkReadBack: the value is kept as the batch's maximum cell rather than its `str()` rendering.
- Frames.Lower: only ASCII letters are lower-cased; Unicode case folding is left out.
- XCom pushes, the cron schedule and the `BashOperator` command are left out. The dbt transform is an opaque step.
- The Airflow scheduler's concurrency is left out. Parallel extracts are modelled through `PipelineTasks.ExtractTasksCommute` and through `PipelineGraph.Schedule`'s free choice of topological order.
- Time zones and the `strptime` branch for text dates in the gate are left out. A `date` column the warehouse returns as text, or a table without a `date` column, fails the gate as `MaxDateNotADate` instead of being parsed or raising a SQL error.
- QualityGate.DateCells: the gate reads the field labelled exactly `date`. Snowflake resolves unquoted identifiers without regard to case; the loaded batches label the column `date`, so the difference does not arise for them.
- PipelineGraph.FinalState: the attempt outcomes of the gate and of `transform_dbt` are inputs. Those of the extract tasks are tied to the warehouse by `PipelineTasks.ExtractStateIsRetriedTask`. The gate's retries re-read the warehouse and write nothing.
- RunExtraction.MissingColumn: the exact text of pandas' `KeyError` for a list of columns is not modelled; the error carries the first missing name.
- Batches whose column labels repeat are excluded (`Frames.WellFormed`).

## Findings

| source | as written | input that shows it | evidently intended | confidence | as-written member | corrected member |
|---|---|---|---|---|---|---|
| dags/finance_pipeline_dag.py:154-158 | The gate counts and dates `COBRA.*` tables, while every load writes `RAW.*` (src/load/snowflake_loader.py:138). | A deployment where the three loads completed into `RAW` and no `COBRA` table exists: the first count query fails, so dbt never runs. The loads write only to `RAW`, and the pipeline creates `COBRA` objects only through dbt, so in that deployment no later load changes the verdict. | Check the `RAW` tables that the loads just wrote (`QualityGate.Checks`, `QualityGate.FreshnessTable`). | medium, not executed | QualityGate.AsWrittenGateFailsOnLoadedRawTables | QualityGate.CorrectedChecksPassAfterLoads |
