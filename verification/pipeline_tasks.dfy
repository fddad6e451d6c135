/**
 * The three extract-and-load callables of `finance_pipeline_dag`: each one
 * builds its own loader, loads the extracted batch, advances the dataset's
 * watermark to the batch's latest date when the load returned and the batch
 * was non-empty (prices and benchmarks only), and closes the loader on every
 * exit path. The extractors are an input: a batch, or the error they raised.
 */
module PipelineTasks {
  import opened Wrappers
  import opened Frames
  import opened Snowflake
  import opened Load
  import PipelineGraph

  /** What the extractor handed back: a batch, or the exception it raised. */
  datatype Extraction = Extracted(df: Frame) | ExtractFailed(error: string)

  predicate ValidExtraction(e: Extraction) {
    e.Extracted? ==> WellFormed(e.df)
  }

  /** A dataset's RAW table, its ledger/watermark name, and whether its task keeps a watermark. */
  datatype DatasetTask = DatasetTask(table: string, dataset: string, tracksWatermark: bool)

  const Prices: DatasetTask := DatasetTask("STOCK_PRICES_DAILY", "stock_prices", true)
  const CompanyInfo: DatasetTask := DatasetTask("COMPANY_INFO", "company_info", false)
  const Benchmarks: DatasetTask := DatasetTask("BENCHMARK_SERIES_DAILY", "benchmark_series", true)

  /** The load's environment plus whether the watermark MERGE succeeds, and when it runs. */
  datatype TaskEnv = TaskEnv(load: LoadEnv, watermarkOk: bool, watermarkNow: int)

  /** A task callable either returns or raises. */
  datatype TaskRun = Returned | Raised(error: string)

  datatype TaskStep = TaskStep(store: Store, run: TaskRun)

  const DateColumn: string := "date"

  /** `str(KeyError(name))`. */
  function KeyErrorText(name: string): string {
    "'" + name + "'"
  }

  /**
   * What follows a `load_to_raw` call in a task: a raised load propagates;
   * otherwise, for a watermark dataset and a non-empty batch, the watermark
   * is set to `df['date'].max()` (a batch without a `date` column raises).
   */
  function AfterLoad(load: LoadStep, task: DatasetTask, df: Frame, env: TaskEnv): TaskStep
    requires WellFormed(df)
  {
    if load.result.LoadRaised? then
      TaskStep(load.store, Raised(load.result.error))
    else if !task.tracksWatermark || Empty(df) then
      TaskStep(load.store, Returned)
    else
      match ColumnNamed(df, DateColumn)
      case None => TaskStep(load.store, Raised(KeyErrorText(DateColumn)))
      case Some(col) =>
        var watermarks := WatermarksAfterUpdate(
          load.store.watermarks, load.conn, task.dataset, ColumnMax(col.cells), env.watermarkOk, env.watermarkNow);
        TaskStep(load.store.(watermarks := watermarks), Returned)
  }

  /** The effect and outcome of one extract-and-load task of the DAG. */
  function ExtractTaskSpec(s: Store, task: DatasetTask, extraction: Extraction, env: TaskEnv): TaskStep
    requires ValidExtraction(extraction)
  {
    match extraction
    case ExtractFailed(e) => TaskStep(s, Raised(e))
    case Extracted(df) => AfterLoad(LoadSpec(s, NoConnection, df, task.table, task.dataset, env.load), task, df, env)
  }

  /**
   * `extract_and_load_prices` / `_company_info` / `_benchmarks`: a fresh
   * loader per task, closed in `finally`.
   */
  method ExtractAndLoad(wh: Warehouse, task: DatasetTask, extraction: Extraction, env: TaskEnv)
    returns (run: TaskRun, ghost loader: Option<SnowflakeLoader>)
    requires ValidExtraction(extraction)
    modifies wh
    ensures TaskStep(wh.Snapshot(), run) == ExtractTaskSpec(old(wh.Snapshot()), task, extraction, env)
    ensures loader.Some? <==> extraction.Extracted?
    ensures loader.Some? ==> fresh(loader.value) && loader.value.warehouse == wh && loader.value.conn != Open
  {
    match extraction
    case ExtractFailed(e) =>
      run := Raised(e);
      loader := None;
    case Extracted(df) =>
      var l := new SnowflakeLoader(wh);
      loader := Some(l);
      var result := l.LoadToRaw(df, task.table, task.dataset, env.load);
      if result.LoadRaised? {
        run := Raised(result.error);
      } else if task.tracksWatermark && !Empty(df) {
        var col := ColumnNamed(df, DateColumn);
        if col.None? {
          run := Raised(KeyErrorText(DateColumn));
        } else {
          l.UpdateWatermark(task.dataset, ColumnMax(col.value.cells), env.watermarkOk, env.watermarkNow);
          run := Returned;
        }
      } else {
        run := Returned;
      }
      l.Close();
  }

  // ---------------------------------------------------------------------
  // Properties of the tasks

  /** An empty batch in the DAG reaches `load_to_raw`, which skips it: nothing changes. */
  lemma EmptyBatchChangesNothing(s: Store, task: DatasetTask, df: Frame, env: TaskEnv)
    requires WellFormed(df) && Empty(df)
    ensures ExtractTaskSpec(s, task, Extracted(df), env) == TaskStep(s, Returned)
  {
  }

  /**
   * A task changes a watermark only after its load completed on a non-empty
   * batch with a `date` column: then it sets its own dataset's watermark to
   * the batch's latest date and leaves every other dataset's alone.
   */
  lemma WatermarkOnlyAfterCompletedLoad(s: Store, task: DatasetTask, extraction: Extraction, env: TaskEnv)
    requires ValidExtraction(extraction)
    ensures var step := ExtractTaskSpec(s, task, extraction, env);
      step.store.watermarks != s.watermarks ==>
        && extraction.Extracted? && !Empty(extraction.df) && task.tracksWatermark
        && LoadSpec(s, NoConnection, extraction.df, task.table, task.dataset, env.load).result.LoadCompleted?
        && ColumnNamed(extraction.df, DateColumn).Some?
        && step.run == Returned
        && step.store.watermarks == s.watermarks[task.dataset :=
             Watermark(ColumnMax(ColumnNamed(extraction.df, DateColumn).value.cells), env.watermarkNow)]
  {
    if extraction.Extracted? {
      LoadIsAppendOnly(s, NoConnection, extraction.df, task.table, task.dataset, env.load);
    }
  }

  /** A load that raises makes the task raise the same error, with the watermarks untouched. */
  lemma FailedLoadKeepsWatermarks(s: Store, task: DatasetTask, df: Frame, env: TaskEnv)
    requires WellFormed(df)
    requires LoadSpec(s, NoConnection, df, task.table, task.dataset, env.load).result.LoadRaised?
    ensures var step := ExtractTaskSpec(s, task, Extracted(df), env);
      && step.store.watermarks == s.watermarks
      && step.run == Raised(LoadSpec(s, NoConnection, df, task.table, task.dataset, env.load).result.error)
  {
    LoadIsAppendOnly(s, NoConnection, df, task.table, task.dataset, env.load);
  }

  /** The company-info task never writes a watermark. */
  lemma CompanyInfoKeepsWatermarks(s: Store, extraction: Extraction, env: TaskEnv)
    requires ValidExtraction(extraction)
    ensures ExtractTaskSpec(s, CompanyInfo, extraction, env).store.watermarks == s.watermarks
  {
    if extraction.Extracted? {
      LoadIsAppendOnly(s, NoConnection, extraction.df, CompanyInfo.table, CompanyInfo.dataset, env.load);
    }
  }

  /**
   * The watermark does not wait for the ledger: when the ledger INSERT fails
   * (and is swallowed), a completed load still advances the watermark, so a
   * watermark can be newer than anything the ledger shows as completed.
   */
  lemma WatermarkAdvancesWithoutLedgerRecord(s: Store, task: DatasetTask, df: Frame, env: TaskEnv)
    requires WellFormed(df) && !Empty(df) && task.tracksWatermark && ColumnNamed(df, DateColumn).Some?
    requires env.load.connect.Connects? && WriteReply(s.tables, task.table, env.load).Written? && !env.load.ledgerOk
    requires env.watermarkOk
    ensures var step := ExtractTaskSpec(s, task, Extracted(df), env);
      && step.run == Returned
      && step.store.ledger == s.ledger
      && task.dataset in step.store.watermarks
      && step.store.watermarks[task.dataset].value == ColumnMax(ColumnNamed(df, DateColumn).value.cells)
  {
  }

  /**
   * The parallel extract tasks write disjoint state: run in either order, two
   * tasks on different tables and datasets leave the same tables and
   * watermarks, and the same ledger records (in a different order).
   */
  lemma ExtractTasksCommute(
    s: Store, a: DatasetTask, ea: Extraction, enva: TaskEnv, b: DatasetTask, eb: Extraction, envb: TaskEnv)
    requires ValidExtraction(ea) && ValidExtraction(eb)
    requires a.table != b.table && a.dataset != b.dataset
    ensures var ab := ExtractTaskSpec(ExtractTaskSpec(s, a, ea, enva).store, b, eb, envb).store;
      var ba := ExtractTaskSpec(ExtractTaskSpec(s, b, eb, envb).store, a, ea, enva).store;
      && ab.tables == ba.tables
      && ab.watermarks == ba.watermarks
      && multiset(ab.ledger) == multiset(ba.ledger)
  {
    var sa := ExtractTaskSpec(s, a, ea, enva).store;
    var sb := ExtractTaskSpec(s, b, eb, envb).store;
    TaskDelta(s, a, ea, enva);
    TaskDelta(s, b, eb, envb);
    TaskDelta(sa, b, eb, envb);
    TaskDelta(sb, a, ea, enva);
    var wa, wb := WriteReply(s.tables, a.table, enva.load), WriteReply(s.tables, b.table, envb.load);
    assert WriteReply(sb.tables, a.table, enva.load) == wa && WriteReply(sa.tables, b.table, envb.load) == wb;
    MaybeAppendCommutes(s.tables, RawTable(a.table), TaskRows(a, ea, enva, wa), RawTable(b.table), TaskRows(b, eb, envb, wb));
    MaybePutCommutes(s.watermarks, a.dataset, TaskWatermark(a, ea, enva, wa), b.dataset, TaskWatermark(b, eb, envb, wb));
    var la, lb := TaskRecords(a, ea, enva, wa), TaskRecords(b, eb, envb, wb);
    assert multiset(s.ledger + la + lb) == multiset(s.ledger + lb + la);
  }

  /** A write of no rows leaves the tables as they are (not even creating the table). */
  function MaybeAppend(tables: map<TableRef, seq<Row>>, ref: TableRef, rows: seq<Row>): map<TableRef, seq<Row>> {
    if rows == [] then tables else Append(tables, ref, rows)
  }

  /** A watermark write that did not happen leaves the watermarks as they are. */
  function MaybePut(watermarks: map<string, Watermark>, dataset: string, w: Option<Watermark>): map<string, Watermark> {
    if w.Some? then watermarks[dataset := w.value] else watermarks
  }

  lemma MaybeAppendCommutes(tables: map<TableRef, seq<Row>>, r1: TableRef, rows1: seq<Row>, r2: TableRef, rows2: seq<Row>)
    requires r1 != r2
    ensures MaybeAppend(MaybeAppend(tables, r1, rows1), r2, rows2) == MaybeAppend(MaybeAppend(tables, r2, rows2), r1, rows1)
  {
  }

  lemma MaybePutCommutes(watermarks: map<string, Watermark>, d1: string, w1: Option<Watermark>, d2: string, w2: Option<Watermark>)
    requires d1 != d2
    ensures MaybePut(MaybePut(watermarks, d1, w1), d2, w2) == MaybePut(MaybePut(watermarks, d2, w2), d1, w1)
  {
  }

  /**
   * What one task does to a store, stated so that it depends on the rest of
   * the store only through the write's reply (which depends only on whether
   * its own RAW table exists): rows appended to its own RAW table, at most one
   * ledger record appended, and at most its own watermark written.
   */
  lemma TaskDelta(s: Store, task: DatasetTask, e: Extraction, env: TaskEnv)
    requires ValidExtraction(e)
    ensures var t := ExtractTaskSpec(s, task, e, env).store;
      var write := WriteReply(s.tables, task.table, env.load);
      && t.tables == MaybeAppend(s.tables, RawTable(task.table), TaskRows(task, e, env, write))
      && t.ledger == s.ledger + TaskRecords(task, e, env, write)
      && t.watermarks == MaybePut(s.watermarks, task.dataset, TaskWatermark(task, e, env, write))
  {
    if e.Extracted? {
      LoadIsAppendOnly(s, NoConnection, e.df, task.table, task.dataset, env.load);
    }
  }

  /** The rows a task appends, given the write's reply. */
  function TaskRows(task: DatasetTask, e: Extraction, env: TaskEnv, write: WriteOutcome): seq<Row>
    requires ValidExtraction(e)
  {
    if e.Extracted? && !Empty(e.df) && env.load.connect.Connects? && write.Written? then
      RowsOf(PreparedBatch(e.df, env.load.runId))
    else []
  }

  /** The ledger records a task appends, given the write's reply. */
  function TaskRecords(task: DatasetTask, e: Extraction, env: TaskEnv, write: WriteOutcome): seq<RunRecord> {
    if e.Extracted? && !Empty(e.df) && env.load.connect.Connects? && env.load.ledgerOk then
      [RunRecordFor(task.dataset, task.table, env.load, write)]
    else []
  }

  /** The watermark a task writes, given the write's reply. */
  function TaskWatermark(task: DatasetTask, e: Extraction, env: TaskEnv, write: WriteOutcome): Option<Watermark> {
    if e.Extracted? && !Empty(e.df) && env.load.connect.Connects? && write.Written?
       && task.tracksWatermark && ColumnNamed(e.df, DateColumn).Some? && env.watermarkOk
    then Some(Watermark(ColumnMax(ColumnNamed(e.df, DateColumn).value.cells), env.watermarkNow))
    else None
  }

  // ---------------------------------------------------------------------
  // Retries

  /** One extraction and one environment per attempt Airflow may make. */
  predicate ValidAttempts(extractions: seq<Extraction>, envs: seq<TaskEnv>) {
    && |extractions| >= 1 && |envs| == |extractions|
    && forall i :: 0 <= i < |extractions| ==> ValidExtraction(extractions[i])
  }

  /**
   * A task instance with `retries`: each attempt re-runs the whole callable
   * on the warehouse the previous attempt left behind, until one returns or
   * the attempts run out (the last exception then stands).
   */
  function RetriedTask(s: Store, task: DatasetTask, extractions: seq<Extraction>, envs: seq<TaskEnv>): TaskStep
    requires ValidAttempts(extractions, envs)
    decreases |extractions|
  {
    var first := ExtractTaskSpec(s, task, extractions[0], envs[0]);
    if first.run.Returned? || |extractions| == 1 then first
    else RetriedTask(first.store, task, extractions[1..], envs[1..])
  }

  /** Whether each attempt that `RetriedTask` makes returned, in order. */
  function AttemptsReturned(s: Store, task: DatasetTask, extractions: seq<Extraction>, envs: seq<TaskEnv>): seq<bool>
    requires ValidAttempts(extractions, envs)
    decreases |extractions|
  {
    var first := ExtractTaskSpec(s, task, extractions[0], envs[0]);
    if first.run.Returned? || |extractions| == 1 then [first.run.Returned?]
    else [false] + AttemptsReturned(first.store, task, extractions[1..], envs[1..])
  }

  /**
   * The attempt outcomes the task graph consumes are those of the retried
   * callable: the graph's task succeeds exactly when some attempt returned.
   */
  lemma {:induction false} RetriedTaskMatchesGraph(s: Store, task: DatasetTask, extractions: seq<Extraction>, envs: seq<TaskEnv>)
    requires ValidAttempts(extractions, envs)
    ensures PipelineGraph.RunAttempts(AttemptsReturned(s, task, extractions, envs), |extractions|)
      == (if RetriedTask(s, task, extractions, envs).run.Returned? then PipelineGraph.Succeeded else PipelineGraph.Failed)
    decreases |extractions|
  {
    var first := ExtractTaskSpec(s, task, extractions[0], envs[0]);
    if !first.run.Returned? && |extractions| > 1 {
      var rest := AttemptsReturned(first.store, task, extractions[1..], envs[1..]);
      RetriedTaskMatchesGraph(first.store, task, extractions[1..], envs[1..]);
      assert ([false] + rest)[1..] == rest;
    }
  }

  /** The warehouse accepts the write and the ledger INSERT, and the connection opens. */
  predicate LoadGoesThrough(env: TaskEnv) {
    env.load.connect.Connects? && env.load.write.Written? && env.load.ledgerOk
  }

  /**
   * One attempt on a batch without a `date` column for a watermark dataset:
   * the load completes (rows appended, `completed` record written) and only
   * then does `df['date']` raise KeyError.
   */
  lemma LoadThenKeyError(s: Store, task: DatasetTask, df: Frame, env: TaskEnv)
    requires WellFormed(df) && !Empty(df) && task.tracksWatermark && ColumnNamed(df, DateColumn).None?
    requires RawTable(task.table) in s.tables && LoadGoesThrough(env)
    ensures var a := ExtractTaskSpec(s, task, Extracted(df), env);
      && a.run == Raised(KeyErrorText(DateColumn))
      && RawTable(task.table) in a.store.tables
      && RowsIn(a.store.tables, RawTable(task.table)) == RowsIn(s.tables, RawTable(task.table)) + RowsOf(PreparedBatch(df, env.load.runId))
      && a.store.ledger == s.ledger + [RunRecordFor(task.dataset, task.table, env.load, env.load.write)]
  {
    LoadIsAppendOnly(s, NoConnection, df, task.table, task.dataset, env.load);
    LoadRecordsOneRun(s, NoConnection, df, task.table, task.dataset, env.load);
  }

  /** The same extracted batch, handed to each of `n` attempts. */
  function SameBatch(df: Frame, n: nat): (r: seq<Extraction>)
    ensures |r| == n && forall i :: 0 <= i < n ==> r[i] == Extracted(df)
  {
    if n == 0 then [] else [Extracted(df)] + SameBatch(df, n - 1)
  }

  /** The rows each attempt's load appends, in attempt order. */
  function CopiesLoaded(df: Frame, envs: seq<TaskEnv>): seq<Row>
    requires WellFormed(df)
  {
    if envs == [] then [] else RowsOf(PreparedBatch(df, envs[0].load.runId)) + CopiesLoaded(df, envs[1..])
  }

  /** The ledger record each attempt's load writes, in attempt order. */
  function RecordsWritten(task: DatasetTask, envs: seq<TaskEnv>): seq<RunRecord> {
    if envs == [] then []
    else [RunRecordFor(task.dataset, task.table, envs[0].load, envs[0].load.write)] + RecordsWritten(task, envs[1..])
  }

  /**
   * A batch without a `date` column for a watermark dataset raises KeyError
   * only after its load completed, so every attempt appends the batch again
   * and writes another `completed` record, and the task still fails. Under
   * the DAG's `retries=2` that is three copies and three records.
   */
  lemma {:induction false} RetriesRepeatCompletedLoad(s: Store, task: DatasetTask, df: Frame, envs: seq<TaskEnv>)
    requires WellFormed(df) && !Empty(df) && task.tracksWatermark && ColumnNamed(df, DateColumn).None?
    requires RawTable(task.table) in s.tables
    requires |envs| >= 1 && forall i :: 0 <= i < |envs| ==> LoadGoesThrough(envs[i])
    ensures ValidAttempts(SameBatch(df, |envs|), envs)
    ensures var r := RetriedTask(s, task, SameBatch(df, |envs|), envs);
      && r.run == Raised(KeyErrorText(DateColumn))
      && RawTable(task.table) in r.store.tables
      && RowsIn(r.store.tables, RawTable(task.table)) == RowsIn(s.tables, RawTable(task.table)) + CopiesLoaded(df, envs)
      && r.store.ledger == s.ledger + RecordsWritten(task, envs)
      && PipelineGraph.RunAttempts(AttemptsReturned(s, task, SameBatch(df, |envs|), envs), |envs|) == PipelineGraph.Failed
    decreases |envs|
  {
    var raw := RawTable(task.table);
    var a1 := ExtractTaskSpec(s, task, Extracted(df), envs[0]);
    LoadThenKeyError(s, task, df, envs[0]);
    var rows1 := RowsOf(PreparedBatch(df, envs[0].load.runId));
    var record1 := RunRecordFor(task.dataset, task.table, envs[0].load, envs[0].load.write);
    if |envs| == 1 {
      assert RetriedTask(s, task, SameBatch(df, 1), envs) == a1;
      assert CopiesLoaded(df, envs) == rows1 + [];
      assert RecordsWritten(task, envs) == [record1] + [];
    } else {
      var rest := envs[1..];
      assert forall i :: 0 <= i < |rest| ==> LoadGoesThrough(rest[i]) by {
        forall i | 0 <= i < |rest| ensures LoadGoesThrough(rest[i]) {
          assert rest[i] == envs[i + 1];
        }
      }
      RetriesRepeatCompletedLoad(a1.store, task, df, rest);
      RetryAfterRaise(s, task, df, envs);
      var r := RetriedTask(a1.store, task, SameBatch(df, |rest|), rest);
      assert CopiesLoaded(df, envs) == rows1 + CopiesLoaded(df, rest);
      AppendTwice(RowsIn(s.tables, raw), rows1, CopiesLoaded(df, rest));
      assert RecordsWritten(task, envs) == [record1] + RecordsWritten(task, rest);
      AppendTwice(s.ledger, [record1], RecordsWritten(task, rest));
    }
    RetriedTaskMatchesGraph(s, task, SameBatch(df, |envs|), envs);
  }

  /** An attempt that raised, with attempts left, hands the warehouse it left to the next one. */
  lemma RetryAfterRaise(s: Store, task: DatasetTask, df: Frame, envs: seq<TaskEnv>)
    requires WellFormed(df) && |envs| > 1
    requires !ExtractTaskSpec(s, task, Extracted(df), envs[0]).run.Returned?
    ensures ValidAttempts(SameBatch(df, |envs|), envs) && ValidAttempts(SameBatch(df, |envs| - 1), envs[1..])
    ensures RetriedTask(s, task, SameBatch(df, |envs|), envs)
      == RetriedTask(ExtractTaskSpec(s, task, Extracted(df), envs[0]).store, task, SameBatch(df, |envs| - 1), envs[1..])
  {
    assert SameBatch(df, |envs|)[1..] == SameBatch(df, |envs| - 1);
  }

  /**
   * Appending in two steps appends the two parts in order. Stated apart so
   * that the retry proof does not search for associativity in its own context.
   */
  lemma AppendTwice<T>(a: seq<T>, b: seq<T>, c: seq<T>)
    ensures (a + b) + c == a + (b + c)
  {
  }

  /** The dataset each extract task of the graph loads. */
  function DatasetOf(x: PipelineGraph.Task): DatasetTask
    requires x in PipelineGraph.Extracts
  {
    match x
    case ExtractPrices => Prices
    case ExtractCompanyInfo => CompanyInfo
    case ExtractBenchmarks => Benchmarks
  }

  /**
   * With the attempt outcomes of the retried callable fed to the graph, an
   * extract task ends succeeded exactly when one of its three attempts on
   * the warehouse returned, and failed otherwise.
   */
  lemma ExtractStateIsRetriedTask(
    x: PipelineGraph.Task, attempts: PipelineGraph.Task -> seq<bool>, s: Store, extractions: seq<Extraction>, envs: seq<TaskEnv>)
    requires x in PipelineGraph.Extracts && ValidAttempts(extractions, envs)
    requires |extractions| == PipelineGraph.ArgsOf(x).retries + 1
    requires attempts(x) == AttemptsReturned(s, DatasetOf(x), extractions, envs)
    ensures PipelineGraph.FinalState(x, attempts) ==
      (if RetriedTask(s, DatasetOf(x), extractions, envs).run.Returned? then PipelineGraph.Succeeded else PipelineGraph.Failed)
  {
    PipelineGraph.ExtractDependsOnlyOnItself(x, attempts, attempts);
    RetriedTaskMatchesGraph(s, DatasetOf(x), extractions, envs);
  }
}
