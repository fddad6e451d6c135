/**
 * The manual runner: the same three extract-and-load steps as the DAG, run
 * one after another by `main`, which stops at the first exception and
 * re-raises it. Unlike the DAG tasks, a step returns before building a
 * loader when its extraction is empty, and it logs some of the batch's
 * columns before loading (a missing one raises a KeyError there).
 */
module RunExtraction {
  import opened Wrappers
  import opened Frames
  import opened Snowflake
  import opened Load
  import opened PipelineTasks

  /** A step of the runner: its dataset and the columns it logs before loading. */
  datatype ScriptStep = ScriptStep(task: DatasetTask, loggedColumns: seq<string>)

  const PricesStep: ScriptStep := ScriptStep(Prices, ["date"])
  const CompanyInfoStep: ScriptStep := ScriptStep(CompanyInfo, ["symbol", "company_name", "sector", "market_cap"])
  const BenchmarksStep: ScriptStep := ScriptStep(Benchmarks, ["date", "series_ticker"])

  /** The order in which `main` runs the steps. */
  const Steps: seq<ScriptStep> := [PricesStep, CompanyInfoStep, BenchmarksStep]

  /** The first of `names` that is not a column of `df`. */
  function MissingColumn(df: Frame, names: seq<string>): (r: Option<string>)
    ensures r.None? <==> forall n :: n in names ==> ColumnNamed(df, n).Some?
    ensures r.Some? ==> r.value in names && ColumnNamed(df, r.value).None?
  {
    if |names| == 0 then None
    else if ColumnNamed(df, names[0]).None? then Some(names[0])
    else MissingColumn(df, names[1..])
  }

  /** The step gets as far as building a loader. */
  predicate StepLoads(step: ScriptStep, e: Extraction) {
    e.Extracted? && !Empty(e.df) && MissingColumn(e.df, step.loggedColumns).None?
  }

  /** The effect and outcome of one step of the runner. */
  function StepSpec(s: Store, step: ScriptStep, extraction: Extraction, env: TaskEnv): TaskStep
    requires ValidExtraction(extraction)
  {
    match extraction
    case ExtractFailed(e) => TaskStep(s, Raised(e))
    case Extracted(df) =>
      if Empty(df) then TaskStep(s, Returned)
      else match MissingColumn(df, step.loggedColumns)
        case Some(name) => TaskStep(s, Raised(KeyErrorText(name)))
        case None => AfterLoad(LoadSpec(s, NoConnection, df, step.task.table, step.task.dataset, env.load), step.task, df, env)
  }

  /** `extract_and_load_prices` / `_company_info` / `_benchmarks` of the runner. */
  method RunStep(wh: Warehouse, step: ScriptStep, extraction: Extraction, env: TaskEnv)
    returns (run: TaskRun, ghost loader: Option<SnowflakeLoader>)
    requires ValidExtraction(extraction)
    modifies wh
    ensures TaskStep(wh.Snapshot(), run) == StepSpec(old(wh.Snapshot()), step, extraction, env)
    ensures loader.Some? <==> StepLoads(step, extraction)
    ensures loader.Some? ==> fresh(loader.value) && loader.value.warehouse == wh && loader.value.conn != Open
  {
    if extraction.ExtractFailed? {
      return Raised(extraction.error), None;
    }
    var df := extraction.df;
    if Empty(df) {
      return Returned, None;
    }
    var missing := MissingColumn(df, step.loggedColumns);
    if missing.Some? {
      return Raised(KeyErrorText(missing.value)), None;
    }
    var l := new SnowflakeLoader(wh);
    loader := Some(l);
    var result := l.LoadToRaw(df, step.task.table, step.task.dataset, env.load);
    if result.LoadRaised? {
      run := Raised(result.error);
    } else if step.task.tracksWatermark {
      var col := ColumnNamed(df, DateColumn);
      if col.None? {
        run := Raised(KeyErrorText(DateColumn));
      } else {
        l.UpdateWatermark(step.task.dataset, ColumnMax(col.value.cells), env.watermarkOk, env.watermarkNow);
        run := Returned;
      }
    } else {
      run := Returned;
    }
    l.Close();
  }

  predicate ValidRun(steps: seq<ScriptStep>, extractions: seq<Extraction>, envs: seq<TaskEnv>) {
    |extractions| == |steps| && |envs| == |steps| && forall i :: 0 <= i < |extractions| ==> ValidExtraction(extractions[i])
  }

  /** Steps run in order; the first one that raises ends the run with its exception. */
  function RunSteps(s: Store, steps: seq<ScriptStep>, extractions: seq<Extraction>, envs: seq<TaskEnv>): TaskStep
    requires ValidRun(steps, extractions, envs)
    decreases |steps|
  {
    if |steps| == 0 then TaskStep(s, Returned)
    else
      var first := StepSpec(s, steps[0], extractions[0], envs[0]);
      if first.run.Raised? then first
      else RunSteps(first.store, steps[1..], extractions[1..], envs[1..])
  }

  /** `main`: prices, then company info, then benchmarks; an exception ends the run and is re-raised. */
  method ManualRun(wh: Warehouse, extractions: seq<Extraction>, envs: seq<TaskEnv>) returns (run: TaskRun)
    requires ValidRun(Steps, extractions, envs)
    modifies wh
    ensures TaskStep(wh.Snapshot(), run) == RunSteps(old(wh.Snapshot()), Steps, extractions, envs)
  {
    ghost var s0 := wh.Snapshot();
    assert Steps[1..] == [CompanyInfoStep, BenchmarksStep] && Steps[1..][1..] == [BenchmarksStep];
    ghost var loader;
    run, loader := RunStep(wh, PricesStep, extractions[0], envs[0]);
    if run.Raised? {
      return;
    }
    ghost var s1 := wh.Snapshot();
    run, loader := RunStep(wh, CompanyInfoStep, extractions[1], envs[1]);
    if run.Raised? {
      assert RunSteps(s1, Steps[1..], extractions[1..], envs[1..]) == TaskStep(wh.Snapshot(), run);
      return;
    }
    ghost var s2 := wh.Snapshot();
    run, loader := RunStep(wh, BenchmarksStep, extractions[2], envs[2]);
    assert RunSteps(s2, Steps[1..][1..], extractions[1..][1..], envs[1..][1..]) == TaskStep(wh.Snapshot(), run);
    assert RunSteps(s1, Steps[1..], extractions[1..], envs[1..]) == TaskStep(wh.Snapshot(), run);
  }

  // ---------------------------------------------------------------------
  // Properties of the runner

  /**
   * An empty extraction returns before any loader exists: no table write, no
   * ledger record, no watermark. The DAG gets the same store through the
   * loader's `skipped` path.
   */
  lemma EmptyExtractionWritesNothing(s: Store, step: ScriptStep, df: Frame, env: TaskEnv)
    requires WellFormed(df) && Empty(df)
    ensures StepSpec(s, step, Extracted(df), env) == TaskStep(s, Returned)
    ensures StepSpec(s, step, Extracted(df), env) == ExtractTaskSpec(s, step.task, Extracted(df), env)
    ensures !StepLoads(step, Extracted(df))
  {
  }

  /**
   * Once a step gets as far as the loader it does exactly what the DAG task
   * for the same dataset does; before that it changes nothing.
   */
  lemma StepMatchesDagTask(s: Store, step: ScriptStep, e: Extraction, env: TaskEnv)
    requires ValidExtraction(e)
    ensures StepLoads(step, e) ==> StepSpec(s, step, e, env) == ExtractTaskSpec(s, step.task, e, env)
    ensures !StepLoads(step, e) ==> StepSpec(s, step, e, env).store == s
  {
  }

  /**
   * The runner changes a watermark only after its load completed on a
   * non-empty batch; it then sets its own dataset's watermark to the batch's
   * latest date. The company-info step never changes a watermark.
   */
  lemma StepWatermarkOnlyAfterCompletedLoad(s: Store, step: ScriptStep, e: Extraction, env: TaskEnv)
    requires ValidExtraction(e)
    ensures var r := StepSpec(s, step, e, env);
      r.store.watermarks != s.watermarks ==>
        && StepLoads(step, e) && step.task.tracksWatermark
        && LoadSpec(s, NoConnection, e.df, step.task.table, step.task.dataset, env.load).result.LoadCompleted?
        && ColumnNamed(e.df, DateColumn).Some?
        && r.store.watermarks == s.watermarks[step.task.dataset :=
             Watermark(ColumnMax(ColumnNamed(e.df, DateColumn).value.cells), env.watermarkNow)]
    ensures step.task == CompanyInfo ==> StepSpec(s, step, e, env).store.watermarks == s.watermarks
  {
    StepMatchesDagTask(s, step, e, env);
    WatermarkOnlyAfterCompletedLoad(s, step.task, e, env);
    CompanyInfoKeepsWatermarks(s, e, env);
  }

  /** A step's effect on a store, independent of what the store holds. */
  lemma StepDelta(s: Store, step: ScriptStep, e: Extraction, env: TaskEnv)
    requires ValidExtraction(e)
    ensures var t := StepSpec(s, step, e, env).store;
      var loads := StepLoads(step, e);
      var write := WriteReply(s.tables, step.task.table, env.load);
      && t.tables == (if loads then MaybeAppend(s.tables, RawTable(step.task.table), TaskRows(step.task, e, env, write)) else s.tables)
      && t.ledger == s.ledger + (if loads then TaskRecords(step.task, e, env, write) else [])
      && t.watermarks ==
           (if loads then MaybePut(s.watermarks, step.task.dataset, TaskWatermark(step.task, e, env, write)) else s.watermarks)
  {
    StepMatchesDagTask(s, step, e, env);
    TaskDelta(s, step.task, e, env);
  }

  /** The ledger records a step writes on a store in state `s`. */
  function StepRecords(s: Store, step: ScriptStep, e: Extraction, env: TaskEnv): seq<RunRecord>
    requires ValidExtraction(e)
  {
    if StepLoads(step, e) then TaskRecords(step.task, e, env, WriteReply(s.tables, step.task.table, env.load)) else []
  }

  /** A step appends at most one ledger record, and only for its own dataset. */
  lemma StepLedger(s: Store, step: ScriptStep, e: Extraction, env: TaskEnv)
    requires ValidExtraction(e)
    ensures StepSpec(s, step, e, env).store.ledger == s.ledger + StepRecords(s, step, e, env)
    ensures |StepRecords(s, step, e, env)| <= 1
    ensures forall r :: r in StepRecords(s, step, e, env) ==> r.datasetName == step.task.dataset
  {
    StepDelta(s, step, e, env);
  }

  function Flatten(parts: seq<seq<RunRecord>>): seq<RunRecord> {
    if |parts| == 0 then [] else parts[0] + Flatten(parts[1..])
  }

  function NoRecords(n: nat): seq<seq<RunRecord>> {
    seq(n, _ => [])
  }

  /** The records each step of a run writes; a step after the one that raised writes none. */
  function RecordsPerStep(s: Store, steps: seq<ScriptStep>, extractions: seq<Extraction>, envs: seq<TaskEnv>): seq<seq<RunRecord>>
    requires ValidRun(steps, extractions, envs)
    decreases |steps|
  {
    if |steps| == 0 then []
    else
      var first := StepSpec(s, steps[0], extractions[0], envs[0]);
      [StepRecords(s, steps[0], extractions[0], envs[0])]
        + if first.run.Raised? then NoRecords(|steps| - 1) else RecordsPerStep(first.store, steps[1..], extractions[1..], envs[1..])
  }

  lemma {:induction false} FlattenNothing(n: nat)
    ensures Flatten(NoRecords(n)) == []
  {
    if n > 0 {
      assert NoRecords(n)[1..] == NoRecords(n - 1);
      FlattenNothing(n - 1);
    }
  }

  /**
   * The ledger of a run grows by each step's records in the order the steps
   * ran (prices, company info, benchmarks for `main`): at most one per step,
   * each for that step's own dataset.
   */
  lemma {:induction false} RunLedgerInStepOrder(s: Store, steps: seq<ScriptStep>, extractions: seq<Extraction>, envs: seq<TaskEnv>)
    requires ValidRun(steps, extractions, envs)
    ensures var per := RecordsPerStep(s, steps, extractions, envs);
      && |per| == |steps|
      && RunSteps(s, steps, extractions, envs).store.ledger == s.ledger + Flatten(per)
      && forall i :: 0 <= i < |per| ==>
           |per[i]| <= 1 && forall r :: r in per[i] ==> r.datasetName == steps[i].task.dataset
    decreases |steps|
  {
    if |steps| > 0 {
      var first := StepSpec(s, steps[0], extractions[0], envs[0]);
      StepLedger(s, steps[0], extractions[0], envs[0]);
      var head := StepRecords(s, steps[0], extractions[0], envs[0]);
      var per := RecordsPerStep(s, steps, extractions, envs);
      var rest := per[1..];
      assert per == [head] + rest;
      if first.run.Raised? {
        FlattenNothing(|steps| - 1);
        assert Flatten(per) == head + Flatten(rest);
      } else {
        RunLedgerInStepOrder(first.store, steps[1..], extractions[1..], envs[1..]);
        assert Flatten(per) == head + Flatten(rest);
        forall i | 1 <= i < |per|
          ensures |per[i]| <= 1 && forall r: RunRecord :: r in per[i] ==> r.datasetName == steps[i].task.dataset
        {
          assert per[i] == rest[i - 1] && steps[i] == steps[1..][i - 1];
        }
      }
    }
  }

  /** A step leaves another dataset's RAW table and watermark exactly as they were. */
  lemma StepLeavesOtherDataset(s: Store, step: ScriptStep, e: Extraction, env: TaskEnv, other: DatasetTask)
    requires ValidExtraction(e) && other.table != step.task.table && other.dataset != step.task.dataset
    ensures var t := StepSpec(s, step, e, env).store;
      && (RawTable(other.table) in t.tables <==> RawTable(other.table) in s.tables)
      && RowsIn(t.tables, RawTable(other.table)) == RowsIn(s.tables, RawTable(other.table))
      && (other.dataset in t.watermarks <==> other.dataset in s.watermarks)
      && (other.dataset in s.watermarks ==> t.watermarks[other.dataset] == s.watermarks[other.dataset])
  {
    StepDelta(s, step, e, env);
    if StepLoads(step, e) {
      LoadIsAppendOnly(s, NoConnection, e.df, step.task.table, step.task.dataset, env.load);
    }
  }

  /**
   * When the prices step raises, `main` re-raises its exception and the other
   * two steps never run: their tables, their ledger records and every
   * watermark stay as they were.
   */
  lemma PricesFailureEndsRun(s: Store, extractions: seq<Extraction>, envs: seq<TaskEnv>)
    requires ValidRun(Steps, extractions, envs)
    requires StepSpec(s, PricesStep, extractions[0], envs[0]).run.Raised?
    ensures var r := RunSteps(s, Steps, extractions, envs);
      && r.run == StepSpec(s, PricesStep, extractions[0], envs[0]).run
      && (RawTable(CompanyInfo.table) in r.store.tables <==> RawTable(CompanyInfo.table) in s.tables)
      && RowsIn(r.store.tables, RawTable(CompanyInfo.table)) == RowsIn(s.tables, RawTable(CompanyInfo.table))
      && (RawTable(Benchmarks.table) in r.store.tables <==> RawTable(Benchmarks.table) in s.tables)
      && RowsIn(r.store.tables, RawTable(Benchmarks.table)) == RowsIn(s.tables, RawTable(Benchmarks.table))
      && (forall i :: |s.ledger| <= i < |r.store.ledger| ==> r.store.ledger[i].datasetName == Prices.dataset)
      && r.store.watermarks == s.watermarks
  {
    var e := extractions[0];
    StepDelta(s, PricesStep, e, envs[0]);
    StepLeavesOtherDataset(s, PricesStep, e, envs[0], CompanyInfo);
    StepLeavesOtherDataset(s, PricesStep, e, envs[0], Benchmarks);
  }

  /**
   * When the company-info step raises after prices returned, benchmarks never
   * run: its table and watermark are as prices left them and no benchmark
   * record is written.
   */
  lemma CompanyInfoFailureEndsRun(s: Store, extractions: seq<Extraction>, envs: seq<TaskEnv>)
    requires ValidRun(Steps, extractions, envs)
    requires StepSpec(s, PricesStep, extractions[0], envs[0]).run == Returned
    requires var p := StepSpec(s, PricesStep, extractions[0], envs[0]);
      StepSpec(p.store, CompanyInfoStep, extractions[1], envs[1]).run.Raised?
    ensures var p := StepSpec(s, PricesStep, extractions[0], envs[0]);
      var r := RunSteps(s, Steps, extractions, envs);
      && r == StepSpec(p.store, CompanyInfoStep, extractions[1], envs[1])
      && (RawTable(Benchmarks.table) in r.store.tables <==> RawTable(Benchmarks.table) in s.tables)
      && RowsIn(r.store.tables, RawTable(Benchmarks.table)) == RowsIn(s.tables, RawTable(Benchmarks.table))
      && (forall i :: |s.ledger| <= i < |r.store.ledger| ==> r.store.ledger[i].datasetName != Benchmarks.dataset)
      && (Benchmarks.dataset in r.store.watermarks <==> Benchmarks.dataset in s.watermarks)
      && (Benchmarks.dataset in s.watermarks ==> r.store.watermarks[Benchmarks.dataset] == s.watermarks[Benchmarks.dataset])
  {
    var p := StepSpec(s, PricesStep, extractions[0], envs[0]);
    var q := StepSpec(p.store, CompanyInfoStep, extractions[1], envs[1]);
    assert Steps[1..] == [CompanyInfoStep, BenchmarksStep];
    assert RunSteps(s, Steps, extractions, envs) == q;
    StepLeavesOtherDataset(s, PricesStep, extractions[0], envs[0], Benchmarks);
    StepLeavesOtherDataset(p.store, CompanyInfoStep, extractions[1], envs[1], Benchmarks);
    StepLedger(s, PricesStep, extractions[0], envs[0]);
    StepLedger(p.store, CompanyInfoStep, extractions[1], envs[1]);
    var added := StepRecords(s, PricesStep, extractions[0], envs[0]) + StepRecords(p.store, CompanyInfoStep, extractions[1], envs[1]);
    assert q.store.ledger == s.ledger + added;
    forall i | |s.ledger| <= i < |q.store.ledger|
      ensures q.store.ledger[i].datasetName != Benchmarks.dataset
    {
      assert q.store.ledger[i] == added[i - |s.ledger|];
    }
  }
}
