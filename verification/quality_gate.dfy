/**
 * `verify_data_quality`, the gate between the extract tasks and the dbt
 * transform: it counts the rows of three tables in a fixed order, raising at
 * the first one that is missing or empty, then reads the latest price date
 * and warns (never fails) when it is more than seven days old.
 *
 * The gate as written counts COBRA.* tables while every load writes RAW.*;
 * `AsWrittenChecks` keeps that, `Checks` is the corrected list (see the
 * findings in README.md).
 */
module QualityGate {
  import opened Wrappers
  import opened Frames
  import opened Snowflake
  import opened Load

  /** One row-count check: the table it counts and the name its count is reported under. */
  datatype Check = Check(table: TableRef, name: string)

  const GateSchema: string := "COBRA"

  const AsWrittenChecks: seq<Check> := [
    Check(TableRef(GateSchema, "STOCK_PRICES_DAILY"), "stock prices"),
    Check(TableRef(GateSchema, "COMPANY_INFO"), "company info"),
    Check(TableRef(GateSchema, "BENCHMARK_SERIES_DAILY"), "benchmark series")
  ]

  const AsWrittenFreshnessTable: TableRef := TableRef(GateSchema, "STOCK_PRICES_DAILY")

  /** The same checks on the tables the loads write. */
  const Checks: seq<Check> := [
    Check(RawTable("STOCK_PRICES_DAILY"), "stock prices"),
    Check(RawTable("COMPANY_INFO"), "company info"),
    Check(RawTable("BENCHMARK_SERIES_DAILY"), "benchmark series")
  ]

  const FreshnessTable: TableRef := RawTable("STOCK_PRICES_DAILY")

  /** Data older than this many days draws a warning. */
  const StaleAfterDays: int := 7

  datatype GateError =
    | ConnectFailed(error: string)
    | QueryFailed(table: TableRef)   // the query on a table that does not exist raises
    | NoData(table: TableRef)        // `ValueError("No data found in ...")`
    | MaxDateNotADate                // `datetime.now().date() - max_date` on NULL or a timestamp

  datatype CheckOutcome = Counted(counts: map<string, nat>) | CheckFailed(index: nat, error: GateError)

  datatype GateResult =
    | Passed(counts: map<string, nat>, daysOld: int, warned: bool)
    | GateFailed(error: GateError)

  /** A check passes when its table exists and holds at least one row. */
  predicate Passes(tables: map<TableRef, seq<Row>>, c: Check) {
    c.table in tables && |tables[c.table]| > 0
  }

  function FailureOf(tables: map<TableRef, seq<Row>>, c: Check): GateError {
    if c.table in tables then NoData(c.table) else QueryFailed(c.table)
  }

  /**
   * The row-count loop: all checks pass, or the first failing check is
   * reported and later ones are not run.
   */
  function RunChecks(tables: map<TableRef, seq<Row>>, checks: seq<Check>): (r: CheckOutcome)
    ensures r.Counted? <==> forall k :: 0 <= k < |checks| ==> Passes(tables, checks[k])
    ensures r.CheckFailed? ==>
      && r.index < |checks|
      && !Passes(tables, checks[r.index])
      && (forall k :: 0 <= k < r.index ==> Passes(tables, checks[k]))
      && r.error == FailureOf(tables, checks[r.index])
  {
    if |checks| == 0 then Counted(map[])
    else
      var init := checks[..|checks| - 1];
      var c := checks[|checks| - 1];
      assert forall k :: 0 <= k < |init| ==> init[k] == checks[k];
      match RunChecks(tables, init)
      case CheckFailed(i, e) => CheckFailed(i, e)
      case Counted(m) =>
        if Passes(tables, c) then Counted(m[c.name := |tables[c.table]|])
        else CheckFailed(|checks| - 1, FailureOf(tables, c))
  }

  /** No later check reports under the same name (so its count is the one kept). */
  predicate LastWithName(checks: seq<Check>, k: int)
    requires 0 <= k < |checks|
  {
    forall j :: k < j < |checks| ==> checks[j].name != checks[k].name
  }

  /** The names the checks report under. */
  function CheckNames(checks: seq<Check>): set<string> {
    set k | 0 <= k < |checks| :: checks[k].name
  }

  /** When all checks pass, every check's name is reported, with its table's row count. */
  lemma {:induction false} CountsReportEveryCheck(tables: map<TableRef, seq<Row>>, checks: seq<Check>)
    requires RunChecks(tables, checks).Counted?
    ensures var counts := RunChecks(tables, checks).counts;
      && counts.Keys == CheckNames(checks)
      && forall k :: 0 <= k < |checks| && LastWithName(checks, k) ==> counts[checks[k].name] == |tables[checks[k].table]|
    decreases |checks|
  {
    if |checks| > 0 {
      var init := checks[..|checks| - 1];
      var c := checks[|checks| - 1];
      assert forall k :: 0 <= k < |init| ==> init[k] == checks[k];
      CountsReportEveryCheck(tables, init);
      var m := RunChecks(tables, init).counts;
      var counts := RunChecks(tables, checks).counts;
      assert counts == m[c.name := |tables[c.table]|];
      NamesOfPrefix(checks);
      forall k | 0 <= k < |checks| && LastWithName(checks, k)
        ensures counts[checks[k].name] == |tables[checks[k].table]|
      {
        if k < |init| {
          var n := checks[k].name;
          assert checks[|checks| - 1].name != n;
          assert LastWithName(init, k) by {
            forall j | k < j < |init| ensures init[j].name != init[k].name {
              assert init[j] == checks[j];
            }
          }
          assert init[k] == checks[k];
          assert m[n] == |tables[checks[k].table]|;
          assert counts[n] == m[n];
        } else {
          assert checks[k] == c;
        }
      }
    }
  }

  /** The names of a list of checks are those of all but its last check, plus the last one's. */
  lemma NamesOfPrefix(checks: seq<Check>)
    requires |checks| > 0
    ensures CheckNames(checks) == CheckNames(checks[..|checks| - 1]) + {checks[|checks| - 1].name}
  {
    var init := checks[..|checks| - 1];
    var c := checks[|checks| - 1];
    var names := CheckNames(checks);
    var initNames := CheckNames(init);
    forall x | x in names ensures x in initNames + {c.name} {
      var k :| 0 <= k < |checks| && checks[k].name == x;
      if k < |init| {
        assert checks[k] == init[k];
      }
    }
    forall x | x in initNames ensures x in names {
      var k :| 0 <= k < |init| && init[k].name == x;
      assert checks[k] == init[k];
    }
  }

  /** Once a prefix of the checks fails, the whole list fails the same way. */
  lemma {:induction false} PrefixFailureStands(tables: map<TableRef, seq<Row>>, checks: seq<Check>, n: nat)
    requires n <= |checks|
    requires RunChecks(tables, checks[..n]).CheckFailed?
    ensures RunChecks(tables, checks) == RunChecks(tables, checks[..n])
    decreases |checks|
  {
    if n < |checks| {
      var init := checks[..|checks| - 1];
      assert init[..n] == checks[..n];
      PrefixFailureStands(tables, init, n);
    } else {
      assert checks[..n] == checks;
    }
  }

  /** The loop of `verify_data_quality` over `checks`, filling `results`. */
  method CountChecks(tables: map<TableRef, seq<Row>>, checks: seq<Check>) returns (r: CheckOutcome)
    ensures r == RunChecks(tables, checks)
  {
    var results: map<string, nat> := map[];
    var i := 0;
    while i < |checks|
      invariant 0 <= i <= |checks|
      invariant RunChecks(tables, checks[..i]) == Counted(results)
    {
      var c := checks[i];
      assert checks[..i + 1][..i] == checks[..i];
      if c.table !in tables {
        r := CheckFailed(i, QueryFailed(c.table));
        PrefixFailureStands(tables, checks, i + 1);
        return;
      }
      var count := |tables[c.table]|;
      results := results[c.name := count];
      if count == 0 {
        r := CheckFailed(i, NoData(c.table));
        PrefixFailureStands(tables, checks, i + 1);
        return;
      }
      i := i + 1;
    }
    assert checks[..i] == checks;
    r := Counted(results);
  }

  /** The `date` column of a table, as `MAX(date)` sees it; a row without one holds NULL. */
  function DateCells(rows: seq<Row>): (r: seq<Cell>)
    ensures |r| == |rows|
    ensures forall i :: 0 <= i < |rows| ==>
      r[i] == (if FieldValue(rows[i], "date").Some? then FieldValue(rows[i], "date").value else Missing)
  {
    seq(|rows|, i requires 0 <= i < |rows| => match FieldValue(rows[i], "date") case Some(c) => c case None => Missing)
  }

  /** `SELECT MAX(date)` on the freshness table. */
  function MaxDate(tables: map<TableRef, seq<Row>>, freshness: TableRef): Cell
    requires freshness in tables
  {
    ColumnMax(DateCells(tables[freshness]))
  }

  /** A row whose `date` field holds a date or a timestamp. */
  predicate HoldsDate(row: Row) {
    FieldValue(row, "date").Some? && IsDateLike(FieldValue(row, "date").value)
  }

  /**
   * `MAX(date)` is NULL exactly when no row holds a date; otherwise it is the
   * `date` of some row, and no row's date comes after it.
   */
  lemma MaxDateMeaning(tables: map<TableRef, seq<Row>>, freshness: TableRef)
    requires freshness in tables
    ensures var rows := tables[freshness];
      var m := MaxDate(tables, freshness);
      && (m == Missing <==> forall i :: 0 <= i < |rows| ==> !HoldsDate(rows[i]))
      && (m != Missing ==> exists i :: 0 <= i < |rows| && FieldValue(rows[i], "date") == Some(m))
      && (m != Missing ==> forall i :: 0 <= i < |rows| && HoldsDate(rows[i]) ==>
            NotAfter(FieldValue(rows[i], "date").value, m))
  {
    var rows := tables[freshness];
    var cells := DateCells(rows);
    var m := ColumnMax(cells);
    assert forall i :: 0 <= i < |rows| ==> (HoldsDate(rows[i]) <==> IsDateLike(cells[i]));
    if m != Missing {
      var k :| 0 <= k < |cells| && cells[k] == m;
      assert FieldValue(rows[k], "date") == Some(m);
    }
  }

  /** The outcome of `verify_data_quality` on a warehouse in state `s`, on day `today`. */
  function GateSpec(s: Store, checks: seq<Check>, freshness: TableRef, connect: ConnectAttempt, today: int): GateResult {
    if connect.ConnectFails? then GateFailed(ConnectFailed(connect.error))
    else match RunChecks(s.tables, checks)
      case CheckFailed(_, e) => GateFailed(e)
      case Counted(counts) =>
        if freshness !in s.tables then GateFailed(QueryFailed(freshness))
        else match MaxDate(s.tables, freshness)
          case CalendarDate(d) => Passed(counts, today - d, today - d > StaleAfterDays)
          case _ => GateFailed(MaxDateNotADate)
  }

  /** `verify_data_quality`: its own loader, closed in `finally`; nothing is written. */
  method VerifyDataQuality(wh: Warehouse, checks: seq<Check>, freshness: TableRef, connect: ConnectAttempt, today: int)
    returns (r: GateResult, ghost loader: SnowflakeLoader)
    ensures r == GateSpec(wh.Snapshot(), checks, freshness, connect, today)
    ensures fresh(loader) && loader.warehouse == wh && loader.conn != Open
  {
    var l := new SnowflakeLoader(wh);
    loader := l;
    var connectError := l.GetConnection(connect);
    if connectError.Some? {
      r := GateFailed(ConnectFailed(connectError.value));
    } else {
      var counted := CountChecks(wh.tables, checks);
      if counted.CheckFailed? {
        r := GateFailed(counted.error);
      } else if freshness !in wh.tables {
        r := GateFailed(QueryFailed(freshness));
      } else {
        var maxDate := ColumnMax(DateCells(wh.tables[freshness]));
        if maxDate.CalendarDate? {
          var daysOld := today - maxDate.day;
          r := Passed(counted.counts, daysOld, daysOld > StaleAfterDays);
        } else {
          r := GateFailed(MaxDateNotADate);
        }
      }
    }
    l.Close();
  }

  /** `verify_data_quality` as the DAG defines it, on the COBRA tables its queries name. */
  method VerifyDataQualityAsWritten(wh: Warehouse, connect: ConnectAttempt, today: int)
    returns (r: GateResult, ghost loader: SnowflakeLoader)
    ensures r == GateSpec(wh.Snapshot(), AsWrittenChecks, AsWrittenFreshnessTable, connect, today)
    ensures fresh(loader) && loader.warehouse == wh && loader.conn != Open
  {
    r, loader := VerifyDataQuality(wh, AsWrittenChecks, AsWrittenFreshnessTable, connect, today);
  }

  // ---------------------------------------------------------------------
  // Properties of the gate

  /** The gate fails at the first missing or empty table; the checks after it do not matter. */
  lemma GateStopsAtFirstFailure(s: Store, checks: seq<Check>, freshness: TableRef, today: int, k: nat)
    requires k < |checks| && !Passes(s.tables, checks[k])
    requires forall j :: 0 <= j < k ==> Passes(s.tables, checks[j])
    ensures GateSpec(s, checks, freshness, Connects, today) == GateFailed(FailureOf(s.tables, checks[k]))
  {
  }

  /**
   * The gate passes exactly when it connects, every checked table holds rows
   * and the latest price date is a date; it then reports every name's count.
   */
  lemma GatePassesIff(s: Store, checks: seq<Check>, freshness: TableRef, connect: ConnectAttempt, today: int)
    ensures var g := GateSpec(s, checks, freshness, connect, today);
      && (g.Passed? <==>
           && connect.Connects?
           && (forall k :: 0 <= k < |checks| ==> Passes(s.tables, checks[k]))
           && freshness in s.tables
           && MaxDate(s.tables, freshness).CalendarDate?)
      && (g.Passed? ==> g.counts.Keys == CheckNames(checks))
  {
    if GateSpec(s, checks, freshness, connect, today).Passed? {
      CountsReportEveryCheck(s.tables, checks);
    }
  }

  /**
   * Freshness never fails the gate: whether it passes does not depend on the
   * day it runs, and it warns exactly when the data is more than seven days
   * old (seven days old draws no warning).
   */
  lemma StalenessOnlyWarns(s: Store, checks: seq<Check>, freshness: TableRef, connect: ConnectAttempt, today1: int, today2: int)
    ensures var g1 := GateSpec(s, checks, freshness, connect, today1);
      var g2 := GateSpec(s, checks, freshness, connect, today2);
      && (g1.Passed? <==> g2.Passed?)
      && (g1.Passed? ==> g1.counts == g2.counts && g2.daysOld == g1.daysOld + (today2 - today1))
      && (g1.Passed? ==> (g1.warned <==> g1.daysOld > StaleAfterDays))
      && (g1.Passed? && g1.daysOld == 7 ==> !g1.warned)
  {
  }

  /** The counts only depend on the tables the checks name. */
  lemma {:induction false} RunChecksReadsOnlyChecked(t1: map<TableRef, seq<Row>>, t2: map<TableRef, seq<Row>>, checks: seq<Check>)
    requires forall k :: 0 <= k < |checks| ==> RowsIn(t1, checks[k].table) == RowsIn(t2, checks[k].table)
    requires forall k :: 0 <= k < |checks| ==> (checks[k].table in t1 <==> checks[k].table in t2)
    ensures RunChecks(t1, checks) == RunChecks(t2, checks)
    decreases |checks|
  {
    if |checks| > 0 {
      var init := checks[..|checks| - 1];
      assert forall k :: 0 <= k < |init| ==> init[k] == checks[k];
      RunChecksReadsOnlyChecked(t1, t2, init);
    }
  }

  /**
   * As written, no load can change the gate's verdict: a load touches only a
   * RAW table (and the ledger), and the gate reads only COBRA tables, which
   * the model holds as base tables that no load feeds.
   */
  lemma AsWrittenGateIgnoresLoads(
    s: Store, conn: Connection, df: Frame, table: string, dataset: string, env: LoadEnv, connect: ConnectAttempt, today: int)
    requires WellFormed(df)
    ensures var t := LoadSpec(s, conn, df, table, dataset, env).store;
      GateSpec(t, AsWrittenChecks, AsWrittenFreshnessTable, connect, today)
        == GateSpec(s, AsWrittenChecks, AsWrittenFreshnessTable, connect, today)
  {
    var t := LoadSpec(s, conn, df, table, dataset, env).store;
    forall k | 0 <= k < |AsWrittenChecks|
      ensures RowsIn(t.tables, AsWrittenChecks[k].table) == RowsIn(s.tables, AsWrittenChecks[k].table)
      ensures AsWrittenChecks[k].table in t.tables <==> AsWrittenChecks[k].table in s.tables
    {
      LoadLeavesOtherTables(s, conn, df, table, dataset, env, AsWrittenChecks[k].table);
    }
    LoadLeavesOtherTables(s, conn, df, table, dataset, env, AsWrittenFreshnessTable);
    GateReadsOnlyChecked(s, t, AsWrittenChecks, AsWrittenFreshnessTable, connect, today);
  }

  /** Two warehouses that agree on the checked tables and the freshness table get the same verdict. */
  lemma GateReadsOnlyChecked(s: Store, t: Store, checks: seq<Check>, freshness: TableRef, connect: ConnectAttempt, today: int)
    requires forall k :: 0 <= k < |checks| ==> RowsIn(t.tables, checks[k].table) == RowsIn(s.tables, checks[k].table)
    requires forall k :: 0 <= k < |checks| ==> (checks[k].table in t.tables <==> checks[k].table in s.tables)
    requires freshness in t.tables <==> freshness in s.tables
    requires freshness in s.tables ==> t.tables[freshness] == s.tables[freshness]
    ensures GateSpec(t, checks, freshness, connect, today) == GateSpec(s, checks, freshness, connect, today)
  {
    RunChecksReadsOnlyChecked(s.tables, t.tables, checks);
  }

  /** A load leaves every table but its own RAW table exactly as it was, existing or not. */
  lemma LoadLeavesOtherTables(s: Store, conn: Connection, df: Frame, table: string, dataset: string, env: LoadEnv, ref: TableRef)
    requires WellFormed(df) && ref != RawTable(table)
    ensures var t := LoadSpec(s, conn, df, table, dataset, env).store;
      && (ref in t.tables <==> ref in s.tables)
      && (ref in s.tables ==> t.tables[ref] == s.tables[ref])
  {
  }

  /**
   * On a deployment where the loads have filled the RAW tables but no COBRA
   * table exists, the gate as written fails at its first check, so the dbt
   * transform never runs, and by `AsWrittenGateIgnoresLoads` no further load
   * can change that.
   */
  lemma AsWrittenGateFailsOnLoadedRawTables(row: Row, today: int)
    ensures var s := Store(
        map[RawTable("STOCK_PRICES_DAILY") := [row], RawTable("COMPANY_INFO") := [row], RawTable("BENCHMARK_SERIES_DAILY") := [row]],
        [], map[]);
      && (forall c :: c in Checks ==> Passes(s.tables, c))
      && GateSpec(s, AsWrittenChecks, AsWrittenFreshnessTable, Connects, today)
           == GateFailed(QueryFailed(TableRef(GateSchema, "STOCK_PRICES_DAILY")))
  {
    var s := Store(
      map[RawTable("STOCK_PRICES_DAILY") := [row], RawTable("COMPANY_INFO") := [row], RawTable("BENCHMARK_SERIES_DAILY") := [row]],
      [], map[]);
    GateStopsAtFirstFailure(s, AsWrittenChecks, AsWrittenFreshnessTable, today, 0);
  }

  /** A load that completes on a non-empty batch makes its RAW table pass a count check. */
  lemma CompletedLoadPassesCheck(s: Store, conn: Connection, df: Frame, table: string, dataset: string, env: LoadEnv, name: string)
    requires WellFormed(df) && !Empty(df)
    requires LoadSpec(s, conn, df, table, dataset, env).result.LoadCompleted?
    ensures Passes(LoadSpec(s, conn, df, table, dataset, env).store.tables, Check(RawTable(table), name))
  {
    LoadIsAppendOnly(s, conn, df, table, dataset, env);
  }

  /** Loads never make a passing check fail: tables only grow. */
  lemma LoadKeepsChecksPassing(s: Store, conn: Connection, df: Frame, table: string, dataset: string, env: LoadEnv, c: Check)
    requires WellFormed(df) && Passes(s.tables, c)
    ensures Passes(LoadSpec(s, conn, df, table, dataset, env).store.tables, c)
  {
    LoadIsAppendOnly(s, conn, df, table, dataset, env);
    assert RowsIn(s.tables, c.table) <= RowsIn(LoadSpec(s, conn, df, table, dataset, env).store.tables, c.table);
  }

  /**
   * With the corrected checks, completed loads of the three datasets (in any
   * order, from any starting warehouse) are enough for every count check to
   * pass.
   */
  lemma CorrectedChecksPassAfterLoads(
    s: Store, conn: Connection,
    df1: Frame, t1: string, d1: string, e1: LoadEnv,
    df2: Frame, t2: string, d2: string, e2: LoadEnv,
    df3: Frame, t3: string, d3: string, e3: LoadEnv)
    requires WellFormed(df1) && !Empty(df1) && WellFormed(df2) && !Empty(df2) && WellFormed(df3) && !Empty(df3)
    requires multiset{t1, t2, t3} == multiset{"STOCK_PRICES_DAILY", "COMPANY_INFO", "BENCHMARK_SERIES_DAILY"}
    requires LoadSpec(s, conn, df1, t1, d1, e1).result.LoadCompleted?
    requires var l1 := LoadSpec(s, conn, df1, t1, d1, e1);
      LoadSpec(l1.store, l1.conn, df2, t2, d2, e2).result.LoadCompleted?
    requires var l1 := LoadSpec(s, conn, df1, t1, d1, e1);
      var l2 := LoadSpec(l1.store, l1.conn, df2, t2, d2, e2);
      LoadSpec(l2.store, l2.conn, df3, t3, d3, e3).result.LoadCompleted?
    ensures var l1 := LoadSpec(s, conn, df1, t1, d1, e1);
      var l2 := LoadSpec(l1.store, l1.conn, df2, t2, d2, e2);
      var l3 := LoadSpec(l2.store, l2.conn, df3, t3, d3, e3);
      RunChecks(l3.store.tables, Checks).Counted?
  {
    var l1 := LoadSpec(s, conn, df1, t1, d1, e1);
    var l2 := LoadSpec(l1.store, l1.conn, df2, t2, d2, e2);
    var l3 := LoadSpec(l2.store, l2.conn, df3, t3, d3, e3);
    forall k | 0 <= k < |Checks| ensures Passes(l3.store.tables, Checks[k]) {
      var c := Checks[k];
      if c.table == RawTable(t1) {
        CompletedLoadPassesCheck(s, conn, df1, t1, d1, e1, c.name);
        LoadKeepsChecksPassing(l1.store, l1.conn, df2, t2, d2, e2, c);
        LoadKeepsChecksPassing(l2.store, l2.conn, df3, t3, d3, e3, c);
      } else if c.table == RawTable(t2) {
        CompletedLoadPassesCheck(l1.store, l1.conn, df2, t2, d2, e2, c.name);
        LoadKeepsChecksPassing(l2.store, l2.conn, df3, t3, d3, e3, c);
      } else {
        assert c.table.name in multiset{t1, t2, t3};
        assert c.table == RawTable(t3);
        CompletedLoadPassesCheck(l2.store, l2.conn, df3, t3, d3, e3, c.name);
      }
    }
  }
}
