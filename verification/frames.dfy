/**
 * Record batches as the loader sees them: a column-oriented frame with a row
 * count, each column carrying a name, a dtype and one cell per row.
 * Also: the column-name test and date truncation that `load_to_raw` applies,
 * the `source_run_id` stamp, the row view written to the warehouse, and the
 * maximum of a date column used as a watermark.
 */
module Frames {
  import opened Wrappers

  /** One cell of a batch. Timestamps carry a day number and a time of day. */
  datatype Cell =
    | Timestamp(day: int, nanos: nat)
    | CalendarDate(day: int)
    | Text(text: string)
    | Number(amount: real)
    | Missing

  /** Only the distinction "datetime64 or not" matters to the loader. */
  datatype DType = Datetime64 | OtherDType

  datatype Column = Column(name: string, dtype: DType, cells: seq<Cell>)

  /** A frame has a row count of its own, so a frame without columns can still have rows. */
  datatype Frame = Frame(rows: nat, columns: seq<Column>)

  /** A field of a row as it reaches the warehouse. */
  datatype Field = Field(name: string, cell: Cell)

  type Row = seq<Field>

  predicate DistinctNames(columns: seq<Column>) {
    forall i, j :: 0 <= i < j < |columns| ==> columns[i].name != columns[j].name
  }

  /** Every column has one cell per row, and column labels are unique. */
  predicate WellFormed(f: Frame) {
    && (forall j :: 0 <= j < |f.columns| ==> |f.columns[j].cells| == f.rows)
    && DistinctNames(f.columns)
  }

  /** pandas' `DataFrame.empty`: true when either axis has length zero. */
  predicate Empty(f: Frame) {
    f.rows == 0 || |f.columns| == 0
  }

  // ---------------------------------------------------------------------
  // Column names

  function LowerChar(c: char): char {
    if 'A' <= c <= 'Z' then (c as int + 32) as char else c
  }

  /**
   * `str.lower()` restricted to ASCII letters: no upper-case letter is left,
   * each upper-case letter becomes the same letter in lower case, and every
   * other character is kept.
   */
  function Lower(s: string): (r: string)
    ensures |r| == |s|
    ensures forall i :: 0 <= i < |r| ==> !('A' <= r[i] <= 'Z')
    ensures forall i :: 0 <= i < |s| && 'A' <= s[i] <= 'Z' ==>
      'a' <= r[i] <= 'z' && r[i] as int - 'a' as int == s[i] as int - 'A' as int
    ensures forall i :: 0 <= i < |s| && !('A' <= s[i] <= 'Z') ==> r[i] == s[i]
  {
    seq(|s|, i requires 0 <= i < |s| => LowerChar(s[i]))
  }

  /** `sub` occurs in `s` starting at position `i`. */
  predicate OccursAt(s: string, sub: string, i: int) {
    0 <= i && i + |sub| <= |s| && s[i..i + |sub|] == sub
  }

  /** Python's `sub in s` for strings, scanning from the left. */
  predicate Contains(s: string, sub: string)
    decreases |s|
  {
    |sub| <= |s| && (s[..|sub|] == sub || (|s| > 0 && Contains(s[1..], sub)))
  }

  /** The scan finds `sub` exactly when it occurs somewhere in `s`. */
  lemma {:induction false} ContainsIffOccurs(s: string, sub: string)
    ensures Contains(s, sub) <==> exists i :: OccursAt(s, sub, i)
    decreases |s|
  {
    if |sub| > |s| {
    } else if s[..|sub|] == sub {
      assert OccursAt(s, sub, 0);
    } else {
      ContainsIffOccurs(s[1..], sub);
      if Contains(s, sub) {
        var i :| OccursAt(s[1..], sub, i);
        assert s[i + 1..i + 1 + |sub|] == s[1..][i..i + |sub|];
        assert OccursAt(s, sub, i + 1);
      }
      if exists i :: OccursAt(s, sub, i) {
        var i :| OccursAt(s, sub, i);
        assert i != 0;
        assert s[1..][i - 1..i - 1 + |sub|] == s[i..i + |sub|];
        assert OccursAt(s[1..], sub, i - 1);
      }
    }
  }

  /** The loader's test `col.lower() == 'date' or 'date' in col.lower()`. */
  predicate IsDateColumnName(name: string) {
    Lower(name) == "date" || Contains(Lower(name), "date")
  }

  /**
   * The equality test in the loader's condition is subsumed by the substring
   * test: a name is date-like exactly when "date" occurs in its lower-cased form.
   */
  lemma DateColumnNameIffOccurs(name: string)
    ensures IsDateColumnName(name) <==> exists i :: OccursAt(Lower(name), "date", i)
  {
    ContainsIffOccurs(Lower(name), "date");
    if Lower(name) == "date" {
      assert OccursAt(Lower(name), "date", 0);
    }
  }

  // ---------------------------------------------------------------------
  // Date normalisation (`df[col] = df[col].dt.date`)

  /** `.dt.date`: a timestamp becomes its calendar date; NaT and other cells stay. */
  function TruncateCell(c: Cell): Cell {
    if c.Timestamp? then CalendarDate(c.day) else c
  }

  /** A column is truncated when its name is date-like and its dtype is datetime64. */
  predicate IsTruncated(c: Column) {
    IsDateColumnName(c.name) && c.dtype == Datetime64
  }

  function NormalizedColumn(c: Column): (r: Column)
    ensures r.name == c.name && |r.cells| == |c.cells|
  {
    if IsTruncated(c) then
      Column(c.name, OtherDType, seq(|c.cells|, i requires 0 <= i < |c.cells| => TruncateCell(c.cells[i])))
    else
      c
  }

  /** The frame after the loader's pass over its columns. */
  function NormalizeDates(f: Frame): (r: Frame)
    requires WellFormed(f)
    ensures WellFormed(r) && r.rows == f.rows && |r.columns| == |f.columns|
  {
    Frame(f.rows, seq(|f.columns|, j requires 0 <= j < |f.columns| => NormalizedColumn(f.columns[j])))
  }

  /**
   * Normalisation keeps every column's name, order and length, truncates the
   * cells of date-named datetime64 columns to calendar dates (so no timestamp
   * is left in them), and leaves every other column as it was.
   */
  lemma NormalizeDatesMeaning(f: Frame)
    requires WellFormed(f)
    ensures forall j :: 0 <= j < |f.columns| ==> NormalizeDates(f).columns[j].name == f.columns[j].name
    ensures forall j :: 0 <= j < |f.columns| && !IsTruncated(f.columns[j]) ==>
      NormalizeDates(f).columns[j] == f.columns[j]
    ensures forall j, i :: 0 <= j < |f.columns| && IsTruncated(f.columns[j]) && 0 <= i < f.rows ==>
      NormalizeDates(f).columns[j].cells[i] == TruncateCell(f.columns[j].cells[i])
      && !NormalizeDates(f).columns[j].cells[i].Timestamp?
  {
  }

  /**
   * The loader's loop over `df.columns`, rewriting date-like datetime columns
   * of its copy one at a time.
   */
  method NormalizeDateColumns(df: Frame) returns (out: Frame)
    requires WellFormed(df)
    ensures out == NormalizeDates(df)
  {
    out := df;
    var j := 0;
    while j < |df.columns|
      invariant 0 <= j <= |df.columns|
      invariant out.rows == df.rows && |out.columns| == |df.columns|
      invariant forall k :: 0 <= k < j ==> out.columns[k] == NormalizedColumn(df.columns[k])
      invariant forall k :: j <= k < |df.columns| ==> out.columns[k] == df.columns[k]
    {
      var col := out.columns[j];
      if IsDateColumnName(col.name) && col.dtype == Datetime64 {
        var truncated := seq(|col.cells|, i requires 0 <= i < |col.cells| => TruncateCell(col.cells[i]));
        out := out.(columns := out.columns[j := Column(col.name, OtherDType, truncated)]);
      }
      j := j + 1;
    }
  }

  // ---------------------------------------------------------------------
  // Run-id stamp (`df['source_run_id'] = run_id`)

  const RunIdColumn: string := "source_run_id"

  function IndexOfColumn(columns: seq<Column>, name: string): (r: Option<nat>)
    ensures r.Some? ==> r.value < |columns| && columns[r.value].name == name
    ensures r.None? ==> forall j :: 0 <= j < |columns| ==> columns[j].name != name
  {
    if |columns| == 0 then None
    else if columns[|columns| - 1].name == name then Some(|columns| - 1)
    else IndexOfColumn(columns[..|columns| - 1], name)
  }

  /** pandas column assignment: replaces a column of that name in place, or appends it. */
  function SetColumn(f: Frame, c: Column): Frame {
    match IndexOfColumn(f.columns, c.name)
    case Some(j) => Frame(f.rows, f.columns[j := c])
    case None => Frame(f.rows, f.columns + [c])
  }

  /** The frame with every row stamped with `runId` in `source_run_id`. */
  function WithRunId(f: Frame, runId: string): (r: Frame)
    requires WellFormed(f)
    ensures WellFormed(r) && r.rows == f.rows
  {
    SetColumn(f, Column(RunIdColumn, OtherDType, seq(f.rows, _ => Text(runId))))
  }

  /** The batch `load_to_raw` hands to the warehouse. */
  function PreparedBatch(df: Frame, runId: string): (r: Frame)
    requires WellFormed(df)
    ensures WellFormed(r) && r.rows == df.rows
  {
    WithRunId(NormalizeDates(df), runId)
  }

  // ---------------------------------------------------------------------
  // Rows

  /** Row `i` of a frame, field by field in column order. */
  function RowAt(f: Frame, i: nat): (r: Row)
    requires WellFormed(f) && i < f.rows
    ensures |r| == |f.columns|
    ensures forall j :: 0 <= j < |f.columns| ==> r[j] == Field(f.columns[j].name, f.columns[j].cells[i])
  {
    seq(|f.columns|, j requires 0 <= j < |f.columns| => Field(f.columns[j].name, f.columns[j].cells[i]))
  }

  function RowsOf(f: Frame): (r: seq<Row>)
    requires WellFormed(f)
    ensures |r| == f.rows
    ensures forall i :: 0 <= i < f.rows ==> r[i] == RowAt(f, i)
  {
    seq(f.rows, i requires 0 <= i < f.rows => RowAt(f, i))
  }

  /**
   * Reading the rows back gives the frame's columns: in every row, each
   * column's name holds that column's cell for the row, and a name that is no
   * column's label reads as absent.
   */
  lemma RowsReadBack(f: Frame)
    requires WellFormed(f)
    ensures |RowsOf(f)| == f.rows
    ensures forall i, j :: 0 <= i < f.rows && 0 <= j < |f.columns| ==>
      FieldValue(RowsOf(f)[i], f.columns[j].name) == Some(f.columns[j].cells[i])
    ensures forall i, name :: 0 <= i < f.rows ==>
      (FieldValue(RowsOf(f)[i], name).None? <==> ColumnNamed(f, name).None?)
  {
    forall i, j | 0 <= i < f.rows && 0 <= j < |f.columns|
      ensures FieldValue(RowsOf(f)[i], f.columns[j].name) == Some(f.columns[j].cells[i])
    {
      var row := RowsOf(f)[i];
      assert row[j] == Field(f.columns[j].name, f.columns[j].cells[i]);
      FieldValueAt(row, j, f.columns[j].name);
    }
  }

  /** The cell a query reads for column `name` of a row: the first field so named. */
  function FieldValue(row: Row, name: string): (r: Option<Cell>)
    ensures r.None? <==> forall j :: 0 <= j < |row| ==> row[j].name != name
  {
    if |row| == 0 then None
    else if row[0].name == name then Some(row[0].cell)
    else FieldValue(row[1..], name)
  }

  /** In a row whose field names are unique, the value of a field is the cell stored under it. */
  lemma {:induction false} FieldValueAt(row: Row, j: nat, name: string)
    requires j < |row| && row[j].name == name
    requires forall k :: 0 <= k < j ==> row[k].name != name
    ensures FieldValue(row, name) == Some(row[j].cell)
  {
    if j > 0 {
      FieldValueAt(row[1..], j - 1, name);
    }
  }

  /**
   * Every row written by a load carries the run id under `source_run_id`,
   * and every other column of the caller's batch under its own name, with
   * its cell normalised.
   */
  lemma PreparedRows(df: Frame, runId: string)
    requires WellFormed(df)
    ensures |RowsOf(PreparedBatch(df, runId))| == df.rows
    ensures forall i :: 0 <= i < df.rows ==>
      FieldValue(RowsOf(PreparedBatch(df, runId))[i], RunIdColumn) == Some(Text(runId))
    ensures forall i, j :: 0 <= i < df.rows && 0 <= j < |df.columns| && df.columns[j].name != RunIdColumn ==>
      FieldValue(RowsOf(PreparedBatch(df, runId))[i], df.columns[j].name)
        == Some(NormalizedColumn(df.columns[j]).cells[i])
  {
    var n := NormalizeDates(df);
    var p := PreparedBatch(df, runId);
    var stamp := Column(RunIdColumn, OtherDType, seq(n.rows, _ => Text(runId)));
    assert p == SetColumn(n, stamp);
    var at := IndexOfColumn(n.columns, RunIdColumn);
    var k: nat := if at.Some? then at.value else |n.columns|;
    assert k < |p.columns| && p.columns[k] == stamp;
    assert forall j :: 0 <= j < |n.columns| && j != k ==> p.columns[j] == n.columns[j];
    forall i | 0 <= i < df.rows
      ensures FieldValue(RowsOf(p)[i], RunIdColumn) == Some(Text(runId))
    {
      var row := RowsOf(p)[i];
      assert row[k] == Field(RunIdColumn, Text(runId));
      FieldValueAt(row, k, RunIdColumn);
    }
    forall i, j | 0 <= i < df.rows && 0 <= j < |df.columns| && df.columns[j].name != RunIdColumn
      ensures FieldValue(RowsOf(p)[i], df.columns[j].name) == Some(NormalizedColumn(df.columns[j]).cells[i])
    {
      var row := RowsOf(p)[i];
      assert j != k;
      assert row[j] == Field(df.columns[j].name, NormalizedColumn(df.columns[j]).cells[i]);
      FieldValueAt(row, j, df.columns[j].name);
    }
  }

  // ---------------------------------------------------------------------
  // Maximum of a date column (`df['date'].max()`)

  predicate IsDateLike(c: Cell) {
    c.Timestamp? || c.CalendarDate?
  }

  function NanosOf(c: Cell): nat
    requires IsDateLike(c)
  {
    if c.Timestamp? then c.nanos else 0
  }

  /** Chronological order on dates and timestamps. */
  predicate NotAfter(a: Cell, b: Cell)
    requires IsDateLike(a) && IsDateLike(b)
  {
    a.day < b.day || (a.day == b.day && NanosOf(a) <= NanosOf(b))
  }

  /**
   * The maximum of a column, skipping missing values; `Missing` (NaT) when
   * the column holds no date at all.
   */
  function ColumnMax(cells: seq<Cell>): (r: Cell)
    ensures r == Missing || (IsDateLike(r) && r in cells)
    ensures r == Missing <==> forall i :: 0 <= i < |cells| ==> !IsDateLike(cells[i])
    ensures r != Missing ==> forall i :: 0 <= i < |cells| && IsDateLike(cells[i]) ==> NotAfter(cells[i], r)
    decreases |cells|
  {
    if |cells| == 0 then Missing
    else
      var m := ColumnMax(cells[..|cells| - 1]);
      var c := cells[|cells| - 1];
      assert cells == cells[..|cells| - 1] + [c];
      if !IsDateLike(c) then m
      else if m == Missing || NotAfter(m, c) then c
      else m
  }

  /** The column labelled exactly `name`, as `df[name]` selects it. */
  function ColumnNamed(f: Frame, name: string): (r: Option<Column>)
    ensures r.Some? ==> r.value in f.columns && r.value.name == name
    ensures r.None? <==> forall j :: 0 <= j < |f.columns| ==> f.columns[j].name != name
  {
    match IndexOfColumn(f.columns, name)
    case Some(j) => Some(f.columns[j])
    case None => None
  }
}
