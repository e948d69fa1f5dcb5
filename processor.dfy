/**
 * `clean_data` (processor.py): turns a tabulated M-Pesa statement into
 * canonical rows. The body works column by column, as pandas does; the
 * contract states the result row by row (`Normalize`) and the lemmas below
 * state what each step promises.
 */
module Processor {
  import opened Wrappers
  import opened Strings
  import opened Numbers
  import opened Frame

  const CompletionTime := "Completion Time"
  const Details := "Details"
  const Description := "Description"
  const PaidIn := "Paid in"
  const Withdrawn := "Withdrawn"
  const TransactionStatus := "Transaction Status"
  const Balance := "Balance"
  const Date := "Date"
  const Time := "Time"
  const Amount := "Amount"
  const Category := "Category"

  /** The description of the statement artefacts that are not real transactions. */
  const OverdraftMarker := "OverDraft of Credit Party"

  /** The columns dropped once the amount is merged (processor.py, the last loop). */
  const Transient := [PaidIn, Withdrawn, TransactionStatus, Balance]

  /**
   * The pandas conversions the model takes as given: `to_datetime(..., dayfirst=True,
   * errors='coerce')` followed by `strftime('%d/%m/%Y')` for the date part,
   * `to_datetime(..., errors='coerce')` and `strftime('%H:%M')` for the time part
   * (None when pandas yields NaT), and `str()` of a float cell.
   */
  datatype Conversions = Conversions(
    parseDate: string -> Option<string>,
    parseTime: string -> Option<string>,
    show: real -> string)

  /** Why `clean_data` raises instead of returning a table. */
  datatype CleanError =
    | NoTimePart             // no Completion Time value has a space, so `dt[1]` is a KeyError
    | DuplicateDescription   // renaming Details gives a second Description column
    | NoDescription          // `df['Description']` is a KeyError
    | NoTextDescription      // no Description value is a string, so the `.str` accessor raises
    | NotNumeric(column: string)  // `astype(float)` is a ValueError

  /** `astype(str)` of one cell. */
  function Str(c: Cell, show: real -> string): string {
    match c
    case Missing => "nan"
    case Text(s) => s
    case Number(x) => show(x)
  }

  /** `s.split(' ', n=1)`: the text before the first space and, if there is one, the rest. */
  function SplitAtSpace(s: string): (r: (string, Option<string>))
    ensures ' ' !in r.0
    ensures r.1.None? <==> ' ' !in s
    ensures r.1.None? ==> r.0 == s
    ensures r.1.Some? ==> s == r.0 + " " + r.1.value
  {
    var k := IndexOf(s, ' ');
    if k == |s| then
      assert s[..k] == s;
      (s, None)
    else
      assert s == s[..k] + " " + s[k + 1..];
      (s[..k], Some(s[k + 1..]))
  }

  function OrMissing(o: Option<string>): Cell {
    if o.Some? then Text(o.value) else Missing
  }

  /** Some Completion Time value contains a space, so the split has a second column. */
  predicate SomeTimePart(rows: seq<Row>, show: real -> string) {
    exists i | 0 <= i < |rows| :: CompletionTime in rows[i] && ' ' in Str(rows[i][CompletionTime], show)
  }

  /** processor.py:6-9 on one row: Date and Time from the two halves, Completion Time gone. */
  function SplitStep(row: Row, conv: Conversions): Row {
    if CompletionTime !in row then row
    else
      var (date, time) := SplitAtSpace(Str(row[CompletionTime], conv.show));
      var timeCell := if time.Some? then OrMissing(conv.parseTime(time.value)) else Missing;
      row[Date := OrMissing(conv.parseDate(date))][Time := timeCell] - {CompletionTime}
  }

  /** processor.py:11-12 on one row. */
  function RenameStep(row: Row): Row {
    if Details in row then (row - {Details})[Description := row[Details]] else row
  }

  /** The test of processor.py:14: a text description containing the marker (NaN counts as no match). */
  predicate IsOverdraft(row: Row) {
    Description in row && row[Description].Text? && Contains(row[Description].s, OverdraftMarker)
  }

  predicate NotOverdraft(row: Row) {
    !IsOverdraft(row)
  }

  /** The text a cell that is not a float holds after `replace('', '0')` and `astype(str)`. */
  function CastText(c: Cell): string
    requires !c.Number?
  {
    if c.Missing? then "nan" else if c.s == "" then "0" else c.s
  }

  /**
   * processor.py:18-20 on one cell: '' becomes '0', `astype(str)`, commas removed,
   * `astype(float)`. NaN is kept as a missing cell; None means a ValueError. A float
   * cell keeps its value, since `float(str(x)) == x`.
   */
  function Coerce(c: Cell): (r: Option<Cell>)
    ensures c.Number? ==> r == Some(c)
    ensures !c.Number? ==> r == FloatCell(ParseFloat(RemoveCommas(CastText(c))))
    ensures c == Text("") ==> r == Some(Number(0.0))
    ensures c.Missing? ==> r == Some(Missing)
  {
    match c
    case Missing =>
      assert CastText(c) == "nan" && RemoveCommas("nan") == "nan";
      NanLiteral();
      Some(Missing)
    case Number(x) => Some(Number(x))
    case Text(s) =>
      if s == "" then
        assert CastText(c) == "0" && RemoveCommas("0") == "0";
        ZeroLiteral();
        Some(Number(0.0))
      else
        FloatCell(ParseFloat(RemoveCommas(s)))
  }

  /** The cell `astype(float)` stores for a parsed text, None for a ValueError. */
  function FloatCell(f: Option<Float>): Option<Cell> {
    match f
    case Some(NaN) => Some(Missing)
    case Some(Finite(x)) => Some(Number(x))
    case None => None
  }

  predicate Coercible(row: Row, col: string) {
    col !in row || Coerce(row[col]).Some?
  }

  /** Some row holds a `col` cell that `astype(float)` rejects. */
  predicate Uncoercible(rows: seq<Row>, col: string) {
    exists j | 0 <= j < |rows| :: !Coercible(rows[j], col)
  }

  function CoerceStep(row: Row, col: string): Row {
    if col in row && Coerce(row[col]).Some? then row[col := Coerce(row[col]).value] else row
  }

  /** A coerced cell that is a number greater than zero (NaN is not). */
  predicate Positive(c: Cell) {
    c.Number? && c.x > 0.0
  }

  /** processor.py:22-26: 0, then Paid in where positive, then minus Withdrawn where positive. */
  function SignedAmount(row: Row): (r: real)
    ensures r < 0.0 <==> Withdrawn in row && Positive(row[Withdrawn])
    ensures r > 0.0 <==> !(Withdrawn in row && Positive(row[Withdrawn])) && PaidIn in row && Positive(row[PaidIn])
    ensures r < 0.0 ==> r == -row[Withdrawn].x
    ensures r > 0.0 ==> r == row[PaidIn].x
  {
    var fromPaid := if PaidIn in row && Positive(row[PaidIn]) then row[PaidIn].x else 0.0;
    if Withdrawn in row && Positive(row[Withdrawn]) then -row[Withdrawn].x else fromPaid
  }

  function MergeStep(row: Row): Row {
    row[Amount := Number(SignedAmount(row))]
  }

  /** processor.py:28-30 on one row. */
  function DropStep(row: Row): Row {
    row - {PaidIn, Withdrawn, TransactionStatus, Balance}
  }

  /** processor.py:32 on one row. */
  function ResetStep(row: Row): Row {
    row[Category := Text("")]
  }

  /** A row as it reaches the overdraft filter. */
  function Prepared(row: Row, conv: Conversions): Row {
    RenameStep(SplitStep(row, conv))
  }

  /** A kept row from the filter to the end. */
  function Finished(row: Row): (r: Row)
    ensures Amount in r && Category in r && r[Category] == Text("")
    ensures PaidIn !in r && Withdrawn !in r && TransactionStatus !in r && Balance !in r
  {
    ResetStep(DropStep(MergeStep(CoerceStep(CoerceStep(row, PaidIn), Withdrawn))))
  }

  /** The output row `clean_data` makes of one input row it keeps. */
  function Normalize(row: Row, conv: Conversions): Row {
    Finished(Prepared(row, conv))
  }

  function PreparedRows(df: Table, conv: Conversions): (r: seq<Row>)
    ensures |r| == |df.rows|
  {
    seq(|df.rows|, i requires 0 <= i < |df.rows| => Prepared(df.rows[i], conv))
  }

  /** The positions of the input rows that survive the overdraft filter. */
  function KeptIndices(df: Table, conv: Conversions): (k: seq<nat>)
    ensures forall j :: 0 <= j < |k| ==> k[j] < |df.rows|
  {
    Kept(PreparedRows(df, conv), NotOverdraft)
  }

  /** `for name in names: if name in df.columns: df = df.drop(columns=name)`, on the column list. */
  function DropAll(cols: seq<string>, names: seq<string>): (r: seq<string>)
    ensures ColumnSet(r) == ColumnSet(cols) - ColumnSet(names)
    ensures Distinct(cols) ==> Distinct(r)
  {
    if names == [] then cols
    else
      var front := names[..|names| - 1];
      assert ColumnSet(names) == ColumnSet(front) + {names[|names| - 1]};
      WithoutColumn(DropAll(cols, front), names[|names| - 1])
  }

  /** The column names the cleaner handles are pairwise different. */
  lemma NamesDiffer()
    ensures CompletionTime != Details && CompletionTime != Description && CompletionTime != PaidIn && CompletionTime != Withdrawn && CompletionTime != TransactionStatus && CompletionTime != Balance && CompletionTime != Date && CompletionTime != Time && CompletionTime != Amount && CompletionTime != Category
    ensures Details != Description && Details != PaidIn && Details != Withdrawn && Details != TransactionStatus && Details != Balance && Details != Date && Details != Time && Details != Amount && Details != Category
    ensures Description != PaidIn && Description != Withdrawn && Description != TransactionStatus && Description != Balance && Description != Date && Description != Time && Description != Amount && Description != Category
    ensures PaidIn != Withdrawn && PaidIn != TransactionStatus && PaidIn != Balance && PaidIn != Date && PaidIn != Time && PaidIn != Amount && PaidIn != Category
    ensures Withdrawn != TransactionStatus && Withdrawn != Balance && Withdrawn != Date && Withdrawn != Time && Withdrawn != Amount && Withdrawn != Category
    ensures TransactionStatus != Balance && TransactionStatus != Date && TransactionStatus != Time && TransactionStatus != Amount && TransactionStatus != Category
    ensures Balance != Date && Balance != Time && Balance != Amount && Balance != Category
    ensures Date != Time && Date != Amount && Date != Category
    ensures Time != Amount && Time != Category
    ensures Amount != Category
  {
  }

  /** The column list after processor.py:5-9. */
  function SplitColumns(cols: seq<string>): seq<string> {
    if CompletionTime in cols then WithoutColumn(WithColumn(WithColumn(cols, Date), Time), CompletionTime) else cols
  }

  /** The column list after processor.py:11-12. */
  function RenamedColumns(cols: seq<string>): seq<string> {
    if Details in cols then RenameColumn(cols, Details, Description) else cols
  }

  /** The column list as it reaches the overdraft filter. */
  function PreparedColumns(cols: seq<string>): seq<string> {
    RenamedColumns(SplitColumns(cols))
  }

  /** The column list from the filter to the end. */
  function FinishedColumns(cols: seq<string>): seq<string> {
    WithColumn(DropAll(WithColumn(cols, Amount), Transient), Category)
  }

  /** The column list `clean_data` returns. */
  function CleanColumns(cols: seq<string>): seq<string> {
    FinishedColumns(PreparedColumns(cols))
  }

  /** Distinct columns, and every row holds exactly those columns. */
  ghost predicate Shaped(cols: seq<string>, rows: seq<Row>) {
    Distinct(cols) && forall j :: 0 <= j < |rows| ==> rows[j].Keys == ColumnSet(cols)
  }

  /** Whether processor.py:5-12 raise, and with which error. */
  function PrepareFailure(df: Table, conv: Conversions): Option<CleanError> {
    if CompletionTime in df.columns && !SomeTimePart(df.rows, conv.show) then Some(NoTimePart)
    else if Details in df.columns && Description in df.columns then Some(DuplicateDescription)
    else if Details !in df.columns && Description !in df.columns then Some(NoDescription)
    else None
  }

  /** Some row holds a string under Description, so `.str` has string values to work on. */
  predicate SomeTextDescription(rows: seq<Row>) {
    exists j | 0 <= j < |rows| :: Description in rows[j] && rows[j][Description].Text?
  }

  /** Whether processor.py:16-20 raise on the kept rows, and with which error. */
  function CoercionFailure(rows: seq<Row>): Option<CleanError> {
    if Uncoercible(rows, PaidIn) then Some(NotNumeric(PaidIn))
    else if Uncoercible(rows, Withdrawn) then Some(NotNumeric(Withdrawn))
    else None
  }

  /** The rows that reach the amount coercion. */
  function FilteredRows(df: Table, conv: Conversions): seq<Row> {
    Pick(PreparedRows(df, conv), KeptIndices(df, conv))
  }

  /** Whether `clean_data` raises, and with which error (the first it meets). */
  function CleanFailure(df: Table, conv: Conversions): Option<CleanError> {
    if PrepareFailure(df, conv).Some? then PrepareFailure(df, conv)
    else if df.rows != [] && !SomeTextDescription(PreparedRows(df, conv)) then Some(NoTextDescription)
    else CoercionFailure(FilteredRows(df, conv))
  }

  /** `df[col] = df[col].replace('', '0').astype(str).str.replace(',', '').astype(float)`. */
  method CoerceColumn(rows: seq<Row>, col: string) returns (r: Option<seq<Row>>)
    ensures r.None? <==> Uncoercible(rows, col)
    ensures r.Some? ==> |r.value| == |rows| && forall i :: 0 <= i < |rows| ==> r.value[i] == CoerceStep(rows[i], col)
  {
    var out := [];
    for i := 0 to |rows|
      invariant |out| == i
      invariant forall k :: 0 <= k < i ==> Coercible(rows[k], col)
      invariant forall k :: 0 <= k < i ==> out[k] == CoerceStep(rows[k], col)
    {
      var row := CoerceRow(rows[i], col);
      if row.None? {
        return None;
      }
      out := out + [row.value];
      forall k | 0 <= k < i + 1
        ensures Coercible(rows[k], col) && out[k] == CoerceStep(rows[k], col)
      {
      }
    }
    assert !Uncoercible(rows, col);
    return Some(out);
  }

  /** The cast of CoerceColumn on one row's cell; a row without the column is left alone. */
  method CoerceRow(row: Row, col: string) returns (r: Option<Row>)
    ensures r.None? <==> !Coercible(row, col)
    ensures r.Some? ==> r.value == CoerceStep(row, col)
  {
    if col !in row {
      return Some(row);
    }
    var c := Coerce(row[col]);
    if c.None? {
      return None;
    }
    return Some(row[col := c.value]);
  }

  lemma SplitKeys(row: Row, cols: seq<string>, conv: Conversions)
    requires row.Keys == ColumnSet(cols)
    ensures SplitStep(row, conv).Keys == ColumnSet(SplitColumns(cols))
  {
  }

  lemma RenameKeys(row: Row, cols: seq<string>)
    requires row.Keys == ColumnSet(cols)
    requires Details in cols ==> Description !in cols
    ensures RenameStep(row).Keys == ColumnSet(RenamedColumns(cols))
  {
  }

  /** The split leaves the Details and Description columns as they were. */
  lemma SplitKeepsDescription(cols: seq<string>)
    ensures Details in SplitColumns(cols) <==> Details in cols
    ensures Description in SplitColumns(cols) <==> Description in cols
  {
    var c := SplitColumns(cols);
    if CompletionTime in cols {
      assert ColumnSet(c) == ColumnSet(cols) + {Date, Time} - {CompletionTime};
      assert Details in c <==> Details in ColumnSet(c);
      assert Description in c <==> Description in ColumnSet(c);
      assert Details in cols <==> Details in ColumnSet(cols);
      assert Description in cols <==> Description in ColumnSet(cols);
    }
  }

  /** processor.py:5-12: the Completion Time split and the Details rename. */
  method Prepare(df: Table, conv: Conversions) returns (r: Result<(seq<string>, seq<Row>), CleanError>)
    requires Valid(df)
    ensures r.Failure? <==> PrepareFailure(df, conv).Some?
    ensures r.Failure? ==> r.error == PrepareFailure(df, conv).value
    ensures r.Success? ==> r.value.0 == PreparedColumns(df.columns) && r.value.1 == PreparedRows(df, conv)
    ensures r.Success? ==> Description in r.value.0 && Shaped(r.value.0, r.value.1)
  {
    var columns, rows := df.columns, df.rows;
    if CompletionTime in columns {
      if !SomeTimePart(rows, conv.show) {
        return Failure(NoTimePart);
      }
      rows := MapRows(rows, row => SplitStep(row, conv));
      columns := WithoutColumn(WithColumn(WithColumn(columns, Date), Time), CompletionTime);
    }
    assert columns == SplitColumns(df.columns);
    assert forall j :: 0 <= j < |rows| ==> rows[j] == SplitStep(df.rows[j], conv);
    SplitKeepsDescription(df.columns);
    if Details in columns {
      if Description in columns {
        return Failure(DuplicateDescription);
      }
    } else if Description !in columns {
      return Failure(NoDescription);
    }
    forall j | 0 <= j < |rows|
      ensures rows[j].Keys == ColumnSet(columns)
    {
      SplitKeys(df.rows[j], df.columns, conv);
    }
    ghost var split, splitColumns := rows, columns;
    if Details in columns {
      rows := MapRows(rows, RenameStep);
      columns := RenameColumn(columns, Details, Description);
    }
    forall j | 0 <= j < |rows|
      ensures rows[j] == Prepared(df.rows[j], conv) && rows[j].Keys == ColumnSet(columns)
    {
      RenameKeys(split[j], splitColumns);
    }
    r := Success((columns, rows));
  }

  /** processor.py:16-20 for one column, when the table has it. */
  method CoerceIfPresent(columns: seq<string>, rows: seq<Row>, col: string) returns (r: Option<seq<Row>>)
    requires Shaped(columns, rows)
    ensures r.None? <==> Uncoercible(rows, col)
    ensures r.Some? ==> |r.value| == |rows| && forall i :: 0 <= i < |rows| ==> r.value[i] == CoerceStep(rows[i], col)
    ensures r.Some? ==> Shaped(columns, r.value)
  {
    if col in columns {
      r := CoerceColumn(rows, col);
    } else {
      assert forall i :: 0 <= i < |rows| ==> col !in rows[i];
      r := Some(rows);
    }
  }

  /** Coercing one column leaves every other column as it was. */
  lemma CoerceStepOther(row: Row, col: string, other: string)
    requires col != other
    ensures other in CoerceStep(row, col) <==> other in row
    ensures other in row ==> CoerceStep(row, col)[other] == row[other]
  {
  }

  /** Coercing Paid in makes no Withdrawn cell coercible or not. */
  lemma WithdrawnAfterPaidIn(rows: seq<Row>, paid: seq<Row>)
    requires |paid| == |rows| && forall j :: 0 <= j < |rows| ==> paid[j] == CoerceStep(rows[j], PaidIn)
    ensures Uncoercible(paid, Withdrawn) <==> Uncoercible(rows, Withdrawn)
  {
    forall j | 0 <= j < |rows|
      ensures Coercible(paid[j], Withdrawn) <==> Coercible(rows[j], Withdrawn)
    {
      CoerceStepOther(rows[j], PaidIn, Withdrawn);
    }
  }

  /** processor.py:16-20 for both amount columns. */
  method CoerceAmounts(columns: seq<string>, rows: seq<Row>) returns (r: Result<seq<Row>, CleanError>)
    requires Shaped(columns, rows)
    ensures r.Failure? <==> CoercionFailure(rows).Some?
    ensures r.Failure? ==> r.error == CoercionFailure(rows).value
    ensures r.Success? ==> |r.value| == |rows|
    ensures r.Success? ==> forall j :: 0 <= j < |rows| ==> r.value[j] == CoerceStep(CoerceStep(rows[j], PaidIn), Withdrawn)
    ensures r.Success? ==> Shaped(columns, r.value)
  {
    var paid := CoerceIfPresent(columns, rows, PaidIn);
    if paid.None? {
      return Failure(NotNumeric(PaidIn));
    }
    WithdrawnAfterPaidIn(rows, paid.value);
    var both := CoerceIfPresent(columns, paid.value, Withdrawn);
    if both.None? {
      return Failure(NotNumeric(Withdrawn));
    }
    r := Success(both.value);
  }

  /** processor.py:28-30: each transient column that is present is dropped. */
  method DropTransient(columns: seq<string>, rows: seq<Row>) returns (columns': seq<string>, rows': seq<Row>)
    requires Shaped(columns, rows)
    ensures columns' == DropAll(columns, Transient)
    ensures |rows'| == |rows| && forall j :: 0 <= j < |rows| ==> rows'[j] == DropStep(rows[j])
    ensures Shaped(columns', rows')
  {
    columns', rows' := columns, rows;
    ghost var gone: set<string> := {};
    for n := 0 to |Transient|
      invariant columns' == DropAll(columns, Transient[..n])
      invariant gone == ColumnSet(Transient[..n])
      invariant ColumnSet(columns') == ColumnSet(columns) - gone
      invariant |rows'| == |rows|
      invariant forall j :: 0 <= j < |rows'| ==> rows'[j] == rows[j] - gone
    {
      var name := Transient[n];
      assert Transient[..n + 1][..n] == Transient[..n];
      assert ColumnSet(Transient[..n + 1]) == gone + {name};
      if name in columns' {
        columns' := WithoutColumn(columns', name);
        rows' := MapRows(rows', (row: Row) => row - {name});
        forall j | 0 <= j < |rows'| ensures rows'[j] == rows[j] - (gone + {name}) {
          DropMore(rows[j], gone, name);
        }
      } else {
        forall j | 0 <= j < |rows'| ensures rows'[j] == rows[j] - (gone + {name}) {
          assert name !in rows[j] - gone by {
            assert name !in ColumnSet(columns');
          }
          DropMore(rows[j], gone, name);
        }
      }
      gone := gone + {name};
    }
    assert Transient[..|Transient|] == Transient;
    assert ColumnSet(Transient) == {PaidIn, Withdrawn, TransactionStatus, Balance};
  }

  lemma DropMore(row: Row, gone: set<string>, name: string)
    ensures (row - gone) - {name} == row - (gone + {name})
    ensures name !in row - gone ==> row - gone == row - (gone + {name})
  {
  }

  /** processor.py:22-32: the merged Amount, the dropped columns and the empty Category. */
  method Finish(columns: seq<string>, rows: seq<Row>) returns (columns': seq<string>, rows': seq<Row>)
    requires Shaped(columns, rows)
    ensures columns' == FinishedColumns(columns)
    ensures |rows'| == |rows| && forall j :: 0 <= j < |rows| ==> rows'[j] == ResetStep(DropStep(MergeStep(rows[j])))
    ensures Shaped(columns', rows')
  {
    var merged := MapRows(rows, MergeStep);
    var mergedColumns := WithColumn(columns, Amount);
    assert Shaped(mergedColumns, merged);
    var droppedColumns, dropped := DropTransient(mergedColumns, merged);
    rows' := MapRows(dropped, ResetStep);
    columns' := WithColumn(droppedColumns, Category);
  }

  /**
   * processor.py:4-33. On success the rows are the inputs that are not overdraft
   * artefacts, in their order and with their index labels, each normalised by
   * `Normalize`; otherwise the error is the one `clean_data` raises first.
   */
  method CleanData(df: Table, conv: Conversions) returns (r: Result<Table, CleanError>)
    requires Valid(df)
    ensures r.Failure? <==> CleanFailure(df, conv).Some?
    ensures r.Failure? ==> r.error == CleanFailure(df, conv).value
    ensures r.Success? ==> Valid(r.value)
    ensures r.Success? ==>
      var k := KeptIndices(df, conv);
      && r.value.columns == CleanColumns(df.columns)
      && r.value.labels == Pick(df.labels, k)
      && |r.value.rows| == |k|
      && forall j :: 0 <= j < |k| ==> r.value.rows[j] == Normalize(df.rows[k[j]], conv)
  {
    var prepared := Prepare(df, conv);
    if prepared.Failure? {
      return Failure(prepared.error);
    }
    var (columns, rows) := prepared.value;
    if rows != [] && !SomeTextDescription(rows) {
      return Failure(NoTextDescription);
    }
    var labels;
    labels, rows := FilterRows(df.labels, rows, NotOverdraft);
    FilteredShaped(df, conv, columns, rows);
    var coerced := CoerceAmounts(columns, rows);
    if coerced.Failure? {
      return Failure(coerced.error);
    }
    ghost var filtered := rows;
    columns, rows := Finish(columns, coerced.value);
    FinishedRows(df, conv, filtered, coerced.value, rows);
    PickDistinct(df.labels, KeptIndices(df, conv));
    r := Success(Table(columns, labels, rows));
  }

  /** The rows that pass the overdraft filter keep the prepared columns. */
  lemma FilteredShaped(df: Table, conv: Conversions, columns: seq<string>, rows: seq<Row>)
    requires Shaped(columns, PreparedRows(df, conv))
    requires rows == Pick(PreparedRows(df, conv), Kept(PreparedRows(df, conv), NotOverdraft))
    ensures rows == FilteredRows(df, conv) && Shaped(columns, rows)
  {
    var k := KeptIndices(df, conv);
    forall j | 0 <= j < |rows| ensures rows[j].Keys == ColumnSet(columns) {
      assert rows[j] == PreparedRows(df, conv)[k[j]];
    }
  }

  /** Coercing and finishing the filtered rows normalises each kept input row. */
  lemma FinishedRows(df: Table, conv: Conversions, filtered: seq<Row>, coerced: seq<Row>, finished: seq<Row>)
    requires filtered == FilteredRows(df, conv)
    requires |coerced| == |filtered|
    requires forall j :: 0 <= j < |filtered| ==> coerced[j] == CoerceStep(CoerceStep(filtered[j], PaidIn), Withdrawn)
    requires |finished| == |coerced|
    requires forall j :: 0 <= j < |coerced| ==> finished[j] == ResetStep(DropStep(MergeStep(coerced[j])))
    ensures var k := KeptIndices(df, conv);
      |finished| == |k| && forall j :: 0 <= j < |k| ==> finished[j] == Normalize(df.rows[k[j]], conv)
  {
    var k := KeptIndices(df, conv);
    forall j | 0 <= j < |k| ensures finished[j] == Normalize(df.rows[k[j]], conv) {
      assert filtered[j] == Prepared(df.rows[k[j]], conv);
    }
  }

  /** The description an input row carries, under whichever of its two names it has. */
  function RawDescription(row: Row): Cell {
    if Details in row then row[Details] else if Description in row then row[Description] else Missing
  }

  /** The input row is an overdraft artefact: its description is text containing the marker. */
  predicate MarksOverdraft(row: Row) {
    RawDescription(row).Text? && Contains(RawDescription(row).s, OverdraftMarker)
  }

  /** A coerced amount cell holding a number greater than zero. */
  predicate PositiveIn(row: Row, col: string) {
    col in row && Coerce(row[col]).Some? && Positive(Coerce(row[col]).value)
  }

  function CoercedValue(row: Row, col: string): real
    requires PositiveIn(row, col)
  {
    Coerce(row[col]).value.x
  }

  /** Preparing a row carries its description, under the name Description. */
  lemma PreparedDescription(row: Row, conv: Conversions)
    requires !(Details in row && Description in row)
    ensures (Details in row || Description in row) ==> Description in Prepared(row, conv)
    ensures Description in Prepared(row, conv) ==> Prepared(row, conv)[Description] == RawDescription(row)
    ensures IsOverdraft(Prepared(row, conv)) <==> MarksOverdraft(row)
  {
    var split := SplitStep(row, conv);
    assert Details in split <==> Details in row;
    assert Description in split <==> Description in row;
    assert Details in split ==> split[Details] == row[Details];
    assert Description in split ==> split[Description] == row[Description];
  }

  /**
   * processor.py:14: an input row survives the filter exactly when its description
   * is not text containing the overdraft marker; a missing description survives.
   */
  lemma OverdraftFilter(df: Table, conv: Conversions, i: int)
    requires Valid(df) && PrepareFailure(df, conv).None?
    requires 0 <= i < |df.rows|
    ensures i in KeptIndices(df, conv) <==> !MarksOverdraft(df.rows[i])
    ensures RawDescription(df.rows[i]).Missing? ==> i in KeptIndices(df, conv)
  {
    var row := df.rows[i];
    assert Details in row <==> Details in ColumnSet(df.columns);
    assert Description in row <==> Description in ColumnSet(df.columns);
    PreparedDescription(row, conv);
    assert PreparedRows(df, conv)[i] == Prepared(row, conv);
    var k := KeptIndices(df, conv);
    if i in k {
      var j :| 0 <= j < |k| && k[j] == i;
      assert NotOverdraft(PreparedRows(df, conv)[k[j]]);
    }
  }

  /**
   * processor.py:14: once the columns are in place, the `.str` accessor raises
   * exactly when the table has rows and none of their descriptions is a string.
   */
  lemma TextlessDescriptions(df: Table, conv: Conversions)
    requires Valid(df) && PrepareFailure(df, conv).None?
    ensures CleanFailure(df, conv) == Some(NoTextDescription) <==>
      |df.rows| > 0 && forall j :: 0 <= j < |df.rows| ==> !RawDescription(df.rows[j]).Text?
  {
    forall j | 0 <= j < |df.rows|
      ensures Description in PreparedRows(df, conv)[j]
      ensures PreparedRows(df, conv)[j][Description] == RawDescription(df.rows[j])
    {
      var row := df.rows[j];
      assert Details in row <==> Details in ColumnSet(df.columns);
      assert Description in row <==> Description in ColumnSet(df.columns);
      PreparedDescription(row, conv);
    }
  }

  /** The kept rows and the overdraft rows together are all the input rows. */
  lemma {:induction false} KeptCount(df: Table, conv: Conversions)
    ensures |KeptIndices(df, conv)| + |Kept(PreparedRows(df, conv), IsOverdraft)| == |df.rows|
  {
    KeptComplement(PreparedRows(df, conv), NotOverdraft, IsOverdraft);
  }

  /**
   * processor.py:22-26: a positive Withdrawn gives a negative Amount even when Paid in
   * is also positive; otherwise a positive Paid in gives that amount; otherwise 0.
   */
  lemma AmountSign(row: Row)
    ensures Amount in Finished(row)
    ensures PositiveIn(row, Withdrawn) ==> Finished(row)[Amount] == Number(-CoercedValue(row, Withdrawn))
    ensures !PositiveIn(row, Withdrawn) && PositiveIn(row, PaidIn) ==> Finished(row)[Amount] == Number(CoercedValue(row, PaidIn))
    ensures !PositiveIn(row, Withdrawn) && !PositiveIn(row, PaidIn) ==> Finished(row)[Amount] == Number(0.0)
  {
    var c := CoerceStep(CoerceStep(row, PaidIn), Withdrawn);
    assert PaidIn in c <==> PaidIn in row;
    assert Withdrawn in c <==> Withdrawn in row;
    assert PositiveIn(row, PaidIn) ==> c[PaidIn] == Coerce(row[PaidIn]).value;
    assert PositiveIn(row, Withdrawn) ==> c[Withdrawn] == Coerce(row[Withdrawn]).value;
    assert PaidIn in row && !PositiveIn(row, PaidIn) ==> !Positive(c[PaidIn]);
    assert Withdrawn in row && !PositiveIn(row, Withdrawn) ==> !Positive(c[Withdrawn]);
  }

  /** The sign of the merged amount tells incoming from outgoing money. */
  lemma AmountDirection(row: Row)
    ensures Amount in Finished(row) && Finished(row)[Amount].Number?
    ensures Finished(row)[Amount].x < 0.0 <==> PositiveIn(row, Withdrawn)
    ensures Finished(row)[Amount].x > 0.0 <==> !PositiveIn(row, Withdrawn) && PositiveIn(row, PaidIn)
  {
    AmountSign(row);
  }

  /** A statement figure such as "1,000.00" coerces to its value in shillings. */
  lemma CoerceFigure(cents: nat)
    ensures Coerce(Text(Shillings(cents))) == Some(Number(InShillings(cents)))
  {
    ParseShillings(cents);
    CoerceParsed(Shillings(cents), Finite(InShillings(cents)));
  }

  /** A non-empty text that parses as a finite float coerces to that number. */
  lemma CoerceParsed(s: string, f: Float)
    requires s != "" && f.Finite? && ParseFloat(RemoveCommas(s)) == Some(f)
    ensures Coerce(Text(s)) == Some(Number(f.x))
  {
  }

  /** "1,000.00" in Paid in, with Withdrawn absent or empty, becomes the amount 1000.0. */
  lemma PaidInFigure(row: Row, cents: nat)
    requires cents > 0
    requires PaidIn in row && row[PaidIn] == Text(Shillings(cents))
    requires Withdrawn in row ==> row[Withdrawn] == Text("")
    ensures Finished(row)[Amount] == Number(InShillings(cents))
  {
    CoerceFigure(cents);
    assert PositiveIn(row, PaidIn) && !PositiveIn(row, Withdrawn);
    AmountSign(row);
  }

  /** "1,000.00" in Withdrawn becomes the amount -1000.0, whatever Paid in holds. */
  lemma WithdrawnFigure(row: Row, cents: nat)
    requires cents > 0
    requires Withdrawn in row && row[Withdrawn] == Text(Shillings(cents))
    ensures Finished(row)[Amount] == Number(-InShillings(cents))
  {
    CoerceFigure(cents);
    assert PositiveIn(row, Withdrawn);
    AmountSign(row);
  }

  /** processor.py:32: every cleaned row has an empty category. */
  lemma CategoryReset(row: Row, conv: Conversions)
    ensures Category in Normalize(row, conv) && Normalize(row, conv)[Category] == Text("")
  {
  }

  /**
   * The cleaned row has its description under the canonical name and none of the raw
   * or transient columns.
   */
  lemma NormalizedColumns(row: Row, conv: Conversions)
    requires !(Details in row && Description in row)
    ensures var r := Normalize(row, conv);
      && CompletionTime !in r && Details !in r
      && PaidIn !in r && Withdrawn !in r && TransactionStatus !in r && Balance !in r
      && ((Details in row || Description in row) ==> Description in r && r[Description] == RawDescription(row))
  {
    PreparedDescription(row, conv);
    var p := Prepared(row, conv);
    NamesDiffer();
    assert CompletionTime !in p && Details !in p;
    assert Description in p ==> Finished(p)[Description] == p[Description];
  }

  /** Date and Time come from the two halves of Completion Time (processor.py:6-9). */
  lemma NormalizedDateTime(row: Row, conv: Conversions)
    requires CompletionTime in row
    ensures var (date, time) := SplitAtSpace(Str(row[CompletionTime], conv.show));
      && Date in Normalize(row, conv) && Time in Normalize(row, conv)
      && Normalize(row, conv)[Date] == OrMissing(conv.parseDate(date))
      && Normalize(row, conv)[Time] == (if time.Some? then OrMissing(conv.parseTime(time.value)) else Missing)
  {
    var split := SplitStep(row, conv);
    NamesDiffer();
    assert Prepared(row, conv)[Date] == split[Date] && Prepared(row, conv)[Time] == split[Time];
    FinishedKeeps(Prepared(row, conv), Date);
    FinishedKeeps(Prepared(row, conv), Time);
  }

  /** The amount coercion, merge, drop and category reset touch no other column. */
  lemma FinishedKeeps(row: Row, c: string)
    requires c in row
    requires c !in {PaidIn, Withdrawn, TransactionStatus, Balance, Amount, Category}
    ensures c in Finished(row) && Finished(row)[c] == row[c]
  {
    CoerceStepOther(row, PaidIn, c);
    CoerceStepOther(CoerceStep(row, PaidIn), Withdrawn, c);
  }

  /** Every column `clean_data` does not name passes through unchanged. */
  lemma NormalizedPassThrough(row: Row, conv: Conversions, c: string)
    requires c in row
    requires c !in {CompletionTime, Details, PaidIn, Withdrawn, TransactionStatus, Balance,
                    Date, Time, Description, Amount, Category}
    ensures c in Normalize(row, conv) && Normalize(row, conv)[c] == row[c]
  {
    assert Prepared(row, conv)[c] == row[c];
    FinishedKeeps(Prepared(row, conv), c);
  }

  /**
   * The columns of the cleaned table: the input columns without the raw and transient
   * ones, plus Description, Amount and Category, plus Date and Time when the input had
   * Completion Time; no name twice.
   */
  lemma CleanColumnSet(cols: seq<string>)
    requires Distinct(cols)
    requires Details in cols ==> Description !in cols
    requires Details in cols || Description in cols
    ensures Distinct(CleanColumns(cols))
    ensures ColumnSet(CleanColumns(cols)) ==
      ColumnSet(cols) - {CompletionTime, Details, PaidIn, Withdrawn, TransactionStatus, Balance}
      + {Description, Amount, Category}
      + (if CompletionTime in cols then {Date, Time} else {})
  {
    PreparedColumnSet(cols);
    FinishedColumnSet(PreparedColumns(cols));
    NamesDiffer();
    SetAlgebra(ColumnSet(cols), CompletionTime in cols, Date, Time, CompletionTime, Details, PaidIn, Withdrawn,
               TransactionStatus, Balance, Description, Amount, Category);
  }

  lemma PreparedColumnSet(cols: seq<string>)
    requires Distinct(cols)
    requires Details in cols ==> Description !in cols
    requires Details in cols || Description in cols
    ensures Distinct(PreparedColumns(cols))
    ensures ColumnSet(PreparedColumns(cols)) ==
      ColumnSet(cols) - {CompletionTime} + (if CompletionTime in cols then {Date, Time} else {}) - {Details} + {Description}
  {
    var c1 := SplitColumns(cols);
    SplitColumnSet(cols);
    SplitKeepsDescription(cols);
    assert Details in cols <==> Details in ColumnSet(cols);
    assert Description in cols <==> Description in ColumnSet(cols);
    assert Details in c1 <==> Details in ColumnSet(c1);
    assert Description in c1 <==> Description in ColumnSet(c1);
    assert ColumnSet(RenamedColumns(c1)) == ColumnSet(c1) - {Details} + {Description};
  }

  /** The set identity behind `CleanColumnSet`, over names the solver need not spell out. */
  lemma SetAlgebra(s0: set<string>, split: bool, date: string, time: string, ct: string, det: string,
                   pi: string, w: string, ts: string, b: string, desc: string, amt: string, cat: string)
    requires desc != ct && desc != det && desc != pi && desc != w && desc != ts && desc != b
    requires amt != ct && amt != det && amt != pi && amt != w && amt != ts && amt != b
    requires cat != ct && cat != det && cat != pi && cat != w && cat != ts && cat != b
    requires date != det && date != pi && date != w && date != ts && date != b
    requires time != det && time != pi && time != w && time != ts && time != b
    ensures var extra := if split then {date, time} else {};
      s0 - {ct} + extra - {det} + {desc} + {amt} - {pi, w, ts, b} + {cat}
        == s0 - {ct, det, pi, w, ts, b} + {desc, amt, cat} + extra
  {
  }

  lemma SplitColumnSet(cols: seq<string>)
    requires Distinct(cols)
    ensures Distinct(SplitColumns(cols))
    ensures ColumnSet(SplitColumns(cols)) ==
      if CompletionTime in cols then ColumnSet(cols) + {Date, Time} - {CompletionTime} else ColumnSet(cols)
  {
  }

  lemma FinishedColumnSet(cols: seq<string>)
    requires Distinct(cols)
    ensures Distinct(FinishedColumns(cols))
    ensures ColumnSet(FinishedColumns(cols)) ==
      ColumnSet(cols) + {Amount} - {PaidIn, Withdrawn, TransactionStatus, Balance} + {Category}
  {
    assert ColumnSet(Transient) == {PaidIn, Withdrawn, TransactionStatus, Balance};
  }
}
