/** `MongoDBManager.validate_csv_data`: the checks run on a table before it
    is imported. A table is its ordered column names and its rows, each row
    one cell per column. */
module CsvValidation {

  /** A cell as pandas reads it: absent (NaN) or some text. */
  datatype Cell = Missing | Present(text: string)

  datatype Frame = Frame(columns: seq<string>, rows: seq<seq<Cell>>)

  /** The three warnings, in the order they are raised. */
  datatype Warning =
    | ManyColumns
    | LargeDataset
    | IncompatibleNames(names: seq<string>)

  datatype Stats = Stats(totalRows: nat, totalColumns: nat, missingValues: nat, duplicateRows: nat)

  datatype Validation = Validation(valid: bool, errors: seq<string>, warnings: seq<Warning>, stats: Stats)

  const EmptyError := "CSV file is empty"

  /** More columns than this draws a warning. */
  const MaxColumns: nat := 100

  /** More rows than this draws a warning. */
  const MaxRows: nat := 100000

  /** pandas' `df.empty`: no rows or no columns. */
  predicate IsEmpty(f: Frame) {
    |f.rows| == 0 || |f.columns| == 0
  }

  /** A column name MongoDB will not take as a field name. */
  predicate Incompatible(name: string) {
    (|name| > 0 && name[0] == '$') || '.' in name
  }

  /** The incompatible column names, in column order. */
  function IncompatibleColumns(cols: seq<string>): (r: seq<string>)
    ensures |r| <= |cols|
    ensures forall n :: n in r <==> n in cols && Incompatible(n)
  {
    if |cols| == 0 then []
    else (if Incompatible(cols[0]) then [cols[0]] else []) + IncompatibleColumns(cols[1..])
  }

  /** Filtering keeps the order of the columns: the names from a first block
      of columns come before those from the rest. */
  lemma {:induction false} IncompatibleAppend(a: seq<string>, b: seq<string>)
    ensures IncompatibleColumns(a + b) == IncompatibleColumns(a) + IncompatibleColumns(b)
    decreases |a|
  {
    if |a| == 0 {
      assert a + b == b;
    } else {
      assert (a + b)[0] == a[0];
      assert (a + b)[1..] == a[1..] + b;
      IncompatibleAppend(a[1..], b);
    }
  }

  /** The place of a warning in the fixed order. */
  function Rank(w: Warning): nat {
    match w
    case ManyColumns => 0
    case LargeDataset => 1
    case IncompatibleNames(_) => 2
  }

  function Warnings(f: Frame): (ws: seq<Warning>)
    ensures forall i, j :: 0 <= i < j < |ws| ==> Rank(ws[i]) < Rank(ws[j])
    ensures ManyColumns in ws <==> |f.columns| > MaxColumns
    ensures LargeDataset in ws <==> |f.rows| > MaxRows
    ensures forall ns :: IncompatibleNames(ns) in ws <==> ns == IncompatibleColumns(f.columns) && ns != []
  {
    var bad := IncompatibleColumns(f.columns);
    (if |f.columns| > MaxColumns then [ManyColumns] else [])
    + (if |f.rows| > MaxRows then [LargeDataset] else [])
    + (if bad != [] then [IncompatibleNames(bad)] else [])
  }

  /** Absent cells in a row. */
  function MissingInRow(row: seq<Cell>): (n: nat)
    ensures n <= |row|
  {
    if |row| == 0 then 0 else (if row[0] == Missing then 1 else 0) + MissingInRow(row[1..])
  }

  /** `df.isnull().sum().sum()`: absent cells in the table. */
  function MissingCount(rows: seq<seq<Cell>>): nat {
    if |rows| == 0 then 0 else MissingInRow(rows[0]) + MissingCount(rows[1..])
  }

  lemma {:induction false} MissingInRowZero(row: seq<Cell>)
    ensures MissingInRow(row) == 0 <==> Missing !in row
  {
    if |row| > 0 {
      MissingInRowZero(row[1..]);
      assert row == [row[0]] + row[1..];
    }
  }

  /** No cell is missing exactly when the count is zero. */
  lemma {:induction false} MissingCountZero(rows: seq<seq<Cell>>)
    ensures MissingCount(rows) == 0 <==> forall i :: 0 <= i < |rows| ==> Missing !in rows[i]
  {
    if |rows| > 0 {
      MissingInRowZero(rows[0]);
      MissingCountZero(rows[1..]);
      assert forall i :: 1 <= i < |rows| ==> rows[i] == rows[1..][i - 1];
    }
  }

  /** `df.duplicated().sum()`: rows equal to some earlier row. */
  function DuplicateCount(rows: seq<seq<Cell>>): (n: nat)
    ensures n <= |rows|
  {
    if |rows| == 0 then 0
    else
      var init := rows[..|rows| - 1];
      DuplicateCount(init) + (if rows[|rows| - 1] in init then 1 else 0)
  }

  function RowSet(rows: seq<seq<Cell>>): set<seq<Cell>> {
    set r | r in rows
  }

  /** Every row is either the first of its kind or a duplicate. */
  lemma {:induction false} DuplicatesAndDistinct(rows: seq<seq<Cell>>)
    ensures DuplicateCount(rows) + |RowSet(rows)| == |rows|
    decreases |rows|
  {
    if |rows| > 0 {
      var init := rows[..|rows| - 1];
      var last := rows[|rows| - 1];
      DuplicatesAndDistinct(init);
      assert rows == init + [last];
      assert RowSet(rows) == RowSet(init) + {last};
      assert DuplicateCount(rows) == DuplicateCount(init) + (if last in init then 1 else 0);
      if last in init {
        assert last in RowSet(init);
        assert RowSet(init) + {last} == RowSet(init);
      } else {
        assert last !in RowSet(init);
        assert |RowSet(init) + {last}| == |RowSet(init)| + 1;
      }
    } else {
      assert RowSet(rows) == {};
    }
  }

  /** `MongoDBManager.validate_csv_data`. */
  function ValidateCsvData(f: Frame): (v: Validation)
    ensures v.stats == Stats(|f.rows|, |f.columns|, MissingCount(f.rows), DuplicateCount(f.rows))
    ensures v.valid <==> !IsEmpty(f)
    ensures !v.valid ==> v.errors == [EmptyError] && v.warnings == []
    ensures v.valid ==> v.errors == [] && v.warnings == Warnings(f)
  {
    var stats := Stats(|f.rows|, |f.columns|, MissingCount(f.rows), DuplicateCount(f.rows));
    if IsEmpty(f) then Validation(false, [EmptyError], [], stats)
    else Validation(true, [], Warnings(f), stats)
  }

  /** A table of at most 100 columns and 100000 rows whose column names
      MongoDB accepts passes without a warning. */
  lemma {:induction false} CleanFrame(f: Frame)
    requires !IsEmpty(f) && |f.columns| <= MaxColumns && |f.rows| <= MaxRows
    requires forall i :: 0 <= i < |f.columns| ==> !Incompatible(f.columns[i])
    ensures ValidateCsvData(f) == Validation(true, [], [], ValidateCsvData(f).stats)
  {
    var bad := IncompatibleColumns(f.columns);
    if bad != [] {
      assert bad[0] in f.columns;
    }
  }

  /** Python's `repr` of a string: single quotes unless the text holds a
      single quote and no double quote; backslashes, the chosen quote and the
      line-control characters escaped. */
  function StrRepr(s: string): (r: string)
    ensures |r| >= 2 && r[0] == r[|r| - 1] && (r[0] == '\'' || r[0] == '"')
  {
    var q := if '\'' in s && '"' !in s then '"' else '\'';
    [q] + EscapeRepr(s, q) + [q]
  }

  function EscapeRepr(s: string, q: char): string {
    if |s| == 0 then []
    else
      var c := s[0];
      (if c == '\\' then "\\\\"
       else if c == q then ['\\', q]
       else if c == '\n' then "\\n"
       else if c == '\r' then "\\r"
       else if c == '\t' then "\\t"
       else [c])
      + EscapeRepr(s[1..], q)
  }

  /** Python's `repr` of a list of strings: `['a', 'b']`. */
  function ListRepr(names: seq<string>): (r: string)
    ensures |r| >= 2 && r[0] == '[' && r[|r| - 1] == ']'
  {
    "[" + ReprItems(names) + "]"
  }

  function ReprItems(names: seq<string>): string {
    if |names| == 0 then ""
    else if |names| == 1 then StrRepr(names[0])
    else StrRepr(names[0]) + ", " + ReprItems(names[1..])
  }

  /** The text of each warning. */
  function WarningText(w: Warning): string {
    match w
    case ManyColumns => ManyColumnsText
    case LargeDataset => LargeDatasetText
    case IncompatibleNames(ns) => IncompatiblePrefix + ListRepr(ns)
  }

  const ManyColumnsText := "Large number of columns detected (>100)"
  const LargeDatasetText := "Large dataset detected (>100k rows)"
  const IncompatiblePrefix := "Columns with MongoDB-incompatible names: "

  /** Each text names its warning. */
  lemma {:induction false} WarningTextNames(w: Warning)
    ensures WarningText(w) == ManyColumnsText <==> w == ManyColumns
    ensures WarningText(w) == LargeDatasetText <==> w == LargeDataset
    ensures IncompatiblePrefix <= WarningText(w) <==> w.IncompatibleNames?
  {
    match w {
      case ManyColumns =>
        assert ManyColumnsText[6] != LargeDatasetText[6];
      case LargeDataset =>
        assert ManyColumnsText[6] != LargeDatasetText[6];
      case IncompatibleNames(ns) =>
        var t := WarningText(w);
        assert t[..|IncompatiblePrefix|] == IncompatiblePrefix;
        assert ManyColumnsText[0] == 'L' && LargeDatasetText[0] == 'L';
    }
  }

  function Texts(ws: seq<Warning>): (ms: seq<string>)
    ensures |ms| == |ws|
    ensures forall i :: 0 <= i < |ws| ==> ms[i] == WarningText(ws[i])
  {
    seq(|ws|, i requires 0 <= i < |ws| => WarningText(ws[i]))
  }

  /** The texts tell the warnings apart. */
  lemma {:induction false} TextsName(ws: seq<Warning>)
    ensures ManyColumnsText in Texts(ws) <==> ManyColumns in ws
    ensures LargeDatasetText in Texts(ws) <==> LargeDataset in ws
    ensures (exists i :: 0 <= i < |ws| && ws[i].IncompatibleNames?) <==>
            (exists i :: 0 <= i < |ws| && IncompatiblePrefix <= Texts(ws)[i])
  {
    var ms := Texts(ws);
    forall i | 0 <= i < |ws|
      ensures ms[i] == ManyColumnsText <==> ws[i] == ManyColumns
      ensures ms[i] == LargeDatasetText <==> ws[i] == LargeDataset
      ensures IncompatiblePrefix <= ms[i] <==> ws[i].IncompatibleNames?
    {
      WarningTextNames(ws[i]);
    }
  }

  /** The `warnings` list `validate_csv_data` returns, as text. */
  function WarningMessages(f: Frame): (ms: seq<string>)
    ensures |ms| == |ValidateCsvData(f).warnings| <= 3
    ensures forall i :: 0 <= i < |ms| ==> ms[i] == WarningText(ValidateCsvData(f).warnings[i])
    ensures ManyColumnsText in ms <==> !IsEmpty(f) && |f.columns| > MaxColumns
    ensures LargeDatasetText in ms <==> !IsEmpty(f) && |f.rows| > MaxRows
    ensures (!IsEmpty(f) && IncompatibleColumns(f.columns) != []) <==> exists i :: 0 <= i < |ms| && IncompatiblePrefix <= ms[i]
    ensures !IsEmpty(f) && IncompatibleColumns(f.columns) != [] ==>
              ms[|ms| - 1] == IncompatiblePrefix + ListRepr(IncompatibleColumns(f.columns))
  {
    var ws := ValidateCsvData(f).warnings;
    TextsName(ws);
    if !IsEmpty(f) && IncompatibleColumns(f.columns) != [] then
      assert ws[|ws| - 1] == IncompatibleNames(IncompatibleColumns(f.columns));
      Texts(ws)
    else
      Texts(ws)
  }

  /** The column text, when present, comes first, and the size text right
      after it. */
  lemma {:induction false} WarningMessagesOrder(f: Frame)
    ensures var ms := WarningMessages(f);
            (ManyColumnsText in ms ==> ms[0] == ManyColumnsText)
            && (ManyColumnsText in ms && LargeDatasetText in ms ==> ms[1] == LargeDatasetText)
  {
    var ms := WarningMessages(f);
    var ws := ValidateCsvData(f).warnings;
    if ManyColumnsText in ms {
      assert !IsEmpty(f) && |f.columns| > MaxColumns;
      assert ws[0] == ManyColumns;
      if LargeDatasetText in ms {
        assert ws[1] == LargeDataset;
      }
    }
  }
}
