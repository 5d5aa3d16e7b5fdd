/** A read-only view over a Timer: one row per measured name with the
    count, shortest, longest and mean span, rendered either as
    comma-separated lines or as a right-aligned fixed-width table. */
module Reports {
  import opened Errors
  import opened Text
  import opened Timing

  /** A table cell keeps its Python type, which decides its formatting. */
  datatype Cell = Str(s: string) | Int(i: int) | Float(x: real)

  type Row = seq<Cell>

  const Header: Row := [Str("name"), Str("count"), Str("min"), Str("max"), Str("mean")]

  /** `str(name)`: a name is a string, or None for a bare enter. */
  function KeyText(k: Key): string
  {
    match k
    case None => "None"
    case Some(s) => s
  }

  /** The row of one name whose spans are `spans`. */
  function DataRow(k: Key, spans: seq<TimeSpan>): Row
    requires |spans| > 0
  {
    [Str(KeyText(k)), Int(|spans|), Float(Least(spans)), Float(Greatest(spans)), Float(Mean(spans))]
  }

  /** The data rows for `names`, in that order; `min()` raises ValueError on
      the first name that has no span. */
  function DataRows(t: Timer, names: seq<Key>): Result<seq<Row>>
    reads t
  {
    if names == [] then Ok([])
    else if |t.Spans(names[0])| == 0 then Err(ValueError("min() arg is an empty sequence"))
    else
      match DataRows(t, names[1..])
      case Err(e) => Err(e)
      case Ok(rest) => Ok([DataRow(names[0], t.Spans(names[0]))] + rest)
  }

  lemma {:induction false} DataRowsCharacterised(t: Timer, names: seq<Key>)
    ensures DataRows(t, names).Ok? <==> forall k :: k in names ==> |t.Spans(k)| > 0
    ensures DataRows(t, names).Err? ==> DataRows(t, names).error == ValueError("min() arg is an empty sequence")
    ensures DataRows(t, names).Ok? ==>
      |DataRows(t, names).value| == |names| &&
      forall i :: 0 <= i < |names| ==> DataRows(t, names).value[i] == DataRow(names[i], t.Spans(names[i]))
  {
    if names != [] {
      DataRowsCharacterised(t, names[1..]);
      assert forall k :: k in names <==> k == names[0] || k in names[1..];
      if DataRows(t, names).Ok? {
        var rows := DataRows(t, names).value;
        assert forall i :: 1 <= i < |names| ==> names[i] == names[1..][i - 1];
        assert forall i :: 1 <= i < |names| ==> rows[i] == DataRows(t, names[1..]).value[i - 1];
      }
    }
  }

  /** A table whose rows all have as many cells as the first. */
  predicate Rectangular(rows: seq<Row>)
  {
    |rows| > 0 && forall k :: 0 <= k < |rows| ==> |rows[k]| == |rows[0]|
  }

  // ------------------------------------------------------ comma separated

  /** `str(value)` of a cell; `strFloat` stands for Python's float `str`. */
  function CellText(c: Cell, strFloat: real -> string): string
  {
    match c
    case Str(s) => s
    case Int(i) => IntToString(i)
    case Float(x) => strFloat(x)
  }

  /** One comma-joined line, with the newline `writeln` adds. */
  function CsvLine(row: Row, strFloat: real -> string): string
  {
    Join(",", seq(|row|, i requires 0 <= i < |row| => CellText(row[i], strFloat))) + "\n"
  }

  function CsvLines(rows: seq<Row>, strFloat: real -> string): string
  {
    if rows == [] then "" else CsvLines(rows[..|rows| - 1], strFloat) + CsvLine(rows[|rows| - 1], strFloat)
  }

  /** The text `csv` builds from the rows it is given: with a header, the
      header line behind the comment marker, then one line per data row. */
  function CsvText(rows: seq<Row>, header: bool, commentChar: string, strFloat: real -> string): string
  {
    if header && |rows| > 0 then commentChar + CsvLine(rows[0], strFloat) + CsvLines(rows[1..], strFloat)
    else CsvLines(rows, strFloat)
  }

  lemma {:induction false} CsvLinesCount(rows: seq<Row>, strFloat: real -> string)
    requires forall k, i :: 0 <= k < |rows| && 0 <= i < |rows[k]| ==> '\n' !in CellText(rows[k][i], strFloat)
    ensures Count('\n', CsvLines(rows, strFloat)) == |rows|
  {
    if rows != [] {
      var init, last := rows[..|rows| - 1], rows[|rows| - 1];
      assert forall k :: 0 <= k < |init| ==> init[k] == rows[k];
      CsvLinesCount(init, strFloat);
      CsvLineCount(last, strFloat);
      CountConcat('\n', CsvLines(init, strFloat), CsvLine(last, strFloat));
    }
  }

  lemma CsvLineCount(row: Row, strFloat: real -> string)
    requires forall i :: 0 <= i < |row| ==> '\n' !in CellText(row[i], strFloat)
    ensures Count('\n', CsvLine(row, strFloat)) == 1
  {
    var parts := seq(|row|, i requires 0 <= i < |row| => CellText(row[i], strFloat));
    JoinWithout('\n', ",", parts);
    CountAbsent('\n', Join(",", parts));
    CountConcat('\n', Join(",", parts), "\n");
    assert Count('\n', "\n") == 1 by {
      assert "\n"[..0] == [];
    }
  }

  /** One line per row: the text holds exactly one newline per row when no
      cell and no comment marker holds one. */
  lemma CsvOneLinePerRow(rows: seq<Row>, header: bool, commentChar: string, strFloat: real -> string)
    requires '\n' !in commentChar
    requires forall k, i :: 0 <= k < |rows| && 0 <= i < |rows[k]| ==> '\n' !in CellText(rows[k][i], strFloat)
    ensures Count('\n', CsvText(rows, header, commentChar, strFloat)) == |rows|
  {
    if header && |rows| > 0 {
      var rest := rows[1..];
      assert forall k :: 0 <= k < |rest| ==> rest[k] == rows[k + 1];
      CsvLinesCount(rest, strFloat);
      CsvLineCount(rows[0], strFloat);
      CountAbsent('\n', commentChar);
      CountConcat('\n', commentChar, CsvLine(rows[0], strFloat));
      CountConcat('\n', commentChar + CsvLine(rows[0], strFloat), CsvLines(rest, strFloat));
    } else {
      CsvLinesCount(rows, strFloat);
    }
  }

  // ------------------------------------------------------------ fixed width

  /** A cell formatted at width 1: `%d`, `%.<precision>f` or `%s`;
      `fmtFloat` stands for the fixed-point float rendering. */
  function Base(c: Cell, precision: nat, fmtFloat: (real, nat) -> string): string
  {
    match c
    case Str(s) => s
    case Int(i) => IntToString(i)
    case Float(x) => fmtFloat(x, precision)
  }

  /** The inner `fmt(width, val, precision)`: the cell right-aligned in `width`. */
  function Fmt(width: int, c: Cell, precision: nat, fmtFloat: (real, nat) -> string): string
  {
    PadLeft(Base(c, precision, fmtFloat), width)
  }

  /** The longest cell `i` formatted at width 1 over `rows` (0 when none). */
  function MaxLen(rows: seq<Row>, i: nat, precision: nat, fmtFloat: (real, nat) -> string): nat
  {
    if rows == [] then 0
    else
      var last := rows[|rows| - 1];
      var m := MaxLen(rows[..|rows| - 1], i, precision, fmtFloat);
      if i < |last| && m < |Fmt(1, last[i], precision, fmtFloat)| then |Fmt(1, last[i], precision, fmtFloat)| else m
  }

  function Max(a: int, b: int): int
  {
    if a < b then b else a
  }

  /** Taking one more row into account widens a column to that row's cell. */
  lemma MaxLenStep(rows: seq<Row>, k: nat, i: nat, precision: nat, fmtFloat: (real, nat) -> string)
    requires k < |rows| && i < |rows[k]|
    ensures MaxLen(rows[..k + 1], i, precision, fmtFloat) ==
            Max(MaxLen(rows[..k], i, precision, fmtFloat), |Fmt(1, rows[k][i], precision, fmtFloat)|)
  {
    assert rows[..k + 1][..k] == rows[..k];
  }

  /** The column widths `pretty` settles on: one more than the longest cell. */
  function Widths(rows: seq<Row>, precision: nat, fmtFloat: (real, nat) -> string): seq<int>
    requires |rows| > 0
  {
    seq(|rows[0]|, i requires 0 <= i < |rows[0]| => 1 + MaxLen(rows, i, precision, fmtFloat))
  }

  /** The cells of a row, each right-aligned in its column's width. */
  function Cells(row: Row, widths: seq<int>, precision: nat, fmtFloat: (real, nat) -> string): string
    requires |row| <= |widths|
  {
    if row == [] then ""
    else Cells(row[..|row| - 1], widths, precision, fmtFloat) + Fmt(widths[|row| - 1], row[|row| - 1], precision, fmtFloat)
  }

  function Lines(rows: seq<Row>, widths: seq<int>, precision: nat, fmtFloat: (real, nat) -> string): string
    requires forall k :: 0 <= k < |rows| ==> |rows[k]| <= |widths|
  {
    if rows == [] then ""
    else Lines(rows[..|rows| - 1], widths, precision, fmtFloat) + Cells(rows[|rows| - 1], widths, precision, fmtFloat) + "\n"
  }

  /** The text `pretty` builds from the rows it is given. */
  function PrettyText(rows: seq<Row>, precision: nat, fmtFloat: (real, nat) -> string): string
    requires Rectangular(rows)
  {
    Lines(rows, Widths(rows, precision, fmtFloat), precision, fmtFloat)
  }

  function Sum(ws: seq<int>): int
  {
    if ws == [] then 0 else Sum(ws[..|ws| - 1]) + ws[|ws| - 1]
  }

  lemma {:induction false} MaxLenBounds(rows: seq<Row>, i: nat, k: nat, precision: nat, fmtFloat: (real, nat) -> string)
    requires k < |rows| && i < |rows[k]|
    ensures |Fmt(1, rows[k][i], precision, fmtFloat)| <= MaxLen(rows, i, precision, fmtFloat)
  {
    var n := |rows| - 1;
    if k < n {
      var init := rows[..n];
      assert init[k] == rows[k];
      MaxLenBounds(init, i, k, precision, fmtFloat);
    }
  }

  lemma {:induction false} MaxLenAttained(rows: seq<Row>, i: nat, precision: nat, fmtFloat: (real, nat) -> string) returns (k: nat)
    requires |rows| > 0 && forall j :: 0 <= j < |rows| ==> i < |rows[j]|
    ensures k < |rows| && |Fmt(1, rows[k][i], precision, fmtFloat)| == MaxLen(rows, i, precision, fmtFloat)
  {
    var n := |rows| - 1;
    var init := rows[..n];
    if n == 0 || MaxLen(init, i, precision, fmtFloat) < |Fmt(1, rows[n][i], precision, fmtFloat)| {
      k := n;
    } else {
      assert forall j :: 0 <= j < |init| ==> init[j] == rows[j];
      k := MaxLenAttained(init, i, precision, fmtFloat);
      assert init[k] == rows[k];
    }
  }

  /** Column `i` is exactly one wider than its longest cell formatted at
      width 1: every such cell is shorter than the column, one by exactly one. */
  lemma WidthIsOnePlusLongest(rows: seq<Row>, i: nat, precision: nat, fmtFloat: (real, nat) -> string)
    requires Rectangular(rows) && i < |rows[0]|
    ensures forall k :: 0 <= k < |rows| ==> |Fmt(1, rows[k][i], precision, fmtFloat)| < Widths(rows, precision, fmtFloat)[i]
    ensures exists k :: 0 <= k < |rows| && |Fmt(1, rows[k][i], precision, fmtFloat)| + 1 == Widths(rows, precision, fmtFloat)[i]
  {
    forall k | 0 <= k < |rows|
      ensures |Fmt(1, rows[k][i], precision, fmtFloat)| < Widths(rows, precision, fmtFloat)[i]
    {
      MaxLenBounds(rows, i, k, precision, fmtFloat);
    }
    var w := MaxLenAttained(rows, i, precision, fmtFloat);
    assert |Fmt(1, rows[w][i], precision, fmtFloat)| + 1 == Widths(rows, precision, fmtFloat)[i];
  }

  /** A cell right-aligned in a column wider than the cell: exactly the
      column's width, the cell's text at the end, at least one space before it. */
  lemma CellFillsColumn(c: Cell, width: int, precision: nat, fmtFloat: (real, nat) -> string)
    requires |Fmt(1, c, precision, fmtFloat)| < width
    ensures Fmt(width, c, precision, fmtFloat) ==
            Spaces(width - |Base(c, precision, fmtFloat)|) + Base(c, precision, fmtFloat)
    ensures |Fmt(width, c, precision, fmtFloat)| == width && Fmt(width, c, precision, fmtFloat)[0] == ' '
  {
    var b := Base(c, precision, fmtFloat);
    PadLeftShape(b, 1);
    PadLeftShape(b, width);
  }

  lemma {:induction false} CellsLength(row: Row, widths: seq<int>, precision: nat, fmtFloat: (real, nat) -> string)
    requires |row| <= |widths|
    requires forall i :: 0 <= i < |row| ==> |Fmt(1, row[i], precision, fmtFloat)| < widths[i]
    ensures |Cells(row, widths, precision, fmtFloat)| == Sum(widths[..|row|])
  {
    if row != [] {
      var n := |row| - 1;
      var init := row[..n];
      assert forall i :: 0 <= i < n ==> init[i] == row[i];
      CellsLength(init, widths, precision, fmtFloat);
      CellFillsColumn(row[n], widths[n], precision, fmtFloat);
      assert Cells(row, widths, precision, fmtFloat) == Cells(init, widths, precision, fmtFloat) + Fmt(widths[n], row[n], precision, fmtFloat);
      assert widths[..n + 1][..n] == widths[..n];
      assert Sum(widths[..n + 1]) == Sum(widths[..n]) + widths[n];
    }
  }

  /** Every cell of `row` is narrower than its column in `widths`. */
  predicate RowFits(row: Row, widths: seq<int>, precision: nat, fmtFloat: (real, nat) -> string)
  {
    |row| == |widths| && forall i :: 0 <= i < |row| ==> |Fmt(1, row[i], precision, fmtFloat)| < widths[i]
  }

  predicate Fits(rows: seq<Row>, widths: seq<int>, precision: nat, fmtFloat: (real, nat) -> string)
  {
    forall k :: 0 <= k < |rows| ==> RowFits(rows[k], widths, precision, fmtFloat)
  }

  lemma {:induction false} LinesLength(rows: seq<Row>, widths: seq<int>, precision: nat, fmtFloat: (real, nat) -> string)
    requires Fits(rows, widths, precision, fmtFloat)
    ensures |Lines(rows, widths, precision, fmtFloat)| == |rows| * (Sum(widths) + 1)
  {
    if rows != [] {
      var n := |rows| - 1;
      var init := rows[..n];
      assert forall k :: 0 <= k < n ==> init[k] == rows[k];
      LinesLength(init, widths, precision, fmtFloat);
      assert RowFits(rows[n], widths, precision, fmtFloat);
      CellsLength(rows[n], widths, precision, fmtFloat);
      assert widths[..|rows[n]|] == widths;
      MulSucc(n, Sum(widths) + 1);
    }
  }

  lemma MulSucc(n: int, width: int)
    ensures (n + 1) * width == n * width + width
  {
  }

  /** The lines of the first `j` rows begin the table. */
  lemma {:induction false} LinesPrefix(rows: seq<Row>, widths: seq<int>, j: nat, precision: nat, fmtFloat: (real, nat) -> string)
    requires forall k :: 0 <= k < |rows| ==> |rows[k]| <= |widths|
    requires j <= |rows|
    ensures Lines(rows[..j], widths, precision, fmtFloat) <= Lines(rows, widths, precision, fmtFloat)
  {
    if j < |rows| {
      var n := |rows| - 1;
      var init := rows[..n];
      assert forall k :: 0 <= k < n ==> init[k] == rows[k];
      LinesPrefix(init, widths, j, precision, fmtFloat);
      assert init[..j] == rows[..j];
    } else {
      assert rows[..j] == rows;
    }
  }

  /** The widths `pretty` settles on leave room for every cell. */
  lemma WidthsFit(rows: seq<Row>, precision: nat, fmtFloat: (real, nat) -> string)
    requires Rectangular(rows)
    ensures Fits(rows, Widths(rows, precision, fmtFloat), precision, fmtFloat)
  {
    var widths := Widths(rows, precision, fmtFloat);
    forall k | 0 <= k < |rows|
      ensures RowFits(rows[k], widths, precision, fmtFloat)
    {
      forall i | 0 <= i < |widths|
        ensures |Fmt(1, rows[k][i], precision, fmtFloat)| < widths[i]
      {
        MaxLenBounds(rows, i, k, precision, fmtFloat);
      }
    }
  }

  /** Line `k`: row `k`'s cells, as long as the widths' sum, then a newline,
      preceded by the `k` earlier lines. */
  lemma LineOfRow(rows: seq<Row>, widths: seq<int>, k: nat, precision: nat, fmtFloat: (real, nat) -> string)
    requires Fits(rows, widths, precision, fmtFloat) && k < |rows|
    ensures |Cells(rows[k], widths, precision, fmtFloat)| == Sum(widths)
    ensures |Lines(rows[..k], widths, precision, fmtFloat)| == k * (Sum(widths) + 1)
    ensures Lines(rows[..k], widths, precision, fmtFloat) + Cells(rows[k], widths, precision, fmtFloat) + "\n"
              <= Lines(rows, widths, precision, fmtFloat)
  {
    assert RowFits(rows[k], widths, precision, fmtFloat);
    CellsLength(rows[k], widths, precision, fmtFloat);
    assert widths[..|rows[k]|] == widths;
    assert Fits(rows[..k], widths, precision, fmtFloat);
    LinesLength(rows[..k], widths, precision, fmtFloat);
    LinesPrefix(rows, widths, k + 1, precision, fmtFloat);
    assert rows[..k + 1][..k] == rows[..k];
  }

  /** The layout of the table `pretty` prints: all lines have the same length,
      one more than the sum of the column widths; line `k` starts at offset
      `k` times that length and is row `k`'s cells followed by a newline. */
  lemma PrettyLayout(rows: seq<Row>, precision: nat, fmtFloat: (real, nat) -> string)
    requires Rectangular(rows)
    ensures var widths := Widths(rows, precision, fmtFloat);
      var text := PrettyText(rows, precision, fmtFloat);
      |text| == |rows| * (Sum(widths) + 1) &&
      forall k :: 0 <= k < |rows| ==>
        |Cells(rows[k], widths, precision, fmtFloat)| == Sum(widths) &&
        |Lines(rows[..k], widths, precision, fmtFloat)| == k * (Sum(widths) + 1) &&
        Lines(rows[..k], widths, precision, fmtFloat) + Cells(rows[k], widths, precision, fmtFloat) + "\n" <= text
  {
    var widths := Widths(rows, precision, fmtFloat);
    WidthsFit(rows, precision, fmtFloat);
    LinesLength(rows, widths, precision, fmtFloat);
    forall k | 0 <= k < |rows|
      ensures |Cells(rows[k], widths, precision, fmtFloat)| == Sum(widths)
      ensures |Lines(rows[..k], widths, precision, fmtFloat)| == k * (Sum(widths) + 1)
      ensures Lines(rows[..k], widths, precision, fmtFloat) + Cells(rows[k], widths, precision, fmtFloat) + "\n"
                <= Lines(rows, widths, precision, fmtFloat)
    {
      LineOfRow(rows, widths, k, precision, fmtFloat);
    }
  }

  // ----------------------------------------------------------------- Report

  class Report {
    const timer: Timer

    constructor (timer: Timer)
      ensures this.timer == timer
    {
      this.timer := timer;
    }

    /** `rows(header)`: the optional header, then one data row per name of
        the timer's `names`, computed from the timer's current contents. */
    function Rows(header: bool): Result<seq<Row>>
      reads timer
    {
      match timer.Names()
      case Err(e) => Err(e)
      case Ok(names) =>
        match DataRows(timer, names)
        case Err(e) => Err(e)
        case Ok(data) => Ok((if header then [Header] else []) + data)
    }

    /** `csv(header, commentChar)`: the rows, then the text written from them. */
    method Csv(header: bool, commentChar: string, strFloat: real -> string) returns (r: Result<string>)
      ensures Rows(header).Err? ==> r == Err(Rows(header).error)
      ensures Rows(header).Ok? ==> r == Ok(CsvText(Rows(header).value, header, commentChar, strFloat))
    {
      var entries := Rows(header);
      if entries.Err? {
        return Err(entries.error);
      }
      RowsStartWithHeader(this, header);
      var text := WriteCsv(entries.value, header, commentChar, strFloat);
      r := Ok(text);
    }

    /** `pretty(header, precision)`: the materialized rows, then the table
        written from them; with no row there is no `entries[0]`. */
    method Pretty(header: bool, precision: nat, fmtFloat: (real, nat) -> string) returns (r: Result<string>)
      ensures Rows(header).Err? ==> r == Err(Rows(header).error)
      ensures Rows(header).Ok? && |Rows(header).value| == 0 ==> r == Err(IndexError)
      ensures Rows(header).Ok? && |Rows(header).value| > 0 ==>
        Rectangular(Rows(header).value) && r == Ok(PrettyText(Rows(header).value, precision, fmtFloat))
    {
      var entries := Rows(header);
      if entries.Err? {
        return Err(entries.error);
      }
      if |entries.value| == 0 {
        return Err(IndexError);
      }
      RowsHaveFiveCells(this, header);
      var text := WriteTable(entries.value, precision, fmtFloat);
      r := Ok(text);
    }
  }

  /** The writing loop of `csv`: the header line behind the comment marker
      when asked for, then one comma-joined line per remaining row. */
  method WriteCsv(rows: seq<Row>, header: bool, commentChar: string, strFloat: real -> string) returns (s: string)
    requires header ==> |rows| > 0
    ensures s == CsvText(rows, header, commentChar, strFloat)
  {
    s := "";
    var data := rows;
    if header {
      s := s + commentChar;
      s := s + CsvLine(rows[0], strFloat);
      data := rows[1..];
    }
    ghost var head := s;
    var i := 0;
    while i < |data|
      invariant 0 <= i <= |data|
      invariant s == head + CsvLines(data[..i], strFloat)
    {
      assert data[..i + 1][..i] == data[..i];
      s := s + CsvLine(data[i], strFloat);
      i := i + 1;
    }
    assert data[..i] == data;
  }

  /** The loops of `pretty`: the column widths, then the rows written in them. */
  method WriteTable(rows: seq<Row>, precision: nat, fmtFloat: (real, nat) -> string) returns (s: string)
    requires Rectangular(rows)
    ensures s == PrettyText(rows, precision, fmtFloat)
  {
    var widths := ColumnWidths(rows, precision, fmtFloat);
    s := WriteRows(rows, widths, precision, fmtFloat);
  }

  /** One row of the width scan: each column's width grows to fit the
      row's cell in that column. */
  method Widen(widths: array<int>, row: Row, precision: nat, fmtFloat: (real, nat) -> string)
    requires |row| == widths.Length
    modifies widths
    ensures forall j :: 0 <= j < widths.Length ==> widths[j] == Max(old(widths[j]), |Fmt(1, row[j], precision, fmtFloat)|)
  {
    var i := 0;
    while i < |row|
      invariant 0 <= i <= |row|
      invariant forall j :: 0 <= j < i ==> widths[j] == Max(old(widths[j]), |Fmt(1, row[j], precision, fmtFloat)|)
      invariant forall j :: i <= j < widths.Length ==> widths[j] == old(widths[j])
    {
      widths[i] := Max(widths[i], |Fmt(1, row[i], precision, fmtFloat)|);
      i := i + 1;
    }
  }

  /** `widths` grown cell by cell to the longest cell at width 1 over all
      rows (numpy zeros, then `max`), and then widened by one. */
  method ColumnWidths(rows: seq<Row>, precision: nat, fmtFloat: (real, nat) -> string) returns (widths: array<int>)
    requires Rectangular(rows)
    ensures fresh(widths) && widths[..] == Widths(rows, precision, fmtFloat)
  {
    widths := new int[|rows[0]|](_ => 0);
    var k := 0;
    while k < |rows|
      invariant 0 <= k <= |rows|
      invariant forall j :: 0 <= j < widths.Length ==> widths[j] == MaxLen(rows[..k], j, precision, fmtFloat)
    {
      var row := rows[k];
      forall j | 0 <= j < |row|
        ensures MaxLen(rows[..k + 1], j, precision, fmtFloat) == Max(MaxLen(rows[..k], j, precision, fmtFloat), |Fmt(1, row[j], precision, fmtFloat)|)
      {
        MaxLenStep(rows, k, j, precision, fmtFloat);
      }
      Widen(widths, row, precision, fmtFloat);
      k := k + 1;
    }
    assert rows[..k] == rows;
    var j := 0;
    while j < widths.Length
      invariant 0 <= j <= widths.Length
      invariant forall q :: 0 <= q < j ==> widths[q] == 1 + MaxLen(rows, q, precision, fmtFloat)
      invariant forall q :: j <= q < widths.Length ==> widths[q] == MaxLen(rows, q, precision, fmtFloat)
    {
      widths[j] := widths[j] + 1;
      j := j + 1;
    }
  }

  /** One line of the table without its newline: every cell of `row`
      padded to its column's width. */
  method WriteCells(row: Row, widths: array<int>, precision: nat, fmtFloat: (real, nat) -> string) returns (s: string)
    requires |row| <= widths.Length
    ensures s == Cells(row, widths[..], precision, fmtFloat)
  {
    s := "";
    var i := 0;
    while i < |row|
      invariant 0 <= i <= |row|
      invariant s == Cells(row[..i], widths[..], precision, fmtFloat)
    {
      assert row[..i + 1][..i] == row[..i];
      s := s + Fmt(widths[i], row[i], precision, fmtFloat);
      i := i + 1;
    }
    assert row[..i] == row;
  }

  /** Every cell written right-aligned in its column, each row ended by a newline. */
  method WriteRows(rows: seq<Row>, widths: array<int>, precision: nat, fmtFloat: (real, nat) -> string) returns (s: string)
    requires forall k :: 0 <= k < |rows| ==> |rows[k]| <= widths.Length
    ensures s == Lines(rows, widths[..], precision, fmtFloat)
  {
    s := "";
    var k := 0;
    while k < |rows|
      invariant 0 <= k <= |rows|
      invariant s == Lines(rows[..k], widths[..], precision, fmtFloat)
    {
      assert rows[..k + 1][..k] == rows[..k];
      var line := WriteCells(rows[k], widths, precision, fmtFloat);
      s := s + line + "\n";
      k := k + 1;
    }
    assert rows[..k] == rows;
  }

  // ------------------------------------------------------------ properties

  /** Rows exist exactly when the `names` check passes and every name has a
      span; there is then one row per name, in `names` order, after the
      header when one was asked for. */
  lemma RowsCharacterised(rep: Report, header: bool)
    ensures rep.Rows(header).Ok? <==>
      rep.timer.NamesMatch() && forall k :: k in rep.timer.order ==> |rep.timer.Spans(k)| > 0
    ensures !rep.timer.NamesMatch() ==> rep.Rows(header) == Err(AssertionError)
    ensures rep.timer.NamesMatch() && rep.Rows(header).Err? ==>
      rep.Rows(header).error == ValueError("min() arg is an empty sequence")
    ensures rep.Rows(header).Ok? ==>
      var rows, order, skip := rep.Rows(header).value, rep.timer.order, if header then 1 else 0;
      |rows| == skip + |order| &&
      (header ==> rows[0] == Header) &&
      forall i :: 0 <= i < |order| ==> rows[skip + i] == DataRow(order[i], rep.timer.Spans(order[i]))
  {
    DataRowsCharacterised(rep.timer, rep.timer.order);
  }

  /** The fields of a data row: the name, the number of spans, the least and
      greatest of their seconds, and the `average` of the name. */
  lemma DataRowFields(k: Key, spans: seq<TimeSpan>)
    requires |spans| > 0
    ensures var row := DataRow(k, spans);
      |row| == 5 && row[0] == Str(KeyText(k)) && row[1] == Int(|spans|) &&
      row[2].Float? && row[3].Float? && row[4] == Float(Mean(spans)) &&
      (forall i :: 0 <= i < |spans| ==> row[2].x <= spans[i].Seconds() <= row[3].x) &&
      (exists i :: 0 <= i < |spans| && row[2].x == spans[i].Seconds()) &&
      (exists i :: 0 <= i < |spans| && row[3].x == spans[i].Seconds()) &&
      row[2].x <= row[4].x <= row[3].x
  {
    LeastIsMinimum(spans);
    GreatestIsMaximum(spans);
    MeanBetweenLeastAndGreatest(spans);
  }

  lemma RowsStartWithHeader(rep: Report, header: bool)
    ensures rep.Rows(header).Ok? && header ==> |rep.Rows(header).value| > 0 && rep.Rows(header).value[0] == Header
  {
  }

  lemma RowsHaveFiveCells(rep: Report, header: bool)
    ensures rep.Rows(header).Ok? ==>
      forall k :: 0 <= k < |rep.Rows(header).value| ==> |rep.Rows(header).value[k]| == 5
  {
    RowsCharacterised(rep, header);
    if rep.Rows(header).Ok? {
      var rows, order, skip := rep.Rows(header).value, rep.timer.order, if header then 1 else 0;
      forall k | 0 <= k < |rows|
        ensures |rows[k]| == 5
      {
        if k >= skip {
          assert rows[skip + (k - skip)] == DataRow(order[k - skip], rep.timer.Spans(order[k - skip]));
        }
      }
    }
  }

  /** `csv(header=True)` starts with the comment marker and the header line. */
  lemma CsvStartsWithHeader(rep: Report, commentChar: string, strFloat: real -> string)
    requires rep.Rows(true).Ok?
    ensures commentChar + "name,count,min,max,mean\n" <= CsvText(rep.Rows(true).value, true, commentChar, strFloat)
  {
    RowsStartWithHeader(rep, true);
    var parts := seq(5, i requires 0 <= i < 5 => CellText(Header[i], strFloat));
    assert parts == ["name", "count", "min", "max", "mean"];
    assert Join(",", parts[..1]) == "name";
    assert parts[..2][..1] == parts[..1];
    assert Join(",", parts[..2]) == "name,count";
    assert parts[..3][..2] == parts[..2];
    assert Join(",", parts[..3]) == "name,count,min";
    assert parts[..4][..3] == parts[..3];
    assert Join(",", parts[..4]) == "name,count,min,max";
    assert parts[..5][..4] == parts[..4] && parts[..5] == parts;
    assert Join(",", parts) == "name,count,min,max,mean";
  }

  /** Without a header nothing but the data lines is written, one per name. */
  lemma CsvWithoutHeader(rep: Report, commentChar: string, strFloat: real -> string)
    requires rep.Rows(false).Ok?
    ensures CsvText(rep.Rows(false).value, false, commentChar, strFloat) == CsvLines(rep.Rows(false).value, strFloat)
    ensures |rep.Rows(false).value| == |rep.timer.order|
  {
    RowsCharacterised(rep, false);
  }

  /** A timer that has measured nothing has no rows without a header, so
      `pretty(header=False)` has no first row to size its columns by. */
  lemma NothingMeasuredNoRows(rep: Report)
    requires rep.timer.order == [] && rep.timer.times == map[]
    ensures rep.Rows(false) == Ok([])
    ensures rep.Rows(true) == Ok([Header])
  {
    assert Elems(rep.timer.order) == {};
    assert rep.timer.Names() == Ok([]);
    assert DataRows(rep.timer, []) == Ok([]);
    var none: seq<Row> := [];
    assert rep.Rows(false) == Ok(none + none);
    assert rep.Rows(true) == Ok([Header] + none);
    assert none + none == none && [Header] + none == [Header];
  }
}
