// `table` of bioflowsutils.utils: rows of cells laid out in columns like
// `column -t`, each cell left-aligned to the widest cell of its column.
module Table {
  import opened Wrappers
  import opened PyStr
  import opened Params

  /** `str(cell)` for every cell of a row. */
  function ConvertRow(row: seq<Val>): (r: seq<Val>)
    ensures |r| == |row|
    ensures forall k :: 0 <= k < |row| ==> r[k] == Text(ValStr(row[k]))
  {
    seq(|row|, k requires 0 <= k < |row| => Text(ValStr(row[k])))
  }

  /** `len(cell)`: only strings have a length among the cell values. */
  function CellLen(v: Val): (r: Result<nat>)
    ensures r.Success? <==> v.Text?
    ensures v.Text? ==> r.value == |v.s|
  {
    match v
    case Text(s) => Success(|s|)
    case Num(_) => Result<nat>.Failure("TypeError: object of type 'int' has no len()")
    case Flag(_) => Result<nat>.Failure("TypeError: object of type 'bool' has no len()")
    case Null => Result<nat>.Failure("TypeError: object of type 'NoneType' has no len()")
  }

  function Max(a: nat, b: nat): nat {
    if a < b then b else a
  }

  /** `n` zero widths: `[0] * n`. */
  function Zeros(n: nat): (r: seq<nat>)
    ensures |r| == n && forall c :: 0 <= c < n ==> r[c] == 0
  {
    seq(n, _ => 0)
  }

  /** The inner width loop from cell `j` of `row` on, widening `w` cell by cell. */
  function RowFrom(w: seq<nat>, row: seq<Val>, j: nat): Result<seq<nat>>
    requires j <= |row|
    decreases |row| - j
  {
    if j == |row| then Success(w)
    else if j >= |w| then Failure("IndexError: list index out of range")
    else
      match CellLen(row[j])
      case Failure(e) => Failure(e)
      case Success(n) => RowFrom(w[j := Max(w[j], n)], row, j + 1)
  }

  /** The outer width loop from row `i` of `rows` on. */
  function WidthsFrom(rows: seq<seq<Val>>, i: nat, w: seq<nat>): Result<seq<nat>>
    requires i <= |rows|
    decreases |rows| - i
  {
    if i == |rows| then Success(w)
    else
      match RowFrom(w, rows[i], 0)
      case Failure(e) => Failure(e)
      case Success(w') => WidthsFrom(rows, i + 1, w')
  }

  /** `'{:<%d}' % width` applied to a string: padded with spaces on the right up to `width`. */
  function PadRight(s: string, width: nat): (r: string)
    ensures |s| <= width ==> |r| == width
    ensures |s| <= |r| && r[..|s|] == s
  {
    if |s| < width then s + seq(width - |s|, _ => ' ') else s
  }

  /** The cells of a row, each padded to its column's width. */
  function PaddedCells(row: seq<Val>, w: seq<nat>): (r: seq<string>)
    requires |w| <= |row|
    ensures |r| == |w|
    ensures forall c :: 0 <= c < |w| ==> r[c] == PadRight(ValStr(row[c]), w[c])
    decreases |w|
  {
    if w == [] then []
    else PaddedCells(row, w[..|w| - 1]) + [PadRight(ValStr(row[|w| - 1]), w[|w| - 1])]
  }

  /** `fmt.format(*row)` with `fmt = ' '.join('{:<%d}' % width for width in widths)`, built column by column. */
  function FormatRow(row: seq<Val>, w: seq<nat>): string
    requires |w| <= |row|
    decreases |w|
  {
    if w == [] then ""
    else if |w| == 1 then PadRight(ValStr(row[0]), w[0])
    else FormatRow(row, w[..|w| - 1]) + " " + PadRight(ValStr(row[|w| - 1]), w[|w| - 1])
  }

  /** A formatted row is its padded cells joined by single spaces. */
  lemma {:induction false} FormatRowJoin(row: seq<Val>, w: seq<nat>)
    requires |w| <= |row|
    ensures FormatRow(row, w) == Join(" ", PaddedCells(row, w))
    decreases |w|
  {
    if |w| > 1 {
      var pre := w[..|w| - 1];
      FormatRowJoin(row, pre);
      JoinAppend(" ", PaddedCells(row, pre), PadRight(ValStr(row[|w| - 1]), w[|w| - 1]));
    } else if |w| == 1 {
      assert PaddedCells(row, w) == [PadRight(ValStr(row[0]), w[0])];
    }
  }

  function Sum(w: seq<nat>): nat
    decreases |w|
  {
    if w == [] then 0 else Sum(w[..|w| - 1]) + w[|w| - 1]
  }

  /** When every cell fits its width, a formatted row is exactly as long as the widths and the separating spaces. */
  lemma {:induction false} FormatRowLength(row: seq<Val>, w: seq<nat>)
    requires |w| <= |row|
    requires forall c :: 0 <= c < |w| ==> |ValStr(row[c])| <= w[c]
    ensures w != [] ==> |FormatRow(row, w)| == Sum(w) + |w| - 1
    decreases |w|
  {
    if |w| > 1 {
      FormatRowLength(row, w[..|w| - 1]);
    }
  }

  /** The output loop from row `i` on, after the lines `acc` were produced. */
  function FormatFrom(rows: seq<seq<Val>>, i: nat, w: seq<nat>, acc: seq<string>): Result<seq<string>>
    requires i <= |rows|
    decreases |rows| - i
  {
    if i == |rows| then Success(acc)
    else if |rows[i]| < |w| then Failure("IndexError: tuple index out of range")
    else FormatFrom(rows, i + 1, w, acc + [FormatRow(rows[i], w)])
  }

  /** Every line `table` yields, for rows whose cells are already converted (or not). */
  function TableLines(rows: seq<seq<Val>>): Result<seq<string>> {
    if rows == [] then Success([])
    else
      match WidthsFrom(rows, 0, Zeros(|rows[0]|))
      case Failure(e) => Failure(e)
      case Success(w) => FormatFrom(rows, 0, w, [])
  }

  /**
   * Scanning one row fails exactly when one of its cells lies past the
   * first row's width or has no length. Otherwise every column ends at
   * least as wide as before and as its cell in this row, and each width is
   * either unchanged or the length of this row's cell in that column.
   */
  lemma {:induction false} RowFromFacts(w: seq<nat>, row: seq<Val>, j: nat)
    requires j <= |row|
    ensures RowFrom(w, row, j).Success? <==>
      (j == |row| || |row| <= |w|) && forall k :: j <= k < |row| ==> row[k].Text?
    ensures RowFrom(w, row, j).Success? ==>
      var w2 := RowFrom(w, row, j).value;
      && |w2| == |w|
      && (forall c :: 0 <= c < |w| ==> w[c] <= w2[c])
      && (forall k :: j <= k < |row| ==> |ValStr(row[k])| <= w2[k])
      && (forall c :: 0 <= c < |w| ==> w2[c] == w[c] || (j <= c < |row| && w2[c] == |ValStr(row[c])|))
    decreases |row| - j
  {
    if j < |row| && j < |w| && row[j].Text? {
      var w1 := w[j := Max(w[j], |row[j].s|)];
      assert ValStr(row[j]) == row[j].s;
      assert RowFrom(w, row, j) == RowFrom(w1, row, j + 1);
      RowFromFacts(w1, row, j + 1);
    }
  }

  /** The same for the scan of all rows from row `i` on. */
  lemma {:induction false} WidthsFromFacts(rows: seq<seq<Val>>, i: nat, w: seq<nat>)
    requires i <= |rows|
    ensures WidthsFrom(rows, i, w).Success? <==>
      forall r :: i <= r < |rows| ==> |rows[r]| <= |w| && forall k :: 0 <= k < |rows[r]| ==> rows[r][k].Text?
    ensures WidthsFrom(rows, i, w).Success? ==>
      var w2 := WidthsFrom(rows, i, w).value;
      && |w2| == |w|
      && (forall c :: 0 <= c < |w| ==> w[c] <= w2[c])
      && (forall r, k :: i <= r < |rows| && 0 <= k < |rows[r]| ==> |ValStr(rows[r][k])| <= w2[k])
      && (forall c :: 0 <= c < |w| ==>
            w2[c] == w[c] || exists r :: i <= r < |rows| && c < |rows[r]| && w2[c] == |ValStr(rows[r][c])|)
    decreases |rows| - i
  {
    if i < |rows| {
      RowFromFacts(w, rows[i], 0);
      if RowFrom(w, rows[i], 0).Success? {
        WidthsFromFacts(rows, i + 1, RowFrom(w, rows[i], 0).value);
      }
    }
  }

  /** The output loop fails exactly on a row shorter than the widths. */
  lemma {:induction false} FormatFromSucceeds(rows: seq<seq<Val>>, i: nat, w: seq<nat>, acc: seq<string>)
    requires i <= |rows|
    ensures FormatFrom(rows, i, w, acc).Success? <==> forall r :: i <= r < |rows| ==> |w| <= |rows[r]|
    decreases |rows| - i
  {
    if i < |rows| && |w| <= |rows[i]| {
      FormatFromSucceeds(rows, i + 1, w, acc + [FormatRow(rows[i], w)]);
    }
  }

  /** When it succeeds, the output loop appends every row, formatted, in order. */
  lemma {:induction false} FormatFromValue(rows: seq<seq<Val>>, i: nat, w: seq<nat>, acc: seq<string>)
    requires i <= |rows|
    requires forall r :: i <= r < |rows| ==> |w| <= |rows[r]|
    ensures FormatFrom(rows, i, w, acc) == Success(acc + FormatAll(rows[i..], w))
    decreases |rows| - i
  {
    if i < |rows| {
      var line := FormatRow(rows[i], w);
      FormatFromNext(rows, i, w, acc);
      FormatFromValue(rows, i + 1, w, acc + [line]);
      FormatAllNext(rows, i, w);
      AppendAssoc(acc, [line], FormatAll(rows[i + 1..], w));
    } else {
      assert rows[i..] == [];
      assert acc + FormatAll(rows[i..], w) == acc;
    }
  }

  /** A row as wide as the widths is formatted and the loop goes on with the next one. */
  lemma FormatFromNext(rows: seq<seq<Val>>, i: nat, w: seq<nat>, acc: seq<string>)
    requires i < |rows| && |w| <= |rows[i]|
    ensures FormatFrom(rows, i, w, acc) == FormatFrom(rows, i + 1, w, acc + [FormatRow(rows[i], w)])
  {
  }

  /** The rows from `i` on format as row `i`, then the rows from `i + 1` on. */
  lemma FormatAllNext(rows: seq<seq<Val>>, i: nat, w: seq<nat>)
    requires i < |rows|
    requires forall r :: i <= r < |rows| ==> |w| <= |rows[r]|
    ensures FormatAll(rows[i..], w) == [FormatRow(rows[i], w)] + FormatAll(rows[i + 1..], w)
  {
    assert rows[i..][1..] == rows[i + 1..];
  }

  /** The output loop fails exactly on a row shorter than the widths, and otherwise formats every row in order. */
  lemma FormatFromFacts(rows: seq<seq<Val>>, i: nat, w: seq<nat>, acc: seq<string>)
    requires i <= |rows|
    ensures FormatFrom(rows, i, w, acc).Success? <==> forall r :: i <= r < |rows| ==> |w| <= |rows[r]|
    ensures FormatFrom(rows, i, w, acc).Success? ==> FormatFrom(rows, i, w, acc).value == acc + FormatAll(rows[i..], w)
  {
    FormatFromSucceeds(rows, i, w, acc);
    if FormatFrom(rows, i, w, acc).Success? {
      FormatFromValue(rows, i, w, acc);
    }
  }

  /** Every row formatted, in order. */
  function FormatAll(rows: seq<seq<Val>>, w: seq<nat>): seq<string>
    requires forall k :: 0 <= k < |rows| ==> |w| <= |rows[k]|
    decreases |rows|
  {
    if rows == [] then [] else [FormatRow(rows[0], w)] + FormatAll(rows[1..], w)
  }

  /** Formatting every row gives one line per row, each that row formatted. */
  lemma {:induction false} FormatAllRows(rows: seq<seq<Val>>, w: seq<nat>)
    requires forall k :: 0 <= k < |rows| ==> |w| <= |rows[k]|
    ensures var r := FormatAll(rows, w);
      |r| == |rows| && forall k :: 0 <= k < |rows| ==> r[k] == FormatRow(rows[k], w)
    decreases |rows|
  {
    if rows != [] {
      FormatAllRows(rows[1..], w);
    }
  }

  /** Rows of arity `n` whose cells are all strings. */
  predicate Uniform(rows: seq<seq<Val>>, n: nat) {
    forall r :: 0 <= r < |rows| ==> |rows[r]| == n && forall k :: 0 <= k < n ==> rows[r][k].Text?
  }

  /** `w` holds, for every column, the length of its longest cell. */
  predicate Widest(rows: seq<seq<Val>>, w: seq<nat>) {
    && (forall r, c :: 0 <= r < |rows| && 0 <= c < |w| && c < |rows[r]| ==> |ValStr(rows[r][c])| <= w[c])
    && (forall c :: 0 <= c < |w| ==> exists r :: 0 <= r < |rows| && c < |rows[r]| && |ValStr(rows[r][c])| == w[c])
  }

  /** `table` succeeds exactly on rows of one arity whose cells are strings. */
  lemma TableLinesSucceed(rows: seq<seq<Val>>)
    ensures TableLines(rows).Success? <==> rows == [] || Uniform(rows, |rows[0]|)
  {
    if rows != [] {
      var n := |rows[0]|;
      WidthsFromFacts(rows, 0, Zeros(n));
      if WidthsFrom(rows, 0, Zeros(n)).Success? {
        FormatFromFacts(rows, 0, WidthsFrom(rows, 0, Zeros(n)).value, []);
      }
    }
  }

  /**
   * A table yields one line per row: the row's cells, each left-aligned to
   * its column's longest cell, joined by single spaces.
   */
  lemma TableLinesShape(rows: seq<seq<Val>>)
    requires TableLines(rows).Success? && rows != []
    ensures
      var w := WidthsFrom(rows, 0, Zeros(|rows[0]|)).value;
      var lines := TableLines(rows).value;
      && |w| == |rows[0]| && Uniform(rows, |w|) && Widest(rows, w)
      && |lines| == |rows|
      && forall r :: 0 <= r < |rows| ==> lines[r] == FormatRow(rows[r], w)
  {
    var n := |rows[0]|;
    TableLinesSucceed(rows);
    var w := WidthsFrom(rows, 0, Zeros(n)).value;
    WidthsWidest(rows, w);
    FormatFromValue(rows, 0, w, []);
    assert rows[0..] == rows;
    FormatAllRows(rows, w);
  }

  /** Scanning rows of one arity from zero widths ends with each column's longest cell. */
  lemma WidthsWidest(rows: seq<seq<Val>>, w: seq<nat>)
    requires rows != [] && WidthsFrom(rows, 0, Zeros(|rows[0]|)) == Success(w)
    ensures |w| == |rows[0]| && Widest(rows, w)
  {
    WidthsFromFacts(rows, 0, Zeros(|rows[0]|));
    forall c | 0 <= c < |w| ensures exists r :: 0 <= r < |rows| && c < |rows[r]| && |ValStr(rows[r][c])| == w[c] {
      assert |ValStr(rows[0][c])| <= w[c];
    }
  }

  /** With `convert`, only the arity of the rows can make `table` fail. */
  lemma ConvertedTableSucceeds(rows: seq<seq<Val>>)
    requires rows != []
    ensures
      var converted := seq(|rows|, i requires 0 <= i < |rows| => ConvertRow(rows[i]));
      TableLines(converted).Success? <==> forall r :: 0 <= r < |rows| ==> |rows[r]| == |rows[0]|
  {
    var converted := seq(|rows|, i requires 0 <= i < |rows| => ConvertRow(rows[i]));
    TableLinesSucceed(converted);
    assert forall r :: 0 <= r < |rows| ==> |converted[r]| == |rows[r]|;
  }

  /** Every line of a table has the same length: the sum of the column widths plus one space between columns. */
  lemma TableAligned(rows: seq<seq<Val>>)
    requires TableLines(rows).Success? && rows != [] && rows[0] != []
    ensures forall r :: 0 <= r < |TableLines(rows).value| ==>
      |TableLines(rows).value[r]| == Sum(WidthsFrom(rows, 0, Zeros(|rows[0]|)).value) + |rows[0]| - 1
  {
    TableLinesShape(rows);
    var w := WidthsFrom(rows, 0, Zeros(|rows[0]|)).value;
    var lines := TableLines(rows).value;
    forall r | 0 <= r < |lines| ensures |lines[r]| == Sum(w) + |w| - 1 {
      assert lines[r] == FormatRow(rows[r], w);
      assert forall c :: 0 <= c < |w| ==> |ValStr(rows[r][c])| <= w[c];
      FormatRowLength(rows[r], w);
    }
  }

  /** The cells of every row converted in place by `str` (the `convert` loop). */
  method ConvertRows(rows: array<seq<Val>>)
    modifies rows
    ensures forall k :: 0 <= k < rows.Length ==> rows[k] == ConvertRow(old(rows[k]))
  {
    for i := 0 to rows.Length
      invariant forall k :: 0 <= k < rows.Length ==> rows[k] == if k < i then ConvertRow(old(rows[k])) else old(rows[k])
    {
      rows[i] := ConvertRow(rows[i]);
    }
  }

  /** The nested loops that find the widest cell of every column. */
  method ColumnWidths(rows: seq<seq<Val>>) returns (r: Result<seq<nat>>)
    requires rows != []
    ensures r == WidthsFrom(rows, 0, Zeros(|rows[0]|))
  {
    var widths: seq<nat> := Zeros(|rows[0]|);
    for i := 0 to |rows|
      invariant WidthsFrom(rows, 0, Zeros(|rows[0]|)) == WidthsFrom(rows, i, widths)
    {
      var row := rows[i];
      var w: seq<nat> := widths;
      for j := 0 to |row|
        invariant RowFrom(widths, row, 0) == RowFrom(w, row, j)
      {
        if j >= |w| {
          return Failure("IndexError: list index out of range");
        }
        var len := CellLen(row[j]);
        if len.Failure? {
          return Failure(len.error);
        }
        w := w[j := Max(w[j], len.value)];
      }
      widths := w;
    }
    return Success(widths);
  }

  /** The output loop: one formatted line per row. */
  method FormatLines(rows: seq<seq<Val>>, widths: seq<nat>) returns (r: Result<seq<string>>)
    ensures r == FormatFrom(rows, 0, widths, [])
  {
    var lines: seq<string> := [];
    for i := 0 to |rows|
      invariant FormatFrom(rows, 0, widths, []) == FormatFrom(rows, i, widths, lines)
    {
      if |rows[i]| < |widths| {
        return Failure("IndexError: tuple index out of range");
      }
      lines := lines + [FormatRow(rows[i], widths)];
    }
    return Success(lines);
  }

  /**
   * `list(table(rows, convert))`. With `convert` the caller's `rows` are
   * overwritten with their string forms (only when there are rows at all).
   */
  method Tabulate(rows: array<seq<Val>>, convert: bool) returns (r: Result<seq<string>>)
    modifies rows
    ensures rows[..] == if convert then seq(rows.Length, i requires 0 <= i < rows.Length => ConvertRow(old(rows[i]))) else old(rows[..])
    ensures r == TableLines(rows[..])
  {
    if rows.Length == 0 {
      return Success([]);
    }
    if convert {
      ConvertRows(rows);
    }
    var rs := rows[..];
    var widths := ColumnWidths(rs);
    if widths.Failure? {
      return Failure(widths.error);
    }
    r := FormatLines(rs, widths.value);
  }
}
