/**
 * The result grid of the main window (internal/ui/main_interface.go): the
 * number and byte formatters, the column-width rule, the grid's shape and
 * cell texts, and the state the grid's event handlers update (sort column
 * and direction, selected row, the current result set).
 */
module Grid {
  import opened Wrappers
  import opened Text

  // ---------------------------------------------------------------------------
  // formatNumber

  /** A digit string with a comma before every group of three digits counted from the right. */
  function GroupDigits(s: string): (r: string)
    ensures |s| >= 1 ==> |r| == |s| + (|s| - 1) / 3
    decreases |s|
  {
    if |s| <= 3 then s else GroupDigits(s[..|s| - 3]) + "," + s[|s| - 3..]
  }

  function RemoveCommas(s: string): (r: string)
    ensures |r| <= |s|
  {
    if s == [] then [] else (if s[0] == ',' then [] else [s[0]]) + RemoveCommas(s[1..])
  }

  lemma {:induction false} RemoveCommasConcat(a: string, b: string)
    ensures RemoveCommas(a + b) == RemoveCommas(a) + RemoveCommas(b)
  {
    if a == [] {
      assert a + b == b;
    } else {
      assert (a + b)[1..] == a[1..] + b;
      RemoveCommasConcat(a[1..], b);
    }
  }

  lemma {:induction false} RemoveCommasNone(s: string)
    requires ',' !in s
    ensures RemoveCommas(s) == s
  {
    if s != [] {
      assert ',' !in s[1..];
      RemoveCommasNone(s[1..]);
    }
  }

  /** Deleting the commas from a grouped digit string gives the digits back. */
  lemma {:induction false} GroupDigitsRemoveCommas(s: string)
    requires ',' !in s
    ensures RemoveCommas(GroupDigits(s)) == s
    decreases |s|
  {
    if |s| <= 3 {
      RemoveCommasNone(s);
    } else {
      var a, b := s[..|s| - 3], s[|s| - 3..];
      assert ',' !in a && ',' !in b;
      GroupDigitsRemoveCommas(a);
      RemoveCommasConcat(GroupDigits(a) + ",", b);
      RemoveCommasConcat(GroupDigits(a), ",");
      RemoveCommasNone(b);
      assert RemoveCommas(",") == [];
      assert a + b == s;
    }
  }

  /**
   * What the formatting loop has written after its first `i` steps: each
   * character of `s`, preceded by a comma at every position j > 0 where
   * (len - j) mod 3 = 0.
   */
  function Interleave(s: string, i: nat): string
    requires i <= |s|
  {
    if i == 0 then []
    else Interleave(s, i - 1) + (if i - 1 > 0 && (|s| - (i - 1)) % 3 == 0 then "," else "") + [s[i - 1]]
  }

  /** A suffix whose length is a multiple of three does not change the commas placed in front of it. */
  lemma {:induction false} InterleaveSuffix(a: string, b: string, k: nat)
    requires k <= |a| && |b| % 3 == 0
    ensures Interleave(a + b, k) == Interleave(a, k)
  {
    if k > 0 {
      InterleaveSuffix(a, b, k - 1);
      assert (a + b)[k - 1] == a[k - 1];
      assert (|a + b| - (k - 1)) % 3 == (|a| - (k - 1)) % 3;
    }
  }

  lemma {:induction false} InterleaveShort(s: string, i: nat)
    requires i <= |s| <= 3
    ensures Interleave(s, i) == s[..i]
  {
    if i > 0 {
      InterleaveShort(s, i - 1);
      assert s[..i] == s[..i - 1] + [s[i - 1]];
    }
  }

  /** One step of the loop that writes no comma. */
  lemma InterleaveNoComma(s: string, i: nat)
    requires 0 < i < |s| && (|s| - i) % 3 != 0
    ensures Interleave(s, i + 1) == Interleave(s, i) + [s[i]]
  {
  }

  /** One step of the loop that writes a comma. */
  lemma InterleaveComma(s: string, i: nat)
    requires 0 < i < |s| && (|s| - i) % 3 == 0
    ensures Interleave(s, i + 1) == Interleave(s, i) + "," + [s[i]]
  {
  }

  /** The last three steps of the loop: a comma, then the final group of three digits. */
  lemma {:induction false} InterleaveLastGroup(s: string)
    requires |s| > 3
    ensures Interleave(s, |s|) == Interleave(s, |s| - 3) + "," + s[|s| - 3..]
  {
    var n := |s|;
    var p := Interleave(s, n - 3);
    var x, y, z := s[n - 3], s[n - 2], s[n - 1];
    InterleaveComma(s, n - 3);
    InterleaveNoComma(s, n - 2);
    InterleaveNoComma(s, n - 1);
    calc {
      Interleave(s, n);
      Interleave(s, n - 1) + [z];
      Interleave(s, n - 2) + [y] + [z];
      p + "," + [x] + [y] + [z];
      { assert [x] + [y] + [z] == s[n - 3..]; }
      p + "," + s[n - 3..];
    }
  }

  /** The loop's placement rule and the right-to-left grouping agree. */
  lemma {:induction false} InterleaveGroups(s: string)
    ensures Interleave(s, |s|) == GroupDigits(s)
    decreases |s|
  {
    if |s| <= 3 {
      InterleaveShort(s, |s|);
      assert s[..|s|] == s;
    } else {
      var n := |s|;
      var a, b := s[..n - 3], s[n - 3..];
      assert s == a + b;
      InterleaveSuffix(a, b, n - 3);
      InterleaveGroups(a);
      InterleaveLastGroup(s);
    }
  }

  /**
   * formatNumber: below 1000 (negative numbers included) the plain decimal;
   * otherwise the decimal with thousands separators. Deleting the commas
   * always gives the plain decimal back.
   */
  method FormatNumber(n: int) returns (r: string)
    ensures n < 1000 ==> r == Decimal(n)
    ensures n >= 1000 ==> r == GroupDigits(Decimal(n)) && |r| == |Decimal(n)| + (|Decimal(n)| - 1) / 3
    ensures RemoveCommas(r) == Decimal(n)
  {
    var str := Decimal(n);
    NoSeparatorInDecimal(n, ',');
    if n < 1000 {
      RemoveCommasNone(str);
      return str;
    }
    r := "";
    var i := 0;
    while i < |str|
      invariant 0 <= i <= |str|
      invariant r == Interleave(str, i)
    {
      if i > 0 && (|str| - i) % 3 == 0 {
        r := r + ",";
      }
      r := r + [str[i]];
      i := i + 1;
    }
    InterleaveGroups(str);
    GroupDigitsRemoveCommas(str);
  }

  // ---------------------------------------------------------------------------
  // formatBytes (integer part)

  function Pow(b: nat, e: nat): nat {
    if e == 0 then 1 else b * Pow(b, e - 1)
  }

  lemma {:induction false} PowMono(b: nat, e: nat, f: nat)
    requires b >= 1 && e <= f
    ensures Pow(b, e) <= Pow(b, f)
    decreases f
  {
    if e < f {
      PowMono(b, e, f - 1);
      var x := Pow(b, f - 1);
      assert Pow(b, f) == b * x;
      MulGrows(b, x);
    }
  }

  lemma MulGrows(b: nat, x: nat)
    requires b >= 1
    ensures x <= b * x
  {
  }

  /** One pass of the division loop keeps the size between div * n and div * (n + 1). */
  lemma DivideStep(div: nat, n: nat, bytes: int)
    requires div * n <= bytes < div * (n + 1)
    ensures (div * 1024) * (n / 1024) <= bytes < (div * 1024) * (n / 1024 + 1)
  {
    var q, m := n / 1024, n % 1024;
    assert n == 1024 * q + m && 0 <= m < 1024;
    assert div * n == (div * 1024) * q + div * m;
    assert div * (n + 1) == (div * 1024) * q + div * (m + 1);
    assert div * (m + 1) <= div * 1024;
  }

  /** When the loop stops, the quotient lies in [1, 1024). */
  lemma ScaledBounds(div: nat, n: nat, bytes: int)
    requires 1 <= n < 1024 && div * n <= bytes < div * (n + 1)
    ensures div <= bytes < 1024 * div
  {
    assert div <= div * n;
    assert div * (n + 1) <= div * 1024;
  }

  /** No int64 reaches 1024^7, so the exponent indexes "KMGTPE". */
  lemma ExponentBound(exp: nat, bytes: int)
    requires IsInt64(bytes) && Pow(1024, exp + 1) <= bytes
    ensures exp <= 5
  {
    if exp > 5 {
      assert Pow(1024, 7) == 1180591620717411303424;
      PowMono(1024, 7, exp + 1);
    }
  }

  /** The units after kilo, indexed by the exponent. */
  const Units: string := "KMGTPE"

  /**
   * How formatBytes renders a size: the plain count in bytes below 1024,
   * otherwise the size divided by `div` (printed with one decimal, not
   * modelled) followed by the unit letter `unit`.
   */
  datatype ByteSize = InBytes(n: int) | Scaled(div: nat, exp: nat, unit: char)

  /**
   * formatBytes: below 1024 the count in bytes; otherwise div = 1024^(exp+1)
   * is the largest such power not above the size, so the printed quotient
   * lies in [1, 1024); for any int64 size exp <= 5, so the unit letter exists.
   */
  method FormatBytes(bytes: int) returns (r: ByteSize)
    requires IsInt64(bytes)
    ensures bytes < 1024 ==> r == InBytes(bytes)
    ensures bytes >= 1024 ==>
              && r.Scaled? && r.exp <= 5 && r.div == Pow(1024, r.exp + 1) && IsInt64(r.div)
              && r.div <= bytes < 1024 * r.div && r.unit == Units[r.exp]
  {
    if bytes < 1024 {
      return InBytes(bytes);
    }
    var div: nat, exp: nat := 1024, 0;
    var n := bytes / 1024;
    while n >= 1024
      invariant div == Pow(1024, exp + 1)
      invariant n >= 1 && div * n <= bytes < div * (n + 1)
      decreases n
    {
      DivideStep(div, n, bytes);
      div := div * 1024;
      exp := exp + 1;
      n := n / 1024;
    }
    ScaledBounds(div, n, bytes);
    ExponentBound(exp, bytes);
    return Scaled(div, exp, Units[exp]);
  }

  // ---------------------------------------------------------------------------
  // Column widths

  function Max(a: int, b: int): int { if a >= b then a else b }

  /** Rows the width rule looks at: the first ten. */
  const WidthSampleRows: nat := 10
  const MinColumnWidth: int := 100
  const MaxColumnWidth: int := 300

  /**
   * The width the content of column `i` asks for: 8 pixels per byte of the
   * header, 7 per byte of each of the cells of the first `upto` rows that
   * have a column `i`, whichever is largest.
   */
  function ContentWidth(header: string, rows: seq<seq<string>>, i: nat, upto: nat): int
    requires upto <= |rows|
  {
    if upto == 0 then ByteLen(header) * 8
    else
      var row := rows[upto - 1];
      var prev := ContentWidth(header, rows, i, upto - 1);
      if i < |row| then Max(prev, ByteLen(row[i]) * 7) else prev
  }

  /** The content width is the largest of the header's and the inspected cells' widths. */
  lemma {:induction false} ContentWidthIsMax(header: string, rows: seq<seq<string>>, i: nat, upto: nat)
    requires upto <= |rows|
    ensures ContentWidth(header, rows, i, upto) >= ByteLen(header) * 8
    ensures forall j :: 0 <= j < upto && i < |rows[j]| ==> ContentWidth(header, rows, i, upto) >= ByteLen(rows[j][i]) * 7
    ensures ContentWidth(header, rows, i, upto) == ByteLen(header) * 8
            || exists j :: 0 <= j < upto && i < |rows[j]| && ContentWidth(header, rows, i, upto) == ByteLen(rows[j][i]) * 7
  {
    if upto > 0 {
      ContentWidthIsMax(header, rows, i, upto - 1);
    }
  }

  /** The rows the width rule inspects, and nothing past them, decide the content width. */
  lemma {:induction false} ContentWidthPrefix(header: string, rows: seq<seq<string>>, more: seq<seq<string>>, i: nat, upto: nat)
    requires upto <= |rows|
    ensures ContentWidth(header, rows + more, i, upto) == ContentWidth(header, rows, i, upto)
  {
    if upto > 0 {
      ContentWidthPrefix(header, rows, more, i, upto - 1);
      assert (rows + more)[upto - 1] == rows[upto - 1];
    }
  }

  function Min(a: nat, b: nat): nat { if a <= b then a else b }

  /** The column width: content width plus 20 pixels of padding, held within [100, 300]. */
  function ColumnWidth(header: string, rows: seq<seq<string>>, i: nat): (w: int)
    ensures MinColumnWidth <= w <= MaxColumnWidth
  {
    var padded := ContentWidth(header, rows, i, Min(|rows|, WidthSampleRows)) + 20;
    if padded < MinColumnWidth then MinColumnWidth
    else if padded > MaxColumnWidth then MaxColumnWidth
    else padded
  }

  /** Rows past the tenth never change a column's width. */
  lemma RowsPastTenIgnored(header: string, rows: seq<seq<string>>, more: seq<seq<string>>, i: nat)
    requires |rows| >= WidthSampleRows
    ensures ColumnWidth(header, rows + more, i) == ColumnWidth(header, rows, i)
  {
    ContentWidthPrefix(header, rows, more, i, WidthSampleRows);
  }

  /**
   * The width rule for column `i` as the source computes it: start from the
   * header's width and widen to any larger cell among the first ten rows.
   */
  method ComputeColumnWidth(header: string, rows: seq<seq<string>>, i: nat) returns (w: int)
    ensures w == ColumnWidth(header, rows, i)
    ensures MinColumnWidth <= w <= MaxColumnWidth
  {
    var contentWidth := ByteLen(header) * 8;
    var checkRows := |rows|;
    if checkRows > WidthSampleRows {
      checkRows := WidthSampleRows;
    }
    var j := 0;
    while j < checkRows
      invariant 0 <= j <= checkRows == Min(|rows|, WidthSampleRows)
      invariant contentWidth == ContentWidth(header, rows, i, j)
    {
      if j < |rows| && i < |rows[j]| {
        var cellWidth := ByteLen(rows[j][i]) * 7;
        if cellWidth > contentWidth {
          contentWidth := cellWidth;
        }
      }
      j := j + 1;
    }
    w := contentWidth + 20;
    if w < MinColumnWidth {
      w := MinColumnWidth;
    }
    if w > MaxColumnWidth {
      w := MaxColumnWidth;
    }
  }

  /** The widths table after setting the first `n` columns. */
  function SetWidths(widths: map<int, int>, headers: seq<string>, rows: seq<seq<string>>, n: nat): map<int, int>
    requires n <= |headers|
  {
    if n == 0 then widths
    else SetWidths(widths, headers, rows, n - 1)[n - 1 := ColumnWidth(headers[n - 1], rows, n - 1)]
  }

  /** Setting the widths gives every column its rule width and leaves other entries alone. */
  lemma {:induction false} SetWidthsEffect(widths: map<int, int>, headers: seq<string>, rows: seq<seq<string>>, n: nat)
    requires n <= |headers|
    ensures forall k :: 0 <= k < n ==>
              (k in SetWidths(widths, headers, rows, n)
               && SetWidths(widths, headers, rows, n)[k] == ColumnWidth(headers[k], rows, k))
    ensures forall k :: !(0 <= k < n) ==>
              ((k in SetWidths(widths, headers, rows, n) <==> k in widths)
               && (k in widths ==> SetWidths(widths, headers, rows, n)[k] == widths[k]))
  {
    if n > 0 {
      SetWidthsEffect(widths, headers, rows, n - 1);
    }
  }

  // ---------------------------------------------------------------------------
  // Shape and cells

  /** The table's row and column count. */
  function Dimensions(headers: seq<string>, rows: seq<seq<string>>): (d: (int, int))
    ensures d.0 >= 1 && d.1 >= 1
    ensures headers == [] ==> d == (1, 1)
    ensures headers != [] ==> d.0 - 1 == |rows| && d.1 == |headers|
  {
    if headers == [] then (1, 1) else (|rows| + 1, |headers|)
  }

  const AscMark: string := " ▲"
  const DescMark: string := " ▼"

  /** Whether header `col` carries the sort indicator. */
  predicate Marked(columnNames: seq<string>, col: nat, currentTable: string, sortColumn: string) {
    currentTable != "" && col < |columnNames| && sortColumn == columnNames[col]
  }

  /**
   * The header cell text: the header, followed by " ▲" (ascending) or " ▼"
   * (any other direction) on the sorted column of a browsed table; empty past
   * the last header.
   */
  function HeaderCell(headers: seq<string>, columnNames: seq<string>, col: nat,
                      currentTable: string, sortColumn: string, sortDirection: string): (t: string)
    ensures col >= |headers| ==> t == ""
    ensures col < |headers| ==> |headers[col]| <= |t| && t[..|headers[col]|] == headers[col]
    ensures col < |headers| ==>
              (|t| > |headers[col]| <==> Marked(columnNames, col, currentTable, sortColumn))
    ensures col < |headers| && Marked(columnNames, col, currentTable, sortColumn) ==>
              t[|headers[col]|..] == (if sortDirection == "ASC" then AscMark else DescMark)
  {
    if col < |headers| then
      var h := headers[col];
      var t := if Marked(columnNames, col, currentTable, sortColumn) then
                 h + (if sortDirection == "ASC" then AscMark else DescMark)
               else h;
      assert t[..|h|] == h;
      t
    else ""
  }

  /** A data cell: its text and whether its row is highlighted; `None` text leaves the cell as it was. */
  datatype DataCell = DataCell(text: Option<string>, highlighted: bool)

  /** Data cell (row, col), row counted from 1 below the header. */
  function DataCellAt(rows: seq<seq<string>>, row: nat, col: nat, selectedRow: int): (c: DataCell)
    requires row >= 1
    ensures c.text.Some? <==> row - 1 < |rows| && col < |rows[row - 1]|
    ensures c.text.Some? ==> c.text.value == rows[row - 1][col] && (c.highlighted <==> selectedRow == row - 1)
  {
    var r := row - 1;
    if r < |rows| && col < |rows[r]| then DataCell(Some(rows[r][col]), r == selectedRow)
    else DataCell(None, false)
  }

  // ---------------------------------------------------------------------------
  // Event rules

  /**
   * A header click on column `clicked`: the same column flips ASC to DESC and
   * anything else back to ASC; another column becomes the sort column, ASC.
   */
  function SortToggle(sortColumn: string, sortDirection: string, clicked: string): (r: (string, string))
    ensures r.0 == clicked
    ensures r.1 == "DESC" <==> sortColumn == clicked && sortDirection == "ASC"
    ensures r.1 == "ASC" <==> !(sortColumn == clicked && sortDirection == "ASC")
  {
    if sortColumn == clicked then
      if sortDirection == "ASC" then (clicked, "DESC") else (clicked, "ASC")
    else (clicked, "ASC")
  }

  /** Two clicks on the sorted column restore its direction. */
  lemma SortToggleTwice(sortColumn: string, sortDirection: string)
    requires sortDirection == "ASC" || sortDirection == "DESC"
    ensures var once := SortToggle(sortColumn, sortDirection, sortColumn);
            SortToggle(once.0, once.1, sortColumn) == (sortColumn, sortDirection)
  {
  }

  /** A click on data row `rowIdx` (0-based): selects it, or deselects it (-1) if it was selected. */
  function SelectToggle(selectedRow: int, rowIdx: nat): (r: int)
    ensures r == -1 <==> selectedRow == rowIdx
    ensures r != -1 ==> r == rowIdx
  {
    if selectedRow == rowIdx then -1 else rowIdx
  }

  /** Clicking a row twice leaves no row selected when it was not selected before, and reselects it otherwise. */
  lemma SelectToggleTwice(selectedRow: int, rowIdx: nat)
    ensures SelectToggle(SelectToggle(selectedRow, rowIdx), rowIdx) == if selectedRow == rowIdx then rowIdx else -1
  {
  }

  /** A trimmed statement goes to QueryContext when, lower-cased, it starts with select, show or desc. */
  predicate IsQuery(q: string) {
    var lower := ToLower(q);
    HasPrefix(lower, "select") || HasPrefix(lower, "show") || HasPrefix(lower, "desc")
  }

  lemma LowerCharIdempotent(c: char)
    ensures LowerChar(LowerChar(c)) == LowerChar(c)
  {
  }

  /** The classification ignores letter case. */
  lemma IsQueryCaseInsensitive(q: string)
    ensures IsQuery(ToLower(q)) == IsQuery(q)
  {
    var l := ToLower(q);
    forall i | 0 <= i < |l| ensures ToLower(l)[i] == l[i] {
      LowerCharIdempotent(q[i]);
    }
    assert ToLower(l) == l;
  }

  /** Statements that start with SELECT in any mix of letter case (SELECT, Select, sElEcT) go down the query path. */
  lemma SelectIsQuery(q: string)
    requires |q| >= 6 && forall i :: 0 <= i < 6 ==> LowerChar(q[i]) == "select"[i]
    ensures IsQuery(q)
  {
    assert ToLower(q)[..6] == "select" by {
      forall i | 0 <= i < 6 ensures ToLower(q)[i] == "select"[i] {
      }
    }
  }

  /** Text the exec path shows for `affected` rows. */
  function ExecMessage(affected: int): string {
    "OK, " + Decimal(affected) + " row(s) affected"
  }

  /** The identifier quote of each dialect: backtick for MySQL, double quote otherwise. */
  function Quote(dbType: string): (q: string)
    ensures dbType == "mysql" ==> q == "`"
    ensures dbType != "mysql" ==> q == "\""
  {
    if dbType == "mysql" then "`" else "\""
  }

  /** The query a header click runs: the first 100 rows of the table ordered by the sort column. */
  function SortQuery(dbType: string, table: string, column: string, direction: string): string {
    var qt := Quote(dbType);
    "SELECT * FROM " + qt + table + qt + " ORDER BY " + qt + column + qt + " " + direction + " LIMIT 100;"
  }

  /** A sort query starts with SELECT and ends with a semicolon. */
  lemma SortQueryEnds(dbType: string, table: string, column: string, direction: string)
    ensures var q := SortQuery(dbType, table, column, direction);
            HasPrefix(q, "SELECT") && q[|q| - 1] == ';'
  {
    var qt := Quote(dbType);
    var head := "SELECT * FROM " + qt + table + qt + " ORDER BY " + qt + column + qt + " " + direction;
    var q := SortQuery(dbType, table, column, direction);
    assert q == head + " LIMIT 100;";
    assert q[..6] == head[..6];
    assert head[..6] == "SELECT" by {
      var part := "SELECT * FROM " + qt + table + qt + " ORDER BY " + qt + column + qt;
      assert head == part + " " + direction;
      assert part[..6] == "SELECT" by {
        var front := "SELECT * FROM " + qt + table + qt + " ORDER BY ";
        assert part == front + qt + column + qt;
        assert front[..6] == "SELECT" by {
          assert front == "SELECT * FROM " + qt + table + qt + " ORDER BY ";
        }
      }
    }
  }

  /** A sort query is never blank, so running it always clears the result set. */
  lemma SortQueryNonBlank(dbType: string, table: string, column: string, direction: string)
    ensures TrimSpace(SortQuery(dbType, table, column, direction)) != ""
  {
    SortQueryShape(dbType, table, column, direction);
    SortQueryEnds(dbType, table, column, direction);
  }

  /** Every sort query is classified as a query and is unchanged by trimming. */
  lemma SortQueryShape(dbType: string, table: string, column: string, direction: string)
    ensures IsQuery(SortQuery(dbType, table, column, direction))
    ensures TrimSpace(SortQuery(dbType, table, column, direction)) == SortQuery(dbType, table, column, direction)
  {
    var q := SortQuery(dbType, table, column, direction);
    SortQueryEnds(dbType, table, column, direction);
    SelectIsQuery(q);
    assert Trimmed(q);
    TrimSpacePadded([], q, []);
    assert [] + q + [] == q;
  }

  // ---------------------------------------------------------------------------
  // Results

  /** A result column: its name and its database type name. */
  datatype Column = Column(name: string, typeName: string)

  /** The header of a result column: `name (TYPE)`. */
  function HeaderLabel(c: Column): string {
    c.name + " (" + c.typeName + ")"
  }

  /** A scanned value as shown: SQL NULL as "NULL", anything else as its text. */
  function CellText(v: Option<string>): string {
    match v
    case None => "NULL"
    case Some(s) => s
  }

  /**
   * What the database answers on the query path: the columns (or the error
   * from running the query or reading its column types), the rows scanned
   * (`None` for NULL), and the error that ended the scan, if any.
   */
  datatype QueryAnswer = QueryAnswer(columns: Result<seq<Column>, string>,
                                     scanned: seq<seq<Option<string>>>,
                                     scanErr: Option<string>)

  /** `rows` is `scanned` rendered cell by cell. */
  predicate RenderedRows(rows: seq<seq<string>>, scanned: seq<seq<Option<string>>>) {
    |rows| == |scanned|
    && forall k :: 0 <= k < |rows| ==>
         (|rows[k]| == |scanned[k]| && forall i :: 0 <= i < |rows[k]| ==> rows[k][i] == CellText(scanned[k][i]))
  }

  /** One scanned row rendered as text, value by value. */
  method RenderRow(vals: seq<Option<string>>) returns (out: seq<string>)
    ensures |out| == |vals|
    ensures forall i :: 0 <= i < |vals| ==> out[i] == CellText(vals[i])
    ensures forall i :: 0 <= i < |vals| ==> (out[i] == "NULL" <== vals[i].None?)
  {
    out := [];
    var i := 0;
    while i < |vals|
      invariant 0 <= i <= |vals| && |out| == i
      invariant forall k :: 0 <= k < i ==> out[k] == CellText(vals[k])
    {
      if vals[i].None? {
        out := out + ["NULL"];
      } else {
        out := out + [vals[i].value];
      }
      i := i + 1;
    }
  }

  /** The column names and the `name (TYPE)` headers of a result, column by column. */
  method DescribeColumns(cols: seq<Column>) returns (names: seq<string>, labels: seq<string>)
    ensures |names| == |cols| == |labels|
    ensures forall i :: 0 <= i < |cols| ==> labels[i] == HeaderLabel(cols[i]) && names[i] == cols[i].name
  {
    names, labels := [], [];
    var i := 0;
    while i < |cols|
      invariant 0 <= i <= |cols| && |names| == i && |labels| == i
      invariant forall k :: 0 <= k < i ==> labels[k] == HeaderLabel(cols[k]) && names[k] == cols[k].name
    {
      names := names + [cols[i].name];
      labels := labels + [HeaderLabel(cols[i])];
      i := i + 1;
    }
  }

  /** Every scanned row rendered, in order. */
  method RenderRows(scanned: seq<seq<Option<string>>>) returns (rows: seq<seq<string>>)
    ensures RenderedRows(rows, scanned)
  {
    rows := [];
    var k := 0;
    while k < |scanned|
      invariant 0 <= k <= |scanned|
      invariant RenderedRows(rows, scanned[..k])
    {
      var out := RenderRow(scanned[k]);
      rows := rows + [out];
      k := k + 1;
    }
    assert scanned[..k] == scanned;
  }

  /** The message shown when there is no database handle. */
  const NotConnectedMessage: string := "Database connection lost."

  /**
   * The grid's state: the result set on display, the selected row, the
   * table being browsed with its sort column and direction, the query
   * editor's text and the column widths set on the table widget.
   */
  class ResultGrid {
    var headers: seq<string>
    var columnNames: seq<string>
    var rows: seq<seq<string>>
    var selectedRow: int
    var currentTable: string
    var sortColumn: string
    var sortDirection: string
    var queryText: string
    var widths: map<int, int>

    constructor()
      ensures headers == [] && columnNames == [] && rows == [] && selectedRow == -1
      ensures currentTable == "" && sortColumn == "" && sortDirection == "" && queryText == ""
      ensures widths == map[]
    {
      headers := [];
      columnNames := [];
      rows := [];
      selectedRow := -1;
      currentTable := "";
      sortColumn := "";
      sortDirection := "";
      queryText := "";
      widths := map[];
    }

    /** setupTableColumns: give every column its rule width. */
    method SetupTableColumns()
      modifies this
      ensures widths == SetWidths(old(widths), headers, rows, |headers|)
      ensures forall k :: 0 <= k < |headers| ==> k in widths && MinColumnWidth <= widths[k] <= MaxColumnWidth
      ensures headers == old(headers) && rows == old(rows) && columnNames == old(columnNames)
      ensures selectedRow == old(selectedRow) && currentTable == old(currentTable)
      ensures sortColumn == old(sortColumn) && sortDirection == old(sortDirection) && queryText == old(queryText)
    {
      var i := 0;
      while i < |headers|
        invariant 0 <= i <= |headers|
        invariant widths == SetWidths(old(widths), headers, rows, i)
        invariant headers == old(headers) && rows == old(rows) && columnNames == old(columnNames)
        invariant selectedRow == old(selectedRow) && currentTable == old(currentTable)
        invariant sortColumn == old(sortColumn) && sortDirection == old(sortDirection) && queryText == old(queryText)
      {
        var w := ComputeColumnWidth(headers[i], rows, i);
        widths := widths[i := w];
        i := i + 1;
      }
      SetWidthsEffect(old(widths), headers, rows, |headers|);
    }

    /**
     * The grid after the query path of runQuery, from the column names and
     * widths it had before: the error that stopped it, or the columns, the
     * rendered rows and the scan error, with the widths set on a clean scan.
     */
    predicate ShowsQuery(answer: QueryAnswer, columnNames0: seq<string>, widths0: map<int, int>, err: Option<string>)
      reads this
    {
      match answer.columns
      case Err(e) =>
        headers == [] && rows == [] && columnNames == columnNames0 && err == Some(e) && widths == widths0
      case Ok(cols) =>
        && |headers| == |cols| == |columnNames|
        && (forall i :: 0 <= i < |cols| ==> headers[i] == HeaderLabel(cols[i]) && columnNames[i] == cols[i].name)
        && RenderedRows(rows, answer.scanned)
        && err == answer.scanErr
        && widths == (if err.None? then SetWidths(widths0, headers, rows, |headers|) else widths0)
    }

    /** The grid after the exec path of runQuery: empty on error, else one "Result" cell. */
    predicate ShowsExec(exec: Result<int, string>, widths0: map<int, int>, err: Option<string>)
      reads this
    {
      match exec
      case Err(e) => headers == [] && rows == [] && err == Some(e) && widths == widths0
      case Ok(n) =>
        headers == ["Result"] && rows == [[ExecMessage(n)]] && err == None
        && widths == SetWidths(widths0, headers, rows, 1)
    }

    /**
     * runQuery on the editor's text. Without a handle it only reports; a
     * blank statement is ignored; otherwise the result set and selection
     * are cleared and the statement goes to the query or the exec path by
     * its prefix. `answer` and `exec` are what the database returns on each
     * path. The returned error is the one a dialog shows.
     */
    method RunQuery(connected: bool, answer: QueryAnswer, exec: Result<int, string>) returns (err: Option<string>)
      modifies this
      ensures currentTable == old(currentTable) && sortColumn == old(sortColumn)
      ensures sortDirection == old(sortDirection) && queryText == old(queryText)
      ensures !connected ==> err == Some(NotConnectedMessage)
      ensures !connected || TrimSpace(queryText) == "" ==>
                headers == old(headers) && columnNames == old(columnNames) && rows == old(rows)
                && selectedRow == old(selectedRow) && widths == old(widths)
      ensures connected && TrimSpace(queryText) == "" ==> err == None
      ensures connected && TrimSpace(queryText) != "" ==> selectedRow == -1
      ensures connected && TrimSpace(queryText) != "" && IsQuery(TrimSpace(queryText)) ==>
                ShowsQuery(answer, old(columnNames), old(widths), err)
      ensures connected && TrimSpace(queryText) != "" && !IsQuery(TrimSpace(queryText)) ==>
                columnNames == old(columnNames) && ShowsExec(exec, old(widths), err)
    {
      if !connected {
        return Some(NotConnectedMessage);
      }
      var q := TrimSpace(queryText);
      if q == "" {
        return None;
      }
      err := RunStatement(q, answer, exec);
    }

    /**
     * runQuery on a statement that is not blank: the result set and the
     * selection are cleared, then the statement takes the query or the
     * exec path by its prefix.
     */
    method RunStatement(q: string, answer: QueryAnswer, exec: Result<int, string>) returns (err: Option<string>)
      modifies this
      ensures currentTable == old(currentTable) && sortColumn == old(sortColumn)
      ensures sortDirection == old(sortDirection) && queryText == old(queryText)
      ensures selectedRow == -1
      ensures IsQuery(q) ==> ShowsQuery(answer, old(columnNames), old(widths), err)
      ensures !IsQuery(q) ==> columnNames == old(columnNames) && ShowsExec(exec, old(widths), err)
    {
      headers := [];
      rows := [];
      selectedRow := -1;
      if IsQuery(q) {
        err := ShowQueryResult(answer);
      } else {
        err := ShowExecResult(exec);
      }
    }

    /** The query path of runQuery: the columns and rendered rows, widths set when the scan ended cleanly. */
    method ShowQueryResult(answer: QueryAnswer) returns (err: Option<string>)
      requires headers == [] && rows == []
      modifies this
      ensures currentTable == old(currentTable) && sortColumn == old(sortColumn)
      ensures sortDirection == old(sortDirection) && queryText == old(queryText)
      ensures selectedRow == old(selectedRow)
      ensures ShowsQuery(answer, old(columnNames), old(widths), err)
    {
      if answer.columns.Err? {
        return Some(answer.columns.error);
      }
      var cols := answer.columns.value;
      columnNames, headers := DescribeColumns(cols);
      rows := RenderRows(answer.scanned);
      if answer.scanErr.Some? {
        return answer.scanErr;
      }
      SetupTableColumns();
      return None;
    }

    /** The exec path of runQuery: one "Result" column holding the affected-row message. */
    method ShowExecResult(exec: Result<int, string>) returns (err: Option<string>)
      requires headers == [] && rows == []
      modifies this
      ensures currentTable == old(currentTable) && sortColumn == old(sortColumn)
      ensures sortDirection == old(sortDirection) && queryText == old(queryText)
      ensures selectedRow == old(selectedRow) && columnNames == old(columnNames)
      ensures ShowsExec(exec, old(widths), err)
    {
      if exec.Err? {
        return Some(exec.error);
      }
      headers := ["Result"];
      rows := [[ExecMessage(exec.value)]];
      SetupTableColumns();
      return None;
    }

    /**
     * Puts `q` into the query editor and runs it; a statement that is not
     * blank clears the selection.
     */
    method RunText(q: string, connected: bool, answer: QueryAnswer, exec: Result<int, string>)
      returns (err: Option<string>)
      modifies this
      ensures currentTable == old(currentTable) && sortColumn == old(sortColumn)
      ensures sortDirection == old(sortDirection) && queryText == q
      ensures !connected ==> err == Some(NotConnectedMessage)
      ensures !connected || TrimSpace(q) == "" ==>
                headers == old(headers) && columnNames == old(columnNames) && rows == old(rows)
                && selectedRow == old(selectedRow) && widths == old(widths)
      ensures connected && TrimSpace(q) == "" ==> err == None
      ensures connected && TrimSpace(q) != "" ==> selectedRow == -1
      ensures connected && TrimSpace(q) != "" && IsQuery(TrimSpace(q)) ==>
                ShowsQuery(answer, old(columnNames), old(widths), err)
      ensures connected && TrimSpace(q) != "" && !IsQuery(TrimSpace(q)) ==>
                columnNames == old(columnNames) && ShowsExec(exec, old(widths), err)
    {
      queryText := q;
      err := RunQuery(connected, answer, exec);
    }

    /** Writes the sort query for `table` into the editor and runs it: it takes the query path whenever connected. */
    method RunSortQuery(dbType: string, table: string, column: string, direction: string,
                        connected: bool, answer: QueryAnswer, exec: Result<int, string>)
      returns (err: Option<string>)
      modifies this
      ensures currentTable == old(currentTable) && sortColumn == old(sortColumn)
      ensures sortDirection == old(sortDirection) && queryText == SortQuery(dbType, table, column, direction)
      ensures connected ==> selectedRow == -1 && ShowsQuery(answer, old(columnNames), old(widths), err)
      ensures !connected ==>
                && err == Some(NotConnectedMessage) && selectedRow == old(selectedRow)
                && headers == old(headers) && rows == old(rows) && columnNames == old(columnNames)
                && widths == old(widths)
    {
      SortQueryNonBlank(dbType, table, column, direction);
      SortQueryShape(dbType, table, column, direction);
      err := RunTrimmedQuery(SortQuery(dbType, table, column, direction), connected, answer, exec);
    }

    /** Runs a text that is a query and has no padding to trim, as every sort query is. */
    method RunTrimmedQuery(q: string, connected: bool, answer: QueryAnswer, exec: Result<int, string>)
      returns (err: Option<string>)
      requires TrimSpace(q) == q && q != "" && IsQuery(q)
      modifies this
      ensures currentTable == old(currentTable) && sortColumn == old(sortColumn)
      ensures sortDirection == old(sortDirection) && queryText == q
      ensures connected ==> selectedRow == -1 && ShowsQuery(answer, old(columnNames), old(widths), err)
      ensures !connected ==>
                && err == Some(NotConnectedMessage) && selectedRow == old(selectedRow)
                && headers == old(headers) && rows == old(rows) && columnNames == old(columnNames)
                && widths == old(widths)
    {
      err := RunText(q, connected, answer, exec);
    }

    /**
     * A click on the header of column `col` of a browsed table: the sort
     * toggles, and the ordered query is written into the editor and run.
     */
    method SortByColumn(col: nat, dbType: string, connected: bool,
                        answer: QueryAnswer, exec: Result<int, string>) returns (err: Option<string>)
      requires currentTable != "" && col < |columnNames|
      modifies this
      ensures currentTable == old(currentTable)
      ensures (sortColumn, sortDirection) == SortToggle(old(sortColumn), old(sortDirection), old(columnNames)[col])
      ensures queryText == SortQuery(dbType, currentTable, sortColumn, sortDirection)
      ensures connected ==> selectedRow == -1 && ShowsQuery(answer, old(columnNames), old(widths), err)
      ensures !connected ==>
                && err == Some(NotConnectedMessage) && selectedRow == old(selectedRow)
                && headers == old(headers) && rows == old(rows) && columnNames == old(columnNames)
                && widths == old(widths)
    {
      var clicked := columnNames[col];
      if sortColumn == clicked {
        if sortDirection == "ASC" {
          sortDirection := "DESC";
        } else {
          sortDirection := "ASC";
        }
      } else {
        sortColumn := clicked;
        sortDirection := "ASC";
      }
      err := RunSortQuery(dbType, currentTable, sortColumn, sortDirection, connected, answer, exec);
    }

    /**
     * A click on a cell. On the header row of a browsed table it toggles the
     * sort, writes the ordered query into the editor and runs it; on a data
     * row it toggles that row's selection. Cell coordinates are non-negative.
     */
    method CellSelected(row: nat, col: nat, dbType: string, connected: bool,
                        answer: QueryAnswer, exec: Result<int, string>) returns (err: Option<string>)
      modifies this
      ensures currentTable == old(currentTable)
      ensures row == 0 && old(currentTable) != "" && col < |old(columnNames)| ==>
                && (sortColumn, sortDirection) == SortToggle(old(sortColumn), old(sortDirection), old(columnNames)[col])
                && queryText == SortQuery(dbType, currentTable, sortColumn, sortDirection)
                && (connected ==> selectedRow == -1 && ShowsQuery(answer, old(columnNames), old(widths), err))
                && (!connected ==>
                      && err == Some(NotConnectedMessage) && selectedRow == old(selectedRow)
                      && headers == old(headers) && rows == old(rows) && columnNames == old(columnNames)
                      && widths == old(widths))
      ensures row > 0 ==>
                && selectedRow == SelectToggle(old(selectedRow), row - 1)
                && headers == old(headers) && rows == old(rows) && columnNames == old(columnNames)
                && sortColumn == old(sortColumn) && sortDirection == old(sortDirection)
                && queryText == old(queryText) && widths == old(widths) && err == None
      ensures row == 0 && !(old(currentTable) != "" && col < |old(columnNames)|) ==>
                && selectedRow == old(selectedRow)
                && headers == old(headers) && rows == old(rows) && columnNames == old(columnNames)
                && sortColumn == old(sortColumn) && sortDirection == old(sortDirection)
                && queryText == old(queryText) && widths == old(widths) && err == None
    {
      if row == 0 && currentTable != "" && col < |columnNames| {
        err := SortByColumn(col, dbType, connected, answer, exec);
      } else if row > 0 {
        var rowIdx := row - 1;
        if selectedRow == rowIdx {
          selectedRow := -1;
        } else {
          selectedRow := rowIdx;
        }
        err := None;
      } else {
        err := None;
      }
    }

    /**
     * Choosing a table in the sidebar: it becomes the browsed table, sorted
     * by `id` ascending, and its first 100 rows are queried.
     */
    method TableChosen(table: string, dbType: string, connected: bool,
                       answer: QueryAnswer, exec: Result<int, string>) returns (err: Option<string>)
      modifies this
      ensures currentTable == table && sortColumn == "id" && sortDirection == "ASC"
      ensures queryText == SortQuery(dbType, table, "id", "ASC")
      ensures connected ==> selectedRow == -1 && ShowsQuery(answer, old(columnNames), old(widths), err)
      ensures !connected ==>
                && err == Some(NotConnectedMessage) && selectedRow == old(selectedRow)
                && headers == old(headers) && rows == old(rows) && columnNames == old(columnNames)
                && widths == old(widths)
    {
      currentTable := table;
      sortColumn := "";
      sortDirection := "ASC";
      sortColumn := "id";
      err := RunSortQuery(dbType, table, sortColumn, sortDirection, connected, answer, exec);
    }
  }
}
