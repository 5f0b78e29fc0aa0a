/** The worksheet operations the program uses: appending a row and
    assigning one cell. A sheet is its rows from row 1 down to the last row
    any write reached; each row maps the column numbers that hold a value to
    that value. `ws.append` adds a row at the end. */
module Sheets {
  import opened Outcomes
  import opened Addressing

  datatype Sheet = Sheet(rows: seq<map<nat, string>>)

  /** A sheet as `Workbook()` or `create_sheet` hands it out. */
  const EmptySheet := Sheet([])

  /** The value of cell `c`, if it holds one. */
  function Cell(s: Sheet, c: CellRef): Option<string> {
    if 1 <= c.row <= |s.rows| && c.col in s.rows[c.row - 1] then Some(s.rows[c.row - 1][c.col]) else None
  }

  /** The cells of a row written from `row`: its values in columns A, B, …
      and nothing after them. */
  function RowMap(row: seq<string>): map<nat, string> {
    map j: nat | j < |row| :: row[j]
  }

  /** Row `n` holds exactly `row`. */
  predicate RowIs(s: Sheet, n: nat, row: seq<string>) {
    1 <= n <= |s.rows| && s.rows[n - 1] == RowMap(row)
  }

  /** The cells of a row that holds exactly `row`. */
  lemma RowCells(s: Sheet, n: nat, row: seq<string>)
    requires RowIs(s, n, row)
    ensures forall j: nat :: Cell(s, CellRef(j, n)) == if j < |row| then Some(row[j]) else None
  {
  }

  /** `ws.append(row)`: the values go to the row below the last one. */
  function Append(s: Sheet, row: seq<string>): (r: Sheet)
    ensures |r.rows| == |s.rows| + 1 && r.rows[..|s.rows|] == s.rows
    ensures RowIs(r, |r.rows|, row)
  {
    Sheet(s.rows + [RowMap(row)])
  }

  /** The rows written from `rows`, one after the other. */
  function RowMaps(rows: seq<seq<string>>): (r: seq<map<nat, string>>)
    ensures |r| == |rows| && forall k :: 0 <= k < |rows| ==> r[k] == RowMap(rows[k])
  {
    seq(|rows|, k requires 0 <= k < |rows| => RowMap(rows[k]))
  }

  /** Appends each of `rows` in turn: the sheet gains exactly those rows,
      in order, below its own. */
  function AppendAll(s: Sheet, rows: seq<seq<string>>): (r: Sheet)
    decreases |rows|
    ensures r.rows == s.rows + RowMaps(rows)
  {
    if rows == [] then s
    else
      var r := AppendAll(Append(s, rows[0]), rows[1..]);
      RowMapsSplit(s.rows, rows);
      r
  }

  lemma RowMapsSplit(top: seq<map<nat, string>>, rows: seq<seq<string>>)
    requires rows != []
    ensures (top + [RowMap(rows[0])]) + RowMaps(rows[1..]) == top + RowMaps(rows)
  {
    assert RowMaps(rows) == [RowMap(rows[0])] + RowMaps(rows[1..]);
  }

  /** Row `k` of the appended rows is sheet row `k + 1` below the old last row. */
  lemma AppendedRows(s: Sheet, rows: seq<seq<string>>)
    ensures forall k :: 0 <= k < |rows| ==> RowIs(AppendAll(s, rows), |s.rows| + 1 + k, rows[k])
  {
  }

  /** `ws[address].value = v`, where `address` is the one-letter A1 text of a
      cell: rows up to the cell's row come into being if they did not, and
      only that one cell changes. */
  function SetAt(s: Sheet, address: string, v: string): (r: Sheet)
    requires ParseCell(address, false).Some?
    ensures var c := ParseCell(address, false).value;
      && Cell(r, c) == Some(v)
      && (forall d :: d != c ==> Cell(r, d) == Cell(s, d))
      && |r.rows| == if c.row > |s.rows| then c.row else |s.rows|
  {
    var c := ParseCell(address, false).value;
    var padded := if c.row > |s.rows| then s.rows + seq(c.row - |s.rows|, _ => map[]) else s.rows;
    Sheet(padded[c.row - 1 := padded[c.row - 1][c.col := v]])
  }
}
