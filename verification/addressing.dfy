/** A1-style cell and range addresses: the strings the program builds with
    f-strings (`"G5:G9"`, `"'Validators'!$A$2:$A$7"`), the coordinates they
    denote, and the reading back of such strings. Columns are numbered from
    0 (A is 0), rows from 1, as in the spreadsheet. */
module Addressing {
  import opened Outcomes
  import opened Decimal

  /** The column letters the program can name: one letter per column. */
  const Alphabet: string := "ABCDEFGHIJKLMNOPQRSTUVWXYZ"

  datatype CellRef = CellRef(col: nat, row: nat)

  /** A rectangular block of cells from `first` (top left) to `last` (bottom right). */
  datatype CellRange = CellRange(first: CellRef, last: CellRef)

  /** A range on a named sheet, as a list-validation formula states it. */
  datatype Formula = Formula(sheet: string, range: CellRange)

  predicate Covers(r: CellRange, c: CellRef) {
    r.first.col <= c.col <= r.last.col && r.first.row <= c.row <= r.last.row
  }

  /** The cells of column `col` from row `top` down to row `bottom`. */
  function ColumnRange(col: nat, top: nat, bottom: nat): (r: CellRange)
    ensures forall c :: Covers(r, c) <==> c.col == col && top <= c.row <= bottom
  {
    CellRange(CellRef(col, top), CellRef(col, bottom))
  }

  /** A cell that a one-letter A1 address can name. */
  predicate Addressable(c: CellRef) {
    c.col < |Alphabet| && c.row >= 1
  }

  predicate IsLetter(ch: char) {
    'A' <= ch <= 'Z'
  }

  function LetterColumn(ch: char): nat
    requires IsLetter(ch)
  {
    ch as int - 'A' as int
  }

  lemma AlphabetIsAtoZ()
    ensures forall i :: 0 <= i < |Alphabet| ==> IsLetter(Alphabet[i]) && LetterColumn(Alphabet[i]) == i
  {
    assert Alphabet == seq(26, i requires 0 <= i < 26 => ('A' as int + i) as char);
  }

  lemma LetterInAlphabet(ch: char)
    requires IsLetter(ch)
    ensures LetterColumn(ch) < |Alphabet| && Alphabet[LetterColumn(ch)] == ch
  {
    AlphabetIsAtoZ();
  }

  /** `f"{column}{row}"` written out by hand names the cell of that column and row. */
  lemma SpelledCell(column: char, row: nat)
    requires IsLetter(column) && row >= 1
    ensures ParseCell([column] + DecimalText(row), false) == Some(CellRef(LetterColumn(column), row))
  {
    LetterInAlphabet(column);
    var c := CellRef(LetterColumn(column), row);
    assert [column] + DecimalText(row) == CellText(c, false);
    CellRoundTrip(c, false);
  }

  /** `f"{sheet}!${column}${top}:${column}${bottom}"` written out by hand is
      the formula text of that column range. */
  lemma SpelledFormula(sheet: string, column: char, top: nat, bottom: nat)
    requires IsLetter(column)
    ensures sheet + "!" + ("$" + [column] + "$" + DecimalText(top)) + ":" + ("$" + [column] + "$" + DecimalText(bottom))
      == FormulaText(Formula(sheet, ColumnRange(LetterColumn(column), top, bottom)))
  {
    LetterInAlphabet(column);
    var a := "$" + [column] + "$" + DecimalText(top);
    var b := "$" + [column] + "$" + DecimalText(bottom);
    var r := ColumnRange(LetterColumn(column), top, bottom);
    assert CellText(r.first, true) == a;
    assert CellText(r.last, true) == b;
    assert RangeText(r, true) == a + ":" + b;
  }

  /** `alphabet[i]`: the letter of column `i`, or the IndexError Python raises past Z. */
  function ColumnLetter(i: nat): (r: Result<char>)
    ensures r.Ok? <==> i < 26
    ensures r.Err? ==> r.error == IndexError(i)
    ensures r.Ok? ==> IsLetter(r.value) && LetterColumn(r.value) == i
  {
    AlphabetIsAtoZ();
    if i < |Alphabet| then Ok(Alphabet[i]) else Err(IndexError(i))
  }

  /** `f"{column}{row}"`, or `f"${column}${row}"` when `absolute`: the
      text starts with `$` exactly when it is absolute, and holds no `:` or
      `!`, so ranges and formulas built from it split at those separators. */
  function CellText(c: CellRef, absolute: bool): (r: string)
    requires c.col < |Alphabet|
    ensures |r| >= 2 && (r[0] == '$' <==> absolute)
    ensures ':' !in r && '!' !in r
  {
    var letter := Alphabet[c.col];
    var d := DecimalText(c.row);
    AlphabetIsAtoZ();
    assert ':' !in d && '!' !in d by {
      forall k | 0 <= k < |d| ensures d[k] != ':' && d[k] != '!' {
        assert IsDigit(d[k]);
      }
    }
    if absolute then "$" + [letter] + "$" + d else [letter] + d
  }

  /** `first:last` with both ends written the same way: the `:` right after
      the first corner's address is the first one, since cell texts hold
      none, and there is no `!`. */
  function RangeText(range: CellRange, absolute: bool): (r: string)
    requires range.first.col < |Alphabet| && range.last.col < |Alphabet|
    ensures '!' !in r
    ensures |r| > |CellText(range.first, absolute)| && r[|CellText(range.first, absolute)|] == ':'
  {
    var a := CellText(range.first, absolute);
    var b := CellText(range.last, absolute);
    a + ":" + b
  }

  /** The relative text of a one-column range whose row numbers are single digits. */
  lemma ShortRangeText(col: nat, top: nat, bottom: nat)
    requires col < |Alphabet| && top < 10 && bottom < 10
    ensures RangeText(ColumnRange(col, top, bottom), false)
      == [Alphabet[col], DigitChar(top), ':', Alphabet[col], DigitChar(bottom)]
  {
  }

  /** `sheet!$C$top:$C$bottom`: ranges inside formulas are absolute. The
      last `!` ends the sheet name, whatever characters the name holds. */
  function FormulaText(f: Formula): (r: string)
    requires f.range.first.col < |Alphabet| && f.range.last.col < |Alphabet|
    ensures |r| > |f.sheet| && r[..|f.sheet|] == f.sheet && r[|f.sheet|] == '!'
    ensures '!' !in r[|f.sheet| + 1..]
  {
    var t := RangeText(f.range, true);
    var r := f.sheet + "!" + t;
    assert r[|f.sheet| + 1..] == t;
    r
  }

  function FirstIndexOf(s: string, ch: char): (r: Option<nat>)
    ensures r.Some? ==> r.value < |s| && s[r.value] == ch && ch !in s[..r.value]
    ensures r.None? ==> ch !in s
  {
    if s == [] then None
    else if s[0] == ch then Some(0)
    else match FirstIndexOf(s[1..], ch)
      case None => None
      case Some(k) => assert s[..k + 1] == [s[0]] + s[1..][..k]; Some(k + 1)
  }

  function LastIndexOf(s: string, ch: char): (r: Option<nat>)
    ensures r.Some? ==> r.value < |s| && s[r.value] == ch && ch !in s[r.value + 1..]
    ensures r.None? ==> ch !in s
  {
    if s == [] then None
    else if s[|s| - 1] == ch then Some(|s| - 1)
    else match LastIndexOf(s[..|s| - 1], ch)
      case None => assert s == s[..|s| - 1] + [s[|s| - 1]]; None
      case Some(k) => assert s[k + 1..] == s[..|s| - 1][k + 1..] + [s[|s| - 1]]; Some(k)
  }

  /** Reads a one-letter A1 cell address, with `$` markers when `absolute`. */
  function ParseCell(s: string, absolute: bool): (r: Option<CellRef>)
    ensures r.Some? ==> Addressable(r.value)
  {
    var letterAt := if absolute then 1 else 0;
    var digitsFrom := if absolute then 3 else 1;
    if |s| <= digitsFrom then None
    else if absolute && (s[0] != '$' || s[2] != '$') then None
    else if !IsLetter(s[letterAt]) then None
    else match ParseDecimal(s[digitsFrom..])
      case None => None
      case Some(row) => if row == 0 then None else Some(CellRef(LetterColumn(s[letterAt]), row))
  }

  /** Reads `first:last`. */
  function ParseRange(s: string, absolute: bool): (r: Option<CellRange>)
    ensures r.Some? ==> Addressable(r.value.first) && Addressable(r.value.last)
  {
    match FirstIndexOf(s, ':')
    case None => None
    case Some(k) =>
      match (ParseCell(s[..k], absolute), ParseCell(s[k + 1..], absolute))
      case (Some(a), Some(b)) => Some(CellRange(a, b))
      case _ => None
  }

  /** Reads `sheet!range`; the sheet name is everything before the last `!`. */
  function ParseFormula(s: string): (r: Option<Formula>)
    ensures r.Some? ==> Addressable(r.value.range.first) && Addressable(r.value.range.last)
  {
    match LastIndexOf(s, '!')
    case None => None
    case Some(k) =>
      match ParseRange(s[k + 1..], true)
      case None => None
      case Some(range) => Some(Formula(s[..k], range))
  }

  lemma SplitAtFirst(u: string, ch: char, v: string)
    requires ch !in u
    ensures FirstIndexOf(u + [ch] + v, ch) == Some(|u|)
  {
    var s := u + [ch] + v;
    assert s[|u|] == ch;
  }

  lemma SplitAtLast(u: string, ch: char, v: string)
    requires ch !in v
    ensures LastIndexOf(u + [ch] + v, ch) == Some(|u|)
  {
    var s := u + [ch] + v;
    assert s[|u|] == ch;
  }

  /** Reading an address the program wrote gives back the cell it names. */
  lemma CellRoundTrip(c: CellRef, absolute: bool)
    requires Addressable(c)
    ensures ParseCell(CellText(c, absolute), absolute) == Some(c)
  {
    AlphabetIsAtoZ();
    DecimalRoundTrip(c.row);
    var s := CellText(c, absolute);
    if absolute {
      assert s[3..] == DecimalText(c.row);
    } else {
      assert s[1..] == DecimalText(c.row);
    }
  }

  /** Reading a range the program wrote gives back both corners. */
  lemma RangeRoundTrip(r: CellRange, absolute: bool)
    requires Addressable(r.first) && Addressable(r.last)
    ensures ParseRange(RangeText(r, absolute), absolute) == Some(r)
  {
    var a := CellText(r.first, absolute);
    var b := CellText(r.last, absolute);
    SplitAtFirst(a, ':', b);
    var s := RangeText(r, absolute);
    assert s == a + [':'] + b;
    assert s[..|a|] == a;
    assert s[|a| + 1..] == b;
    CellRoundTrip(r.first, absolute);
    CellRoundTrip(r.last, absolute);
  }

  /** Reading a formula the program wrote gives back the sheet name, whatever
      characters the quoted name holds, and the range. */
  lemma FormulaRoundTrip(f: Formula)
    requires Addressable(f.range.first) && Addressable(f.range.last)
    ensures ParseFormula(FormulaText(f)) == Some(f)
  {
    var t := RangeText(f.range, true);
    SplitAtLast(f.sheet, '!', t);
    var s := FormulaText(f);
    assert s == f.sheet + ['!'] + t;
    assert s[..|f.sheet|] == f.sheet;
    assert s[|f.sheet| + 1..] == t;
    RangeRoundTrip(f.range, true);
  }

  /** Different cells never share an address. */
  lemma CellTextInjective(c: CellRef, d: CellRef, absolute: bool)
    requires Addressable(c) && Addressable(d)
    requires CellText(c, absolute) == CellText(d, absolute)
    ensures c == d
  {
    CellRoundTrip(c, absolute);
    CellRoundTrip(d, absolute);
  }
}
