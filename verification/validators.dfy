/** The controlled vocabularies: the "Validators" sheet that lists them and
    the list-validation formulas that point into it
    (`write_validator_sheet` and `get_validator_formulas`). */
module Validators {
  import opened Outcomes
  import opened Decimal
  import opened Addressing
  import opened Sheets

  /** One entry of the `validators` table of the configuration: a field
      name and its allowed values, in file order. */
  datatype Category = Category(name: string, values: seq<string>)

  /** The `validators` table, in the order the configuration lists it. */
  type Config = seq<Category>

  /** Field names are dictionary keys, hence distinct. */
  predicate DistinctNames(cfg: Config) {
    forall i, j :: 0 <= i < j < |cfg| ==> cfg[i].name != cfg[j].name
  }

  /** First row of the vocabulary data; row 1 holds the field names. */
  const FirstValueRow: nat := 2

  /** Where the sheet writer puts the vocabularies: the names across row 1
      and the values of the `i`-th category down column `i` from row 2. */
  ghost predicate InLayout(cfg: Config, c: CellRef) {
    c.col < |cfg| && (c.row == 1 || FirstValueRow <= c.row < FirstValueRow + |cfg[c.col].values|)
  }

  ghost function LayoutValue(cfg: Config, c: CellRef): string
    requires InLayout(cfg, c)
  {
    if c.row == 1 then cfg[c.col].name else cfg[c.col].values[c.row - FirstValueRow]
  }

  /** The sheet holds the vocabularies in their layout and nothing else. */
  ghost predicate IsVocabularySheet(cfg: Config, s: Sheet) {
    forall c :: Cell(s, c) == if InLayout(cfg, c) then Some(LayoutValue(cfg, c)) else None
  }

  /** `list(config['validators'].keys())` */
  function Names(cfg: Config): (r: seq<string>)
    ensures |r| == |cfg| && forall i :: 0 <= i < |cfg| ==> r[i] == cfg[i].name
  {
    seq(|cfg|, i requires 0 <= i < |cfg| => cfg[i].name)
  }

  /** The inner loop: value `j` onwards of one category go to `column`,
      value `j` at row `j + 2`, each cell addressed by its A1 text. */
  function WriteValues(s: Sheet, column: char, values: seq<string>, j: nat): (r: Sheet)
    requires IsLetter(column) && j <= |values|
    decreases |values| - j
    ensures forall c :: (Cell(r, c) ==
      if c.col == LetterColumn(column) && FirstValueRow + j <= c.row < FirstValueRow + |values|
      then Some(values[c.row - FirstValueRow]) else Cell(s, c))
  {
    if j == |values| then s
    else
      var address := [column] + DecimalText(j + FirstValueRow);
      SpelledCell(column, j + FirstValueRow);
      WriteValues(SetAt(s, address, values[j]), column, values, j + 1)
  }

  /** The outer loop from category `i` on: `column = alphabet[i]` fails past Z. */
  function WriteCategories(s: Sheet, cfg: Config, i: nat): (r: Result<Sheet>)
    requires i <= |cfg| && i <= |Alphabet|
    decreases |cfg| - i
    ensures r.Ok? <==> |cfg| <= |Alphabet|
    ensures r.Err? ==> r.error == IndexError(|Alphabet|)
    ensures r.Ok? ==> forall c :: (Cell(r.value, c) ==
      if i <= c.col < |cfg| && FirstValueRow <= c.row < FirstValueRow + |cfg[c.col].values|
      then Some(cfg[c.col].values[c.row - FirstValueRow]) else Cell(s, c))
  {
    if i == |cfg| then Ok(s)
    else
      var column :- ColumnLetter(i);
      WriteCategories(WriteValues(s, column, cfg[i].values, 0), cfg, i + 1)
  }

  /** `write_validator_sheet` on a fresh sheet: the names as row 1, then the
      values of each category down its own column. A 27th category has no
      column letter and the write fails with the IndexError of `alphabet[26]`. */
  function WriteValidatorSheet(cfg: Config): (r: Result<Sheet>)
    ensures r.Ok? <==> |cfg| <= |Alphabet|
    ensures r.Err? ==> r.error == IndexError(|Alphabet|)
    ensures r.Ok? ==> IsVocabularySheet(cfg, r.value)
  {
    var header := Append(EmptySheet, Names(cfg));
    var r := WriteCategories(header, cfg, 0);
    if r.Ok? then HeaderAndValuesAreLayout(cfg, r.value); r else r
  }

  lemma HeaderAndValuesAreLayout(cfg: Config, s: Sheet)
    requires WriteCategories(Append(EmptySheet, Names(cfg)), cfg, 0) == Ok(s)
    ensures IsVocabularySheet(cfg, s)
  {
    var header := Append(EmptySheet, Names(cfg));
    RowCells(header, 1, Names(cfg));
    forall c
      ensures Cell(s, c) == if InLayout(cfg, c) then Some(LayoutValue(cfg, c)) else None
    {
      if c.row == 1 {
        assert c == CellRef(c.col, 1);
      }
    }
  }

  /** One `formulas[key] = …` assignment, in insertion order. */
  datatype FormulaEntry = FormulaEntry(key: string, formula: string)

  /** The block of the vocabulary sheet holding the values of category `i`. */
  function VocabularyRange(cfg: Config, i: nat): (r: CellRange)
    requires i < |cfg|
    ensures forall c :: Covers(r, c) <==> c.col == i && FirstValueRow <= c.row < FirstValueRow + |cfg[i].values|
  {
    ColumnRange(i, FirstValueRow, |cfg[i].values| + 1)
  }

  /** The entry that category `i` should receive: its name, and the formula
      text of its block on the sheet `sheetName`. */
  function ExpectedEntry(cfg: Config, sheetName: string, i: nat): FormulaEntry
    requires i < |cfg| && i < |Alphabet|
  {
    FormulaEntry(cfg[i].name, FormulaText(Formula(sheetName, VocabularyRange(cfg, i))))
  }

  /** The loop of `get_validator_formulas` from category `i` on. */
  /** The formula the loop spells out for category `i` is that category's entry. */
  lemma SpelledEntry(cfg: Config, sheetName: string, i: nat, column: char)
    requires i < |cfg| && i < |Alphabet| && IsLetter(column) && LetterColumn(column) == i
    ensures var top := "$" + [column] + "$" + DecimalText(FirstValueRow);
      var bottom := "$" + [column] + "$" + DecimalText(|cfg[i].values| + 1);
      FormulaEntry(cfg[i].name, sheetName + "!" + top + ":" + bottom) == ExpectedEntry(cfg, sheetName, i)
  {
    SpelledFormula(sheetName, column, FirstValueRow, |cfg[i].values| + 1);
  }

  function FormulasFrom(cfg: Config, sheetName: string, i: nat): (r: Result<seq<FormulaEntry>>)
    requires i <= |cfg| && i <= |Alphabet|
    decreases |cfg| - i
    ensures r.Ok? <==> |cfg| <= |Alphabet|
    ensures r.Err? ==> r.error == IndexError(|Alphabet|)
    ensures r.Ok? ==> |r.value| == |cfg| - i && forall k :: 0 <= k < |r.value| ==>
      r.value[k] == ExpectedEntry(cfg, sheetName, i + k)
  {
    if i == |cfg| then Ok([])
    else
      var column :- ColumnLetter(i);
      var top := "$" + [column] + "$" + DecimalText(FirstValueRow);
      var bottom := "$" + [column] + "$" + DecimalText(|cfg[i].values| + 1);
      var formula := sheetName + "!" + top + ":" + bottom;
      SpelledEntry(cfg, sheetName, i, column);
      var rest :- FormulasFrom(cfg, sheetName, i + 1);
      var r := [FormulaEntry(cfg[i].name, formula)] + rest;
      assert forall k :: 1 <= k < |r| ==> r[k] == rest[k - 1];
      Ok(r)
  }

  /** `get_validator_formulas`: one entry per category, in configuration
      order, whose formula names the category's column from row 2 down to
      row `len(values) + 1` on the sheet `sheetName` (the quoted name of the
      vocabulary sheet). Fails like the sheet writer past 26 categories. */
  function ValidatorFormulas(cfg: Config, sheetName: string): (r: Result<seq<FormulaEntry>>)
    ensures r.Ok? <==> |cfg| <= |Alphabet|
    ensures r.Err? ==> r.error == IndexError(|Alphabet|)
    ensures r.Ok? ==> |r.value| == |cfg| && forall i :: 0 <= i < |cfg| ==>
      && r.value[i].key == cfg[i].name
      && ParseFormula(r.value[i].formula) == Some(Formula(sheetName, CellRange(CellRef(i, 2), CellRef(i, |cfg[i].values| + 1))))
  {
    var r := FormulasFrom(cfg, sheetName, 0);
    if r.Ok? then FormulaEntriesParse(cfg, sheetName, r.value); r else r
  }

  lemma FormulaEntriesParse(cfg: Config, sheetName: string, entries: seq<FormulaEntry>)
    requires |cfg| <= |Alphabet| && FormulasFrom(cfg, sheetName, 0) == Ok(entries)
    ensures forall i :: 0 <= i < |cfg| ==>
      ParseFormula(entries[i].formula) == Some(Formula(sheetName, VocabularyRange(cfg, i)))
  {
    forall i | 0 <= i < |cfg|
      ensures ParseFormula(entries[i].formula) == Some(Formula(sheetName, VocabularyRange(cfg, i)))
    {
      FormulaRoundTrip(Formula(sheetName, VocabularyRange(cfg, i)));
    }
  }

  /** The vocabulary `key` has an entry among the formulas. */
  predicate Provides(entries: seq<FormulaEntry>, key: string) {
    exists k :: 0 <= k < |entries| && entries[k].key == key
  }

  /** `formulas[key]`: the formula stored under `key`, or a KeyError. */
  function Lookup(entries: seq<FormulaEntry>, key: string): (r: Result<string>)
    ensures r.Ok? <==> Provides(entries, key)
    ensures r.Err? ==> r.error == KeyError(key)
    ensures r.Ok? ==> exists k :: 0 <= k < |entries| && entries[k].key == key && entries[k].formula == r.value
  {
    if entries == [] then Err(KeyError(key))
    else if entries[0].key == key then Ok(entries[0].formula)
    else
      var r := Lookup(entries[1..], key);
      assert forall k :: 1 <= k < |entries| ==> entries[k] == entries[1..][k - 1];
      r
  }

  /** `formulas[k]` for each of `keys` in turn: all the formulas, or the
      KeyError of the first key that is missing. */
  function LookupAll(entries: seq<FormulaEntry>, keys: seq<string>): (r: Result<seq<string>>)
    ensures r.Ok? <==> forall i :: 0 <= i < |keys| ==> Provides(entries, keys[i])
    ensures r.Ok? ==> |r.value| == |keys| && forall i :: 0 <= i < |keys| ==> Lookup(entries, keys[i]) == Ok(r.value[i])
    ensures r.Err? ==> exists i :: (0 <= i < |keys| && r.error == KeyError(keys[i]) && !Provides(entries, keys[i])
      && forall j :: 0 <= j < i ==> Provides(entries, keys[j]))
  {
    if keys == [] then Ok([])
    else
      var first :- Lookup(entries, keys[0]);
      assert forall i :: 1 <= i < |keys| ==> keys[i] == keys[1..][i - 1];
      var rest :- LookupAll(entries, keys[1..]);
      Ok([first] + rest)
  }

  /** With distinct field names, looking up the `i`-th name finds the `i`-th formula. */
  lemma LookupFindsEntry(cfg: Config, entries: seq<FormulaEntry>, i: nat, key: string)
    requires DistinctNames(cfg) && i < |cfg| && |cfg| == |entries| && key == cfg[i].name
    requires forall k :: 0 <= k < |entries| ==> entries[k].key == cfg[k].name
    ensures Lookup(entries, key) == Ok(entries[i].formula)
  {
    var r := Lookup(entries, key);
    var k :| 0 <= k < |entries| && entries[k].key == key && entries[k].formula == r.value;
    assert k == i;
  }

  /** The agreement between the two functions: the formula looked up for the
      `i`-th field points at exactly the cells the sheet writer filled with
      that field's values, and reading them top to bottom gives the
      vocabulary in configuration order. */
  lemma RangeMatchesLayout(cfg: Config, sheet: Sheet, i: nat)
    requires IsVocabularySheet(cfg, sheet) && i < |cfg|
    ensures forall c :: Covers(VocabularyRange(cfg, i), c) <==> Cell(sheet, c).Some? && c.col == i && c.row >= FirstValueRow
    ensures forall j :: 0 <= j < |cfg[i].values| ==>
      Cell(sheet, CellRef(i, VocabularyRange(cfg, i).first.row + j)) == Some(cfg[i].values[j])
  {
    var range := VocabularyRange(cfg, i);
    assert range.first.row == FirstValueRow;
    forall c
      ensures Covers(range, c) <==> Cell(sheet, c).Some? && c.col == i && c.row >= FirstValueRow
    {
      assert Cell(sheet, c) == if InLayout(cfg, c) then Some(LayoutValue(cfg, c)) else None;
    }
    forall j | 0 <= j < |cfg[i].values|
      ensures Cell(sheet, CellRef(i, FirstValueRow + j)) == Some(cfg[i].values[j])
    {
      var c := CellRef(i, FirstValueRow + j);
      assert Cell(sheet, c) == if InLayout(cfg, c) then Some(LayoutValue(cfg, c)) else None;
    }
  }

  lemma FormulaCoversWrittenValues(cfg: Config, sheetName: string, formulas: seq<FormulaEntry>, sheet: Sheet, i: nat)
    requires DistinctNames(cfg) && i < |cfg|
    requires ValidatorFormulas(cfg, sheetName) == Ok(formulas)
    requires WriteValidatorSheet(cfg) == Ok(sheet)
    ensures Lookup(formulas, cfg[i].name).Ok?
    ensures ParseFormula(Lookup(formulas, cfg[i].name).value) == Some(Formula(sheetName, VocabularyRange(cfg, i)))
    ensures forall c :: Covers(VocabularyRange(cfg, i), c) <==> Cell(sheet, c).Some? && c.col == i && c.row >= FirstValueRow
    ensures VocabularyRange(cfg, i).last.row - VocabularyRange(cfg, i).first.row + 1 == |cfg[i].values|
    ensures forall j :: 0 <= j < |cfg[i].values| ==>
      Cell(sheet, CellRef(i, VocabularyRange(cfg, i).first.row + j)) == Some(cfg[i].values[j])
  {
    var key := cfg[i].name;
    LookupFindsEntry(cfg, formulas, i, key);
    RangeMatchesLayout(cfg, sheet, i);
  }
}
