/** `write_template_files`: the three-sheet workbook of sample metadata,
    run metadata and vocabularies, with list validations that tie columns
    of the first two sheets to the vocabularies. */
module Template {
  import opened Outcomes
  import opened Decimal
  import opened Addressing
  import opened Sheets
  import opened Validators

  /** A discovered sample as the writer reads it: its alias, the forward
      and reverse read files and their checksums. Only the first file and
      checksum of each direction are read. */
  datatype Sample = Sample(prefix: string, r1: seq<string>, md5r1: seq<string>, r2: seq<string>, md5r2: seq<string>)

  /** A list validation: values of the cells `sqref` must come from the
      range that `formula` names. */
  datatype Validation = Validation(formula: string, sqref: string)

  datatype Worksheet = Worksheet(title: string, sheet: Sheet, validations: seq<Validation>)

  /** The saved workbook: its sheets in tab order and the index of the active one. */
  datatype Workbook = Workbook(sheets: seq<Worksheet>, active: nat)

  const GeoKey := "geographic location (country and/or sea)"
  const DateKey := "collection date"
  const InstrumentKey := "instrument_model"
  const SourceKey := "library_source"
  const SelectionKey := "library_selection"
  const StrategyKey := "library_strategy"

  /** The vocabularies the Runs sheet looks up, in lookup order. */
  const RunsKeys: seq<string> := [InstrumentKey, SourceKey, SelectionKey, StrategyKey]
  /** The Runs columns the validations for `RunsKeys` go on: C, E, F and G. */
  const RunsValidatedColumns: seq<nat> := [2, 4, 5, 6]

  /** Every vocabulary the writer looks up, in lookup order. */
  const RequiredKeys: seq<string> := [GeoKey, DateKey, InstrumentKey, SourceKey, SelectionKey, StrategyKey]

  const SamplesHeader: seq<string> :=
    ["sample_alias", "tax_id", "scientific_name", "sample_title", "sample_description", DateKey, GeoKey]

  /** The rows above the samples: checklist, name prefix, field names, units. */
  const SamplesPreamble: seq<seq<string>> :=
    [["#checklist_accession", "ERC000011"], ["#unique_name_prefix"], SamplesHeader, ["#units"]]

  const SamplesHeaderRow: nat := 3
  const FirstSampleRow: nat := 5

  const RunsHeader: seq<string> :=
    ["sample", "study", InstrumentKey, "library_name", SourceKey, SelectionKey, StrategyKey,
     "library_layout", "forward_file_name", "forward_file_md5", "reverse_file_name", "reverse_file_md5"]

  const RunsPreamble: seq<seq<string>> := [["FileType", "fastq", "Read submission file type"], RunsHeader]

  const RunsHeaderRow: nat := 2
  const FirstRunRow: nat := 3

  /** All files and checksums the Runs row reads are present. */
  predicate Complete(s: Sample) {
    |s.r1| > 0 && |s.md5r1| > 0 && |s.r2| > 0 && |s.md5r2| > 0
  }

  /** `os.path.split(path)[-1]`: the part after the last `/`. */
  function Basename(path: string): (b: string)
    ensures '/' !in b
    ensures |b| <= |path| && b == path[|path| - |b|..]
    ensures |b| < |path| ==> path[|path| - |b| - 1] == '/'
  {
    match LastIndexOf(path, '/')
    case None => path
    case Some(k) => path[k + 1..]
  }

  /** The Samples fields that take the sample's alias. */
  const AliasFields: set<string> := {"sample_alias", "sample_title", "sample_description"}

  /** The row appended for a sample on the Samples sheet: the alias under
      `sample_alias`, `sample_title` and `sample_description`, blanks under
      the other named fields, and nothing under the two validated fields
      (collection date and geographic location), which end the header. */
  function SampleRow(s: Sample): (r: seq<string>)
    ensures |r| + 2 == |SamplesHeader| && SamplesHeader[|r|] == DateKey && SamplesHeader[|r| + 1] == GeoKey
    ensures forall j :: 0 <= j < |r| ==> r[j] == (if SamplesHeader[j] in AliasFields then s.prefix else "")
  {
    [s.prefix, "", "", s.prefix, s.prefix]
  }

  function SampleRows(samples: seq<Sample>): (rows: seq<seq<string>>)
    ensures |rows| == |samples| && forall k :: 0 <= k < |samples| ==> rows[k] == SampleRow(samples[k])
  {
    seq(|samples|, k requires 0 <= k < |samples| => SampleRow(samples[k]))
  }

  /** The row appended for a sample on the Runs sheet, as the program
      writes it: eleven values under a twelve-column header. An empty file
      or checksum list raises the IndexError of `[0]`. */
  function RunRow(s: Sample): (r: Result<seq<string>>)
    ensures r.Ok? <==> Complete(s)
    ensures r.Err? ==> r.error == IndexError(0)
    ensures r.Ok? ==> |r.value| == |RunsHeader| - 1
  {
    if |s.r1| == 0 || |s.md5r1| == 0 || |s.r2| == 0 || |s.md5r2| == 0 then Err(IndexError(0))
    else Ok([s.prefix, "", "", s.prefix, "", "", "", Basename(s.r1[0]), s.md5r1[0], Basename(s.r2[0]), s.md5r2[0]])
  }

  /** The loop over the samples on the Runs sheet; the first incomplete sample stops it. */
  function RunRows(samples: seq<Sample>): (r: Result<seq<seq<string>>>)
    ensures r.Ok? <==> forall k :: 0 <= k < |samples| ==> Complete(samples[k])
    ensures r.Err? ==> r.error == IndexError(0)
    ensures r.Ok? ==> |r.value| == |samples| && forall k :: 0 <= k < |samples| ==> Ok(r.value[k]) == RunRow(samples[k])
  {
    if samples == [] then Ok([])
    else
      var row :- RunRow(samples[0]);
      var rest :- RunRows(samples[1..]);
      assert forall k :: 1 <= k < |samples| ==> samples[k] == samples[1..][k - 1];
      Ok([row] + rest)
  }

  /** `dv.add(f"{col}{top}:{col}{bottom}")` with the formula of one vocabulary. */
  function ColumnValidation(formula: string, col: nat, top: nat, bottom: nat): (v: Validation)
    requires col < |Alphabet| && top >= 1 && bottom >= 1
    ensures v.formula == formula
    ensures ParseRange(v.sqref, false) == Some(ColumnRange(col, top, bottom))
  {
    RangeRoundTrip(ColumnRange(col, top, bottom), false);
    Validation(formula, RangeText(ColumnRange(col, top, bottom), false))
  }

  function SamplesSheet(samples: seq<Sample>): Sheet {
    AppendAll(EmptySheet, SamplesPreamble + SampleRows(samples))
  }

  function RunsSheet(rows: seq<seq<string>>): Sheet {
    AppendAll(EmptySheet, RunsPreamble + rows)
  }

  /** The Samples sheet: preamble, one row per sample, then the validations
      of the geographic location (column G) and the collection date
      (column F) over rows 5 to `len(samples) + 4`. */
  function SamplesWorksheet(formulas: seq<FormulaEntry>, samples: seq<Sample>): (r: Result<Worksheet>)
    ensures r.Ok? <==> Provides(formulas, GeoKey) && Provides(formulas, DateKey)
    ensures r.Ok? ==> r.value.title == "Samples"
    ensures r.Err? ==> r.error == KeyError(if Provides(formulas, GeoKey) then DateKey else GeoKey)
  {
    var n := |samples|;
    var sheet := SamplesSheet(samples);
    var geo :- Lookup(formulas, GeoKey);
    var date :- Lookup(formulas, DateKey);
    Ok(Worksheet("Samples", sheet, SamplesValidations(geo, date, n)))
  }

  /** The validations of columns G and F over rows 5 to `n + 4`, in the
      order they are added. */
  function SamplesValidations(geo: string, date: string, n: nat): (vs: seq<Validation>)
    ensures |vs| == 2 && vs[0].formula == geo && vs[1].formula == date
    ensures ParseRange(vs[0].sqref, false) == Some(ColumnRange(6, FirstSampleRow, n + 4))
    ensures ParseRange(vs[1].sqref, false) == Some(ColumnRange(5, FirstSampleRow, n + 4))
  {
    [ColumnValidation(geo, 6, FirstSampleRow, n + 4), ColumnValidation(date, 5, FirstSampleRow, n + 4)]
  }

  /** The Runs sheet: two header rows, one row per sample, then the
      validations of columns C, E, F and G over rows 3 to `len(samples) + 2`.
      An incomplete sample fails before any of these lookups. */
  function RunsWorksheet(formulas: seq<FormulaEntry>, samples: seq<Sample>): (r: Result<Worksheet>)
    ensures r.Ok? <==>
      && (forall k :: 0 <= k < |samples| ==> Complete(samples[k]))
      && (forall i :: 0 <= i < |RunsKeys| ==> Provides(formulas, RunsKeys[i]))
    ensures r.Ok? ==> r.value.title == "Runs"
    ensures r.Err? && r.error.IndexError? ==> r.error.index == 0 && exists k :: 0 <= k < |samples| && !Complete(samples[k])
    ensures r.Err? && r.error.KeyError? ==>
      && (forall k :: 0 <= k < |samples| ==> Complete(samples[k]))
      && exists i :: (0 <= i < |RunsKeys| && r.error == KeyError(RunsKeys[i]) && !Provides(formulas, RunsKeys[i])
        && forall j :: 0 <= j < i ==> Provides(formulas, RunsKeys[j]))
  {
    var n := |samples|;
    var rows :- RunRows(samples);
    var sheet := RunsSheet(rows);
    var validated :- LookupAll(formulas, RunsKeys);
    Ok(Worksheet("Runs", sheet, RunsValidations(validated, n)))
  }

  /** The validations of columns C, E, F and G over rows 3 to `n + 2`, in
      the order they are added. */
  function RunsValidations(formulas: seq<string>, n: nat): (vs: seq<Validation>)
    requires |formulas| == |RunsValidatedColumns|
    ensures |vs| == |RunsValidatedColumns|
    ensures forall i :: 0 <= i < |vs| ==>
      && vs[i].formula == formulas[i]
      && ParseRange(vs[i].sqref, false) == Some(ColumnRange(RunsValidatedColumns[i], FirstRunRow, n + 2))
  {
    seq(|formulas|, i requires 0 <= i < |formulas| =>
      ColumnValidation(formulas[i], RunsValidatedColumns[i], FirstRunRow, n + 2))
  }

  /** A validation range that runs down the sheet: it parses, and its first
      row is not below its last. */
  predicate Upright(v: Validation) {
    var range := ParseRange(v.sqref, false);
    range.Some? && range.value.first.row <= range.value.last.row
  }

  /** With no samples, both Samples ranges start one row below where they end. */
  lemma EmptySamplesRangesInverted(geo: string, date: string)
    ensures var vs := SamplesValidations(geo, date, 0); !Upright(vs[0]) && !Upright(vs[1])
  {
  }

  /** With no samples, all four Runs ranges start one row below where they end. */
  lemma EmptyRunsRangesInverted(formulas: seq<string>)
    requires |formulas| == |RunsValidatedColumns|
    ensures forall i :: 0 <= i < |RunsValidatedColumns| ==> !Upright(RunsValidations(formulas, 0)[i])
  {
  }

  /** The Samples validations without the inverted ranges: none when there
      are no samples, the program's two otherwise. */
  function GuardedSamplesValidations(geo: string, date: string, n: nat): (vs: seq<Validation>)
    ensures vs == [] <==> n == 0
    ensures forall i :: 0 <= i < |vs| ==> Upright(vs[i])
    ensures n > 0 ==> vs == SamplesValidations(geo, date, n)
  {
    if n == 0 then [] else SamplesValidations(geo, date, n)
  }

  /** The Runs validations without the inverted ranges: none when there are
      no samples, the program's four otherwise. */
  function GuardedRunsValidations(formulas: seq<string>, n: nat): (vs: seq<Validation>)
    requires |formulas| == |RunsValidatedColumns|
    ensures vs == [] <==> n == 0
    ensures forall i :: 0 <= i < |vs| ==> Upright(vs[i])
    ensures n > 0 ==> vs == RunsValidations(formulas, n)
  {
    if n == 0 then [] else RunsValidations(formulas, n)
  }

  /** The three sheets in tab order, the Runs sheet active: the shape of
      every saved workbook, whatever the number of samples. */
  predicate HasTemplateShape(wb: Workbook) {
    && |wb.sheets| == 3 && wb.active == 1
    && wb.sheets[0].title == "Samples" && wb.sheets[1].title == "Runs" && wb.sheets[2].title == "Validators"
  }

  /** The workbook from the vocabulary sheet and formulas onwards. */
  function AssembleWorkbook(validators: Sheet, formulas: seq<FormulaEntry>, samples: seq<Sample>): (r: Result<Workbook>)
    ensures r.Ok? ==> HasTemplateShape(r.value)
  {
    var samplesSheet :- SamplesWorksheet(formulas, samples);
    var runsSheet :- RunsWorksheet(formulas, samples);
    var sheets := [samplesSheet, runsSheet, Worksheet("Validators", validators, [])];
    assert sheets[0].title == "Samples" && sheets[1].title == "Runs";
    Ok(Workbook(sheets, 1))
  }

  /** `write_template_files` up to the save: everything that can fail does
      so before the file is written, so a failure writes nothing.
      `sheetName` is `quote_sheetname('Validators')`. The formulas fail
      exactly when the vocabulary sheet does, so once that sheet is written
      they are there. */
  function WriteTemplate(cfg: Config, sheetName: string, samples: seq<Sample>): (r: Result<Workbook>)
    ensures r.Ok? ==> HasTemplateShape(r.value)
  {
    var validators :- WriteValidatorSheet(cfg);
    var formulas := ValidatorFormulas(cfg, sheetName).value;
    AssembleWorkbook(validators, formulas, samples)
  }

  /** With the formulas in configuration order, a vocabulary is provided
      exactly when the configuration names it. */
  lemma ProvidesByName(cfg: Config, formulas: seq<FormulaEntry>, key: string)
    requires |formulas| == |cfg| && forall i :: 0 <= i < |cfg| ==> formulas[i].key == cfg[i].name
    ensures Provides(formulas, key) <==> key in Names(cfg)
  {
    var names := Names(cfg);
    if key in names {
      var i :| 0 <= i < |names| && names[i] == key;
      assert formulas[i].key == key;
    }
  }

  /** The configuration has a category for each vocabulary the writer looks up. */
  predicate ConfiguresAll(cfg: Config) {
    var names := Names(cfg);
    && GeoKey in names && DateKey in names && InstrumentKey in names
    && SourceKey in names && SelectionKey in names && StrategyKey in names
  }

  /** The Runs sheet's keys are provided exactly when each of the four is. */
  lemma RunsKeysProvided(formulas: seq<FormulaEntry>)
    ensures (forall i :: 0 <= i < |RunsKeys| ==> Provides(formulas, RunsKeys[i])) <==>
      && Provides(formulas, InstrumentKey) && Provides(formulas, SourceKey)
      && Provides(formulas, SelectionKey) && Provides(formulas, StrategyKey)
  {
    assert RunsKeys[0] == InstrumentKey && RunsKeys[1] == SourceKey;
    assert RunsKeys[2] == SelectionKey && RunsKeys[3] == StrategyKey;
  }

  /** When the writer succeeds and when it fails, and with which exception:
      too many categories first, then a missing vocabulary or an incomplete
      sample, each reported as the exception the program raises. */
  lemma WriteTemplateOutcome(cfg: Config, sheetName: string, samples: seq<Sample>)
    ensures WriteTemplate(cfg, sheetName, samples).Ok? <==>
      && |cfg| <= |Alphabet|
      && ConfiguresAll(cfg)
      && (forall k :: 0 <= k < |samples| ==> Complete(samples[k]))
    ensures |cfg| > |Alphabet| ==> WriteTemplate(cfg, sheetName, samples) == Err(IndexError(|Alphabet|))
  {
    if |cfg| <= |Alphabet| {
      var formulas := ValidatorFormulas(cfg, sheetName).value;
      ProvidesByName(cfg, formulas, GeoKey);
      ProvidesByName(cfg, formulas, DateKey);
      ProvidesByName(cfg, formulas, InstrumentKey);
      ProvidesByName(cfg, formulas, SourceKey);
      ProvidesByName(cfg, formulas, SelectionKey);
      ProvidesByName(cfg, formulas, StrategyKey);
      RunsKeysProvided(formulas);
      assert WriteTemplate(cfg, sheetName, samples) == AssembleWorkbook(WriteValidatorSheet(cfg).value, formulas, samples);
      var s1 := SamplesWorksheet(formulas, samples);
      if s1.Ok? {
        var s2 := RunsWorksheet(formulas, samples);
        assert s2.Err? ==> WriteTemplate(cfg, sheetName, samples) == Err(s2.error);
      }
    }
  }

  /** The exception the program raises first, read off the configuration
      and the samples in the order the writer meets them: a 27th category
      (line 86), then the geographic-location and collection-date lookups
      of the Samples sheet, then an incomplete sample on the Runs sheet,
      then the four Runs lookups in turn. `None` when nothing fails. */
  ghost function ExpectedError(cfg: Config, samples: seq<Sample>): Option<Error> {
    var names := Names(cfg);
    if |cfg| > |Alphabet| then Some(IndexError(|Alphabet|))
    else if GeoKey !in names then Some(KeyError(GeoKey))
    else if DateKey !in names then Some(KeyError(DateKey))
    else if exists k :: 0 <= k < |samples| && !Complete(samples[k]) then Some(IndexError(0))
    else if InstrumentKey !in names then Some(KeyError(InstrumentKey))
    else if SourceKey !in names then Some(KeyError(SourceKey))
    else if SelectionKey !in names then Some(KeyError(SelectionKey))
    else if StrategyKey !in names then Some(KeyError(StrategyKey))
    else None
  }

  /** A failing writer raises exactly the exception `ExpectedError` names:
      a missing Samples vocabulary before an incomplete sample, and an
      incomplete sample before a missing Runs vocabulary. */
  lemma WriteTemplateFailure(cfg: Config, sheetName: string, samples: seq<Sample>)
    requires WriteTemplate(cfg, sheetName, samples).Err?
    ensures ExpectedError(cfg, samples) == Some(WriteTemplate(cfg, sheetName, samples).error)
  {
    var r := WriteTemplate(cfg, sheetName, samples);
    if |cfg| <= |Alphabet| {
      var formulas := ValidatorFormulas(cfg, sheetName).value;
      assert r == AssembleWorkbook(WriteValidatorSheet(cfg).value, formulas, samples);
      FormulasNameConfig(cfg, sheetName, formulas);
      var s1 := SamplesWorksheet(formulas, samples);
      if s1.Err? {
        assert r == Err(s1.error);
        SamplesFailure(cfg, formulas, samples, s1.error);
      } else {
        var s2 := RunsWorksheet(formulas, samples);
        assert r == Err(s2.error);
        RunsFailure(cfg, formulas, samples, s2.error);
      }
    }
  }

  /** The formula table provides a key exactly when the configuration names it. */
  lemma FormulasNameConfig(cfg: Config, sheetName: string, formulas: seq<FormulaEntry>)
    requires |cfg| <= |Alphabet| && ValidatorFormulas(cfg, sheetName) == Ok(formulas)
    ensures forall key :: Provides(formulas, key) <==> key in Names(cfg)
  {
    forall key
      ensures Provides(formulas, key) <==> key in Names(cfg)
    {
      ProvidesByName(cfg, formulas, key);
    }
  }

  lemma SamplesFailure(cfg: Config, formulas: seq<FormulaEntry>, samples: seq<Sample>, e: Error)
    requires |cfg| <= |Alphabet| && forall key :: Provides(formulas, key) <==> key in Names(cfg)
    requires SamplesWorksheet(formulas, samples) == Err(e)
    ensures ExpectedError(cfg, samples) == Some(e)
  {
  }

  lemma RunsFailure(cfg: Config, formulas: seq<FormulaEntry>, samples: seq<Sample>, e: Error)
    requires |cfg| <= |Alphabet| && forall key :: Provides(formulas, key) <==> key in Names(cfg)
    requires SamplesWorksheet(formulas, samples).Ok? && RunsWorksheet(formulas, samples) == Err(e)
    ensures ExpectedError(cfg, samples) == Some(e)
  {
    if e.KeyError? {
      var i :| (0 <= i < |RunsKeys| && e == KeyError(RunsKeys[i]) && !Provides(formulas, RunsKeys[i])
        && forall j :: 0 <= j < i ==> Provides(formulas, RunsKeys[j]));
      RunsKeyFailure(cfg, formulas, samples, i);
    }
  }

  /** The first Runs vocabulary missing from the table is the first one
      missing from the configuration. */
  lemma RunsKeyFailure(cfg: Config, formulas: seq<FormulaEntry>, samples: seq<Sample>, i: nat)
    requires |cfg| <= |Alphabet| && forall key :: Provides(formulas, key) <==> key in Names(cfg)
    requires Provides(formulas, GeoKey) && Provides(formulas, DateKey)
    requires forall k :: 0 <= k < |samples| ==> Complete(samples[k])
    requires i < |RunsKeys| && !Provides(formulas, RunsKeys[i])
    requires forall j :: 0 <= j < i ==> Provides(formulas, RunsKeys[j])
    ensures ExpectedError(cfg, samples) == Some(KeyError(RunsKeys[i]))
  {
    assert RunsKeys[0] == InstrumentKey && RunsKeys[1] == SourceKey;
    assert RunsKeys[2] == SelectionKey && RunsKeys[3] == StrategyKey;
    assert i == 0 || i == 1 || i == 2 || i == 3;
  }

  /** A written workbook holds the vocabulary sheet the sheet writer
      produces, and the Samples and Runs sheets built from its formulas. */
  lemma WriteTemplateSheets(cfg: Config, sheetName: string, samples: seq<Sample>, wb: Workbook)
    requires WriteTemplate(cfg, sheetName, samples) == Ok(wb)
    ensures |cfg| <= |Alphabet| && |wb.sheets| == 3
    ensures IsVocabularySheet(cfg, wb.sheets[2].sheet)
    ensures Ok(wb.sheets[0]) == SamplesWorksheet(ValidatorFormulas(cfg, sheetName).value, samples)
    ensures Ok(wb.sheets[1]) == RunsWorksheet(ValidatorFormulas(cfg, sheetName).value, samples)
  {
  }

  /** Appending `preamble` and then `rows` to a fresh sheet: preamble row
      `k` is sheet row `k + 1`, data row `k` is sheet row `first + k` where
      `first` is the row below the preamble, and the last data row is the
      last row. */
  lemma PreambleThenRows(preamble: seq<seq<string>>, rows: seq<seq<string>>, first: nat)
    requires first == |preamble| + 1
    ensures var sheet := AppendAll(EmptySheet, preamble + rows);
      && |sheet.rows| + 1 == first + |rows|
      && (forall k :: 0 <= k < |preamble| ==> RowIs(sheet, 1 + k, preamble[k]))
      && (forall k :: 0 <= k < |rows| ==> RowIs(sheet, first + k, rows[k]))
  {
    LeadingRows(preamble, rows);
    TrailingRows(preamble, rows, first);
  }

  lemma LeadingRows(preamble: seq<seq<string>>, rows: seq<seq<string>>)
    ensures forall k :: 0 <= k < |preamble| ==> RowIs(AppendAll(EmptySheet, preamble + rows), 1 + k, preamble[k])
  {
    var all := preamble + rows;
    assert AppendAll(EmptySheet, all).rows == RowMaps(all);
  }

  lemma TrailingRows(preamble: seq<seq<string>>, rows: seq<seq<string>>, first: nat)
    requires first == |preamble| + 1
    ensures var sheet := AppendAll(EmptySheet, preamble + rows);
      && |sheet.rows| + 1 == first + |rows|
      && (forall k :: 0 <= k < |rows| ==> RowIs(sheet, first + k, rows[k]))
  {
    forall k | 0 <= k < |rows|
      ensures RowIs(AppendAll(EmptySheet, preamble + rows), first + k, rows[k])
    {
      TrailingRow(preamble, rows, first, k);
    }
  }

  lemma TrailingRow(preamble: seq<seq<string>>, rows: seq<seq<string>>, first: nat, k: nat)
    requires first == |preamble| + 1 && k < |rows|
    ensures RowIs(AppendAll(EmptySheet, preamble + rows), first + k, rows[k])
  {
    var all := preamble + rows;
    assert AppendAll(EmptySheet, all).rows == RowMaps(all);
    assert all[|preamble| + k] == rows[k];
  }

  /** The Samples sheet: the field names on row 3, sample `k` on row
      `k + 5`, and the last sample on the last row. */
  lemma SamplesLayout(samples: seq<Sample>)
    ensures var sheet := SamplesSheet(samples);
      && |sheet.rows| + 1 == FirstSampleRow + |samples|
      && RowIs(sheet, SamplesHeaderRow, SamplesHeader)
      && (forall k :: 0 <= k < |samples| ==> RowIs(sheet, FirstSampleRow + k, SampleRow(samples[k])))
  {
    var rows := SampleRows(samples);
    PreambleThenRows(SamplesPreamble, rows, FirstSampleRow);
    assert SamplesPreamble[2] == SamplesHeader;
    forall k | 0 <= k < |samples|
      ensures RowIs(SamplesSheet(samples), FirstSampleRow + k, SampleRow(samples[k]))
    {
      assert RowIs(SamplesSheet(samples), FirstSampleRow + k, rows[k]);
    }
  }

  /** The Runs sheet: the field names on row 2, row `k` of `rows` on sheet
      row `k + 3`, and the last one on the last row. */
  lemma RunsLayout(rows: seq<seq<string>>)
    ensures var sheet := RunsSheet(rows);
      && |sheet.rows| + 1 == FirstRunRow + |rows|
      && RowIs(sheet, RunsHeaderRow, RunsHeader)
      && (forall k :: 0 <= k < |rows| ==> RowIs(sheet, FirstRunRow + k, rows[k]))
  {
    PreambleThenRows(RunsPreamble, rows, FirstRunRow);
    assert RunsPreamble[1] == RunsHeader;
  }

  /** Validation `v` guards the vocabulary `key` over the `n` data rows from
      `firstRow` on: its range is one column from `firstRow` to
      `firstRow + n - 1`, the header cell of that column on `headerRow`
      reads `key`, and the list it offers is the formula of `key`. */
  ghost predicate GuardsDataRows(ws: Worksheet, v: Validation, formulas: seq<FormulaEntry>, key: string,
                                 headerRow: nat, firstRow: nat, n: nat)
  {
    match ParseRange(v.sqref, false)
    case None => false
    case Some(range) =>
      && range.last.col == range.first.col
      && range.first.row == firstRow && range.last.row + 1 == firstRow + n
      && Cell(ws.sheet, CellRef(range.first.col, headerRow)) == Some(key)
      && Lookup(formulas, key) == Ok(v.formula)
  }

  /** A validation built by `ColumnValidation` over the `n` rows from
      `firstRow` on, with the formula of `key`, guards those rows when the
      column's header reads `key`. */
  lemma ColumnValidationGuards(ws: Worksheet, v: Validation, formulas: seq<FormulaEntry>, key: string, formula: string,
                               col: nat, headerRow: nat, firstRow: nat, bottom: nat, n: nat)
    requires col < |Alphabet| && firstRow >= 1 && bottom >= 1 && bottom + 1 == firstRow + n
    requires Lookup(formulas, key) == Ok(formula) && v == ColumnValidation(formula, col, firstRow, bottom)
    requires Cell(ws.sheet, CellRef(col, headerRow)) == Some(key)
    ensures GuardsDataRows(ws, v, formulas, key, headerRow, firstRow, n)
  {
  }

  /** What `SamplesWorksheet` builds, piece by piece. */
  lemma SamplesWorksheetParts(formulas: seq<FormulaEntry>, samples: seq<Sample>, ws: Worksheet)
    requires SamplesWorksheet(formulas, samples) == Ok(ws)
    ensures ws.sheet == SamplesSheet(samples)
    ensures Provides(formulas, GeoKey) && Provides(formulas, DateKey)
    ensures ws.validations == SamplesValidations(Lookup(formulas, GeoKey).value, Lookup(formulas, DateKey).value, |samples|)
  {
  }

  /** The two validations of the Samples sheet guard the geographic
      location and the collection date columns over exactly the sample
      rows, which are the last rows of the sheet. */
  lemma SamplesValidationsAligned(formulas: seq<FormulaEntry>, samples: seq<Sample>, ws: Worksheet)
    requires SamplesWorksheet(formulas, samples) == Ok(ws)
    ensures |ws.sheet.rows| + 1 == FirstSampleRow + |samples|
    ensures forall k :: 0 <= k < |samples| ==> RowIs(ws.sheet, FirstSampleRow + k, SampleRow(samples[k]))
    ensures |ws.validations| == 2
    ensures GuardsDataRows(ws, ws.validations[0], formulas, GeoKey, SamplesHeaderRow, FirstSampleRow, |samples|)
    ensures GuardsDataRows(ws, ws.validations[1], formulas, DateKey, SamplesHeaderRow, FirstSampleRow, |samples|)
  {
    var n := |samples|;
    SamplesWorksheetParts(formulas, samples, ws);
    SamplesLayout(samples);
    SamplesHeaderCells(ws.sheet);
    ColumnValidationGuards(ws, ws.validations[0], formulas, GeoKey, Lookup(formulas, GeoKey).value,
                           6, SamplesHeaderRow, FirstSampleRow, n + 4, n);
    ColumnValidationGuards(ws, ws.validations[1], formulas, DateKey, Lookup(formulas, DateKey).value,
                           5, SamplesHeaderRow, FirstSampleRow, n + 4, n);
  }

  /** What `RunsWorksheet` builds, piece by piece. */
  lemma RunsWorksheetParts(formulas: seq<FormulaEntry>, samples: seq<Sample>, ws: Worksheet)
    requires RunsWorksheet(formulas, samples) == Ok(ws)
    ensures RunRows(samples).Ok? && ws.sheet == RunsSheet(RunRows(samples).value)
    ensures LookupAll(formulas, RunsKeys).Ok?
    ensures ws.validations == RunsValidations(LookupAll(formulas, RunsKeys).value, |samples|)
  {
  }

  /** The four validations of the Runs sheet guard the instrument, source,
      selection and strategy columns over exactly the run rows, which are
      the last rows of the sheet. */
  lemma RunsValidationsAligned(formulas: seq<FormulaEntry>, samples: seq<Sample>, ws: Worksheet)
    requires RunsWorksheet(formulas, samples) == Ok(ws)
    ensures |ws.sheet.rows| + 1 == FirstRunRow + |samples|
    ensures forall k :: 0 <= k < |samples| ==> RowIs(ws.sheet, FirstRunRow + k, RunRow(samples[k]).value)
    ensures |ws.validations| == |RunsKeys|
  {
    var n := |samples|;
    RunsWorksheetParts(formulas, samples, ws);
    var rows := RunRows(samples).value;
    RunsLayout(rows);
    forall k | 0 <= k < n
      ensures RowIs(ws.sheet, FirstRunRow + k, RunRow(samples[k]).value)
    {
      assert Ok(rows[k]) == RunRow(samples[k]);
    }
  }

  /** Run `k` is on row `k + 3`. */
  lemma RunRowOnSheet(formulas: seq<FormulaEntry>, samples: seq<Sample>, ws: Worksheet, k: nat)
    requires RunsWorksheet(formulas, samples) == Ok(ws)
    requires k < |samples|
    ensures Complete(samples[k]) && RowIs(ws.sheet, FirstRunRow + k, RunRow(samples[k]).value)
  {
    RunsValidationsAligned(formulas, samples, ws);
  }

  /** The `i`-th Runs validation uses the formula stored under the `i`-th
      key, on the column whose header is that key, over the data rows. */
  lemma RunsValidationGuards(formulas: seq<FormulaEntry>, samples: seq<Sample>, ws: Worksheet, i: nat)
    requires RunsWorksheet(formulas, samples) == Ok(ws)
    requires i < |RunsKeys|
    ensures i < |ws.validations|
    ensures GuardsDataRows(ws, ws.validations[i], formulas, RunsKeys[i], RunsHeaderRow, FirstRunRow, |samples|)
  {
    var n := |samples|;
    RunsWorksheetParts(formulas, samples, ws);
    RunsLayout(RunRows(samples).value);
    RunsHeaderCells(ws.sheet);
    var fs := LookupAll(formulas, RunsKeys).value;
    ColumnValidationGuards(ws, ws.validations[i], formulas, RunsKeys[i], fs[i],
                           RunsValidatedColumns[i], RunsHeaderRow, FirstRunRow, n + 2, n);
  }

  /** The header cells above the two validated columns of the Samples sheet. */
  lemma SamplesHeaderCells(sheet: Sheet)
    requires RowIs(sheet, SamplesHeaderRow, SamplesHeader)
    ensures Cell(sheet, CellRef(5, SamplesHeaderRow)) == Some(DateKey)
    ensures Cell(sheet, CellRef(6, SamplesHeaderRow)) == Some(GeoKey)
  {
    RowCells(sheet, SamplesHeaderRow, SamplesHeader);
  }

  /** The header cells above the four validated columns of the Runs sheet. */
  lemma RunsHeaderCells(sheet: Sheet)
    requires RowIs(sheet, RunsHeaderRow, RunsHeader)
    ensures forall i :: 0 <= i < |RunsKeys| ==> Cell(sheet, CellRef(RunsValidatedColumns[i], RunsHeaderRow)) == Some(RunsKeys[i])
  {
    RowCells(sheet, RunsHeaderRow, RunsHeader);
    assert RunsHeader[2] == InstrumentKey && RunsHeader[4] == SourceKey;
    assert RunsHeader[5] == SelectionKey && RunsHeader[6] == StrategyKey;
  }

  /** A validation of no data rows ends one row above where it starts and
      covers no cell at all. */
  lemma NoRowsNoCells(ws: Worksheet, v: Validation, formulas: seq<FormulaEntry>, key: string, headerRow: nat, firstRow: nat)
    requires GuardsDataRows(ws, v, formulas, key, headerRow, firstRow, 0)
    ensures ParseRange(v.sqref, false).Some?
    ensures ParseRange(v.sqref, false).value.last.row + 1 == ParseRange(v.sqref, false).value.first.row
    ensures forall c :: !Covers(ParseRange(v.sqref, false).value, c)
  {
  }

  /** With no samples the Samples ranges are `G5:G4` and `F5:F4`. */
  lemma NoSamplesRanges(formulas: seq<FormulaEntry>, ws: Worksheet)
    requires SamplesWorksheet(formulas, []) == Ok(ws)
    ensures ws.validations[0].sqref == "G5:G4" && ws.validations[1].sqref == "F5:F4"
  {
    SamplesWorksheetParts(formulas, [], ws);
    ShortRangeText(6, 5, 4);
    ShortRangeText(5, 5, 4);
  }

  /** With no samples the Runs ranges are `C3:C2`, `E3:E2`, `F3:F2` and `G3:G2`. */
  lemma NoRunsRanges(formulas: seq<FormulaEntry>, ws: Worksheet)
    requires RunsWorksheet(formulas, []) == Ok(ws)
    ensures |ws.validations| == 4
    ensures ws.validations[0].sqref == "C3:C2" && ws.validations[1].sqref == "E3:E2"
    ensures ws.validations[2].sqref == "F3:F2" && ws.validations[3].sqref == "G3:G2"
  {
    RunsWorksheetParts(formulas, [], ws);
    EmptyRunsRangeTexts(LookupAll(formulas, RunsKeys).value);
  }

  lemma EmptyRunsRangeTexts(formulas: seq<string>)
    requires |formulas| == |RunsValidatedColumns|
    ensures var vs := RunsValidations(formulas, 0);
      && vs[0].sqref == "C3:C2" && vs[1].sqref == "E3:E2" && vs[2].sqref == "F3:F2" && vs[3].sqref == "G3:G2"
  {
    ShortRangeText(2, 3, 2);
    ShortRangeText(4, 3, 2);
    ShortRangeText(5, 3, 2);
    ShortRangeText(6, 3, 2);
  }
}
