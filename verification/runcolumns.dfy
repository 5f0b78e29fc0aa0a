/** Which value lands under which header on the Runs sheet. The header
    names twelve columns, but a run row holds only eleven values: the blank
    for `library_layout` is missing, so every value from the forward file
    name on sits one column to the left of its header. */
module RunColumns {
  import opened Outcomes
  import opened Addressing
  import opened Sheets
  import opened Validators
  import opened Template

  /** The fields of a run, in the order the Runs header names them. */
  datatype RunsField =
    | SampleAlias | Study | InstrumentModel | LibraryName | LibrarySource | LibrarySelection
    | LibraryStrategy | LibraryLayout | ForwardFileName | ForwardFileMd5 | ReverseFileName | ReverseFileMd5

  /** The header text of each field. */
  function FieldName(f: RunsField): string {
    match f
    case SampleAlias => "sample"
    case Study => "study"
    case InstrumentModel => InstrumentKey
    case LibraryName => "library_name"
    case LibrarySource => SourceKey
    case LibrarySelection => SelectionKey
    case LibraryStrategy => StrategyKey
    case LibraryLayout => "library_layout"
    case ForwardFileName => "forward_file_name"
    case ForwardFileMd5 => "forward_file_md5"
    case ReverseFileName => "reverse_file_name"
    case ReverseFileMd5 => "reverse_file_md5"
  }

  /** The fields column by column, as the header lists them. */
  const RunsColumns: seq<RunsField> :=
    [SampleAlias, Study, InstrumentModel, LibraryName, LibrarySource, LibrarySelection,
     LibraryStrategy, LibraryLayout, ForwardFileName, ForwardFileMd5, ReverseFileName, ReverseFileMd5]

  /** Column `j` of the header names field `j`. */
  lemma ColumnsNameHeader()
    ensures |RunsColumns| == |RunsHeader|
    ensures forall j :: 0 <= j < |RunsColumns| ==> FieldName(RunsColumns[j]) == RunsHeader[j]
  {
    forall j | 0 <= j < |RunsColumns|
      ensures FieldName(RunsColumns[j]) == RunsHeader[j]
    {
      if j < 4 {
        assert j == 0 || j == 1 || j == 2 || j == 3;
      } else if j < 8 {
        assert j == 4 || j == 5 || j == 6 || j == 7;
      } else {
        assert j == 8 || j == 9 || j == 10 || j == 11;
      }
    }
  }

  /** The value a sample's run row is meant to carry under field `f`: the
      alias under `sample` and `library_name`, the first file of each
      direction (its base name) and its checksum under the file columns,
      and a blank for the user to fill in everywhere else. */
  function RunField(s: Sample, f: RunsField): string
    requires Complete(s)
  {
    match f
    case SampleAlias | LibraryName => s.prefix
    case ForwardFileName => Basename(s.r1[0])
    case ForwardFileMd5 => s.md5r1[0]
    case ReverseFileName => Basename(s.r2[0])
    case ReverseFileMd5 => s.md5r2[0]
    case _ => ""
  }

  /** The program's run row against the header: the first seven values sit
      under their own field, and the value meant for each field from
      `forward_file_name` on sits one column to the left of it, so the row
      is one value short of the header. */
  lemma RunRowShift(s: Sample)
    requires Complete(s)
    ensures var row := RunRow(s).value;
      && |row| + 1 == |RunsColumns|
      && (forall j :: 0 <= j < 7 ==> row[j] == RunField(s, RunsColumns[j]))
      && (forall j :: 8 <= j < |RunsColumns| ==> row[j - 1] == RunField(s, RunsColumns[j]))
  {
    var row := RunRow(s).value;
    forall j | 0 <= j < 7
      ensures row[j] == RunField(s, RunsColumns[j])
    {
      assert j == 0 || j == 1 || j == 2 || j == 3 || j == 4 || j == 5 || j == 6;
    }
    forall j | 8 <= j < |RunsColumns|
      ensures row[j - 1] == RunField(s, RunsColumns[j])
    {
      assert j == 8 || j == 9 || j == 10 || j == 11;
    }
  }

  /** The run row as the header lays it out: a blank under `library_layout`
      and then the files and checksums, so that every value sits under the
      field that names it. */
  function AlignedRunRow(s: Sample): (r: Result<seq<string>>)
    ensures r.Ok? <==> Complete(s)
    ensures r.Err? ==> r.error == IndexError(0)
    ensures r.Ok? ==> |r.value| == |RunsColumns| && forall j :: 0 <= j < |RunsColumns| ==> r.value[j] == RunField(s, RunsColumns[j])
  {
    if |s.r1| == 0 || |s.md5r1| == 0 || |s.r2| == 0 || |s.md5r2| == 0 then Err(IndexError(0))
    else
      var row := [s.prefix, "", "", s.prefix, "", "", "", "", Basename(s.r1[0]), s.md5r1[0], Basename(s.r2[0]), s.md5r2[0]];
      AlignedValues(s, row);
      Ok(row)
  }

  lemma AlignedValues(s: Sample, row: seq<string>)
    requires Complete(s)
    requires row == [s.prefix, "", "", s.prefix, "", "", "", "", Basename(s.r1[0]), s.md5r1[0], Basename(s.r2[0]), s.md5r2[0]]
    ensures |row| == |RunsColumns| && forall j :: 0 <= j < |RunsColumns| ==> row[j] == RunField(s, RunsColumns[j])
  {
    forall j | 0 <= j < |RunsColumns|
      ensures row[j] == RunField(s, RunsColumns[j])
    {
      if j < 4 {
        assert j == 0 || j == 1 || j == 2 || j == 3;
      } else if j < 8 {
        assert j == 4 || j == 5 || j == 6 || j == 7;
      } else {
        assert j == 8 || j == 9 || j == 10 || j == 11;
      }
    }
  }

  /** The aligned row is the program's row with the missing blank put back
      in front of the forward file name. */
  lemma AlignedRowInsertsLayout(s: Sample)
    requires Complete(s)
    ensures AlignedRunRow(s).value == RunRow(s).value[..7] + [""] + RunRow(s).value[7..]
  {
  }

  /** On the sheet the program writes, the value run `k` is meant to carry
      under each of the headers in columns I to L sits one column to the
      left, and the `reverse_file_md5` column (L) holds no value on any run
      row. */
  lemma RunsSheetShift(formulas: seq<FormulaEntry>, samples: seq<Sample>, ws: Worksheet, k: nat)
    requires RunsWorksheet(formulas, samples) == Ok(ws)
    requires k < |samples|
    ensures Complete(samples[k])
    ensures forall j :: 8 <= j < |RunsColumns| ==>
      Cell(ws.sheet, CellRef(j - 1, FirstRunRow + k)) == Some(RunField(samples[k], RunsColumns[j]))
    ensures Cell(ws.sheet, CellRef(11, FirstRunRow + k)) == None
  {
    RunRowOnSheet(formulas, samples, ws, k);
    ShiftedCells(ws.sheet, FirstRunRow + k, samples[k]);
  }

  /** A row holding the program's run row for `s` holds each value meant
      for columns I to L one column to the left, and nothing in L. */
  lemma ShiftedCells(sheet: Sheet, n: nat, s: Sample)
    requires Complete(s) && RowIs(sheet, n, RunRow(s).value)
    ensures forall j :: 8 <= j < |RunsColumns| ==> Cell(sheet, CellRef(j - 1, n)) == Some(RunField(s, RunsColumns[j]))
    ensures Cell(sheet, CellRef(11, n)) == None
  {
    RowCells(sheet, n, RunRow(s).value);
    RunRowShift(s);
  }

  /** Row 2 of the Runs sheet holds the header. */
  lemma RunsHeaderOnSheet(formulas: seq<FormulaEntry>, samples: seq<Sample>, ws: Worksheet)
    requires RunsWorksheet(formulas, samples) == Ok(ws)
    ensures RowIs(ws.sheet, RunsHeaderRow, RunsHeader)
  {
    RunsWorksheetParts(formulas, samples, ws);
    RunsLayout(RunRows(samples).value);
  }

  /** On every run row, the forward checksum sits in column I, headed
      `forward_file_name`, and the forward file name in column H, headed
      `library_layout`. */
  lemma ChecksumUnderFileName(formulas: seq<FormulaEntry>, samples: seq<Sample>, ws: Worksheet, k: nat)
    requires RunsWorksheet(formulas, samples) == Ok(ws)
    requires k < |samples|
    ensures Complete(samples[k])
    ensures Cell(ws.sheet, CellRef(8, RunsHeaderRow)) == Some("forward_file_name")
    ensures Cell(ws.sheet, CellRef(8, FirstRunRow + k)) == Some(samples[k].md5r1[0])
    ensures Cell(ws.sheet, CellRef(7, RunsHeaderRow)) == Some("library_layout")
    ensures Cell(ws.sheet, CellRef(7, FirstRunRow + k)) == Some(Basename(samples[k].r1[0]))
  {
    RunsHeaderOnSheet(formulas, samples, ws);
    ShiftedHeaderCells(ws.sheet);
    RunRowOnSheet(formulas, samples, ws, k);
    ForwardCells(ws.sheet, FirstRunRow + k, samples[k]);
  }

  /** Columns H and I of the header. */
  lemma ShiftedHeaderCells(sheet: Sheet)
    requires RowIs(sheet, RunsHeaderRow, RunsHeader)
    ensures Cell(sheet, CellRef(7, RunsHeaderRow)) == Some("library_layout")
    ensures Cell(sheet, CellRef(8, RunsHeaderRow)) == Some("forward_file_name")
  {
    RowCells(sheet, RunsHeaderRow, RunsHeader);
  }

  /** Columns H and I of a run row. */
  lemma ForwardCells(sheet: Sheet, n: nat, s: Sample)
    requires Complete(s) && RowIs(sheet, n, RunRow(s).value)
    ensures Cell(sheet, CellRef(7, n)) == Some(Basename(s.r1[0]))
    ensures Cell(sheet, CellRef(8, n)) == Some(s.md5r1[0])
  {
    RowCells(sheet, n, RunRow(s).value);
  }

  /** A sample whose checksum lands under `forward_file_name`. */
  const ShiftedSample := Sample("s1", ["raw/s1_1.fq"], ["c0ffee"], ["raw/s1_2.fq"], ["beef"])

  /** The run row written for `ShiftedSample`: `c0ffee` in the column headed
      `forward_file_name`, and the file name in the one headed
      `library_layout`. */
  lemma ShiftedSampleRow()
    ensures RunRow(ShiftedSample).Ok?
    ensures RunsHeader[8] == "forward_file_name" && RunRow(ShiftedSample).value[8] == "c0ffee"
    ensures RunsHeader[7] == "library_layout" && RunRow(ShiftedSample).value[7] == "s1_1.fq"
  {
    assert LastIndexOf(ShiftedSample.r1[0], '/') == Some(3);
  }
}
