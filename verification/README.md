# ena-upload: a Dafny model of the template writer and the uploader

`ena-upload` helps users submit sequencing reads to the European Nucleotide
Archive. Its command-line tool has two sub-commands:

- `discover` finds FASTQ files, groups them into samples and writes
  `samples.xlsx`. This is a metadata template with three sheets:
  - **Samples**, one row per sample;
  - **Runs**, one row per sample, holding the read files and their MD5 checksums;
  - **Validators**, the controlled vocabularies from `config.toml`.

  List validations restrict the vocabulary-bound columns of the first two
  sheets to the ranges of the third.
- `upload` reads the tab-separated runs file and sends each run's forward
  and reverse files to the ENA FTP server.

This project models the logic of `src/ena_upload/__init__.py`:

- the vocabulary sheet and the formulas that point into it
  (`write_validator_sheet`, `get_validator_formulas`);
- the workbook writer (`write_template_files`);
- the mode dispatch of `disccover_files`;
- the transfer list that `upload_fastq_files` builds.

It proves what these operations promise: where each value lands, which cells each validation covers, when the writer fails and with which exception, and in which order the files go out.

## Modules

| file | module | contents |
|---|---|---|
| `outcomes.dfy` | `Outcomes` | Python's `IndexError` and `KeyError`, `Option`, and a `Result` that propagates failures |
| `decimal.dfy` | `Decimal` | rendering row numbers as text and reading them back |
| `addressing.dfy` | `Addressing` | A1 cell, range and formula texts, and their parsers |
| `sheets.dfy` | `Sheets` | a worksheet as its rows, with `append` and single-cell assignment |
| `validators.dfy` | `Validators` | the Validators sheet and the formula table |
| `template.dfy` | `Template` | the Samples and Runs sheets, their validations, the workbook and its failure modes |
| `runcolumns.dfy` | `RunColumns` | which Runs value sits under which header |
| `upload.dfy` | `Upload` | the transfer list and the FTP `STOR` commands |
| `discovery.dfy` | `Discovery` | the finder chosen by the `discover` mode |

Python exceptions become `Err` values. Their order of evaluation is kept, so the exception the model reports is the one the program raises first.

## Model

| member | source | states |
|---|---|---|
| Decimal.DecimalText | src/ena_upload/__init__.py:88-89 | the text of a row number is a non-empty run of digits with no leading zero |
| Decimal.DecimalRoundTrip | src/ena_upload/__init__.py:88-89 | reading back the decimal text of a row number gives that number |
| Addressing.ColumnLetter | src/ena_upload/__init__.py:86 | `alphabet[i]` is a letter naming column `i` exactly when `i < 26`; past Z it is `IndexError(i)` |
| Addressing.CellText | src/ena_upload/__init__.py:89 | an address starts with `$` exactly when it is absolute, and holds neither `:` nor `!` |
| Addressing.RangeText | src/ena_upload/__init__.py:134 | a range text holds no `!`, and its first `:` follows the first corner's address |
| Addressing.FormulaText | src/ena_upload/__init__.py:98 | a formula text is the sheet name, then `!`, then a range holding no `!`, so its last `!` ends the sheet name |
| Addressing.CellRoundTrip | src/ena_upload/__init__.py:89 | an address such as `C7` or `$C$7` parses back to the cell it names |
| Addressing.RangeRoundTrip | src/ena_upload/__init__.py:134 | a range text such as `G5:G9` parses back to both of its corners |
| Addressing.FormulaRoundTrip | src/ena_upload/__init__.py:98 | a formula `sheet!$A$2:$A$7` parses back to its sheet name, whatever characters the name holds, and to its range |
| Addressing.CellTextInjective | src/ena_upload/__init__.py:89 | two different cells never share an address |
| Addressing.ColumnRange | src/ena_upload/__init__.py:134 | a one-column range covers exactly that column's cells from the top row to the bottom row |
| Sheets.Append | src/ena_upload/__init__.py:84 | `ws.append` adds one row below the existing ones, leaves those unchanged, and the new row holds exactly the given values |
| Sheets.AppendAll | src/ena_upload/__init__.py:120-128 | appending rows one at a time leaves the sheet's old rows followed by exactly those rows, in order |
| Sheets.SetAt | src/ena_upload/__init__.py:89-90 | assigning to a cell by its address sets that cell and no other, and creates rows only down to that cell |
| Sheets.RowCells | src/ena_upload/__init__.py:84 | a row written from a list holds list item `j` in column `j` and nothing beyond the list |
| Validators.Names | src/ena_upload/__init__.py:84 | the header row lists the category names, one per configured category, in configuration order |
| Validators.WriteValues | src/ena_upload/__init__.py:87-90 | value `j` of a category goes to row `j + 2` of its column, and every other cell is unchanged |
| Validators.WriteCategories | src/ena_upload/__init__.py:85-90 | category `i`'s values fill column `i` from row 2, nothing else changes, and the loop fails with `IndexError(26)` exactly when there are more than 26 categories |
| Validators.WriteValidatorSheet | src/ena_upload/__init__.py:82-90 | the vocabulary sheet holds the names on row 1, each category's values down its own column from row 2, and nothing else; it fails exactly past 26 categories, with `IndexError(26)` |
| Validators.FormulasFrom | src/ena_upload/__init__.py:97-98 | one entry per category, in order, each holding the formula text of that category's block |
| Validators.ValidatorFormulas | src/ena_upload/__init__.py:93-100 | formula `i` is keyed by category `i`'s name and parses to column `i`, rows 2 to `len(values) + 1`, on the given sheet; it fails exactly as the sheet writer does |
| Validators.FormulaEntriesParse | src/ena_upload/__init__.py:98 | every formula the table holds reads back as its category's vocabulary block |
| Validators.Lookup | src/ena_upload/__init__.py:130 | `formulas[key]` succeeds exactly when some entry has that key, and returns that entry's formula; otherwise it is `KeyError(key)` |
| Validators.LookupAll | src/ena_upload/__init__.py:152-170 | looking up several keys succeeds exactly when every key is present and gives each key's formula in order; otherwise it raises the `KeyError` of the first missing key, in lookup order |
| Validators.LookupFindsEntry | src/ena_upload/__init__.py:95-98 | with distinct category names, looking up the `i`-th name returns the `i`-th formula |
| Validators.HeaderAndValuesAreLayout | src/ena_upload/__init__.py:84-90 | the header row followed by the value columns is exactly the vocabulary layout |
| Validators.RangeMatchesLayout | src/ena_upload/__init__.py:86-98 | a category's range covers exactly the non-empty cells of its column below the header, and reads its values top to bottom in configuration order |
| Validators.FormulaCoversWrittenValues | src/ena_upload/__init__.py:82-100 | the formula stored under a category's name points at exactly the cells the sheet writer filled with that category's values, and its height is the number of values |
| Template.Basename | src/ena_upload/__init__.py:150 | `os.path.split(p)[-1]` is the suffix of `p` after its last `/`, and contains no `/` (POSIX paths) |
| Template.SampleRow | src/ena_upload/__init__.py:124-128 | a sample's row puts its alias under `sample_alias`, `sample_title` and `sample_description`, blanks under the other named fields, and stops before the two validated fields, collection date and geographic location |
| Template.SampleRows | src/ena_upload/__init__.py:127-128 | there is one Samples row per sample, in sample order |
| Template.RunRow | src/ena_upload/__init__.py:150 | a Runs row exists exactly when the sample has a first file and checksum in both directions, and it is one value shorter than the header; otherwise it is `IndexError(0)` |
| Template.RunRows | src/ena_upload/__init__.py:149-150 | the Runs loop gives one row per sample, in order, and fails with `IndexError(0)` exactly when some sample is incomplete |
| Template.SamplesWorksheet | src/ena_upload/__init__.py:119-141 | the Samples sheet is built exactly when the geographic-location and collection-date vocabularies exist; otherwise it is the `KeyError` of the first missing one, in lookup order |
| Template.RunsWorksheet | src/ena_upload/__init__.py:144-174 | the Runs sheet is built exactly when every sample is complete and all four run vocabularies exist; an incomplete sample fails first with `IndexError(0)`, then the first missing vocabulary, in lookup order, with its `KeyError` |
| Template.AssembleWorkbook | src/ena_upload/__init__.py:110-145 | a built workbook has the sheets Samples, Runs and Validators in tab order, with Runs active (`HasTemplateShape`) |
| Template.WriteTemplate | src/ena_upload/__init__.py:103-180 | a written template always has the three-sheet shape, whatever the number of samples |
| Template.ProvidesByName | src/ena_upload/__init__.py:97-98 | the formula table has an entry for a key exactly when the configuration names a category with that key |
| Template.WriteTemplateOutcome | src/ena_upload/__init__.py:103-174 | the writer succeeds exactly when there are at most 26 categories, all six vocabularies are configured and every sample is complete; past 26 categories it is `IndexError(26)` |
| Template.WriteTemplateFailure | src/ena_upload/__init__.py:115-174 | a failing writer raises the exception `ExpectedError` names, in the program's order: `IndexError(26)` for a 27th category, then the `KeyError` of a missing geographic-location or collection-date vocabulary, then `IndexError(0)` for an incomplete sample, then the `KeyError` of the first missing Runs vocabulary |
| Template.WriteTemplateSheets | src/ena_upload/__init__.py:103-180 | a written template holds the vocabulary sheet of the configuration, and exactly the Samples and Runs sheets built from its formulas and the samples |
| Template.ColumnValidation | src/ena_upload/__init__.py:134 | a validation keeps its vocabulary's formula, and its cell text parses back to the one-column range from the top row to the bottom row |
| Template.SamplesValidations | src/ena_upload/__init__.py:130-141 | the geographic-location formula guards column G and the collection-date formula column F, both from row 5 to `n + 4` |
| Template.RunsValidations | src/ena_upload/__init__.py:152-174 | the four run vocabularies' formulas guard columns C, E, F and G, in that order, from row 3 to `n + 2` |
| Template.EmptySamplesRangesInverted | src/ena_upload/__init__.py:134-141 | with no samples both Samples ranges start below the row where they end |
| Template.EmptyRunsRangesInverted | src/ena_upload/__init__.py:156-174 | with no samples all four Runs ranges start below the row where they end |
| Template.GuardedSamplesValidations | src/ena_upload/__init__.py:130-141 | the corrected Samples validations are absent exactly when there are no samples, always run top to bottom, and are the program's otherwise |
| Template.GuardedRunsValidations | src/ena_upload/__init__.py:152-174 | the corrected Runs validations are absent exactly when there are no samples, always run top to bottom, and are the program's otherwise |
| Template.PreambleThenRows | src/ena_upload/__init__.py:120-128 | after a preamble of `p` rows, data row `k` is sheet row `p + 1 + k`, and the last data row is the last row of the sheet |
| Template.SamplesLayout | src/ena_upload/__init__.py:120-128 | on the Samples sheet (`SamplesSheet`, the four preamble rows then one row per sample) the field names are on row 3, sample `k` is on row `k + 5`, and the last sample is the last row |
| Template.RunsLayout | src/ena_upload/__init__.py:146-150 | on the Runs sheet (`RunsSheet`, the two preamble rows then one row per run) the field names are on row 2, run `k` is on row `k + 3`, and the last run is the last row |
| Template.ColumnValidationGuards | src/ena_upload/__init__.py:134 | a validation built over one column from the first data row to `n + offset` spans exactly the `n` data rows, under the header cell of its vocabulary |
| Template.SamplesValidationsAligned | src/ena_upload/__init__.py:127-141 | the two Samples validations cover exactly the sample rows, in columns G and F, whose header cells name the geographic location and the collection date, and each uses that vocabulary's formula |
| Template.RunsValidationsAligned | src/ena_upload/__init__.py:149-150 | the run rows are the last rows of the Runs sheet, run `k` on row `k + 3`, and the sheet has four validations |
| Template.RunRowOnSheet | src/ena_upload/__init__.py:149-150 | run `k` is written on row `k + 3`, exactly as the program's row for that sample |
| Template.RunsValidationGuards | src/ena_upload/__init__.py:152-174 | each Runs validation covers exactly the run rows of the column whose header names its vocabulary (C, E, F, G), and uses that vocabulary's formula |
| Template.NoRowsNoCells | src/ena_upload/__init__.py:134 | with no data rows a validation's range ends one row above where it starts, and covers no cell |
| Template.NoSamplesRanges | src/ena_upload/__init__.py:134-141 | with no samples the Samples ranges are the inverted `G5:G4` and `F5:F4` |
| Template.NoRunsRanges | src/ena_upload/__init__.py:156-174 | with no samples the Runs ranges are the inverted `C3:C2`, `E3:E2`, `F3:F2` and `G3:G2` |
| RunColumns.ColumnsNameHeader | src/ena_upload/__init__.py:147 | the twelve run fields, in column order, are exactly the names the Runs header lists |
| RunColumns.RunRowShift | src/ena_upload/__init__.py:147-150 | the written row has 11 values for 12 fields: the first seven sit under their own field, and each value meant for the fields of columns I to L sits one column to the left |
| RunColumns.RunsSheetShift | src/ena_upload/__init__.py:147-150 | on the written sheet, run `k`'s value for each header in I to L is in the column to its left, and column L (`reverse_file_md5`) is empty on every run row |
| RunColumns.ChecksumUnderFileName | src/ena_upload/__init__.py:147-150 | on every run row the forward checksum is under `forward_file_name` and the forward file name is under `library_layout` |
| RunColumns.ShiftedSampleRow | src/ena_upload/__init__.py:150 | for a sample with forward file `raw/s1_1.fq` and checksum `c0ffee`, `c0ffee` lands under `forward_file_name` and `s1_1.fq` under `library_layout` |
| RunColumns.AlignedRunRow | src/ena_upload/__init__.py:147 | the corrected row exists exactly when the sample is complete (otherwise `IndexError(0)`), and has one value per field, each in the column of the field it belongs to |
| RunColumns.AlignedRowInsertsLayout | src/ena_upload/__init__.py:150 | the corrected row is the written row with a blank `library_layout` inserted before the forward file name |
| Upload.RecordFiles | src/ena_upload/__init__.py:57-58 | a runs-file record gives its forward and then its reverse file exactly when it has both columns; otherwise it raises the `KeyError` of the first column it lacks |
| Upload.TransferList | src/ena_upload/__init__.py:55-58 | the list is built exactly when every record names both files; it has `2m` entries, with record `k`'s forward file at `2k` and its reverse file at `2k + 1` |
| Upload.TransferListFirstFailure | src/ena_upload/__init__.py:56-58 | a failing list reports the `KeyError` of the first record that lacks a column; every earlier record names both files |
| Upload.TransferListAppend | src/ena_upload/__init__.py:56-58 | the list for two batches of records is the list of the first followed by the list of the second, and a failure in the first batch wins |
| Upload.CollectTransfers | src/ena_upload/__init__.py:55-58 | the record-by-record loop computes exactly the transfer list, including which error stops it |
| Upload.StoreCommands | src/ena_upload/__init__.py:62-63 | one `STOR <file>` command per listed file, in list order |
| Upload.StoredFile | src/ena_upload/__init__.py:63 | a command text names a stored file exactly when it starts with `STOR `, and is `STOR ` followed by that file |
| Upload.StoreCommandsRoundTrip | src/ena_upload/__init__.py:55-63 | reading the files back from the commands gives exactly the transfer list: nothing dropped, added, renamed or reordered |
| Upload.TwoRunsTransferInOrder | src/ena_upload/__init__.py:55-58 | two runs send their four files as forward, reverse, forward, reverse; extra columns are ignored |
| Discovery.DiscoveryScan | src/ena_upload/__init__.py:67-70 | the single-end finder is chosen exactly when the mode is the literal `SINGLE`; otherwise the paired finder scans `.` with both patterns |
| Discovery.CliModesScanPaired | src/ena_upload/__init__.py:67-70 | both modes the command line accepts (line 41), `single` and `paired`, choose the paired finder over `.` |
| Discovery.SingleModeScansPairs | src/ena_upload/__init__.py:67-70 | `discover single -1 _R1.fq` asks the paired finder for pairs, with no reverse pattern |
| Discovery.SingleBranchDirectory | src/ena_upload/__init__.py:68 | the single-end branch scans a directory named `,` |
| Discovery.IntendedScan | src/ena_upload/__init__.py:41 | the corrected dispatch chooses the single-end finder exactly for `single`, always scans `.` with the given patterns, and agrees with the program's dispatch exactly for `paired` |
| Discovery.DiscoverFiles | src/ena_upload/__init__.py:66-75 | a `discover` run that writes a template writes a three-sheet one |
| Discovery.DiscoverWritesPairedSamples | src/ena_upload/__init__.py:66-75 | from the command line, the template always holds what the paired finder found in `.`, whatever the mode |

## Left out

- The FTP connection and login, opening and streaming the files, and the
  `tqdm` progress bar (lines 60-63). They are I/O; only the `STOR`
  command texts are modelled.
- Reading `config.toml` and the runs file.
  - The configuration is a parameter: the `validators` table, as a
    sequence of categories in file order.
  - A runs record is a map from column name to string. `csv.DictReader`'s
    `None` for the missing values of a short row is not modelled.
- The FASTQ finders and `calculate_md5` (`fastq_files`, lines 68-73). That
  module is not part of this model. The finder is a function parameter of
  `Discovery.DiscoverFiles`, and the checksums are part of the samples it
  returns.
- Sample variants. `Template.Sample` always carries forward and reverse
  lists, and an empty list stands for a missing one. The attribute error a
  single-end sample would raise at line 150 is modelled as the
  `IndexError` of an empty list. From the command line that branch is
  unreachable anyway (see Findings).
- openpyxl internals.
  - `quote_sheetname('Validators')` is the `sheetName` parameter.
  - The `DataValidation` type, `allow_blank`, `showErrorMessage` and the
    error titles and messages are not modelled; only each validation's
    formula and cell range are.
  - What openpyxl or a spreadsheet program makes of an inverted range
    such as `G5:G4` is not modelled: the model shows that the range is
    written and covers no cell (see Findings).
  - Addresses are one-letter A1 addresses, the only kind the program
    builds.
- `wb.save("samples.xlsx")` (line 180) is file I/O. The model ends with the
  workbook value.
- `argparse`: only the set of accepted `mode` values (line 41) is modelled.
- Template.WriteTemplate, Discovery.DiscoverFiles and
  Template.AssembleWorkbook state only the workbook's shape. Their contents
  are stated by the lemmas about each sheet and by
  Template.WriteTemplateSheets, and when and how they fail by
  Template.WriteTemplateOutcome and Template.WriteTemplateFailure.
- Template.WriteTemplateOutcome: with no samples it counts the writer as
  successful, so it assumes openpyxl accepts the inverted ranges `G5:G4`,
  `F5:F4`, `C3:C2`, `E3:E2`, `F3:F2` and `G3:G2`. openpyxl is not part of
  this model, and its range parser may reject a range whose first row is
  below its last.
- Template.Basename: `os.path` is modelled as `posixpath`. On Windows,
  `ntpath` also splits at `\` and after a drive such as `C:`.
- Template.RunsWorksheet: for an incomplete sample it states that some
  sample is incomplete, not which one comes first.
- A missing vocabulary raises Python's `KeyError`, as the code does; there
  is no separate error kind for it.

## Findings

| source | as written | input that shows it | evidently intended | confidence | as-written member | corrected member |
|---|---|---|---|---|---|---|
| src/ena_upload/__init__.py:147-150 | the Runs header has 12 columns, but each run row has 11 values because the blank for `library_layout` is missing | any complete sample, e.g. forward file `raw/s1_1.fq` with checksum `c0ffee`: `c0ffee` lands under `forward_file_name`, `s1_1.fq` under `library_layout`, and `reverse_file_md5` stays empty | a blank under `library_layout`, then the files and checksums under their own headers | high (not executed) | RunColumns.RunRowShift | RunColumns.AlignedRunRow |
| src/ena_upload/__init__.py:41-70 | the dispatch tests `mode == 'SINGLE'`, but the command line only accepts `single` and `paired` | `discover single -1 _R1.fq` runs the paired finder | `single` selects the single-end finder | high (not executed) | Discovery.SingleModeScansPairs | Discovery.IntendedScan |
| src/ena_upload/__init__.py:130-141 | with no samples the Samples validations are added over `G5:G4` and `F5:F4`, ranges that start below their last row | `write_template_files([])` | no Samples validation, or a range over the sample rows only; openpyxl may raise `ValueError` on the inverted range | low (not executed) | Template.EmptySamplesRangesInverted | Template.GuardedSamplesValidations |
| src/ena_upload/__init__.py:152-174 | with no samples the Runs validations are added over `C3:C2`, `E3:E2`, `F3:F2` and `G3:G2` | `write_template_files([])` | no Runs validation, or a range over the run rows only | low (not executed) | Template.EmptyRunsRangesInverted | Template.GuardedRunsValidations |
| src/ena_upload/__init__.py:68 | the single-end finder scans the directory `","` | `DiscoveryScan("SINGLE", r, None)` scans `,` | the working directory `"."`, as the paired branch uses | medium (not executed) | Discovery.SingleBranchDirectory | Discovery.IntendedScan |

The workbook model keeps the program's behaviour: `Template.RunRow`
writes the shifted 11-value row, the worksheets carry the inverted ranges
when there are no samples, and `Discovery.DiscoverFiles` dispatches on
`SINGLE`. The corrected definitions, `RunColumns.AlignedRunRow`,
`Template.GuardedSamplesValidations`, `Template.GuardedRunsValidations` and
`Discovery.IntendedScan`, sit beside them, and their contracts state the
intended behaviour. The
model shows what the program writes and also what it was meant to write.
