/** `disccover_files`: which directory scan the `discover` command asks
    the sample finder for, and the template written from what it finds. */
module Discovery {
  import opened Outcomes
  import opened Validators
  import opened Template

  /** A request to the sample finder: single-end files matching `regex1`
      in `directory`, or read pairs matching `regex1` and `regex2`. The
      reverse pattern is optional on the command line. */
  datatype Scan =
    | SingleScan(directory: string, regex1: string)
    | PairedScan(directory: string, regex1: string, regex2: Option<string>)

  /** The values the command line accepts for `mode`. */
  const CliModes: seq<string> := ["single", "paired"]

  /** The scan as the program chooses it: the single-end finder, over the
      directory named ",", when `mode` is exactly `SINGLE`, and the paired
      finder over the working directory otherwise. */
  function DiscoveryScan(mode: string, regex1: string, regex2: Option<string>): (s: Scan)
    ensures s.SingleScan? <==> mode == "SINGLE"
    ensures s.PairedScan? ==> s == PairedScan(".", regex1, regex2)
  {
    if mode == "SINGLE" then SingleScan(",", regex1) else PairedScan(".", regex1, regex2)
  }

  /** Every mode the command line lets through selects the paired finder
      over the working directory: the single-end branch is unreachable. */
  lemma CliModesScanPaired(mode: string, regex1: string, regex2: Option<string>)
    requires mode in CliModes
    ensures DiscoveryScan(mode, regex1, regex2) == PairedScan(".", regex1, regex2)
  {
  }

  /** `discover single -1 _R1.fq` asks for read pairs, with no reverse pattern. */
  lemma SingleModeScansPairs()
    ensures DiscoveryScan("single", "_R1.fq", None) == PairedScan(".", "_R1.fq", None)
  {
  }

  /** Even when the single-end branch is taken, it scans a directory named
      "," rather than the working directory. */
  lemma SingleBranchDirectory(regex1: string, regex2: Option<string>)
    ensures DiscoveryScan("SINGLE", regex1, regex2).directory == ","
  {
  }

  /** The scan the command line promises: single-end files for `single`,
      read pairs for `paired`, both over the working directory. It agrees
      with the program's scan on `paired` only. */
  function IntendedScan(mode: string, regex1: string, regex2: Option<string>): (s: Scan)
    requires mode in CliModes
    ensures s.SingleScan? <==> mode == "single"
    ensures s.directory == "." && s.regex1 == regex1
    ensures s.PairedScan? ==> s.regex2 == regex2
    ensures s == DiscoveryScan(mode, regex1, regex2) <==> mode == "paired"
  {
    if mode == "single" then SingleScan(".", regex1) else PairedScan(".", regex1, regex2)
  }

  /** The whole command: scan, then write the template from the samples
      the finder returns. The finder is outside this model, so it is a
      parameter; the checksums it computes are part of what it returns. */
  function DiscoverFiles(cfg: Config, sheetName: string, mode: string, regex1: string, regex2: Option<string>,
                         find: Scan -> seq<Sample>): (r: Result<Workbook>)
    ensures r.Ok? ==> HasTemplateShape(r.value)
  {
    WriteTemplate(cfg, sheetName, find(DiscoveryScan(mode, regex1, regex2)))
  }

  /** From the command line, the template always holds what the paired
      finder found in the working directory, whatever the mode. */
  lemma DiscoverWritesPairedSamples(cfg: Config, sheetName: string, mode: string, regex1: string,
                                    regex2: Option<string>, find: Scan -> seq<Sample>)
    requires mode in CliModes
    ensures DiscoverFiles(cfg, sheetName, mode, regex1, regex2, find)
      == WriteTemplate(cfg, sheetName, find(PairedScan(".", regex1, regex2)))
  {
    CliModesScanPaired(mode, regex1, regex2);
  }
}
