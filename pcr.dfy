/**
 * The in-silico PCR script pcr.py: amplicons of the references (module Amplicons) are written as
 * a FASTA file `output_dir / pcr_analysis_name`, and a one-line JSON report is printed.
 */
module Pcr {
  import opened Common
  import opened Amplicons

  /** One FASTA entry as `write_pcr_fasta` writes it. */
  function FastaEntry(key: string, sequence: string): string
  {
    ">" + key + "\n" + sequence + "\n"
  }

  /** The whole file: the entries in dict order. */
  function FastaText(items: seq<(string, string)>): string
  {
    if items == [] then [] else FastaEntry(items[0].0, items[0].1) + FastaText(items[1..])
  }

  /**
   * `output_dir / pcr_analysis_name` for a plain relative name and a directory without a
   * trailing slash; the normalisation `pathlib` does in other cases is not modelled.
   */
  function PcrPath(outputDir: string, pcrAnalysisName: string): string
  {
    outputDir + "/" + pcrAnalysisName
  }

  /**
   * `write_pcr_fasta(amplicons_dict, pcr_analysis_name, output_dir)`: the path and the text written
   * to it. `openError` is the exception of `pcr_path.open("w")`, if it raises; then nothing is written.
   */
  method WritePcrFasta(amplicons: Dict, pcrAnalysisName: string, outputDir: string, openError: Option<string>)
    returns (result: Result<string>, content: string)
    requires WellFormed(amplicons)
    ensures openError.Some? ==> result == Err(openError.value) && content == []
    ensures openError.None? ==> result == Ok(PcrPath(outputDir, pcrAnalysisName)) && content == FastaText(ItemsOf(amplicons))
  {
    var pcrPath := PcrPath(outputDir, pcrAnalysisName);
    if openError.Some? {
      return Err(openError.value), [];
    }
    ghost var items := ItemsOf(amplicons);
    content := [];
    var i := 0;
    while i < |amplicons.keys|
      invariant 0 <= i <= |amplicons.keys|
      invariant content + FastaText(items[i..]) == FastaText(items)
    {
      var key := amplicons.keys[i];
      var sequence := amplicons.values[key];
      assert items[i] == (key, sequence);
      assert items[i..][1..] == items[i + 1..];
      content := content + FastaEntry(key, sequence);
      i := i + 1;
    }
    assert items[i..] == [];
    result := Ok(pcrPath);
  }

  // ---------------------------------------------------------------------------
  // reading the file back

  /** The text before the first newline and the text after it. */
  function SplitLine(s: string): (r: Option<(string, string)>)
    ensures r.Some? ==> |r.value.1| < |s| && '\n' !in r.value.0
  {
    if s == [] then None
    else if s[0] == '\n' then Some(([], s[1..]))
    else match SplitLine(s[1..])
      case None => None
      case Some(p) => Some(([s[0]] + p.0, p.1))
  }

  /** Reads a file made of `>header` lines each followed by one sequence line. */
  function ParseFastaText(s: string): Option<seq<(string, string)>>
    decreases |s|
  {
    if s == [] then Some([])
    else if s[0] != '>' then None
    else match SplitLine(s[1..])
      case None => None
      case Some(header) =>
        match SplitLine(header.1)
        case None => None
        case Some(body) =>
          match ParseFastaText(body.1)
          case None => None
          case Some(rest) => Some([(header.0, body.0)] + rest)
  }

  lemma {:induction false} SplitLineOfJoin(line: string, rest: string)
    requires '\n' !in line
    ensures SplitLine(line + "\n" + rest) == Some((line, rest))
  {
    var s := line + "\n" + rest;
    if line == [] {
      assert s == "\n" + rest;
      assert s[1..] == rest;
    } else {
      assert s[0] == line[0] && line[0] != '\n';
      assert s[1..] == line[1..] + "\n" + rest;
      SplitLineOfJoin(line[1..], rest);
      assert [line[0]] + line[1..] == line;
    }
  }

  /** The FASTA text `write_pcr_fasta` produces reads back as the same entries, when no key or sequence holds a newline. */
  lemma {:induction false} FastaTextRoundTrip(items: seq<(string, string)>)
    requires forall i :: 0 <= i < |items| ==> '\n' !in items[i].0 && '\n' !in items[i].1
    ensures ParseFastaText(FastaText(items)) == Some(items)
  {
    if items != [] {
      var key, sequence := items[0].0, items[0].1;
      var tail := FastaText(items[1..]);
      var s := FastaText(items);
      assert s == ">" + (key + "\n" + (sequence + "\n" + tail));
      assert s[1..] == key + "\n" + (sequence + "\n" + tail);
      SplitLineOfJoin(key, sequence + "\n" + tail);
      SplitLineOfJoin(sequence, tail);
      FastaTextRoundTrip(items[1..]);
      assert [(key, sequence)] + items[1..] == items;
    }
  }

  // ---------------------------------------------------------------------------
  // run_pcr

  /** The JSON object `run_pcr` prints. */
  datatype PcrReport = PcrReport(status: string, pcrPath: Option<string>, error: Option<string>)

  /** The parameters `write_pcr_fasta` declares, and the arguments `run_pcr` passes to it. */
  const WritePcrFastaParameters: nat := 3
  const WritePcrFastaArguments: nat := 4

  /** The TypeError Python raises for a call with the wrong number of positional arguments. */
  function ArityError(name: string, parameters: nat, arguments: nat): string
  {
    name + "() takes " + NatToString(parameters) + " positional arguments but " + NatToString(arguments) + " were given"
  }

  /**
   * `run_pcr(...)` as written: after both FASTA files are read and the amplicons built, the call
   * of `write_pcr_fasta` with four arguments raises a TypeError before anything is written, so
   * every run reports "fail_main" with a null path.
   */
  method RunPcr(primerRecords: Result<seq<(string, string)>>, referenceRecords: Result<seq<(string, string)>>,
                scan: (Dict, string) -> seq<Hit>, outputDir: string, pcrAnalysisName: string, cycleCount: int)
    returns (report: PcrReport)
    ensures report.status == "fail_main" && report.pcrPath.None?
    ensures report.error == Some(
      if primerRecords.Err? then primerRecords.error
      else if referenceRecords.Err? then referenceRecords.error
      else if AmpliconsOfRecords(primerRecords.value, referenceRecords.value, scan).Err? then AutomatonNotBuiltError
      else ArityError("write_pcr_fasta", WritePcrFastaParameters, WritePcrFastaArguments))
  {
    if primerRecords.Err? {
      return PcrReport("fail_main", None, Some(primerRecords.error));
    }
    var primerSequences := ParseFasta(primerRecords.value);
    if referenceRecords.Err? {
      return PcrReport("fail_main", None, Some(referenceRecords.error));
    }
    var referenceSequences := ParseFasta(referenceRecords.value);
    var ampliconsDict := GenerateArtificialAmplicons(referenceSequences, primerSequences, scan);
    if ampliconsDict.Err? {
      return PcrReport("fail_main", None, Some(ampliconsDict.error));
    }
    report := PcrReport("fail_main", None, Some(ArityError("write_pcr_fasta", WritePcrFastaParameters, WritePcrFastaArguments)));
  }

  /**
   * `run_pcr` with `write_pcr_fasta` called on its three parameters: when both files are read,
   * the amplicons built and the output file opened, the report is "success" with the FASTA path
   * and the file holds every amplicon in dict order, readable back entry by entry.
   */
  method RunPcrCorrected(primerRecords: Result<seq<(string, string)>>, referenceRecords: Result<seq<(string, string)>>,
                         scan: (Dict, string) -> seq<Hit>, outputDir: string, pcrAnalysisName: string, cycleCount: int,
                         openError: Option<string>)
    returns (report: PcrReport, content: string)
    ensures report.status == "success" <==>
      primerRecords.Ok? && referenceRecords.Ok? &&
      AmpliconsOfRecords(primerRecords.value, referenceRecords.value, scan).Ok? && openError.None?
    ensures report.status == "success" ==>
      report.pcrPath == Some(PcrPath(outputDir, pcrAnalysisName)) && report.error.None? &&
      content == FastaText(ItemsOf(AmpliconsOfRecords(primerRecords.value, referenceRecords.value, scan).value))
    ensures report.status != "success" ==> report.status == "fail_main" && report.pcrPath.None? && report.error.Some? && content == []
    ensures (primerRecords.Ok? && referenceRecords.Ok? &&
             AmpliconsOfRecords(primerRecords.value, referenceRecords.value, scan).Ok? && openError.Some?) ==>
      report.error == openError
  {
    content := [];
    if primerRecords.Err? {
      return PcrReport("fail_main", None, Some(primerRecords.error)), content;
    }
    var primerSequences := ParseFasta(primerRecords.value);
    if referenceRecords.Err? {
      return PcrReport("fail_main", None, Some(referenceRecords.error)), content;
    }
    var referenceSequences := ParseFasta(referenceRecords.value);
    var ampliconsDict := GenerateArtificialAmplicons(referenceSequences, primerSequences, scan);
    if ampliconsDict.Err? {
      return PcrReport("fail_main", None, Some(ampliconsDict.error)), content;
    }
    var written;
    written, content := WritePcrFasta(ampliconsDict.value, pcrAnalysisName, outputDir, openError);
    match written
    case Ok(pcrPath) =>
      report := PcrReport("success", Some(pcrPath), None);
    case Err(e) =>
      report := PcrReport("fail_main", None, Some(e));
  }

  /** Without newlines in names and sequences, the corrected run's file reads back as exactly the amplicon dict's items. */
  lemma PcrFileReadsBack(amplicons: Dict)
    requires WellFormed(amplicons)
    requires forall k :: k in amplicons.values ==> '\n' !in k && '\n' !in amplicons.values[k]
    ensures ParseFastaText(FastaText(ItemsOf(amplicons))) == Some(ItemsOf(amplicons))
  {
    FastaTextRoundTrip(ItemsOf(amplicons));
  }
}
