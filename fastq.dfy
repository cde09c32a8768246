/**
 * The FASTQ simulator create_fastq.py: paired 251-base Illumina-style reads drawn from the
 * amplicons of a reference, written to `<prefix>/<sample>_S<n>_L001_R1_001.fastq.gz` and its R2
 * sibling, and a one-line JSON report.
 *
 * Randomness is an input: every `random` call of one read is a field of `ReadDraws`, a draw being
 * taken modulo the size of the population it picks from. The complement table of
 * `reverse_complement` is the parameter `complement`; the quality table is given already rounded.
 */
module CreateFastq {
  import opened Common
  import opened Amplicons

  /** The fixed read length of the simulated MiSeq run. */
  const ReadLength: nat := 251

  // ---------------------------------------------------------------------------
  // file names

  /** `generate_fastq_filename(sample_name, sample_num, read)`. */
  function FastqFilename(sampleName: string, sampleNum: nat, read: string): (name: string)
    ensures '/' !in sampleName && '/' !in read ==> '/' !in name
  {
    sampleName + "_S" + NatToString(sampleNum) + "_L001_" + read + "_001.fastq.gz"
  }

  /** `a` and `b` have the same length and differ exactly at index `p`. */
  predicate DifferOnlyAt(a: string, b: string, p: int) {
    |a| == |b| && 0 <= p < |a| && a[p] != b[p] && forall i :: 0 <= i < |a| && i != p ==> a[i] == b[i]
  }

  lemma SplicedDiffer(x: string, c1: char, c2: char, y: string)
    requires c1 != c2
    ensures DifferOnlyAt(x + [c1] + y, x + [c2] + y, |x|)
  {
    var a, b := x + [c1] + y, x + [c2] + y;
    forall i | 0 <= i < |a| && i != |x| ensures a[i] == b[i] {
      if i < |x| {
        assert a[i] == x[i] == b[i];
      } else {
        assert a[i] == y[i - |x| - 1] == b[i];
      }
    }
  }

  /** The R1 and R2 file names of one run differ only in the read token's digit. */
  lemma FastqFilenamesDifferInReadToken(sampleName: string, sampleNum: nat)
    ensures var p := |sampleName| + |NatToString(sampleNum)| + 9;
      DifferOnlyAt(FastqFilename(sampleName, sampleNum, "R1"), FastqFilename(sampleName, sampleNum, "R2"), p) &&
      FastqFilename(sampleName, sampleNum, "R1")[p] == '1' && FastqFilename(sampleName, sampleNum, "R2")[p] == '2'
  {
    var x := sampleName + "_S" + NatToString(sampleNum) + "_L001_R";
    var y := "_001.fastq.gz";
    assert FastqFilename(sampleName, sampleNum, "R1") == x + ['1'] + y;
    assert FastqFilename(sampleName, sampleNum, "R2") == x + ['2'] + y;
    SplicedDiffer(x, '1', '2', y);
  }

  /** `f'{output_s3_prefix}/{name}'`. */
  function OutputPath(outputPrefix: string, name: string): string
  {
    outputPrefix + "/" + name
  }

  /** `random.randint(1, 100)`. */
  function SampleNumber(draw: nat): (n: nat)
    ensures 1 <= n <= 100
  {
    1 + draw % 100
  }

  // ---------------------------------------------------------------------------
  // read names

  const Instrument := "M00000"
  const RunId := "00001"
  const Flowcell := "AAAAAA"
  const Lane: nat := 1
  const ControlNumber: nat := 0

  /** The tile: 1101 plus the thousands of the read number, modulo 100. */
  function Tile(readNumber: nat): (tile: nat)
    ensures 1101 <= tile <= 1200
  {
    1101 + (readNumber / 1000) % 100
  }

  function XCoordinate(readNumber: nat): (x: nat)
    ensures x < 5000
  {
    (readNumber * 37) % 5000
  }

  function YCoordinate(readNumber: nat): (y: nat)
    ensures y < 5000
  {
    (readNumber * 73) % 5000
  }

  /** `instrument:run:flowcell:lane:tile:x:y`, shared by both mates. */
  function ReadNameHeader(readNumber: nat): string
  {
    Instrument + ":" + RunId + ":" + Flowcell + ":" + NatToString(Lane) + ":" +
    NatToString(Tile(readNumber)) + ":" + NatToString(XCoordinate(readNumber)) + ":" + NatToString(YCoordinate(readNumber))
  }

  /**
   * The names `generate_read_names` returns for read number `readNumber`; `isFiltered` is the
   * outcome of `random.choice(["Y", "N"])`. The two names differ only in the mate digit after
   * the header's space.
   */
  function ReadNames(readNumber: nat, isFiltered: bool): (names: (string, string))
    ensures var p := |ReadNameHeader(readNumber)| + 1;
      DifferOnlyAt(names.0, names.1, p) && names.0[p] == '1' && names.1[p] == '2'
    ensures StartsWith(names.0, ReadNameHeader(readNumber) + " ") && StartsWith(names.1, ReadNameHeader(readNumber) + " ")
  {
    var header := ReadNameHeader(readNumber);
    var tail := ":" + (if isFiltered then "Y" else "N") + ":" + NatToString(ControlNumber) + ":1";
    SplicedDiffer(header + " ", '1', '2', tail);
    assert (header + " " + ['1'] + tail)[..|header| + 1] == header + " ";
    assert (header + " " + ['2'] + tail)[..|header| + 1] == header + " ";
    (header + " " + ['1'] + tail, header + " " + ['2'] + tail)
  }

  /** The closure `generate_read_names` and the counter `count(1)` it advances. */
  class ReadNameGenerator {
    var readCounter: nat

    constructor ()
      ensures readCounter == 1
    {
      readCounter := 1;
    }

    method GenerateReadNames(isFiltered: bool) returns (r1: string, r2: string)
      modifies this
      ensures readCounter == old(readCounter) + 1
      ensures (r1, r2) == ReadNames(old(readCounter), isFiltered)
    {
      var readNumber := readCounter;
      readCounter := readCounter + 1;
      var names := ReadNames(readNumber, isFiltered);
      r1, r2 := names.0, names.1;
    }
  }

  // ---------------------------------------------------------------------------
  // one read pair

  /** A FASTQ record: its id (the description is empty), bases and phred qualities. */
  datatype FastqRecord = FastqRecord(id: string, sequence: string, quality: seq<int>)

  /** The random draws of one iteration of the write loop, in the order the loop makes them. */
  datatype ReadDraws = ReadDraws(
    amplicon: nat,             // random.choice over the amplicon values
    isFiltered: bool,          // random.choice(["Y", "N"])
    overrun1: nat -> nat,      // the k weighted draws of the R1 overrun bases
    qualities1: nat -> nat,    // the k draws of the R1 overrun qualities
    overrun2: nat -> nat,      // the same for R2
    qualities2: nat -> nat)

  const EmptyChoiceError := "Cannot choose from an empty sequence"
  const EmptyWeightsError := "list index out of range"

  /** The error raised when a quality list does not match its record's length. */
  function AnnotationLengthError(length: nat): string
  {
    "We only allow python sequences (lists, tuples or strings) of length " + NatToString(length) + "."
  }

  /** `random.choices(bases, weights, k)` over a non-empty population. */
  function Choices(bases: seq<char>, k: nat, draw: nat -> nat): (r: string)
    requires bases != []
    ensures |r| == k
    ensures forall i :: 0 <= i < k ==> r[i] in bases
  {
    seq(k, i requires 0 <= i < k => bases[draw(i) % |bases|])
  }

  /** `create_overrun_sequence`: an empty base table makes the weighted choice raise. */
  function OverrunSequence(bases: seq<char>, k: nat, draw: nat -> nat): (r: Result<string>)
    ensures r.Ok? <==> bases != []
    ensures r.Ok? ==> |r.value| == k
  {
    if bases == [] then Err(EmptyWeightsError) else Ok(Choices(bases, k, draw))
  }

  /** `create_overrun_qualities(k)`: `k` picks from 1..10. */
  function OverrunQualities(k: nat, draw: nat -> nat): (q: seq<int>)
    ensures |q| == k
    ensures forall i :: 0 <= i < k ==> 1 <= q[i] <= 10
  {
    seq(k, i requires 0 <= i < k => 1 + draw(i) % 10)
  }

  /** `[round(x) for x in cycle_quality_stats[:n]]`, with the table already rounded. */
  function StatsPrefix(stats: seq<int>, n: nat): (q: seq<int>)
    ensures |q| == Min(n, |stats|)
    ensures q == stats[..|q|]
  {
    stats[..Min(n, |stats|)]
  }

  /** Biopython's reverse complement under the complement table `complement`. */
  function ReverseComplement(s: string, complement: char -> char): (r: string)
    ensures |r| == |s|
    ensures forall i :: 0 <= i < |s| ==> r[i] == complement(s[|s| - 1 - i])
  {
    if s == [] then [] else ReverseComplement(s[1..], complement) + [complement(s[0])]
  }

  lemma ReverseComplementAppend(x: string, y: string, complement: char -> char)
    ensures ReverseComplement(x + y, complement) == ReverseComplement(y, complement) + ReverseComplement(x, complement)
  {
    var l, r := ReverseComplement(x + y, complement), ReverseComplement(y, complement) + ReverseComplement(x, complement);
    forall i | 0 <= i < |l| ensures l[i] == r[i] {
      if i < |y| {
        assert (x + y)[|x + y| - 1 - i] == y[|y| - 1 - i];
      } else {
        assert (x + y)[|x + y| - 1 - i] == x[|x| - 1 - (i - |y|)];
      }
    }
  }

  /** Taking the reverse complement twice gives back the bases when the table is an involution. */
  lemma ReverseComplementInvolution(s: string, complement: char -> char)
    requires forall c :: complement(complement(c)) == c
    ensures ReverseComplement(ReverseComplement(s, complement), complement) == s
  {
  }

  /** Qualities the Sanger FASTQ writer can encode: every phred score in 0..93. */
  predicate InPhredRange(q: seq<int>) {
    q == [] || (0 <= q[0] <= 93 && InPhredRange(q[1..]))
  }

  /** `InPhredRange` says of every quality that it lies in 0..93. */
  lemma {:induction false} PhredRangeAll(q: seq<int>)
    ensures InPhredRange(q) <==> forall i :: 0 <= i < |q| ==> 0 <= q[i] <= 93
  {
    if q != [] {
      PhredRangeAll(q[1..]);
      assert forall i :: 0 < i < |q| ==> q[1..][i - 1] == q[i];
    }
  }

  /** Some quality exceeds 93. */
  predicate AboveSanger(q: seq<int>) {
    q != [] && (q[0] > 93 || AboveSanger(q[1..]))
  }

  /** The ValueError the FASTQ writer raises for qualities outside 0..93; the maximum is checked first. */
  function PhredRangeError(q: seq<int>): string
  {
    if AboveSanger(q) then "Sanger (PHRED) quality scores cannot exceed 93"
    else "PHRED qualities must be positive (not negative)"
  }

  /**
   * Attaching the qualities to both records and writing them, R1 first: each list must be as
   * long as its sequence (checked when it is attached) and lie in 0..93 (checked when the
   * record is written).
   */
  function Records(name1: string, seq1: string, qual1: seq<int>, name2: string, seq2: string, qual2: seq<int>)
    : (r: Result<(FastqRecord, FastqRecord)>)
    ensures r.Ok? <==> |qual1| == |seq1| && |qual2| == |seq2| && InPhredRange(qual1) && InPhredRange(qual2)
    ensures r.Ok? ==> r.value == (FastqRecord(name1, seq1, qual1), FastqRecord(name2, seq2, qual2))
    ensures |qual1| == |seq1| && |qual2| == |seq2| && !InPhredRange(qual1) ==> r == Err(PhredRangeError(qual1))
  {
    if |qual1| != |seq1| then Err(AnnotationLengthError(|seq1|))
    else if |qual2| != |seq2| then Err(AnnotationLengthError(|seq2|))
    else if !InPhredRange(qual1) then Err(PhredRangeError(qual1))
    else if !InPhredRange(qual2) then Err(PhredRangeError(qual2))
    else Ok((FastqRecord(name1, seq1, qual1), FastqRecord(name2, seq2, qual2)))
  }

  /**
   * The records of one read pair built from the upper-cased amplicon: long amplicons are cut
   * to their first (R1) and last (R2) 251 bases, short ones are padded with random overrun
   * bases after (R1) or before (R2) the amplicon.
   */
  function BuildReads(amplicon: string, names: (string, string), d: ReadDraws, stats: seq<int>,
                      bases: seq<char>, complement: char -> char): Result<(FastqRecord, FastqRecord)>
  {
    if |amplicon| >= ReadLength then
      var r1Seq := amplicon[..ReadLength];
      var r1Qual := StatsPrefix(stats, ReadLength);
      var r2Seq := ReverseComplement(PySlice(amplicon, -(ReadLength as int), |amplicon|), complement);
      var r2Qual := StatsPrefix(stats, ReadLength);
      Records(names.0, r1Seq, r1Qual, names.1, r2Seq, r2Qual)
    else
      var overrunLength := ReadLength - |amplicon|;
      match OverrunSequence(bases, overrunLength, d.overrun1)
      case Err(e) => Err(e)
      case Ok(overrun1) =>
        var r1Seq := amplicon + overrun1;
        var r1Qual := StatsPrefix(stats, |amplicon|) + OverrunQualities(overrunLength, d.qualities1);
        var r2Raw := Choices(bases, overrunLength, d.overrun2) + amplicon;
        var r2Seq := ReverseComplement(PySlice(r2Raw, -(ReadLength as int), |r2Raw|), complement);
        var r2Qual := OverrunQualities(overrunLength, d.qualities2) + StatsPrefix(stats, |amplicon|);
        Records(names.0, r1Seq, r1Qual, names.1, r2Seq, r2Qual)
  }

  /** One iteration of the write loop for read number `readNumber`. */
  function ReadPair(values: seq<string>, readNumber: nat, d: ReadDraws, stats: seq<int>,
                    bases: seq<char>, complement: char -> char): Result<(FastqRecord, FastqRecord)>
  {
    if values == [] then Err(EmptyChoiceError)
    else BuildReads(Upper(values[d.amplicon % |values|]), ReadNames(readNumber, d.isFiltered), d, stats, bases, complement)
  }

  /**
   * When one iteration fails: no amplicons, overrun needed but no base table, a quality table
   * shorter than what the read takes from it, or a quality taken from it outside 0..93 (the
   * overrun qualities never are).
   */
  lemma ReadPairSucceeds(values: seq<string>, readNumber: nat, d: ReadDraws, stats: seq<int>,
                         bases: seq<char>, complement: char -> char)
    ensures ReadPair(values, readNumber, d, stats, bases, complement).Ok? <==>
      values != [] &&
      var n := |values[d.amplicon % |values|]|;
      var m := Min(n, ReadLength);
      |stats| >= m && InPhredRange(stats[..m]) && (n < ReadLength ==> bases != [])
  {
    if values != [] {
      var a := Upper(values[d.amplicon % |values|]);
      var names := ReadNames(readNumber, d.isFiltered);
      if |a| >= ReadLength {
        LongReadsSucceed(a, names, d, stats, bases, complement);
      } else {
        ShortReadsSucceed(a, names, d, stats, bases, complement);
      }
    }
  }

  lemma LongReadsSucceed(a: string, names: (string, string), d: ReadDraws, stats: seq<int>,
                         bases: seq<char>, complement: char -> char)
    requires |a| >= ReadLength
    ensures BuildReads(a, names, d, stats, bases, complement).Ok? <==>
      |stats| >= ReadLength && InPhredRange(stats[..ReadLength])
  {
    var r2Seq := ReverseComplement(PySlice(a, -(ReadLength as int), |a|), complement);
    assert PySlice(a, -(ReadLength as int), |a|) == a[|a| - ReadLength..];
    assert |r2Seq| == ReadLength;
  }

  lemma ShortReadsSucceed(a: string, names: (string, string), d: ReadDraws, stats: seq<int>,
                          bases: seq<char>, complement: char -> char)
    requires |a| < ReadLength
    ensures BuildReads(a, names, d, stats, bases, complement).Ok? <==>
      |stats| >= |a| && InPhredRange(stats[..|a|]) && bases != []
  {
    if bases != [] && |stats| >= |a| {
      var k := ReadLength - |a|;
      PhredRangeAll(OverrunQualities(k, d.qualities1));
      PhredRangeAll(OverrunQualities(k, d.qualities2));
      PhredRangeAppend(StatsPrefix(stats, |a|), OverrunQualities(k, d.qualities1));
      PhredRangeAppend(OverrunQualities(k, d.qualities2), StatsPrefix(stats, |a|));
    }
  }

  lemma PhredRangeAppend(x: seq<int>, y: seq<int>)
    ensures InPhredRange(x + y) <==> InPhredRange(x) && InPhredRange(y)
  {
    PhredRangeAll(x);
    PhredRangeAll(y);
    PhredRangeAll(x + y);
    if InPhredRange(x) && InPhredRange(y) {
      forall i | 0 <= i < |x + y| ensures 0 <= (x + y)[i] <= 93 {
        if i >= |x| {
          assert (x + y)[i] == y[i - |x|];
        }
      }
    }
    if InPhredRange(x + y) {
      forall i | 0 <= i < |x| ensures 0 <= x[i] <= 93 {
        assert (x + y)[i] == x[i];
      }
      forall i | 0 <= i < |y| ensures 0 <= y[i] <= 93 {
        assert (x + y)[|x| + i] == y[i];
      }
    }
  }

  /** What a read pair built from an amplicon `a` looks like; see `ReadPairShape`. */
  ghost predicate WellShaped(a: string, r: (FastqRecord, FastqRecord), complement: char -> char) {
    var m := Min(|a|, ReadLength);
    |r.0.sequence| == ReadLength && |r.1.sequence| == ReadLength &&
    |r.0.quality| == ReadLength && |r.1.quality| == ReadLength &&
    r.0.sequence[..m] == a[..m] &&
    r.1.sequence[..m] == ReverseComplement(a[|a| - m..], complement) &&
    (forall i :: m <= i < ReadLength ==> 1 <= r.0.quality[i] <= 10) &&
    (forall i :: 0 <= i < ReadLength - m ==> 1 <= r.1.quality[i] <= 10)
  }

  lemma LongAmpliconReads(a: string, names: (string, string), d: ReadDraws, stats: seq<int>,
                          bases: seq<char>, complement: char -> char)
    requires |a| >= ReadLength
    requires BuildReads(a, names, d, stats, bases, complement).Ok?
    ensures WellShaped(a, BuildReads(a, names, d, stats, bases, complement).value, complement)
    ensures (BuildReads(a, names, d, stats, bases, complement).value.0.id, BuildReads(a, names, d, stats, bases, complement).value.1.id) == names
  {
    assert PySlice(a, -(ReadLength as int), |a|) == a[|a| - ReadLength..];
  }

  lemma ShortAmpliconReads(a: string, names: (string, string), d: ReadDraws, stats: seq<int>,
                           bases: seq<char>, complement: char -> char)
    requires |a| < ReadLength
    requires BuildReads(a, names, d, stats, bases, complement).Ok?
    ensures WellShaped(a, BuildReads(a, names, d, stats, bases, complement).value, complement)
    ensures (BuildReads(a, names, d, stats, bases, complement).value.0.id, BuildReads(a, names, d, stats, bases, complement).value.1.id) == names
  {
    var k := ReadLength - |a|;
    var over1 := Choices(bases, k, d.overrun1);
    var over2 := Choices(bases, k, d.overrun2);
    var raw := over2 + a;
    assert PySlice(raw, -(ReadLength as int), |raw|) == raw;
    ReverseComplementAppend(over2, a, complement);
    assert a[|a| - |a|..] == a;
    assert (a + over1)[..|a|] == a;
    var r := BuildReads(a, names, d, stats, bases, complement).value;
    assert r.0.sequence == a + over1;
    assert r.1.sequence == ReverseComplement(a, complement) + ReverseComplement(over2, complement);
    assert r.0.quality == StatsPrefix(stats, |a|) + OverrunQualities(k, d.qualities1);
    assert r.1.quality == OverrunQualities(k, d.qualities2) + StatsPrefix(stats, |a|);
  }

  /**
   * Every read pair that is written has 251 bases and 251 qualities per mate; R1 begins with
   * the upper-cased amplicon (its first 251 bases when longer), R2 begins with the reverse
   * complement of the amplicon's last 251 bases, the overrun qualities lie in 1..10, and the
   * ids are the generator's names for this read number.
   */
  lemma ReadPairShape(values: seq<string>, readNumber: nat, d: ReadDraws, stats: seq<int>,
                      bases: seq<char>, complement: char -> char)
    ensures ReadPair(values, readNumber, d, stats, bases, complement).Ok? ==>
      values != [] &&
      WellShaped(Upper(values[d.amplicon % |values|]), ReadPair(values, readNumber, d, stats, bases, complement).value, complement) &&
      (ReadPair(values, readNumber, d, stats, bases, complement).value.0.id,
       ReadPair(values, readNumber, d, stats, bases, complement).value.1.id) == ReadNames(readNumber, d.isFiltered)
  {
    if values != [] && ReadPair(values, readNumber, d, stats, bases, complement).Ok? {
      var a := Upper(values[d.amplicon % |values|]);
      if |a| >= ReadLength {
        LongAmpliconReads(a, ReadNames(readNumber, d.isFiltered), d, stats, bases, complement);
      } else {
        ShortAmpliconReads(a, ReadNames(readNumber, d.isFiltered), d, stats, bases, complement);
      }
    }
  }

  // ---------------------------------------------------------------------------
  // write_fastq_files

  /** `list(amplicons_dict.values())`. */
  function Values(d: Dict): (vs: seq<string>)
    requires WellFormed(d)
    ensures |vs| == |d.keys|
    ensures forall i :: 0 <= i < |vs| ==> Lookup(d, d.keys[i]) == Some(vs[i])
  {
    seq(|d.keys|, i requires 0 <= i < |d.keys| => d.values[d.keys[i]])
  }

  /** Iteration `i` (from 0) of the write loop produces read number `i + 1`. */
  function ReadStepAt(values: seq<string>, stats: seq<int>, bases: seq<char>, complement: char -> char,
                      draws: nat -> ReadDraws, i: nat): Result<(FastqRecord, FastqRecord)>
  {
    ReadPair(values, i + 1, draws(i), stats, bases, complement)
  }

  /** The write loop's iterations as the step function of `Simulate`. */
  function ReadSteps(values: seq<string>, stats: seq<int>, bases: seq<char>, complement: char -> char,
                     draws: nat -> ReadDraws): nat -> Result<(FastqRecord, FastqRecord)>
  {
    (i: nat) => ReadStepAt(values, stats, bases, complement, draws, i)
  }

  lemma ReadStep(values: seq<string>, stats: seq<int>, bases: seq<char>, complement: char -> char,
                 draws: nat -> ReadDraws, i: nat)
    ensures ReadSteps(values, stats, bases, complement, draws)(i) == ReadStepAt(values, stats, bases, complement, draws, i)
  {
  }

  lemma ReadPairOf(values: seq<string>, readNumber: nat, d: ReadDraws, stats: seq<int>,
                   bases: seq<char>, complement: char -> char)
    ensures values == [] ==> ReadPair(values, readNumber, d, stats, bases, complement) == Err(EmptyChoiceError)
    ensures values != [] ==>
      ReadPair(values, readNumber, d, stats, bases, complement) == BuildReads(Upper(values[d.amplicon % |values|]), ReadNames(readNumber, d.isFiltered), d, stats, bases, complement)
  {
  }

  /**
   * The first `n` iterations of a loop whose iteration `i` yields `step(i)`: the read pairs written
   * and the error of the iteration that raised, if one did (nothing runs after it).
   */
  function Simulate(step: nat -> Result<(FastqRecord, FastqRecord)>, n: nat): (seq<(FastqRecord, FastqRecord)>, Option<string>)
  {
    if n == 0 then ([], None)
    else
      var prev := Simulate(step, n - 1);
      if prev.1.Some? then prev
      else match step(n - 1)
        case Ok(pair) => (prev.0 + [pair], None)
        case Err(e) => (prev.0, Some(e))
  }

  /**
   * The loop writes the pair of every iteration up to the first one that raises, and that
   * error is the one reported; without an error all `n` pairs are written.
   */
  lemma {:induction false} SimulateWrites(step: nat -> Result<(FastqRecord, FastqRecord)>, n: nat)
    ensures |Simulate(step, n).0| <= n
    ensures forall i :: 0 <= i < |Simulate(step, n).0| ==> step(i) == Ok(Simulate(step, n).0[i])
    ensures Simulate(step, n).1.None? ==> |Simulate(step, n).0| == n
    ensures Simulate(step, n).1.Some? ==> step(|Simulate(step, n).0|) == Err(Simulate(step, n).1.value)
  {
    if n > 0 {
      SimulateWrites(step, n - 1);
    }
  }

  /** Once an iteration has raised, later counts change nothing. */
  lemma {:induction false} SimulateStops(step: nat -> Result<(FastqRecord, FastqRecord)>, i: nat, n: nat)
    requires i <= n && Simulate(step, i).1.Some?
    ensures Simulate(step, n) == Simulate(step, i)
    decreases n - i
  {
    if i < n {
      SimulateStops(step, i, n - 1);
    }
  }

  /** Without amplicons the first iteration raises, so a positive count writes nothing. */
  lemma SimulateWithoutAmplicons(n: nat, stats: seq<int>, bases: seq<char>, complement: char -> char, draws: nat -> ReadDraws)
    requires n > 0
    ensures Simulate(ReadSteps([], stats, bases, complement, draws), n) == ([], Some(EmptyChoiceError))
  {
    SimulateStops(ReadSteps([], stats, bases, complement, draws), 1, n);
  }

  /** One more iteration of a loop that has not raised yet. */
  lemma SimulateNext(step: nat -> Result<(FastqRecord, FastqRecord)>, i: nat)
    requires Simulate(step, i).1.None?
    ensures step(i).Ok? ==> Simulate(step, i + 1) == (Simulate(step, i).0 + [step(i).value], None)
    ensures step(i).Err? ==> Simulate(step, i + 1) == (Simulate(step, i).0, Some(step(i).error))
  {
  }

  /** One iteration of the write loop, in the terms the loop computes it. */
  lemma ReadLoopStep(values: seq<string>, stats: seq<int>, bases: seq<char>, complement: char -> char,
                     draws: nat -> ReadDraws, i: nat)
    requires Simulate(ReadSteps(values, stats, bases, complement, draws), i).1.None?
    ensures var step := ReadSteps(values, stats, bases, complement, draws);
      var prev := Simulate(step, i).0;
      (values == [] ==> Simulate(step, i + 1) == (prev, Some(EmptyChoiceError))) &&
      (values != [] ==>
        var pair := BuildReads(Upper(values[draws(i).amplicon % |values|]), ReadNames(i + 1, draws(i).isFiltered),
                               draws(i), stats, bases, complement);
        Simulate(step, i + 1) == if pair.Ok? then (prev + [pair.value], None) else (prev, Some(pair.error)))
  {
    ReadStep(values, stats, bases, complement, draws, i);
    ReadPairOf(values, i + 1, draws(i), stats, bases, complement);
    SimulateNext(ReadSteps(values, stats, bases, complement, draws), i);
  }

  /** The loop `for _ in range(sequence_count)` of `write_fastq_files`, with the read-name generator it owns. */
  method WriteReads(values: seq<string>, count: nat, stats: seq<int>, bases: seq<char>, complement: char -> char,
                    draws: nat -> ReadDraws)
    returns (written: seq<(FastqRecord, FastqRecord)>, error: Option<string>)
    ensures (written, error) == Simulate(ReadSteps(values, stats, bases, complement, draws), count)
  {
    ghost var step := ReadSteps(values, stats, bases, complement, draws);
    var genReadNames := new ReadNameGenerator();
    written := [];
    var i := 0;
    while i < count
      invariant 0 <= i <= count
      invariant genReadNames.readCounter == i + 1
      invariant Simulate(step, i) == (written, None)
    {
      var d := draws(i);
      ReadLoopStep(values, stats, bases, complement, draws, i);
      if values == [] {
        SimulateStops(step, i + 1, count);
        error := Some(EmptyChoiceError);
        return;
      }
      var amplicon := Upper(values[d.amplicon % |values|]);
      var r1Name, r2Name := genReadNames.GenerateReadNames(d.isFiltered);
      var pair := BuildReads(amplicon, (r1Name, r2Name), d, stats, bases, complement);
      if pair.Err? {
        SimulateStops(step, i + 1, count);
        error := Some(pair.error);
        return;
      }
      written := written + [pair.value];
      i := i + 1;
    }
    error := None;
  }

  /**
   * `write_fastq_files(amplicons_dict, sequence_count, output_s3_prefix, sample_name)`: the two
   * paths, every read pair it writes (R1 record and R2 record), and the error that escaped.
   * `openError` is the exception of `smart_open.open` on either path, if one raises; then no
   * read is drawn.
   */
  method WriteFastqFiles(amplicons: Dict, sequenceCount: int, outputPrefix: string, sampleName: string,
                         sampleDraw: nat, openError: Option<string>, stats: seq<int>, bases: seq<char>,
                         complement: char -> char, draws: nat -> ReadDraws)
    returns (result: Result<(string, string)>, written: seq<(FastqRecord, FastqRecord)>)
    requires WellFormed(amplicons)
    ensures openError.Some? ==> result == Err(openError.value) && written == []
    ensures openError.None? ==>
      var out := Simulate(ReadSteps(Values(amplicons), stats, bases, complement, draws), Max(0, sequenceCount));
      written == out.0 &&
      (out.1.Some? ==> result == Err(out.1.value)) &&
      (out.1.None? ==> result == Ok((
        OutputPath(outputPrefix, FastqFilename(sampleName, SampleNumber(sampleDraw), "R1")),
        OutputPath(outputPrefix, FastqFilename(sampleName, SampleNumber(sampleDraw), "R2")))))
  {
    var sampleNum := SampleNumber(sampleDraw);
    var r1Path := OutputPath(outputPrefix, FastqFilename(sampleName, sampleNum, "R1"));
    var r2Path := OutputPath(outputPrefix, FastqFilename(sampleName, sampleNum, "R2"));
    if openError.Some? {
      return Err(openError.value), [];
    }
    var error;
    written, error := WriteReads(Values(amplicons), Max(0, sequenceCount), stats, bases, complement, draws);
    if error.Some? {
      result := Err(error.value);
    } else {
      result := Ok((r1Path, r2Path));
    }
  }

  // ---------------------------------------------------------------------------
  // create_fastq

  /** The JSON object `create_fastq` prints. */
  datatype FastqReport = FastqReport(status: string, r1Path: Option<string>, r2Path: Option<string>, error: Option<string>)

  /**
   * `create_fastq(...)`: both FASTA files are read (`primerRecords` and `referenceRecords` are
   * the readers' outcomes), the amplicons built, the reads written; any exception becomes a
   * "fail_main" report with its message and null paths. `written` is every read pair that
   * reached the output files.
   */
  method RunCreateFastq(primerRecords: Result<seq<(string, string)>>, referenceRecords: Result<seq<(string, string)>>,
                        scan: (Dict, string) -> seq<Hit>, outputPrefix: string, sampleName: string, sequenceCount: int,
                        sampleDraw: nat, openError: Option<string>, stats: seq<int>, bases: seq<char>,
                        complement: char -> char, draws: nat -> ReadDraws)
    returns (report: FastqReport, written: seq<(FastqRecord, FastqRecord)>)
    ensures report.status == "success" || report.status == "fail_main"
    ensures report.status == "success" <==>
      primerRecords.Ok? && referenceRecords.Ok? &&
      var amplicons := AmpliconsOfRecords(primerRecords.value, referenceRecords.value, scan);
      amplicons.Ok? && openError.None? &&
      Simulate(ReadSteps(Values(amplicons.value), stats, bases, complement, draws), Max(0, sequenceCount)).1.None?
    ensures report.status == "success" ==>
      report.error.None? &&
      report.r1Path == Some(OutputPath(outputPrefix, FastqFilename(sampleName, SampleNumber(sampleDraw), "R1"))) &&
      report.r2Path == Some(OutputPath(outputPrefix, FastqFilename(sampleName, SampleNumber(sampleDraw), "R2")))
    ensures report.status == "fail_main" ==> report.error.Some? && report.r1Path.None? && report.r2Path.None?
    ensures primerRecords.Err? ==> report.error == Some(primerRecords.error)
    ensures primerRecords.Ok? && referenceRecords.Err? ==> report.error == Some(referenceRecords.error)
    ensures (primerRecords.Ok? && referenceRecords.Ok? &&
             AmpliconsOfRecords(primerRecords.value, referenceRecords.value, scan).Err?) ==>
      report.error == Some(AutomatonNotBuiltError)
    ensures written ==
      if primerRecords.Ok? && referenceRecords.Ok? &&
         AmpliconsOfRecords(primerRecords.value, referenceRecords.value, scan).Ok? && openError.None?
      then Simulate(ReadSteps(Values(AmpliconsOfRecords(primerRecords.value, referenceRecords.value, scan).value),
                              stats, bases, complement, draws), Max(0, sequenceCount)).0
      else []
  {
    written := [];
    if primerRecords.Err? {
      report := FastqReport("fail_main", None, None, Some(primerRecords.error));
      return;
    }
    var primerSequences := ParseFasta(primerRecords.value);
    if referenceRecords.Err? {
      report := FastqReport("fail_main", None, None, Some(referenceRecords.error));
      return;
    }
    var referenceSequences := ParseFasta(referenceRecords.value);
    var ampliconsDict := GenerateArtificialAmplicons(referenceSequences, primerSequences, scan);
    if ampliconsDict.Err? {
      report := FastqReport("fail_main", None, None, Some(ampliconsDict.error));
      return;
    }
    var result;
    result, written := WriteFastqFiles(ampliconsDict.value, sequenceCount, outputPrefix, sampleName, sampleDraw,
                                       openError, stats, bases, complement, draws);
    match result
    case Ok(paths) =>
      report := FastqReport("success", Some(paths.0), Some(paths.1), None);
    case Err(e) =>
      report := FastqReport("fail_main", None, None, Some(e));
  }
}
